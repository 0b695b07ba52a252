/**
 * The marker queue of wrapper/typed_order.go: callbacks queue an emit function and
 * put a marker for it in the fanout channel; the translator runs the oldest queued
 * function when it reaches a marker.
 *
 * First every interleaving of callbacks, the runtime's own stream sends, the closer
 * and the translator; then the queue as the object the code keeps.
 */
module TypedQueue {
  import opened Counting
  import Runs

  /** What the fanout channel carries. */
  datatype Slot = Marker | Stream(ev: nat)

  /** What the translator has done, in order. */
  datatype Act = RanEmit(e: nat) | Translated(ev: nat)

  /** An enqueue call: it holds closeMu's read side until it has returned. */
  datatype Call = Appending | Sending | Returned(ok: bool)

  datatype Translator = Receiving | AtMarker | Running(e: nat) | Over

  datatype System = System(
    items: seq<nat>, fanout: seq<Slot>, capacity: nat, closed: bool, closes: nat,
    calls: map<nat, Call>, translator: Translator, acts: seq<Act>,
    accepted: seq<nat>, produced: seq<Act>)

  datatype Step =
    | Enter(e: nat)
    | Append(e: nat)
    | SendMarker(e: nat)
    | StreamSend(ev: nat)
    | CloseFanout
    | Receive
    | Dequeue
    | RunEmit
    | SeeClosed

  predicate InCall(c: Call) {
    c.Appending? || c.Sending?
  }

  ghost predicate Enabled(s: System, step: Step) {
    match step
    case Enter(e) => e !in s.calls
    case Append(e) => e in s.calls && s.calls[e].Appending?
    case SendMarker(e) => e in s.calls && s.calls[e].Sending? && |s.fanout| < s.capacity
    // The runtime stops sending before the channel is closed, and drops when it is full.
    case StreamSend(_) => !s.closed
    case CloseFanout => forall e :: e in s.calls ==> !InCall(s.calls[e])
    case Receive => s.translator.Receiving? && s.fanout != []
    case Dequeue => s.translator.AtMarker?
    case RunEmit => s.translator.Running?
    case SeeClosed => s.translator.Receiving? && s.fanout == [] && s.closed
  }

  ghost function Apply(s: System, step: Step): System
    requires Enabled(s, step)
  {
    match step
    case Enter(e) => s.(calls := s.calls[e := if s.closed then Returned(false) else Appending])
    case Append(e) =>
      s.(calls := s.calls[e := Sending], items := s.items + [e], accepted := s.accepted + [e],
         produced := s.produced + [RanEmit(e)])
    case SendMarker(e) => s.(calls := s.calls[e := Returned(true)], fanout := s.fanout + [Marker])
    case StreamSend(ev) =>
      if |s.fanout| < s.capacity then s.(fanout := s.fanout + [Stream(ev)], produced := s.produced + [Translated(ev)])
      else s
    case CloseFanout => if s.closed then s else s.(closed := true, closes := s.closes + 1)
    case Receive =>
      var slot := s.fanout[0];
      var s1 := s.(fanout := s.fanout[1..]);
      if slot.Marker? then s1.(translator := AtMarker) else s1.(acts := s.acts + [Translated(slot.ev)])
    case Dequeue =>
      if s.items == [] then s.(translator := Receiving)
      else s.(translator := Running(s.items[0]), items := s.items[1..])
    case RunEmit => s.(translator := Receiving, acts := s.acts + [RanEmit(s.translator.e)])
    case SeeClosed => s.(translator := Over)
  }

  ghost predicate Next(s: System, t: System) {
    exists step :: Enabled(s, step) && t == Apply(s, step)
  }

  ghost predicate Init(s: System) {
    s == System([], [], s.capacity, false, 0, map[], Receiving, [], [], [])
  }

  ghost predicate Run(run: seq<System>) {
    Runs.IsRun(Init, Next, run)
  }

  // ---- every function runs once, in order ----------------------------------------------------

  function Markers(fanout: seq<Slot>): nat {
    if fanout == [] then 0 else Markers(fanout[..|fanout| - 1]) + (if fanout[|fanout| - 1].Marker? then 1 else 0)
  }

  lemma {:induction false} MarkersConcat(a: seq<Slot>, b: seq<Slot>)
    ensures Markers(a + b) == Markers(a) + Markers(b)
  {
    if b == [] {
      assert a + b == a;
    } else {
      MarkersConcat(a, b[..|b| - 1]);
      assert (a + b)[..|a + b| - 1] == a + b[..|b| - 1];
    }
  }

  ghost function Senders(calls: map<nat, Call>): set<nat> {
    set e | e in calls && calls[e].Sending?
  }

  function Emitted(acts: seq<Act>): seq<nat> {
    if acts == [] then []
    else
      var last := acts[|acts| - 1];
      Emitted(acts[..|acts| - 1]) + (if last.RanEmit? then [last.e] else [])
  }

  /** The functions taken off the queue: those run, then the one running. */
  function Taken(acts: seq<Act>, t: Translator): seq<nat> {
    if t.Running? then Emitted(acts) + [t.e] else Emitted(acts)
  }

  /** Accepted functions are the ones run, the one running and the ones queued; every
      queued one has a marker in the channel, in the translator's hand or being sent. */
  ghost predicate Inv(s: System) {
    && s.accepted == Taken(s.acts, s.translator) + s.items
    && |s.items| == Markers(s.fanout) + |Senders(s.calls)| + Bit(s.translator.AtMarker?)
    && (forall e :: e in s.accepted <==> e in s.calls && (s.calls[e].Sending? || s.calls[e] == Returned(true)))
    && (forall a, b :: 0 <= a < b < |s.accepted| ==> s.accepted[a] != s.accepted[b])
    && (s.closed ==> forall e :: e in s.calls ==> !InCall(s.calls[e]))
    && s.closes == Bit(s.closed)
    && (s.translator.Over? ==> s.closed && s.fanout == [])
  }

  lemma SendersAfter(calls: map<nat, Call>, e: nat, c: Call)
    ensures |Senders(calls[e := c])| == |Senders(calls)| - Bit(e in calls && calls[e].Sending?) + Bit(c.Sending?)
  {
    CountOne(Senders(calls), Senders(calls[e := c]), e);
  }

  lemma EnterKeeps(s: System, e: nat)
    requires Inv(s) && Enabled(s, Enter(e))
    ensures Inv(Apply(s, Enter(e)))
  {
    SendersAfter(s.calls, e, Apply(s, Enter(e)).calls[e]);
  }

  lemma AppendKeeps(s: System, e: nat)
    requires Inv(s) && Enabled(s, Append(e))
    ensures Inv(Apply(s, Append(e)))
  {
    SendersAfter(s.calls, e, Apply(s, Append(e)).calls[e]);
    assert Taken(s.acts, s.translator) + s.items + [e] == Taken(s.acts, s.translator) + (s.items + [e]);
  }

  lemma SendMarkerKeeps(s: System, e: nat)
    requires Inv(s) && Enabled(s, SendMarker(e))
    ensures Inv(Apply(s, SendMarker(e)))
  {
    SendersAfter(s.calls, e, Apply(s, SendMarker(e)).calls[e]);
    MarkersConcat(s.fanout, [Marker]);
  }

  lemma MarkersFirst(slot: Slot, rest: seq<Slot>)
    ensures Markers([slot] + rest) == Bit(slot.Marker?) + Markers(rest)
  {
    MarkersConcat([slot], rest);
    assert [slot][..0] == [];
  }

  lemma MarkersHead(fanout: seq<Slot>)
    requires fanout != []
    ensures Markers(fanout) == Bit(fanout[0].Marker?) + Markers(fanout[1..])
  {
    assert [fanout[0]] + fanout[1..] == fanout;
    MarkersFirst(fanout[0], fanout[1..]);
  }

  lemma ReceiveKeeps(s: System)
    requires Inv(s) && Enabled(s, Receive)
    ensures Inv(Apply(s, Receive))
  {
    MarkersHead(s.fanout);
  }

  lemma DequeueKeeps(s: System)
    requires Inv(s) && Enabled(s, Dequeue)
    ensures s.items != [] && Inv(Apply(s, Dequeue))
  {
  }

  lemma RunEmitKeeps(s: System)
    requires Inv(s) && Enabled(s, RunEmit)
    ensures Inv(Apply(s, RunEmit))
  {
  }

  lemma StreamKeeps(s: System, ev: nat)
    requires Inv(s) && Enabled(s, StreamSend(ev))
    ensures Inv(Apply(s, StreamSend(ev)))
  {
    MarkersConcat(s.fanout, [Stream(ev)]);
  }

  lemma CloseKeeps(s: System)
    requires Inv(s) && Enabled(s, CloseFanout)
    ensures Inv(Apply(s, CloseFanout))
  {
  }

  lemma SeeClosedKeeps(s: System)
    requires Inv(s) && Enabled(s, SeeClosed)
    ensures Inv(Apply(s, SeeClosed))
  {
  }

  lemma NextKeepsInv(s: System, t: System)
    requires Inv(s) && Next(s, t)
    ensures Inv(t)
  {
    var step :| Enabled(s, step) && t == Apply(s, step);
    match step
    case Enter(e) => EnterKeeps(s, e);
    case Append(e) => AppendKeeps(s, e);
    case SendMarker(e) => SendMarkerKeeps(s, e);
    case Receive => ReceiveKeeps(s);
    case Dequeue => DequeueKeeps(s);
    case RunEmit => RunEmitKeeps(s);
    case StreamSend(ev) => StreamKeeps(s, ev);
    case CloseFanout => CloseKeeps(s);
    case SeeClosed => SeeClosedKeeps(s);
  }

  lemma InvIsInductive()
    ensures Runs.Inductive(Init, Next, Inv)
  {
    forall s | Init(s) ensures Inv(s) { assert Senders(s.calls) == {}; }
    forall s, t | Inv(s) && Next(s, t) ensures Inv(t) { NextKeepsInv(s, t); }
  }

  lemma InvAt(run: seq<System>, i: nat)
    requires Run(run) && i < |run|
    ensures Inv(run[i])
  {
    InvIsInductive();
    Runs.Holds(Init, Next, Inv, run, i);
  }

  /** Functions run in the order they were accepted, none twice: what has run is a
      prefix of what was accepted, which has no repeats and is exactly the calls that
      queued; and a marker is never reached with the queue empty. */
  lemma RunOnceInOrder(run: seq<System>, i: nat)
    requires Run(run) && i < |run|
    ensures var s := run[i];
      && Emitted(s.acts) <= s.accepted
      && (forall a, b :: 0 <= a < b < |s.accepted| ==> s.accepted[a] != s.accepted[b])
      && (forall e :: e in s.calls && s.calls[e].Returned? ==> (s.calls[e].ok <==> e in s.accepted))
      && (s.translator.AtMarker? ==> s.items != [])
      && s.closes <= 1
  {
    InvAt(run, i);
  }

  /** When the translator's loop is over, every accepted function has run and nothing
      is left; a call still to come is refused. */
  lemma NothingLeft(run: seq<System>, i: nat)
    requires Run(run) && i < |run| && run[i].translator.Over?
    ensures var s := run[i];
      && Emitted(s.acts) == s.accepted && s.items == [] && s.fanout == []
      && forall e :: e in s.calls ==> s.calls[e].Returned?
  {
    InvAt(run, i);
    var s := run[i];
    assert Senders(s.calls) == {};
  }

  // ---- one producer: production order ----------------------------------------------------------

  /** The translator's work still in the channel: markers stand for the items in order. */
  function Resolve(fanout: seq<Slot>, items: seq<nat>): seq<Act> {
    if fanout == [] then []
    else if fanout[0].Stream? then [Translated(fanout[0].ev)] + Resolve(fanout[1..], items)
    else if items == [] then []
    else [RanEmit(items[0])] + Resolve(fanout[1..], items[1..])
  }

  /** Only one goroutine produces: between its enqueue's steps it does nothing else. */
  ghost predicate SoloNext(s: System, t: System) {
    exists step :: Enabled(s, step) && t == Apply(s, step)
      && (step.Enter? || step.StreamSend? ==> Quiet(s))
  }

  ghost predicate SoloRun(run: seq<System>) {
    Runs.IsRun(Init, SoloNext, run)
  }

  ghost predicate SomeoneSends(calls: map<nat, Call>) {
    exists e :: e in calls && calls[e].Sending?
  }

  /** The channel as it will be: with the marker in hand and the one being sent. */
  function Slots(inHand: bool, fanout: seq<Slot>, sending: bool): seq<Slot> {
    var rest := if sending then fanout + [Marker] else fanout;
    if inHand then [Marker] + rest else rest
  }

  lemma SlotsGrow(inHand: bool, fanout: seq<Slot>, slot: Slot)
    ensures Slots(inHand, fanout + [slot], false) == Slots(inHand, fanout, false) + [slot]
    ensures Slots(inHand, fanout, true) == Slots(inHand, fanout, false) + [Marker]
  {
  }

  lemma SlotsShrink(slot: Slot, rest: seq<Slot>, sending: bool)
    ensures Slots(false, [slot] + rest, sending) == [slot] + Slots(false, rest, sending)
    ensures Slots(true, rest, sending) == [Marker] + Slots(false, rest, sending)
  {
  }

  ghost function Ahead(s: System): seq<Slot> {
    Slots(s.translator.AtMarker?, s.fanout, SomeoneSends(s.calls))
  }

  /** What the translator has done, then what it is doing. */
  function Doing(acts: seq<Act>, t: Translator): seq<Act> {
    if t.Running? then acts + [RanEmit(t.e)] else acts
  }

  /** What was produced is what the translator has done, is doing, and has ahead of it. */
  predicate InOrder(produced: seq<Act>, doing: seq<Act>, ahead: seq<Slot>, items: seq<nat>) {
    produced == doing + Resolve(ahead, items) && |items| == Markers(ahead)
  }

  ghost predicate Ordered(s: System) {
    InOrder(s.produced, Doing(s.acts, s.translator), Ahead(s), s.items)
  }

  ghost predicate OneCall(s: System) {
    forall e, f :: e in s.calls && f in s.calls && InCall(s.calls[e]) && InCall(s.calls[f]) ==> e == f
  }

  ghost predicate Quiet(s: System) {
    forall e :: e in s.calls ==> !InCall(s.calls[e])
  }

  ghost predicate SoloInv(s: System) {
    Inv(s) && OneCall(s) && Ordered(s)
  }

  lemma {:induction false} ResolveAppend(fanout: seq<Slot>, items: seq<nat>, slot: Slot, more: seq<nat>)
    requires |items| == Markers(fanout) && |more| == Bit(slot.Marker?)
    ensures Resolve(fanout + [slot], items + more)
         == Resolve(fanout, items) + [if slot.Marker? then RanEmit(more[0]) else Translated(slot.ev)]
  {
    if fanout == [] {
      assert fanout + [slot] == [slot] && items + more == more;
    } else {
      var rest := fanout[1..];
      assert fanout == [fanout[0]] + rest;
      MarkersConcat([fanout[0]], rest);
      assert [fanout[0]][..0] == [];
      assert (fanout + [slot])[1..] == rest + [slot];
      if fanout[0].Stream? {
        ResolveAppend(rest, items, slot, more);
      } else {
        ResolveAppend(rest, items[1..], slot, more);
        assert (items + more)[1..] == items[1..] + more;
      }
    }
  }

  /** Something more is produced, at the end of what is ahead. */
  lemma Produce(produced: seq<Act>, doing: seq<Act>, ahead: seq<Slot>, items: seq<nat>, slot: Slot, more: seq<nat>)
    requires InOrder(produced, doing, ahead, items) && |more| == Bit(slot.Marker?)
    ensures InOrder(produced + [if slot.Marker? then RanEmit(more[0]) else Translated(slot.ev)],
                    doing, ahead + [slot], items + more)
  {
    MarkersConcat(ahead, [slot]);
    assert [slot][..0] == [];
    ResolveAppend(ahead, items, slot, more);
    var a := if slot.Marker? then RanEmit(more[0]) else Translated(slot.ev);
    assert doing + Resolve(ahead, items) + [a] == doing + (Resolve(ahead, items) + [a]);
  }

  /** The first thing ahead is taken up. */
  lemma Consume(produced: seq<Act>, doing: seq<Act>, slot: Slot, rest: seq<Slot>, items: seq<nat>)
    requires InOrder(produced, doing, [slot] + rest, items)
    ensures slot.Stream? ==> InOrder(produced, doing + [Translated(slot.ev)], rest, items)
    ensures slot.Marker? ==> items != [] && InOrder(produced, doing + [RanEmit(items[0])], rest, items[1..])
  {
    MarkersFirst(slot, rest);
    assert ([slot] + rest)[1..] == rest;
    if slot.Stream? {
    } else {
    }
  }

  lemma AppendOrdered(s: System, e: nat)
    requires Ordered(s) && OneCall(s) && Enabled(s, Append(e))
    ensures Ordered(Apply(s, Append(e)))
  {
    var t := Apply(s, Append(e));
    assert !SomeoneSends(s.calls) by {
      forall f | f in s.calls ensures !s.calls[f].Sending? { assert InCall(s.calls[e]); }
    }
    assert t.calls[e].Sending?;
    SlotsGrow(s.translator.AtMarker?, s.fanout, Marker);
    Produce(s.produced, Doing(s.acts, s.translator), Ahead(s), s.items, Marker, [e]);
  }

  lemma StreamOrdered(s: System, ev: nat)
    requires Ordered(s) && Quiet(s) && Enabled(s, StreamSend(ev))
    ensures Ordered(Apply(s, StreamSend(ev)))
  {
    var t := Apply(s, StreamSend(ev));
    if |s.fanout| < s.capacity {
      assert !SomeoneSends(s.calls);
      SlotsGrow(s.translator.AtMarker?, s.fanout, Stream(ev));
      Produce(s.produced, Doing(s.acts, s.translator), Ahead(s), s.items, Stream(ev), []);
      assert s.items + [] == s.items;
    }
  }

  lemma ReceiveOrdered(s: System)
    requires Ordered(s) && Enabled(s, Receive)
    ensures Ordered(Apply(s, Receive))
  {
    var t := Apply(s, Receive);
    var slot := s.fanout[0];
    assert s.fanout == [slot] + t.fanout;
    SlotsShrink(slot, t.fanout, SomeoneSends(s.calls));
    if slot.Stream? {
      Consume(s.produced, s.acts, slot, Ahead(t), s.items);
    }
  }

  lemma DequeueOrdered(s: System)
    requires Ordered(s) && Enabled(s, Dequeue) && s.items != []
    ensures Ordered(Apply(s, Dequeue))
  {
    SlotsShrink(Marker, s.fanout, SomeoneSends(s.calls));
    Consume(s.produced, s.acts, Marker, Ahead(Apply(s, Dequeue)), s.items);
  }

  /** Steps that only start a call, finish an emit or close leave it all in place. */
  lemma StillOrdered(s: System, step: Step)
    requires Ordered(s) && Enabled(s, step)
    requires step.Enter? || step.RunEmit? || step.CloseFanout? || step.SeeClosed?
    ensures Ordered(Apply(s, step))
  {
    StillAhead(s, step);
  }

  lemma StillAhead(s: System, step: Step)
    requires Enabled(s, step)
    requires step.Enter? || step.RunEmit? || step.CloseFanout? || step.SeeClosed?
    ensures var t := Apply(s, step);
      && t.produced == s.produced && t.items == s.items
      && Doing(t.acts, t.translator) == Doing(s.acts, s.translator) && Ahead(t) == Ahead(s)
  {
    var t := Apply(s, step);
    assert SomeoneSends(t.calls) == SomeoneSends(s.calls) by {
      if e :| e in s.calls && s.calls[e].Sending? { assert t.calls[e].Sending?; }
    }
  }

  lemma StepKeepsOneCall(s: System, step: Step)
    requires OneCall(s) && Enabled(s, step) && (step.Enter? ==> Quiet(s))
    ensures OneCall(Apply(s, step))
  {
  }

  lemma SoloStep(s: System, step: Step)
    requires SoloInv(s) && Enabled(s, step)
    requires step.Enter? || step.StreamSend? ==> Quiet(s)
    ensures Ordered(Apply(s, step))
  {
    match step
    case Append(e) => AppendOrdered(s, e);
    case SendMarker(e) =>
    case StreamSend(ev) => StreamOrdered(s, ev);
    case Receive => ReceiveOrdered(s);
    case Dequeue => DequeueKeeps(s); DequeueOrdered(s);
    case _ => StillOrdered(s, step);
  }

  lemma SoloIsInductive()
    ensures Runs.Inductive(Init, SoloNext, SoloInv)
  {
    forall s | Init(s) ensures SoloInv(s) {
      assert Ahead(s) == [];
    }
    forall s, t | SoloInv(s) && SoloNext(s, t) ensures SoloInv(t) {
      assert Next(s, t);
      var step :| Enabled(s, step) && t == Apply(s, step)
        && (step.Enter? || step.StreamSend? ==> Quiet(s));
      SoloStep(s, step);
      StepKeepsOneCall(s, step);
      NextKeepsInv(s, t);
    }
  }

  /** With one producer the translator does everything in production order: at any
      time what it has done is a prefix of what was produced and not dropped, and when
      its loop ends it is all of it. */
  lemma ProductionOrder(run: seq<System>, i: nat)
    requires SoloRun(run) && i < |run|
    ensures run[i].acts <= run[i].produced
    ensures run[i].translator.Over? ==> run[i].acts == run[i].produced
  {
    SoloIsInductive();
    Runs.Holds(Init, SoloNext, SoloInv, run, i);
    var s := run[i];
    if s.translator.Over? {
      assert forall e :: e in s.calls ==> !InCall(s.calls[e]);
      assert Ahead(s) == [];
    }
  }

  // ---- the queue as an object --------------------------------------------------------------------

  /** typedQueue with its channel and translator: a callback runs alone but for the
      translator, which it may have to wait for. */
  class Queue {
    const capacity: nat
    var fanout: seq<Slot>
    var closed: bool
    var closes: nat
    var items: seq<nat>
    /** What the translator has done. */
    var acts: seq<Act>

    ghost predicate Valid()
      reads this
    {
      capacity > 0 && |fanout| <= capacity && |items| == Markers(fanout)
    }

    /** What was done, and what is in the channel to be done, in order. */
    ghost function Work(): seq<Act>
      reads this
    {
      acts + Resolve(fanout, items)
    }

    constructor (capacity: nat)
      requires capacity > 0
      ensures Valid() && this.capacity == capacity && Work() == [] && !closed && closes == 0
    {
      this.capacity := capacity;
      fanout, items, closed, closes, acts := [], [], false, 0, [];
    }

    /** enqueue: behind all that is in the channel, which a full one must first let go of. */
    method Enqueue(emit: nat) returns (ok: bool)
      requires Valid()
      modifies this`items, this`fanout, this`acts
      ensures Valid() && ok == !closed
      ensures Work() == if ok then old(Work()) + [RanEmit(emit)] else old(Work())
      ensures if ok then old(acts) <= acts else acts == old(acts) && items == old(items) && fanout == old(fanout)
    {
      if closed {
        return false;
      }
      Produce(Work(), acts, fanout, items, Marker, [emit]);
      items := items + [emit];
      while |fanout| >= capacity
        invariant |fanout| <= capacity && old(acts) <= acts
        invariant InOrder(old(Work()) + [RanEmit(emit)], acts, fanout + [Marker], items)
        decreases |fanout|
      {
        assert fanout + [Marker] == [fanout[0]] + (fanout[1..] + [Marker]);
        Consume(old(Work()) + [RanEmit(emit)], acts, fanout[0], fanout[1..] + [Marker], items);
        TranslateOne();
      }
      fanout := fanout + [Marker];
      return true;
    }

    /** The runtime's own send: a full channel drops it. */
    method StreamSend(ev: nat) returns (sent: bool)
      requires Valid() && !closed
      modifies this`fanout
      ensures Valid() && sent == (|old(fanout)| < capacity)
      ensures Work() == if sent then old(Work()) + [Translated(ev)] else old(Work())
    {
      if |fanout| >= capacity {
        return false;
      }
      Produce(Work(), acts, fanout, items, Stream(ev), []);
      assert items + [] == items;
      fanout := fanout + [Stream(ev)];
      return true;
    }

    method Dequeue() returns (emit: nat, ok: bool)
      modifies this`items
      ensures ok <==> old(items) != []
      ensures ok ==> old(items) == [emit] + items
      ensures !ok ==> items == old(items)
    {
      if |items| == 0 {
        return 0, false;
      }
      emit := items[0];
      items := items[1..];
      return emit, true;
    }

    method CloseFanout()
      modifies this`closed, this`closes
      ensures closed && closes == if old(closed) then old(closes) else old(closes) + 1
    {
      if closed {
        return;
      }
      closed := true;
      closes := closes + 1;
    }

    /** One turn of the translator's loop. */
    method TranslateOne()
      requires fanout != [] && (fanout[0].Marker? ==> items != [])
      modifies this`items, this`fanout, this`acts
      ensures fanout == old(fanout)[1..]
      ensures items == if old(fanout)[0].Marker? then old(items)[1..] else old(items)
      ensures acts == old(acts) + [if old(fanout)[0].Marker? then RanEmit(old(items)[0]) else Translated(old(fanout)[0].ev)]
    {
      var slot := fanout[0];
      fanout := fanout[1..];
      if slot.Marker? {
        var emit, ok := Dequeue();
        if ok {
          acts := acts + [RanEmit(emit)];
        }
        return;
      }
      acts := acts + [Translated(slot.ev)];
    }

    /** The translator's loop over what is in the channel: it does all of it, in order, and
        leaves nothing. */
    method Translate()
      requires Valid()
      modifies this`items, this`fanout, this`acts
      ensures Valid() && acts == old(Work()) && fanout == [] && items == []
    {
      while fanout != []
        invariant |fanout| <= capacity && InOrder(old(Work()), acts, fanout, items)
        decreases |fanout|
      {
        assert fanout == [fanout[0]] + fanout[1..];
        Consume(old(Work()), acts, fanout[0], fanout[1..], items);
        TranslateOne();
      }
    }
  }
}
