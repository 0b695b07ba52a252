/**
 * Outbound JSON-RPC calls of acp/ndjsonclient.go: how a call id leaves the pending map
 * and what its one-slot channel is given. Callers, the reader and every failPending call
 * interleave; whoever removed an entry then sends on its channel and closes it, outside
 * the lock.
 */
module ClientCalls {
  import opened Options
  import Runs

  /** What a call is answered with: the response frame that carried an id, or a failure. */
  datatype Response = Frame(id: nat, body: nat) | StreamFailed

  datatype Caller = Writing | Waiting | Got(response: Response) | GotNothing | Abandoned | WriteFailed

  datatype Departure = ByResponse | ByFailure | ByCaller

  /** A one-slot channel, with what was ever done to it. */
  datatype Channel = Channel(buffer: seq<Response>, sends: seq<Response>, closes: nat)

  datatype Call = Call(
    caller: Caller, channel: Channel,
    holder: Option<Response>,  // removed from the map to be answered with this
    sent: bool,                // and the answer was sent
    departures: seq<Departure>)

  datatype State = State(nextID: nat, pending: set<nat>, calls: map<nat, Call>)

  datatype Step =
    | Begin
    | WriteDone(id: nat)
    | WriteFails(id: nat)
    | Deliver(id: nat, body: nat)
    | FailPending
    | Send(id: nat)
    | CloseChannel(id: nat)
    | Receive(id: nat)
    | ContextEnds(id: nat)

  function NewCall(): Call {
    Call(Writing, Channel([], [], 0), None, false, [])
  }

  /** The entry leaves the map, to be answered. */
  function Taken(c: Call, answer: Response, how: Departure): Call {
    c.(holder := Some(answer), departures := c.departures + [how])
  }

  /** dropPending, if the entry is still there. */
  function DroppedBy(c: Call, pending: bool, caller: Caller): Call {
    c.(caller := caller, departures := if pending then c.departures + [ByCaller] else c.departures)
  }

  ghost predicate Enabled(s: State, step: Step) {
    match step
    case Begin => true
    case WriteDone(id) => id in s.calls && s.calls[id].caller.Writing?
    case WriteFails(id) => id in s.calls && s.calls[id].caller.Writing?
    case Deliver(_, _) => true
    case FailPending => true
    case Send(id) => id in s.calls && s.calls[id].holder.Some? && !s.calls[id].sent && s.calls[id].channel.buffer == []
    case CloseChannel(id) => id in s.calls && s.calls[id].holder.Some? && s.calls[id].sent
    case Receive(id) =>
      id in s.calls && s.calls[id].caller.Waiting? && (s.calls[id].channel.buffer != [] || s.calls[id].channel.closes > 0)
    case ContextEnds(id) => id in s.calls && s.calls[id].caller.Waiting?
  }

  function Sent(c: Call): Call
    requires c.holder.Some?
  {
    c.(sent := true,
       channel := c.channel.(buffer := c.channel.buffer + [c.holder.value], sends := c.channel.sends + [c.holder.value]))
  }

  function Received(c: Call): Call {
    if c.channel.buffer == [] then c.(caller := GotNothing)
    else c.(caller := Got(c.channel.buffer[0]), channel := c.channel.(buffer := c.channel.buffer[1..]))
  }

  ghost function Apply(s: State, step: Step): State
    requires Enabled(s, step)
  {
    match step
    case Begin => State(s.nextID + 1, s.pending + {s.nextID + 1}, s.calls[s.nextID + 1 := NewCall()])
    case WriteDone(id) => s.(calls := s.calls[id := s.calls[id].(caller := Waiting)])
    case WriteFails(id) =>
      s.(pending := s.pending - {id}, calls := s.calls[id := DroppedBy(s.calls[id], id in s.pending, WriteFailed)])
    case Deliver(id, body) =>
      if id in s.pending && id in s.calls then
        s.(pending := s.pending - {id}, calls := s.calls[id := Taken(s.calls[id], Frame(id, body), ByResponse)])
      else s
    case FailPending =>
      State(s.nextID, {}, map id | id in s.calls :: if id in s.pending then Taken(s.calls[id], StreamFailed, ByFailure) else s.calls[id])
    case Send(id) => s.(calls := s.calls[id := Sent(s.calls[id])])
    case CloseChannel(id) =>
      var c := s.calls[id];
      s.(calls := s.calls[id := c.(holder := None, channel := c.channel.(closes := c.channel.closes + 1))])
    case Receive(id) => s.(calls := s.calls[id := Received(s.calls[id])])
    case ContextEnds(id) =>
      s.(pending := s.pending - {id}, calls := s.calls[id := DroppedBy(s.calls[id], id in s.pending, Abandoned)])
  }

  ghost predicate Init(s: State) {
    s == State(0, {}, map[])
  }

  ghost predicate Next(s: State, t: State) {
    exists step :: Enabled(s, step) && t == Apply(s, step)
  }

  ghost predicate Run(run: seq<State>) {
    Runs.IsRun(Init, Next, run)
  }

  // ---- one call -----------------------------------------------------------------------------------

  /** An answer that may be given to the call: its own response, or a failure. */
  predicate Fits(id: nat, answer: Response, how: Departure) {
    match how
    case ByResponse => answer.Frame? && answer.id == id
    case ByFailure => answer.StreamFailed?
    case ByCaller => false
  }

  /** A call that left the map to be answered: its channel gets the answer, then a close. */
  ghost predicate AnsweredCall(id: nat, c: Call)
    requires c.departures != []
  {
    var ch := c.channel;
    if !c.sent then c.holder.Some? && Fits(id, c.holder.value, c.departures[0]) && ch == Channel([], [], 0)
    else
      && |ch.sends| == 1 && Fits(id, ch.sends[0], c.departures[0])
      && ch.closes == (if c.holder.Some? then 0 else 1)
      && (c.holder.Some? ==> c.holder.value == ch.sends[0])
      && (if c.caller.Got? then ch.buffer == [] && c.caller.response == ch.sends[0] else ch.buffer == ch.sends)
  }

  ghost predicate CallOk(id: nat, c: Call, pending: bool) {
    && |c.departures| <= 1 && (pending <==> c.departures == [])
    && (c.departures != [] && !c.departures[0].ByCaller? ==> AnsweredCall(id, c))
    && (c.departures == [] || c.departures[0].ByCaller? ==> c.holder.None? && !c.sent && c.channel == Channel([], [], 0))
    && (c.departures == [] ==> c.caller.Writing? || c.caller.Waiting?)
    && !c.caller.GotNothing?
    && (c.caller.Got? ==> c.sent)
    && (c.departures == [ByCaller] ==> c.caller.Abandoned? || c.caller.WriteFailed?)
  }

  ghost predicate Inv(s: State) {
    && s.pending <= s.calls.Keys
    && (forall id :: id in s.calls ==> 1 <= id <= s.nextID && CallOk(id, s.calls[id], id in s.pending))
  }

  lemma StepKeepsInv(s: State, step: Step)
    requires Inv(s) && Enabled(s, step)
    ensures Inv(Apply(s, step))
  {
    var t := Apply(s, step);
    forall id | id in t.calls ensures CallOk(id, t.calls[id], id in t.pending) {
      if id in s.calls {
        assert CallOk(id, s.calls[id], id in s.pending);
      }
    }
  }

  lemma InvIsInductive()
    ensures Runs.Inductive(Init, Next, Inv)
  {
    forall s: State, t: State | Inv(s) && Next(s, t) ensures Inv(t) {
      var step :| Enabled(s, step) && t == Apply(s, step);
      StepKeepsInv(s, step);
    }
  }

  lemma CallAt(run: seq<State>, i: nat, id: nat)
    requires Run(run) && i < |run| && id in run[i].calls
    ensures CallOk(id, run[i].calls[id], id in run[i].pending)
  {
    InvIsInductive();
    Runs.Holds(Init, Next, Inv, run, i);
  }

  // ---- what the client promises --------------------------------------------------------------------

  /** Every call id leaves the pending map by one of a response, a failure or its caller,
      and by no more than one; and it has left once its caller is over. */
  lemma LeavesOnce(run: seq<State>, i: nat, id: nat)
    requires Run(run) && i < |run| && id in run[i].calls
    ensures |run[i].calls[id].departures| == if id in run[i].pending then 0 else 1
    ensures id in run[i].pending ==> run[i].calls[id].caller.Writing? || run[i].calls[id].caller.Waiting?
  {
    CallAt(run, i, id);
  }

  /** Its channel gets at most one value and one close, the value first; none at all once
      its caller gave up before an answer was taken for it. */
  lemma OneValueOneClose(run: seq<State>, i: nat, id: nat)
    requires Run(run) && i < |run| && id in run[i].calls
    ensures var c := run[i].calls[id];
      && |c.channel.sends| <= 1 && c.channel.closes <= |c.channel.sends|
      && (c.departures == [ByCaller] ==> c.channel.sends == [] && c.channel.closes == 0)
  {
    CallAt(run, i, id);
  }

  /** Whoever holds an answer can send it at once: the slot is free and the channel open. */
  lemma DeliveryNeverBlocks(run: seq<State>, i: nat, id: nat)
    requires Run(run) && i < |run| && id in run[i].calls
    requires run[i].calls[id].holder.Some? && !run[i].calls[id].sent
    ensures Enabled(run[i], Send(id)) && run[i].calls[id].channel.closes == 0
  {
    CallAt(run, i, id);
  }

  /** A caller gets an answer only from its own channel, and it is the response that
      carried its own id, or the failure of the stream. */
  lemma ResponsesReachTheirCall(run: seq<State>, i: nat, id: nat)
    requires Run(run) && i < |run| && id in run[i].calls
    ensures var c := run[i].calls[id];
      && !c.caller.GotNothing?
      && (c.caller.Got? ==>
            if c.departures == [ByResponse] then c.caller.response.Frame? && c.caller.response.id == id
            else c.departures == [ByFailure] && c.caller.response == StreamFailed)
  {
    CallAt(run, i, id);
  }

  // ---- the code, one lock section after another ------------------------------------------------------

  /** A channel of capacity one: what blocks or panics in Go is not allowed here. */
  class Slot {
    var buffer: seq<Response>
    var closed: bool

    constructor ()
      ensures buffer == [] && !closed
    {
      buffer, closed := [], false;
    }

    method SendAndClose(answer: Response)
      requires buffer == [] && !closed
      modifies this
      ensures buffer == [answer] && closed
    {
      buffer := [answer];
      closed := true;
    }
  }

  class CallTable {
    var nextID: nat
    var pending: map<nat, Slot>

    constructor ()
      ensures Valid() && pending == map[]
    {
      nextID, pending := 0, map[];
    }

    /** Each pending call has its own slot, free and open. */
    ghost predicate Valid()
      reads this, pending.Values
    {
      && (forall id :: id in pending ==> id <= nextID && pending[id] in pending.Values && pending[id].buffer == [] && !pending[id].closed)
      && forall id, other :: id in pending && other in pending && id != other ==> pending[id] != pending[other]
    }

    /** beginCall, up to the write. */
    method BeginCall() returns (id: nat, slot: Slot)
      requires Valid()
      modifies this
      ensures Valid() && id !in old(pending) && fresh(slot) && pending == old(pending)[id := slot]
    {
      nextID := nextID + 1;
      id := nextID;
      slot := new Slot();
      pending := pending[id := slot];
    }

    /** deliverResponse: the call with the id gets it; an unknown id changes nothing. */
    method DeliverResponse(id: nat, body: nat)
      requires Valid()
      modifies `pending, if id in pending then {pending[id]} else {}
      ensures Valid() && pending == old(pending) - {id}
      ensures id in old(pending) ==> old(pending)[id].buffer == [Frame(id, body)] && old(pending)[id].closed
    {
      if id !in pending {
        assert pending - {id} == pending;
        return;
      }
      var slot := pending[id];
      pending := pending - {id};
      slot.SendAndClose(Frame(id, body));
    }

    /** failPending: every call still waiting is answered with the failure. */
    method FailPending()
      requires Valid()
      modifies `pending, pending.Values
      ensures Valid() && pending == map[]
      ensures forall id :: id in old(pending) ==> old(pending)[id].buffer == [StreamFailed] && old(pending)[id].closed
    {
      var failing := pending;
      pending := map[];
      var rest := failing.Keys;
      while rest != {}
        invariant rest <= failing.Keys
        invariant forall id :: id in failing ==> failing[id] in failing.Values
        invariant forall id :: id in rest ==> failing[id].buffer == [] && !failing[id].closed
        invariant forall id :: id in failing && id !in rest ==> failing[id].buffer == [StreamFailed] && failing[id].closed
        modifies failing.Values
        decreases |rest|
      {
        var id :| id in rest;
        failing[id].SendAndClose(StreamFailed);
        rest := rest - {id};
      }
    }

    /** dropPending: nothing will be sent to the call any more. */
    method DropPending(id: nat)
      requires Valid()
      modifies `pending
      ensures Valid() && pending == old(pending) - {id}
    {
      pending := pending - {id};
    }
  }
}
