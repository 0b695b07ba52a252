/**
 * A call to a question tool can be refused as well. The call and its refusal are then
 * two signals, in the order they came; this is what that order can still decide.
 */
module QuestionOrder {
  import opened Bytes
  import opened Lists
  import opened Options
  import opened SignalOrder
  import opened TurnInvariants
  import opened TurnModel

  predicate Raises(op: Op) {
    (op.UseTool? && op.question) || op.Ask? || op.Refuse? || (op.Resolve? && !op.allowed)
  }

  /** How many signals the operations may raise: a resolution that refuses raises one,
      whatever it settles. */
  function Raised(ops: seq<Op>): nat {
    if ops == [] then 0 else Raised(Front(ops)) + (if Raises(Last(ops)) then 1 else 0)
  }

  predicate AsksIn(sig: Signal, id: string) {
    sig.kind.Question? && sig.byTool && sig.toolCall && sig.toolID == id
  }

  predicate RefusesIn(sig: Signal, id: string) {
    sig.kind.Approval? && sig.byTool && !sig.toolCall && sig.toolID == id
  }

  /** Two lists of signals that hold the question and the refusal of one call in opposite
      orders, with so many signals raised later. The older of the two may be gone, or
      both. */
  predicate Exchanged(a: seq<Signal>, b: seq<Signal>, id: string, later: nat) {
    && |a| == |b| <= MAX_SIGNALS && (|a| == MAX_SIGNALS || |a| >= later + 2)
    && var i := |a| - 2 - later;
      && (i >= 0 ==> a[i] == b[i + 1] && b[i] == a[i + 1])
      && (i >= -1 ==> AsksIn(a[i + 1], id) && RefusesIn(b[i + 1], id))
      && forall j :: 0 <= j < |a| && j != i && j != i + 1 ==> a[j] == b[j]
  }

  /** Two turns that differ in that alone. */
  predicate Turned(a: Turn, b: Turn, id: string, later: nat) {
    && a == b.(asks := b.asks.(signals := a.asks.signals))
    && Exchanged(a.asks.signals, b.asks.signals, id, later)
  }

  // ---- the relation is kept -----------------------------------------------------------------------

  lemma BothOrdersAreTurned(t: Turn, id: string, asked: seq<Byte>, text: seq<Byte>)
    requires Reachable(t) && Fresh(t, id) && EarlyHasRoom(t)
    ensures Turned(RefusedFirst(t, id, true, asked, text), CalledFirst(t, id, true, asked, text), id, 0)
  {
    CallFirst(t, id, true, asked, text);
    RefusalFirst(t, id, true, asked, text);
    var sig := CallSignal(|t.buffer.blocks|, t.calls.tick, id, true, asked).value;
    LastTwo(t.asks, Refusal(text, id), sig);
    LastTwo(t.asks, sig, Refusal(text, id));
  }

  lemma AddSignalAt(a: Asks, sig: Signal)
    requires |a.signals| <= MAX_SIGNALS
    ensures var (r, d) := (AddSignal(a, sig).signals, if |a.signals| == MAX_SIGNALS then 1 else 0);
      |r| == |a.signals| + 1 - d && Last(r) == sig && forall j :: 0 <= j < |r| - 1 ==> r[j] == a.signals[j + d]
  {
  }

  lemma LastTwo(a: Asks, x: Signal, y: Signal)
    requires |a.signals| <= MAX_SIGNALS
    ensures var r := AddSignal(AddSignal(a, x), y).signals;
      && r == Newest(a.signals, MAX_SIGNALS - 2) + [x, y]
  {
  }

  lemma AddSignalExchanged(a: Asks, b: Asks, id: string, later: nat, sig: Signal)
    requires Exchanged(a.signals, b.signals, id, later)
    ensures Exchanged(AddSignal(a, sig).signals, AddSignal(b, sig).signals, id, later + 1)
  {
    AddSignalAt(a, sig);
    AddSignalAt(b, sig);
  }

  lemma SettledExchanged(a: Asks, b: Asks, id: string, later: nat, ids: seq<string>, allowed: bool, unasked: Signal)
    requires a.pending == b.pending && Exchanged(a.signals, b.signals, id, later)
    ensures Settled(a, ids, allowed, unasked).pending == Settled(b, ids, allowed, unasked).pending
    ensures Exchanged(Settled(a, ids, allowed, unasked).signals, Settled(b, ids, allowed, unasked).signals, id,
                      later + if allowed then 0 else 1)
  {
    if a.pending == [] {
      AddSignalExchanged(a, b, id, later, unasked);
    } else {
      var i := if Named(a.pending, ids).Some? then Named(a.pending, ids).value else 0;
      var rest := RemoveAt(a.pending, i);
      AddSignalExchanged(a.(pending := rest), b.(pending := rest), id, later, a.pending[i].sig);
    }
  }

  lemma NotedExchanged(a: Asks, b: Asks, id: string, later: nat, blocks: nat, tick: int, op: Op)
    requires a.pending == b.pending && Exchanged(a.signals, b.signals, id, later)
    ensures NotedAsks(a, blocks, tick, op).pending == NotedAsks(b, blocks, tick, op).pending
    ensures Exchanged(NotedAsks(a, blocks, tick, op).signals, NotedAsks(b, blocks, tick, op).signals, id,
                      later + if Raises(op) then 1 else 0)
  {
    if op.Resolve? {
      SettledExchanged(a, b, id, later, op.ids, op.allowed, AtPoint(Approval, op.text, blocks, tick));
    } else if Raises(op) {
      OneIsAdded(a, blocks, tick, op);
      OneIsAdded(b, blocks, tick, op);
      AddSignalExchanged(a, b, id, later, NewSignal(blocks, tick, op));
    } else {
      assert NotedAsks(a, blocks, tick, op).signals == a.signals && NotedAsks(b, blocks, tick, op).signals == b.signals;
    }
  }

  function NewSignal(blocks: nat, tick: int, op: Op): Signal
    requires Raises(op) && !op.Resolve?
  {
    match op
    case UseTool(call, _, asked) => QuestionAsked(asked, call, blocks, tick + 1)
    case Ask(asked) => AtPoint(Question, asked, blocks, tick)
    case Refuse(text, call) => Refusal(text, call)
  }

  lemma OneIsAdded(a: Asks, blocks: nat, tick: int, op: Op)
    requires Raises(op) && !op.Resolve?
    ensures NotedAsks(a, blocks, tick, op) == AddSignal(a, NewSignal(blocks, tick, op))
  {
  }

  lemma NotedTurned(a: Turn, b: Turn, id: string, later: nat, op: Op)
    requires Turned(a, b, id, later)
    ensures Turned(Noted(a, op), Noted(b, op), id, later + if Raises(op) then 1 else 0)
  {
    NotedExchanged(a.asks, b.asks, id, later, |a.buffer.blocks|, a.calls.tick, op);
  }

  lemma ShiftedSignals(t: Turn)
    ensures |Shifted(t).asks.signals| == |t.asks.signals|
    ensures forall j :: 0 <= j < |t.asks.signals| ==>
      Shifted(t).asks.signals[j] == t.asks.signals[j].(at := Down(t.asks.signals[j].at))
  {
  }

  lemma ShiftedTurned(a: Turn, b: Turn, id: string, later: nat)
    requires Turned(a, b, id, later)
    ensures Turned(Shifted(a), Shifted(b), id, later)
  {
    ShiftedSignals(a);
    ShiftedSignals(b);
    assert Exchanged(Shifted(a).asks.signals, Shifted(b).asks.signals, id, later);
  }

  lemma {:induction false} TrimTurned(a: Turn, b: Turn, id: string, later: nat)
    requires Turned(a, b, id, later) && WellFormed(a)
    ensures Turned(Trim(a), Trim(b), id, later)
    decreases |a.buffer.blocks|
  {
    if TooMuch(|a.buffer.blocks|, a.buffer.bytes) {
      var left := Buffer(a.buffer.blocks[1..], a.buffer.anonOpen, a.buffer.bytes - |a.buffer.blocks[0].text|);
      ShiftedTurned(a.(buffer := left), b.(buffer := left), id, later);
      TrimTurned(DropOldest(a), DropOldest(b), id, later);
    }
  }

  lemma ApplyTurned(a: Turn, b: Turn, id: string, later: nat, op: Op)
    requires Turned(a, b, id, later) && WellFormed(a)
    ensures WellFormed(b) && Turned(Apply(a, op), Apply(b, op), id, later + if Raises(op) then 1 else 0)
  {
    if op.Delta? {
      AppendCounts(a.buffer, op.text, op.blockID, op.final);
      var grown := Append(a.buffer, op.text, op.blockID, op.final);
      TrimTurned(a.(buffer := grown), b.(buffer := grown), id, later);
    } else {
      NotedTurned(a, b, id, later, op);
    }
  }

  lemma {:induction false} TurnedForever(a: Turn, b: Turn, id: string, ops: seq<Op>)
    requires Turned(a, b, id, 0) && WellFormed(a)
    ensures WellFormed(b) && Turned(Continue(a, ops), Continue(b, ops), id, Raised(ops))
  {
    if ops != [] {
      TurnedForever(a, b, id, Front(ops));
      ApplyTurned(Continue(a, Front(ops)), Continue(b, Front(ops)), id, Raised(Front(ops)), Last(ops));
    }
  }

  // ---- what it decides ----------------------------------------------------------------------------

  /** Of a question and an approval side by side the order does not matter. */
  lemma {:induction false} ExchangedLastOpen(c: Calls, a: seq<Signal>, b: seq<Signal>, i: nat, question: bool)
    requires |a| == |b| && i + 1 < |a| && a[i] == b[i + 1] && b[i] == a[i + 1]
    requires a[i].kind.Question? != b[i].kind.Question?
    requires forall j :: 0 <= j < |a| && j != i && j != i + 1 ==> a[j] == b[j]
    ensures LastOpen(c, a, question) == LastOpen(c, b, question)
  {
    if i + 2 < |a| {
      ExchangedLastOpen(c, Front(a), Front(b), i, question);
    } else {
      assert Front(Front(a)) == Front(Front(b));
      assert Last(Front(a)) == a[i] && Last(Front(b)) == b[i];
    }
  }

  lemma {:induction false} LastOpenIsIn(c: Calls, s: seq<Signal>, question: bool)
    ensures LastOpen(c, s, question).Some? ==> LastOpen(c, s, question).value in s
  {
    if s != [] {
      LastOpenIsIn(c, Front(s), question);
      assert forall x :: x in Front(s) ==> x in s;
    }
  }

  /** The last open signal of a list, or else whether its first is it. */
  lemma {:induction false} OldestLast(c: Calls, s: seq<Signal>, question: bool)
    requires s != []
    ensures LastOpen(c, s, question)
      == if LastOpen(c, s[1..], question).Some? then LastOpen(c, s[1..], question)
         else if IsOpen(c, s[0]) && s[0].kind.Question? == question then Some(s[0]) else None
  {
    if |s| > 1 {
      OldestLast(c, Front(s), question);
      assert Front(s)[1..] == Front(s[1..]);
    }
  }

  /** The verdict on the signals does not need the oldest: an open question was raised
      later, or its call is no longer waited for, or the call answered its question and an
      open approval was raised later. */
  predicate Overtaken(c: Calls, signals: seq<Signal>)
    requires signals != []
  {
    || LastOpen(c, signals[1..], true).Some?
    || !IsOpen(c, signals[0].(toolCall := false))
    || (!IsOpen(c, signals[0].(toolCall := true)) && LastOpen(c, signals[1..], false).Some?)
  }

  function Verdict(c: Calls, signals: seq<Signal>): Option<Signal> {
    if LastOpen(c, signals, true).Some? then LastOpen(c, signals, true) else LastOpen(c, signals, false)
  }

  lemma OpenByItsCall(c: Calls, s: Signal, t: Signal)
    requires s.byTool && t.byTool && s.toolID == t.toolID && (s.toolCall ==> t.toolCall)
    ensures IsOpen(c, t) ==> IsOpen(c, s)
  {
    assert Place(c, s) == Place(c, t);
  }

  /** With only the younger of the two left, one turn has the question and the other the
      refusal as its oldest signal. */
  lemma OneLeftVerdict(c: Calls, a: seq<Signal>, b: seq<Signal>, id: string)
    requires |a| == |b| > 0 && a[1..] == b[1..] && AsksIn(a[0], id) && RefusesIn(b[0], id)
    ensures (Verdict(c, a) == Verdict(c, b) <==> Overtaken(c, a))
  {
    OpenByItsCall(c, b[0], a[0].(toolCall := false));
    OpenByItsCall(c, a[0].(toolCall := false), b[0]);
    OpenByItsCall(c, b[0], a[0]);
    assert a[0] == a[0].(toolCall := true);
    OldestLast(c, a, true);
    OldestLast(c, a, false);
    OldestLast(c, b, true);
    OldestLast(c, b, false);
  }

  lemma TurnedVerdict(a: Turn, b: Turn, id: string, later: nat)
    requires Turned(a, b, id, later)
    ensures later != MAX_SIGNALS - 1 ==> OpenSignal(a) == OpenSignal(b)
    ensures later == MAX_SIGNALS - 1 ==>
      Signals(a.asks) != [] && (OpenSignal(a) == OpenSignal(b) <==> Overtaken(a.calls, Signals(a.asks)))
  {
    var (x, y, n) := (Signals(a.asks), Signals(b.asks), |a.asks.signals|);
    if later + 2 <= n {
      ExchangedLastOpen(a.calls, x, y, n - 2 - later, true);
      ExchangedLastOpen(a.calls, x, y, n - 2 - later, false);
    } else if later + 1 == n {
      assert x[1..] == y[1..];
      OneLeftVerdict(a.calls, x, y, id);
    } else {
      assert x == y;
    }
  }

  // ---- for every turn -------------------------------------------------------------------------

  /** A question call with room for its early refusal, in either order and whatever comes
      after: the same calls, text and requests, and the same verdict and Output unless
      exactly one of its two signals is left; then, exactly if the verdict does not need
      that one. */
  lemma QuestionRefusalOrder(t: Turn, id: string, asked: seq<Byte>, text: seq<Byte>, ops: seq<Op>, term: Ending)
    requires Reachable(t) && Fresh(t, id) && EarlyHasRoom(t)
    ensures var (a, b) := (Continue(RefusedFirst(t, id, true, asked, text), ops), Continue(CalledFirst(t, id, true, asked, text), ops));
      && a == b.(asks := b.asks.(signals := a.asks.signals))
      && Exchanged(a.asks.signals, b.asks.signals, id, Raised(ops))
      && (OpenSignal(a) == OpenSignal(b) <==> Raised(ops) != MAX_SIGNALS - 1 || (Signals(a.asks) != [] && Overtaken(a.calls, Signals(a.asks))))
      && (OpenSignal(a) == OpenSignal(b) ==> OutputOf(a, term) == OutputOf(b, term))
  {
    BothOrdersAreTurned(t, id, asked, text);
    TurnedForever(RefusedFirst(t, id, true, asked, text), CalledFirst(t, id, true, asked, text), id, ops);
    var (a, b) := (Continue(RefusedFirst(t, id, true, asked, text), ops), Continue(CalledFirst(t, id, true, asked, text), ops));
    TurnedVerdict(a, b, id, Raised(ops));
    if OpenSignal(a) == OpenSignal(b) { SameVerdictSameOutput(a, b, term); }
  }

  lemma SameVerdictSameOutput(a: Turn, b: Turn, term: Ending)
    requires a == b.(asks := b.asks.(signals := a.asks.signals)) && OpenSignal(a) == OpenSignal(b)
    ensures OutputOf(a, term) == OutputOf(b, term)
  {
    if OpenSignal(a).Some? {
      assert SignalText(a, OpenSignal(a).value, term.text) == SignalText(b, OpenSignal(a).value, term.text);
    }
  }

  // ---- a turn for which it matters ------------------------------------------------------------------

  /** A permission that was refused without having been asked for. */
  const REFUSED_REQUEST := Resolve([], false, [])

  predicate ApprovalsLast(signals: seq<Signal>, n: nat) {
    |signals| <= MAX_SIGNALS && forall j :: 0 <= j < |signals| && j >= |signals| - n ==> signals[j].kind.Approval?
  }

  lemma OneMoreApproval(t: Turn, n: nat)
    requires WellFormed(t) && t.asks.pending == [] && ApprovalsLast(t.asks.signals, n)
    ensures var now := Apply(t, REFUSED_REQUEST);
      now.calls == t.calls && now.asks.pending == [] && ApprovalsLast(now.asks.signals, n + 1)
  {
    AddSignalAt(t.asks, AtPoint(Approval, [], |t.buffer.blocks|, t.calls.tick));
  }

  lemma {:induction false} ApprovalsOnly(t: Turn, n: nat)
    requires WellFormed(t) && t.asks.pending == [] && |t.asks.signals| <= MAX_SIGNALS
    ensures var (ops, now) := (seq(n, _ => REFUSED_REQUEST), Continue(t, seq(n, _ => REFUSED_REQUEST)));
      Raised(ops) == n && now.calls == t.calls && now.asks.pending == [] && ApprovalsLast(now.asks.signals, n)
  {
    if n > 0 {
      var ops := seq(n, _ => REFUSED_REQUEST);
      var fewer := seq(n - 1, _ => REFUSED_REQUEST);
      assert Front(ops) == fewer && Last(ops) == REFUSED_REQUEST;
      ApprovalsOnly(t, n - 1);
      OneMoreApproval(Continue(t, fewer), n - 1);
    }
  }

  lemma OneLeftVerdicts(a: Turn, b: Turn, id: string)
    requires Turned(a, b, id, MAX_SIGNALS - 1) && a.asks.pending == [] && ApprovalsLast(a.asks.signals, MAX_SIGNALS - 1)
    requires IsOpen(a.calls, a.asks.signals[0])
    ensures OpenSignal(a).Some? && OpenSignal(a).value.kind.Question?
    ensures OpenSignal(b).Some? && OpenSignal(b).value.kind.Approval?
  {
    var (x, y) := (a.asks.signals, b.asks.signals);
    assert Signals(a.asks) == x && Signals(b.asks) == y;
    OldestLast(a.calls, x, true);
    OldestLast(a.calls, y, false);
    OpenByItsCall(a.calls, y[0], x[0]);
    assert forall j :: 0 <= j < |y| ==> y[j].kind.Approval?;
    LastOpenIsIn(a.calls, y, true);
    LastOpenIsIn(a.calls, y, false);
  }

  lemma NewTurnIsFresh(turn: string, id: string)
    requires id != ""
    ensures Reachable(NewTurn(turn)) && Fresh(NewTurn(turn), id) && EarlyHasRoom(NewTurn(turn))
  {
  }

  /** Only a question call that was refused: its question is open. */
  lemma OnlyRefused(turn: string, id: string, asked: seq<Byte>, text: seq<Byte>)
    requires id != ""
    ensures var t := RefusedFirst(NewTurn(turn), id, true, asked, text);
      WellFormed(t) && t.asks.pending == [] && forall sig :: AsksIn(sig, id) ==> IsOpen(t.calls, sig)
  {
    NewTurnIsFresh(turn, id);
    RefusalFirst(NewTurn(turn), id, true, asked, text);
  }

  lemma SixtyThreeLater(first: Turn, second: Turn, id: string, ops: seq<Op>)
    requires Turned(first, second, id, 0) && WellFormed(first) && first.asks.pending == []
    requires forall sig :: AsksIn(sig, id) ==> IsOpen(first.calls, sig)
    requires ops == seq(MAX_SIGNALS - 1, _ => REFUSED_REQUEST)
    ensures WellFormed(second)
    ensures OpenSignal(Continue(first, ops)).Some? && OpenSignal(Continue(first, ops)).value.kind.Question?
    ensures OpenSignal(Continue(second, ops)).Some? && OpenSignal(Continue(second, ops)).value.kind.Approval?
  {
    TurnedForever(first, second, id, ops);
    ApprovalsOnly(first, MAX_SIGNALS - 1);
    OneLeftVerdicts(Continue(first, ops), Continue(second, ops), id);
  }

  /** In any new turn, a question call and its refusal, then 63 refused permissions: with
      the refusal first the turn ends on the question, with the call first on an approval. */
  lemma OneLeftCanDecide(turn: string, id: string, asked: seq<Byte>, text: seq<Byte>)
    requires id != ""
    ensures var (first, second, ops) := (RefusedFirst(NewTurn(turn), id, true, asked, text),
                                         CalledFirst(NewTurn(turn), id, true, asked, text), seq(MAX_SIGNALS - 1, _ => REFUSED_REQUEST));
      && OpenSignal(Continue(first, ops)).Some? && OpenSignal(Continue(first, ops)).value.kind.Question?
      && OpenSignal(Continue(second, ops)).Some? && OpenSignal(Continue(second, ops)).value.kind.Approval?
  {
    NewTurnIsFresh(turn, id);
    OnlyRefused(turn, id, asked, text);
    BothOrdersAreTurned(NewTurn(turn), id, asked, text);
    SixtyThreeLater(RefusedFirst(NewTurn(turn), id, true, asked, text), CalledFirst(NewTurn(turn), id, true, asked, text),
                    id, seq(MAX_SIGNALS - 1, _ => REFUSED_REQUEST));
  }
}
