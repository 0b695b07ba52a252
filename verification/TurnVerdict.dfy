/**
 * What a turn ended on: the verdict of turnoutput/signals.go is the last question, or else
 * the last refusal or unanswered request, that still stands by the order of what happened.
 */
module TurnVerdict {
  import opened Bytes
  import opened Lists
  import opened Options
  import opened TurnCalls
  import opened TurnHistory
  import opened TurnInvariants
  import opened TurnModel

  // ---- what stands at the end ------------------------------------------------------------------------------

  /** What is raised where it came has the tick of that place. */
  ghost predicate CameFrom(turn: string, ops: seq<Op>, k: nat, sig: Signal) {
    && k < |ops| && RaisedAt(ops[k], sig)
    && (!sig.byTool ==> sig.tick == Tick(turn, ops, if ops[k].UseTool? then k + 1 else k))
  }

  predicate NothingPast(tools: seq<Tool>, point: int) {
    forall i :: 0 <= i < |tools| ==> !WorksPast(tools[i], point)
  }

  lemma PointStands(turn: string, ops: seq<Op>, k: nat, sig: Signal)
    requires CallsOk(turn, ops) && CameFrom(turn, ops, k, sig) && !sig.byTool
    ensures IsOpen(TurnOf(turn, ops).calls, sig) <==> Stands(turn, ops, k)
  {
    PointOf(turn, ops, k, sig.tick);
    WorkedIs(turn, ops, k, sig.tick);
  }

  lemma NamelessStands(t: Turn, sig: Signal)
    requires Reachable(t) && sig.byTool && sig.toolID == ""
    requires forall a, b :: 0 <= a < b < |t.calls.tools| ==> t.calls.tools[a].tick < t.calls.tools[b].tick
    ensures IsOpen(t.calls, sig)
  {
  }

  lemma TicksOfTools(turn: string, ops: seq<Op>, a: nat, b: nat)
    requires CallsOk(turn, ops) && a < b < |TurnOf(turn, ops).calls.tools|
    ensures TurnOf(turn, ops).calls.tools[a].tick < TurnOf(turn, ops).calls.tools[b].tick
  {
    HeldInOrder(ops);
    var (tools, h) := (TurnOf(turn, ops).calls.tools, Held(ops));
    assert ToolOk(turn, ops, tools[a], h[a]) && ToolOk(turn, ops, tools[b], h[b]);
    TicksGrow(turn, ops, h[a] + 1, h[b]);
  }

  lemma NoCallStands(turn: string, ops: seq<Op>, id: string)
    requires CallsOk(turn, ops) && id != "" && ToolIndex(TurnOf(turn, ops).calls.tools, id).None?
    ensures (forall i: nat :: !Newer(ops, i, id)) && (WorkedAfter(turn, ops, -1) <==> !NothingPast(TurnOf(turn, ops).calls.tools, -1))
  {
    AreTheCalls(turn, ops, TurnOf(turn, ops).calls.tools);
    forall i: nat ensures !Newer(ops, i, id) {
      if Newer(ops, i, id) { HeldIsNewest(ops, TurnOf(turn, ops).calls.tools, id, i); }
    }
    forall k: nat | k <= |ops| ensures Tick(turn, ops, k) >= 0 { TurnsAreReachable(turn, ops[..k]); }
    WorkedIs(turn, ops, -1, -1);
  }

  /** The point past which a call works on, when the newest call with an id is i. */
  function PointAfter(tool: Tool): int {
    if tool.facts.result.Some? then tool.facts.result.value.tick else tool.tick
  }

  lemma FirstResultIs(turn: string, ops: seq<Op>, j: nat, i: nat)
    requires i < |ops|
    ensures IsFirstResult(turn, ops, j, i) <==> IsFirst(ops, About(turn, ops, i), j)
  {
    forall m: nat ensures IsResult(turn, ops, m, i) <==> m in About(turn, ops, i) && m < |ops| && ops[m].ToolResult? {}
  }

  lemma ResultPoint(turn: string, ops: seq<Op>, js: set<nat>, o: Outcome) returns (p: nat)
    requires exists j :: IsFirst(ops, js, j) && IsOutcome(turn, ops, j, o)
    ensures IsFirst(ops, js, p) && ops[p].isError == o.isError && IsPoint(turn, ops, p, o.tick)
  {
    p :| IsFirst(ops, js, p) && IsOutcome(turn, ops, p, o);
    PointOf(turn, ops, p, o.tick);
  }

  /** Where it is: at its first result, or at the call. */
  lemma PlaceOf(turn: string, ops: seq<Op>, tool: Tool, i: nat) returns (p: nat)
    requires ToolOk(turn, ops, tool, i)
    ensures IsPoint(turn, ops, p, PointAfter(tool))
    ensures tool.facts.result.None? ==> p == i && forall j: nat :: !IsFirstResult(turn, ops, j, i)
    ensures tool.facts.result.Some? ==>
      IsFirstResult(turn, ops, p, i) && ops[p].ToolResult? && ops[p].isError == tool.facts.result.value.isError
  {
    if tool.facts.result.Some? {
      p := ResultPoint(turn, ops, About(turn, ops, i), tool.facts.result.value);
      FirstResultIs(turn, ops, p, i);
    } else {
      p := i;
      forall j: nat ensures !IsFirstResult(turn, ops, j, i) { FirstResultIs(turn, ops, j, i); }
      PointOf(turn, ops, p, tool.tick);
    }
  }

  lemma CallStands(turn: string, ops: seq<Op>, tool: Tool, i: nat)
    requires CallsOk(turn, ops) && ToolOk(turn, ops, tool, i)
    ensures StandsAtCall(turn, ops, i) <==> NothingPast(TurnOf(turn, ops).calls.tools, PointAfter(tool))
    ensures IsAnswered(turn, ops, i) <==> tool.facts.result.Some? && !tool.facts.result.value.isError
  {
    var p := PlaceOf(turn, ops, tool, i);
    WorkedIs(turn, ops, p, PointAfter(tool));
    forall j: nat | IsFirstResult(turn, ops, j, i) ensures j == p {}
  }

  lemma StandsForThis(turn: string, ops: seq<Op>, id: string, asks: bool, i: nat)
    requires Newer(ops, i, id)
    ensures StandsFor(turn, ops, id, asks) <==> StandsAtCall(turn, ops, i) && !(asks && IsAnswered(turn, ops, i))
  {
    forall m: nat | Newer(ops, m, id) ensures m == i {}
  }

  lemma OpenByCall(c: Calls, sig: Signal, k: nat)
    requires sig.byTool && ToolIndex(c.tools, sig.toolID) == Some(k)
    ensures var facts := c.tools[k].facts;
      IsOpen(c, sig) <==>
        NothingPast(c.tools, PointAfter(c.tools[k])) && !(sig.toolCall && facts.result.Some? && !facts.result.value.isError)
  {
  }

  lemma NamedStands(turn: string, ops: seq<Op>, sig: Signal)
    requires CallsOk(turn, ops) && sig.byTool && sig.toolID != ""
    ensures IsOpen(TurnOf(turn, ops).calls, sig) <==> StandsFor(turn, ops, sig.toolID, sig.toolCall)
  {
    var tools := TurnOf(turn, ops).calls.tools;
    match ToolIndex(tools, sig.toolID)
    case None => NoCallStands(turn, ops, sig.toolID);
    case Some(k) =>
      AreTheCalls(turn, ops, tools);
      NewestIsHeld(ops, tools, sig.toolID, k);
      StandsForThis(turn, ops, sig.toolID, sig.toolCall, Held(ops)[k]);
      CallStands(turn, ops, tools[k], Held(ops)[k]);
      OpenByCall(TurnOf(turn, ops).calls, sig, k);
  }

  lemma SignalStands(turn: string, ops: seq<Op>, k: nat, sig: Signal)
    requires CameFrom(turn, ops, k, sig)
    ensures IsOpen(TurnOf(turn, ops).calls, sig) <==> Stands(turn, ops, k)
  {
    CallsAreOk(turn, ops);
    if !sig.byTool {
      PointStands(turn, ops, k, sig);
    } else if sig.toolID == "" {
      TurnsAreReachable(turn, ops);
      forall a: nat, b: nat | a < b < |TurnOf(turn, ops).calls.tools|
        ensures TurnOf(turn, ops).calls.tools[a].tick < TurnOf(turn, ops).calls.tools[b].tick {
        TicksOfTools(turn, ops, a, b);
      }
      NamelessStands(TurnOf(turn, ops), sig);
    } else {
      NamedStands(turn, ops, sig);
    }
  }

  // ---- where the signals came from ---------------------------------------------------------------------------

  /** The text blocks begun before k. */
  ghost function Begun(turn: string, ops: seq<Op>, k: nat): nat
    requires k <= |ops|
  {
    |HistoryOf(turn, ops[..k]).all.buffer.blocks|
  }

  /** In the history it also stands after the blocks begun by then. */
  ghost function Source(turn: string, ops: seq<Op>): (nat, Signal) -> bool {
    (k: nat, sig: Signal) => CameFrom(turn, ops, k, sig) && (!sig.byTool ==> sig.at == Begun(turn, ops, k))
  }

  /** Each signal is from where the other list says. */
  ghost predicate AllFrom(source: (nat, Signal) -> bool, signals: seq<Signal>, from: seq<nat>) {
    |from| == |signals| && forall i :: 0 <= i < |signals| ==> source(from[i], signals[i])
  }

  function Waiting(pending: seq<Request>): seq<Signal> {
    seq(|pending|, i requires 0 <= i < |pending| => pending[i].sig)
  }

  ghost predicate AsksFrom(source: (nat, Signal) -> bool, a: Asks, from: seq<nat>, waiting: seq<nat>) {
    AllFrom(source, a.signals, from) && AllFrom(source, Waiting(a.pending), waiting)
  }

  lemma NewestFrom(source: (nat, Signal) -> bool, signals: seq<Signal>, from: seq<nat>, sig: Signal, k: nat, n: nat)
    requires AllFrom(source, signals, from) && source(k, sig)
    ensures AllFrom(source, Newest(signals + [sig], n), Newest(from + [k], n))
  {
  }

  lemma AddSignalFrom(source: (nat, Signal) -> bool, a: Asks, from: seq<nat>, waiting: seq<nat>, sig: Signal, k: nat)
    requires AsksFrom(source, a, from, waiting) && source(k, sig)
    ensures AsksFrom(source, AddSignal(a, sig), Newest(from + [k], MAX_SIGNALS), waiting)
  {
    NewestFrom(source, a.signals, from, sig, k, MAX_SIGNALS);
  }

  lemma AddRequestFrom(source: (nat, Signal) -> bool, a: Asks, from: seq<nat>, waiting: seq<nat>, request: Request, k: nat)
    requires AsksFrom(source, a, from, waiting) && source(k, request.sig)
    ensures AsksFrom(source, AddRequest(a, request), from, Newest(waiting + [k], MAX_PENDING))
  {
    assert Waiting(a.pending + [request]) == Waiting(a.pending) + [request.sig];
    NewestFrom(source, Waiting(a.pending), waiting, request.sig, k, MAX_PENDING);
    assert Waiting(Newest(a.pending + [request], MAX_PENDING)) == Newest(Waiting(a.pending) + [request.sig], MAX_PENDING);
  }

  lemma SettledFrom(source: (nat, Signal) -> bool, a: Asks, op: Op, unasked: Signal, from: seq<nat>, waiting: seq<nat>, k: nat)
    returns (now: seq<nat>, rest: seq<nat>)
    requires op.Resolve? && AsksFrom(source, a, from, waiting) && (!op.allowed ==> source(k, unasked))
    ensures AsksFrom(source, Settled(a, op.ids, op.allowed, unasked), now, rest)
  {
    if a.pending == [] {
      if op.allowed { return from, waiting; }
      AddSignalFrom(source, a, from, waiting, unasked, k);
      return Newest(from + [k], MAX_SIGNALS), waiting;
    }
    var i := if Named(a.pending, op.ids).Some? then Named(a.pending, op.ids).value else 0;
    var left := a.(pending := RemoveAt(a.pending, i));
    rest := RemoveAt(waiting, i);
    RemovedFrom(source, a, from, waiting, i);
    if op.allowed { return from, rest; }
    AddSignalFrom(source, left, from, rest, a.pending[i].sig, waiting[i]);
    return Newest(from + [waiting[i]], MAX_SIGNALS), rest;
  }

  lemma RemovedFrom(source: (nat, Signal) -> bool, a: Asks, from: seq<nat>, waiting: seq<nat>, i: nat)
    requires AsksFrom(source, a, from, waiting) && i < |a.pending|
    ensures AsksFrom(source, a.(pending := RemoveAt(a.pending, i)), from, RemoveAt(waiting, i)) && source(waiting[i], a.pending[i].sig)
  {
    assert Waiting(RemoveAt(a.pending, i)) == RemoveAt(Waiting(a.pending), i);
    assert Waiting(a.pending)[i] == a.pending[i].sig;
  }

  lemma StillFrom(turn: string, ops: seq<Op>, op: Op, signals: seq<Signal>, from: seq<nat>)
    requires AllFrom(Source(turn, ops), signals, from)
    ensures AllFrom(Source(turn, ops + [op]), signals, from)
  {
    OneMore(turn, ops, op);
    forall i | 0 <= i < |from| ensures Source(turn, ops + [op])(from[i], signals[i]) {
      assert Source(turn, ops)(from[i], signals[i]);
      assert (ops + [op])[..from[i]] == ops[..from[i]];
    }
  }

  lemma NewSignal(turn: string, ops: seq<Op>, op: Op, sig: Signal)
    requires RaisedAt(op, sig)
    requires !sig.byTool ==> sig.tick == TurnOf(turn, ops).calls.tick + if op.UseTool? then 1 else 0
    requires !sig.byTool ==> sig.at == |HistoryOf(turn, ops).all.buffer.blocks|
    ensures Source(turn, ops + [op])(|ops|, sig)
  {
    OneMore(turn, ops, op);
    TickNow(turn, ops, op);
    assert (ops + [op])[..|ops|] == ops;
  }

  lemma SameTick(turn: string, ops: seq<Op>)
    ensures HistoryOf(turn, ops).all.calls.tick == TurnOf(turn, ops).calls.tick
  {
    TheBufferIsASuffix(turn, ops);
  }

  lemma NotedFrom(turn: string, ops: seq<Op>, op: Op, from: seq<nat>, waiting: seq<nat>) returns (now: seq<nat>, rest: seq<nat>)
    requires AsksFrom(Source(turn, ops), HistoryOf(turn, ops).all.asks, from, waiting)
    ensures var t := HistoryOf(turn, ops).all;
      AsksFrom(Source(turn, ops + [op]), NotedAsks(t.asks, |t.buffer.blocks|, t.calls.tick, op), now, rest)
  {
    var t := HistoryOf(turn, ops).all;
    var (a, blocks, tick, source) := (t.asks, |t.buffer.blocks|, t.calls.tick, Source(turn, ops + [op]));
    SameTick(turn, ops);
    StillFrom(turn, ops, op, a.signals, from);
    StillFrom(turn, ops, op, Waiting(a.pending), waiting);
    if RaisesNow(op) {
      var sig := SignalNow(op, blocks, tick);
      NewSignal(turn, ops, op, sig);
      AddSignalFrom(source, a, from, waiting, sig, |ops|);
      return Newest(from + [|ops|], MAX_SIGNALS), waiting;
    }
    now, rest := from, waiting;
    match op
    case PermissionRequest(ids, text) =>
      NewSignal(turn, ops, op, AtPoint(Approval, text, blocks, tick));
      AddRequestFrom(source, a, from, waiting, Request(ids, AtPoint(Approval, text, blocks, tick)), |ops|);
      rest := Newest(waiting + [|ops|], MAX_PENDING);
    case Resolve(ids, allowed, text) =>
      if !allowed { NewSignal(turn, ops, op, AtPoint(Approval, text, blocks, tick)); }
      now, rest := SettledFrom(source, a, op, AtPoint(Approval, text, blocks, tick), from, waiting, |ops|);
    case _ =>
  }

  predicate RaisesNow(op: Op) {
    (op.UseTool? && op.question) || op.Ask? || op.Refuse?
  }

  function SignalNow(op: Op, blocks: nat, tick: int): Signal
    requires RaisesNow(op)
  {
    match op
    case UseTool(id, _, asked) => QuestionAsked(asked, id, blocks, tick + 1)
    case Ask(asked) => AtPoint(Question, asked, blocks, tick)
    case Refuse(text, id) => Refusal(text, id)
  }

  /** Where all the signals of a history came from. */
  lemma {:induction false} Origins(turn: string, ops: seq<Op>) returns (from: seq<nat>, waiting: seq<nat>)
    ensures AsksFrom(Source(turn, ops), HistoryOf(turn, ops).all.asks, from, waiting)
  {
    from, waiting := [], [];
    if ops != [] {
      from, waiting := Origins(turn, Front(ops));
      from, waiting := NotedFrom(turn, Front(ops), Last(ops), from, waiting);
      assert Front(ops) + [Last(ops)] == ops;
    }
  }

  /** The turn's own are those, seen from the first block it holds. */
  lemma SignalsSeen(turn: string, ops: seq<Op>)
    ensures var (h, signals) := (HistoryOf(turn, ops), Signals(TurnOf(turn, ops).asks));
      && |signals| == |Signals(h.all.asks)|
      && forall i :: 0 <= i < |signals| ==> signals[i] == SeenSignal(Signals(h.all.asks)[i], h.dropped)
  {
    TheBufferIsASuffix(turn, ops);
  }

  // ---- the verdict -------------------------------------------------------------------------------------------

  /** The last of a list that is open and is, or is not, a question. */
  predicate IsLastOpen(c: Calls, signals: seq<Signal>, i: nat, question: bool) {
    && i < |signals| && IsOpen(c, signals[i]) && signals[i].kind.Question? == question
    && forall j :: i < j < |signals| && signals[j].kind.Question? == question ==> !IsOpen(c, signals[j])
  }

  lemma {:induction false} LastOpenIs(c: Calls, signals: seq<Signal>, question: bool)
    ensures var last := LastOpen(c, signals, question);
      && (last.Some? ==> exists i: nat :: IsLastOpen(c, signals, i, question) && last.value == signals[i])
      && (last.None? ==> forall i :: 0 <= i < |signals| && signals[i].kind.Question? == question ==> !IsOpen(c, signals[i]))
  {
    if signals != [] {
      var n := |signals| - 1;
      LastOpenIs(c, Front(signals), question);
      var last := LastOpen(c, Front(signals), question);
      assert forall i :: 0 <= i < n ==> Front(signals)[i] == signals[i];
      if IsOpen(c, signals[n]) && signals[n].kind.Question? == question {
        assert IsLastOpen(c, signals, n, question);
      } else if last.Some? {
        var i: nat :| IsLastOpen(c, Front(signals), i, question) && last.value == Front(signals)[i];
        assert IsLastOpen(c, signals, i, question);
      }
    }
  }

  lemma AllStand(turn: string, ops: seq<Op>, signals: seq<Signal>, from: seq<nat>)
    requires |from| == |signals| && forall i :: 0 <= i < |signals| ==> CameFrom(turn, ops, from[i], signals[i])
    ensures AreRaised(ops, signals, from)
    ensures forall i :: 0 <= i < |signals| ==> (IsOpen(TurnOf(turn, ops).calls, signals[i]) <==> Stands(turn, ops, from[i]))
  {
    forall i | 0 <= i < |signals| ensures IsOpen(TurnOf(turn, ops).calls, signals[i]) <==> Stands(turn, ops, from[i]) {
      SignalStands(turn, ops, from[i], signals[i]);
    }
  }

  /** Every signal the turn has, and that it keeps, came from what happened at some place. */
  ghost predicate AreRaised(ops: seq<Op>, signals: seq<Signal>, from: seq<nat>) {
    |from| == |signals| && forall i :: 0 <= i < |signals| ==> from[i] < |ops| && RaisedAt(ops[from[i]], signals[i])
  }

  ghost predicate StandingAt(turn: string, ops: seq<Op>, signals: seq<Signal>, from: seq<nat>, i: nat, question: bool)
    requires AreRaised(ops, signals, from)
  {
    i < |signals| && signals[i].kind.Question? == question && Stands(turn, ops, from[i])
  }

  /** The verdict is the last question that stands, or else the last refusal or unanswered
      request that does. */
  ghost predicate IsVerdict(turn: string, ops: seq<Op>, signals: seq<Signal>, from: seq<nat>, verdict: Option<Signal>)
    requires AreRaised(ops, signals, from)
  {
    match verdict
    case None => forall i: nat, q: bool :: !StandingAt(turn, ops, signals, from, i, q)
    case Some(sig) =>
      exists i: nat ::
        && StandingAt(turn, ops, signals, from, i, sig.kind.Question?) && sig == signals[i]
        && (forall j: nat :: j > i ==> !StandingAt(turn, ops, signals, from, j, sig.kind.Question?))
        && (!sig.kind.Question? ==> forall j: nat :: !StandingAt(turn, ops, signals, from, j, true))
  }

  /** What a turn ended on, of any turn and whatever was forgotten of it: each of its signals
      and requests came from something that happened, and the verdict is the last question
      that still stands by the order of what happened, or else the last of the others. */
  lemma VerdictOfHistory(turn: string, ops: seq<Op>) returns (from: seq<nat>)
    ensures var t := TurnOf(turn, ops);
      && AreRaised(ops, Signals(t.asks), from) && IsVerdict(turn, ops, Signals(t.asks), from, OpenSignal(t))
      && forall i :: 0 <= i < |from| ==> StandsAfterText(turn, ops, from[i], Place(t.calls, Signals(t.asks)[i]).0)
  {
    from := SignalsFrom(turn, ops);
    AllStand(turn, ops, Signals(TurnOf(turn, ops).asks), from);
    VerdictIs(turn, ops, Signals(TurnOf(turn, ops).asks), from);
  }

  lemma SignalsFrom(turn: string, ops: seq<Op>) returns (from: seq<nat>)
    ensures var signals := Signals(TurnOf(turn, ops).asks);
      && |from| == |signals|
      && (forall i :: 0 <= i < |signals| ==> CameFrom(turn, ops, from[i], signals[i]))
      && forall i :: 0 <= i < |signals| ==> StandsAfterText(turn, ops, from[i], Place(TurnOf(turn, ops).calls, signals[i]).0)
  {
    var said, waiting := Origins(turn, ops);
    from := said + waiting;
    var h := HistoryOf(turn, ops);
    JoinedFrom(Source(turn, ops), h.all.asks, said, waiting);
    SignalsSeen(turn, ops);
    forall i | 0 <= i < |from| ensures CameFrom(turn, ops, from[i], Signals(TurnOf(turn, ops).asks)[i]) {
      assert Source(turn, ops)(from[i], Signals(h.all.asks)[i]);
    }
    forall i | 0 <= i < |from|
      ensures StandsAfterText(turn, ops, from[i], Place(TurnOf(turn, ops).calls, Signals(TurnOf(turn, ops).asks)[i]).0) {
      assert Source(turn, ops)(from[i], Signals(h.all.asks)[i]);
      PlaceInText(turn, ops, from[i], Signals(TurnOf(turn, ops).asks)[i]);
    }
  }

  lemma JoinedFrom(source: (nat, Signal) -> bool, a: Asks, from: seq<nat>, waiting: seq<nat>)
    requires AsksFrom(source, a, from, waiting)
    ensures AllFrom(source, Signals(a), from + waiting)
  {
    assert Signals(a) == a.signals + Waiting(a.pending);
  }

  lemma VerdictIs(turn: string, ops: seq<Op>, signals: seq<Signal>, from: seq<nat>)
    requires AreRaised(ops, signals, from)
    requires forall i :: 0 <= i < |signals| ==> (IsOpen(TurnOf(turn, ops).calls, signals[i]) <==> Stands(turn, ops, from[i]))
    ensures var (q, a) := (LastOpen(TurnOf(turn, ops).calls, signals, true), LastOpen(TurnOf(turn, ops).calls, signals, false));
      IsVerdict(turn, ops, signals, from, if q.Some? then q else a)
  {
    var c := TurnOf(turn, ops).calls;
    LastOpenIs(c, signals, true);
    LastOpenIs(c, signals, false);
    var (q, a) := (LastOpen(c, signals, true), LastOpen(c, signals, false));
    if q.Some? {
      var i: nat :| IsLastOpen(c, signals, i, true) && q.value == signals[i];
      assert StandingAt(turn, ops, signals, from, i, true);
    } else if a.Some? {
      var i: nat :| IsLastOpen(c, signals, i, false) && a.value == signals[i];
      assert StandingAt(turn, ops, signals, from, i, false);
    }
  }

  // ---- where it stands in the text --------------------------------------------------------------------------

  /** The blocks begun before p that the turn still holds. */
  ghost function HeldBefore(turn: string, ops: seq<Op>, p: nat): nat
    requires p <= |ops|
  {
    Seen(Begun(turn, ops, p), HistoryOf(turn, ops).dropped)
  }

  /** What was raised at k stands after the text begun before it; what names a call, after that
      before the call; and a refusal that names none, after that before the last call. */
  ghost predicate StandsAfterText(turn: string, ops: seq<Op>, k: nat, at: nat)
    requires k < |ops|
  {
    match ops[k]
    case Refuse(_, id) =>
      if id == "" then at == if Held(ops) == [] then 0 else BeforeCall(turn, ops, Last(Held(ops)))
      else IsBeforeNamed(turn, ops, id, at)
    case UseTool(id, _, _) => if id == "" then at == HeldBefore(turn, ops, k) else IsBeforeNamed(turn, ops, id, at)
    case _ => at == HeldBefore(turn, ops, k)
  }

  ghost function BeforeCall(turn: string, ops: seq<Op>, i: nat): nat {
    if i <= |ops| then HeldBefore(turn, ops, i) else 0
  }

  ghost predicate IsBeforeNamed(turn: string, ops: seq<Op>, id: string, at: nat) {
    if exists i: nat :: Newer(ops, i, id) then exists i: nat :: Newer(ops, i, id) && at == BeforeCall(turn, ops, i) else at == 0
  }

  ghost predicate CallsSit(turn: string, ops: seq<Op>) {
    Sit(turn, ops, HistoryOf(turn, ops).all.calls.tools, Held(ops))
  }

  lemma NotedTools(c: Calls, blocks: nat, op: Op)
    requires |c.tools| <= MAX_TOOLS
    ensures var tools := NotedCalls(c, blocks, op).tools;
      if op.UseTool? then |tools| > 0 && Last(tools).blocksAt == blocks && Front(tools) == Newest(c.tools, MAX_TOOLS - 1)
      else |tools| == |c.tools| && forall m :: 0 <= m < |tools| ==> tools[m].blocksAt == c.tools[m].blocksAt
  {
  }

  lemma {:induction false} CallsDoSit(turn: string, ops: seq<Op>)
    ensures CallsSit(turn, ops)
  {
    if ops != [] {
      CallsDoSit(turn, Front(ops));
      assert Front(ops) + [Last(ops)] == ops;
      SitOn(turn, Front(ops), Last(ops));
    }
  }

  lemma BegunStays(turn: string, ops: seq<Op>, op: Op)
    ensures forall k: nat :: k <= |ops| ==> Begun(turn, ops + [op], k) == Begun(turn, ops, k)
    ensures Begun(turn, ops + [op], |ops|) == |HistoryOf(turn, ops).all.buffer.blocks|
    ensures HistoryOf(turn, ops + [op]) == Recorded(HistoryOf(turn, ops), op)
  {
    forall k: nat | k <= |ops| ensures Begun(turn, ops + [op], k) == Begun(turn, ops, k) {
      assert (ops + [op])[..k] == ops[..k];
    }
    assert (ops + [op])[..|ops|] == ops && Front(ops + [op]) == ops;
  }

  lemma SitOn(turn: string, ops: seq<Op>, op: Op)
    requires CallsSit(turn, ops)
    ensures CallsSit(turn, ops + [op])
  {
    BegunStays(turn, ops, op);
    HeldGrows(ops, op);
    HeldInOrder(ops);
    var h := HistoryOf(turn, ops).all;
    if !op.Delta? { NotedTools(h.calls, |h.buffer.blocks|, op); }
    if op.UseTool? {
      OneMoreSits(turn, ops, op, h.calls.tools, HistoryOf(turn, ops + [op]).all.calls.tools);
    } else {
      SitStill(turn, ops, op, h.calls.tools, HistoryOf(turn, ops + [op]).all.calls.tools);
    }
  }

  ghost predicate Sit(turn: string, ops: seq<Op>, tools: seq<Tool>, held: seq<nat>) {
    |tools| == |held| && forall m :: 0 <= m < |tools| ==> held[m] <= |ops| && tools[m].blocksAt == Begun(turn, ops, held[m])
  }

  lemma SitStill(turn: string, ops: seq<Op>, op: Op, tools: seq<Tool>, now: seq<Tool>)
    requires Sit(turn, ops, tools, Held(ops)) && |now| == |tools| && Held(ops + [op]) == Held(ops)
    requires forall m :: 0 <= m < |now| ==> now[m].blocksAt == tools[m].blocksAt
    ensures Sit(turn, ops + [op], now, Held(ops + [op]))
  {
    BegunStays(turn, ops, op);
  }

  lemma OneMoreSits(turn: string, ops: seq<Op>, op: Op, tools: seq<Tool>, now: seq<Tool>)
    requires Sit(turn, ops, tools, Held(ops)) && |tools| <= MAX_TOOLS && Held(ops + [op]) == Newest(Held(ops) + [|ops|], MAX_TOOLS)
    requires now != [] && Front(now) == Newest(tools, MAX_TOOLS - 1) && Last(now).blocksAt == Begun(turn, ops + [op], |ops|)
    ensures Sit(turn, ops + [op], now, Held(ops + [op]))
  {
    BegunStays(turn, ops, op);
    var (off, held) := (if |tools| == MAX_TOOLS then 1 else 0, Held(ops + [op]));
    forall m | 0 <= m < |now| - 1 ensures held[m] <= |ops| + 1 && now[m].blocksAt == Begun(turn, ops + [op], held[m]) {
      assert now[m] == Front(now)[m] == tools[m + off] && held[m] == Held(ops)[m + off];
    }
  }

  lemma PlaceInText(turn: string, ops: seq<Op>, k: nat, sig: Signal)
    requires CameFrom(turn, ops, k, sig) && (!sig.byTool ==> sig.at == HeldBefore(turn, ops, k))
    ensures StandsAfterText(turn, ops, k, Place(TurnOf(turn, ops).calls, sig).0)
  {
    CallsDoSit(turn, ops);
    CallsAreOk(turn, ops);
    TheBufferIsASuffix(turn, ops);
    var tools := TurnOf(turn, ops).calls.tools;
    AreTheCalls(turn, ops, tools);
    forall m | 0 <= m < |tools| ensures tools[m].blocksAt == BeforeCall(turn, ops, Held(ops)[m]) {}
    if sig.byTool && sig.toolID != "" { NamedInText(turn, ops, tools, sig.toolID); }
  }

  lemma NamedInText(turn: string, ops: seq<Op>, tools: seq<Tool>, id: string)
    requires AreCalls(ops, tools, Held(ops)) && id != ""
    requires forall m :: 0 <= m < |tools| ==> tools[m].blocksAt == BeforeCall(turn, ops, Held(ops)[m])
    ensures IsBeforeNamed(turn, ops, id, match ToolIndex(tools, id) case None => 0 case Some(m) => tools[m].blocksAt)
  {
    match ToolIndex(tools, id)
    case None =>
      forall i: nat ensures !Newer(ops, i, id) {
        if Newer(ops, i, id) { HeldIsNewest(ops, tools, id, i); }
      }
    case Some(m) => NewestIsHeld(ops, tools, id, m);
  }

  // ---- a question that was answered ------------------------------------------------------------------------

  /** Call i asked, nothing with its id was called since, and its first result is no error. */
  ghost predicate WasAnswered(turn: string, ops: seq<Op>, i: nat) {
    && i < |ops| && ops[i].UseTool? && ops[i].question && ops[i].id != "" && IsAnswered(turn, ops, i)
    && forall w :: i < w < |ops| && ops[w].UseTool? ==> ops[w].id != ops[i].id
  }

  lemma LastWithItsID(turn: string, ops: seq<Op>, i: nat)
    requires WasAnswered(turn, ops, i)
    ensures i in Held(ops) ==> Newer(ops, i, ops[i].id)
    ensures i !in Held(ops) ==> forall w: nat :: !Newer(ops, w, ops[i].id)
  {
    HeldInOrder(ops);
    MadeInOrder(ops);
    if i !in Held(ops) {
      forall w: nat ensures !Newer(ops, w, ops[i].id) {
        if Newer(ops, w, ops[i].id) { OlderIsGone(ops, w, i); }
      }
    }
  }

  /** Calls are forgotten oldest first. */
  lemma OlderIsGone(ops: seq<Op>, w: nat, i: nat)
    requires w in Held(ops) && w <= i < |ops| && ops[i].UseTool?
    ensures i in Held(ops)
  {
    MadeInOrder(ops);
    EveryCallIsMade(ops, i);
    var made := CallsMade(ops);
    var a: nat :| a < |made| && made[a] == i;
    var b: nat :| b < |Held(ops)| && Held(ops)[b] == w;
    LaterIsInTail(made, |made| - |Held(ops)|, a, b, |ops|);
  }

  lemma LaterIsInTail(list: seq<nat>, off: nat, a: nat, b: nat, bound: nat)
    requires Increasing(list, bound) && off <= |list| && a < |list| && b < |list| - off && list[off..][b] <= list[a]
    ensures list[a] in list[off..]
  {
    assert list[off..][b] == list[off + b];
    if a < off + b {
      assert false;
    } else {
      assert list[off..][a - off] == list[a];
    }
  }

  lemma {:induction false} EveryCallIsMade(ops: seq<Op>, i: nat)
    requires i < |ops| && ops[i].UseTool?
    ensures i in CallsMade(ops)
  {
    if i < |ops| - 1 {
      EveryCallIsMade(Front(ops), i);
    }
  }

  /** An answered question stands only if its call was forgotten, and no call held works. */
  lemma AnsweredStands(turn: string, ops: seq<Op>, i: nat)
    requires WasAnswered(turn, ops, i)
    ensures Stands(turn, ops, i) <==> i !in Held(ops) && !WorkedAfter(turn, ops, -1)
  {
    LastWithItsID(turn, ops, i);
    if i in Held(ops) { StandsForThis(turn, ops, ops[i].id, true, i); }
  }

  /** While its call is one of the last 256, an answered question is never what the turn
      ended on, whatever else happened. */
  lemma AnAnswerEndsIt(turn: string, ops: seq<Op>, i: nat)
    requires WasAnswered(turn, ops, i) && i in Held(ops)
    ensures var v := OpenSignal(TurnOf(turn, ops)); v.Some? ==> !(v.value.kind.Question? && v.value.byTool && v.value.toolID == ops[i].id)
  {
    var from := VerdictOfHistory(turn, ops);
    var t := TurnOf(turn, ops);
    var v := OpenSignal(t);
    if v.Some? {
      var m: nat :| StandingAt(turn, ops, Signals(t.asks), from, m, v.value.kind.Question?) && v.value == Signals(t.asks)[m];
      LastWithItsID(turn, ops, i);
      StandsForThis(turn, ops, ops[i].id, true, i);
      assert RaisedAt(ops[from[m]], v.value);
    }
  }

  /** A question call and its result, last of all: the turn ended on the question exactly if
      the result is an error. */
  lemma QuestionThenResult(turn: string, before: seq<Op>, q: string, asked: seq<Byte>, isError: bool)
    requires q != "" && q !in TurnOf(turn, before).calls.early
    requires forall w :: 0 <= w < |before| && before[w].UseTool? ==> before[w].id != q
    ensures var v := OpenSignal(TurnOf(turn, before + [UseTool(q, true, asked), ToolResult(q, isError)]));
      isError <==> v.Some? && v.value.kind.Question? && v.value.byTool && v.value.toolID == q
  {
    var ops := before + [UseTool(q, true, asked), ToolResult(q, isError)];
    var n := |before|;
    LastCallIsHeld(ops, n);
    TheResultIsFirst(turn, ops, n);
    if isError {
      ErrorStands(turn, ops, n);
    } else {
      assert IsAnswered(turn, ops, n);
      AnAnswerEndsIt(turn, ops, n);
    }
  }

  lemma LastCallIsHeld(ops: seq<Op>, n: nat)
    requires n < |ops| && ops[n].UseTool? && forall w :: n < w < |ops| ==> !ops[w].UseTool?
    ensures n in Held(ops)
  {
    MadeInOrder(ops);
    EveryCallIsMade(ops, n);
    var made := CallsMade(ops);
    var a :| 0 <= a < |made| && made[a] == n;
    assert forall b :: a < b < |made| ==> made[b] in made && made[b] > n;
    assert Last(Held(ops)) == made[|made| - 1];
  }

  lemma TheResultIsFirst(turn: string, ops: seq<Op>, n: nat)
    requires |ops| == n + 2 && ops[n].UseTool? && ops[n + 1].ToolResult? && ops[n + 1].id == ops[n].id != ""
    requires ops[n].id !in Before(turn, ops, n).early && n in Held(ops)
    ensures IsFirstResult(turn, ops, n + 1, n) && forall j: nat :: IsFirstResult(turn, ops, j, n) ==> j == n + 1
  {
    var id := ops[n].id;
    LastCallIsHeld(ops[..n + 1], n);
    HeldInOrder(ops[..n + 1]);
    assert Newer(ops[..n + 1], n, id);
    forall j: nat | j < n ensures !Awaits(turn, ops, j, id, n) {}
    assert IsResult(turn, ops, n + 1, n);
  }

  lemma ErrorStands(turn: string, ops: seq<Op>, n: nat)
    requires |ops| == n + 2 && ops[n].UseTool? && ops[n].question && ops[n].id != "" && ops[n + 1].ToolResult? && ops[n + 1].isError
    requires forall w :: 0 <= w < n && ops[w].UseTool? ==> ops[w].id != ops[n].id
    requires n in Held(ops) && IsFirstResult(turn, ops, n + 1, n) && forall j: nat :: IsFirstResult(turn, ops, j, n) ==> j == n + 1
    ensures var v := OpenSignal(TurnOf(turn, ops));
      v.Some? && v.value.kind.Question? && v.value.byTool && v.value.toolID == ops[n].id
  {
    var from := VerdictOfHistory(turn, ops);
    var signals := Signals(TurnOf(turn, ops).asks);
    var m := LastAsked(turn, ops, n);
    assert signals[m] == TurnOf(turn, ops).asks.signals[m] && RaisedAt(ops[from[m]], signals[m]);
    ErrorStandsThere(turn, ops, n);
    forall j: nat | m < j < |signals| ensures !signals[j].kind.Question? { PendingAsksNothing(turn, ops, j); }
    LastQuestionWins(turn, ops, signals, from, m, OpenSignal(TurnOf(turn, ops)));
  }

  lemma ErrorStandsThere(turn: string, ops: seq<Op>, n: nat)
    requires |ops| == n + 2 && ops[n].UseTool? && ops[n].question && ops[n].id != "" && ops[n + 1].ToolResult? && ops[n + 1].isError
    requires n in Held(ops) && IsFirstResult(turn, ops, n + 1, n) && forall j: nat :: IsFirstResult(turn, ops, j, n) ==> j == n + 1
    ensures Stands(turn, ops, n)
  {
    assert Newer(ops, n, ops[n].id);
    StandsForThis(turn, ops, ops[n].id, true, n);
    assert !WorkedAfter(turn, ops, n + 1);
  }

  lemma LastQuestionWins(turn: string, ops: seq<Op>, signals: seq<Signal>, from: seq<nat>, m: nat, verdict: Option<Signal>)
    requires AreRaised(ops, signals, from) && IsVerdict(turn, ops, signals, from, verdict)
    requires m < |signals| && signals[m].kind.Question? && Stands(turn, ops, from[m])
    requires forall j :: m < j < |signals| ==> !signals[j].kind.Question?
    ensures verdict == Some(signals[m])
  {
    assert StandingAt(turn, ops, signals, from, m, true);
  }

  lemma LastAsked(turn: string, ops: seq<Op>, n: nat) returns (m: nat)
    requires |ops| == n + 2 && ops[n].UseTool? && ops[n].question && ops[n].id != "" && ops[n + 1].ToolResult?
    ensures var signals := TurnOf(turn, ops).asks.signals;
      && |signals| == m + 1 && signals[m].kind.Question? && signals[m].toolCall && signals[m].byTool && signals[m].toolID == ops[n].id
  {
    var t := TurnOf(turn, ops[..n]);
    assert Front(ops) == ops[..n + 1] && Front(ops[..n + 1]) == ops[..n] && Last(ops[..n + 1]) == ops[n];
    var asked := TurnOf(turn, ops[..n + 1]);
    assert asked == Apply(t, ops[n]) && TurnOf(turn, ops) == Apply(asked, ops[n + 1]);
    var sig := QuestionAsked(ops[n].asked, ops[n].id, |t.buffer.blocks|, t.calls.tick + 1);
    assert TurnOf(turn, ops).asks.signals == Newest(t.asks.signals + [sig], MAX_SIGNALS);
    m := |TurnOf(turn, ops).asks.signals| - 1;
  }

  predicate OnlyApprovals(pending: seq<Request>) {
    forall i :: 0 <= i < |pending| ==> pending[i].sig.kind.Approval?
  }

  lemma ApplyToAsks(t: Turn, op: Op)
    requires WellFormed(t)
    ensures var (a, n) := (Apply(t, op).asks, NotedAsks(t.asks, |t.buffer.blocks|, t.calls.tick, op));
      && |a.signals| == |n.signals| && |a.pending| == |n.pending|
      && (forall i :: 0 <= i < |a.signals| ==> a.signals[i] == n.signals[i].(at := a.signals[i].at))
      && forall i :: 0 <= i < |a.pending| ==> a.pending[i].sig == n.pending[i].sig.(at := a.pending[i].sig.at)
  {
    if op.Delta? {
      AppendCounts(t.buffer, op.text, op.blockID, op.final);
      if op.text != [] { TrimKeepsCalls(t.(buffer := Append(t.buffer, op.text, op.blockID, op.final))); }
    }
  }

  lemma NotedApprovals(a: Asks, blocks: nat, tick: int, op: Op)
    requires OnlyApprovals(a.pending)
    ensures OnlyApprovals(NotedAsks(a, blocks, tick, op).pending)
  {
  }

  lemma {:induction false} PendingAreApprovals(turn: string, ops: seq<Op>)
    ensures OnlyApprovals(TurnOf(turn, ops).asks.pending)
  {
    if ops != [] {
      PendingAreApprovals(turn, Front(ops));
      var t := TurnOf(turn, Front(ops));
      ApplyToAsks(t, Last(ops));
      NotedApprovals(t.asks, |t.buffer.blocks|, t.calls.tick, Last(ops));
      StillApprovals(NotedAsks(t.asks, |t.buffer.blocks|, t.calls.tick, Last(ops)).pending, TurnOf(turn, ops).asks.pending);
    }
  }

  lemma StillApprovals(pending: seq<Request>, now: seq<Request>)
    requires OnlyApprovals(pending) && |now| == |pending|
    requires forall i :: 0 <= i < |now| ==> now[i].sig == pending[i].sig.(at := now[i].sig.at)
    ensures OnlyApprovals(now)
  {
    forall i | 0 <= i < |now| ensures now[i].sig.kind.Approval? { assert pending[i].sig.kind.Approval?; }
  }

  lemma PendingAsksNothing(turn: string, ops: seq<Op>, j: nat)
    requires |TurnOf(turn, ops).asks.signals| <= j < |Signals(TurnOf(turn, ops).asks)|
    ensures !Signals(TurnOf(turn, ops).asks)[j].kind.Question?
  {
    PendingAreApprovals(turn, ops);
  }

  // ---- an answer that is forgotten ---------------------------------------------------------------------------

  /** Ids that differ. */
  function Id(k: nat): string {
    seq(k + 1, _ => 'x')
  }

  lemma IdsDiffer(a: nat, b: nat)
    requires a != b
    ensures Id(a) != Id(b) && Id(a) != "" && Id(a) != "q"
  {
    assert |Id(a)| != |Id(b)| && Id(a)[0] == 'x';
  }

  const ASKED := UseTool("q", true, [])
  const ANSWER := ToolResult("q", false)

  function Refusals(n: nat): seq<Op> {
    seq(n, k requires 0 <= k < n => Refuse([], Id(k)))
  }

  function CallsTo(n: nat): seq<Op> {
    seq(n, k requires 0 <= k < n => UseTool(Id(k), false, []))
  }

  /** The ids from m to 256 are known as refused, before their calls. */
  ghost predicate RefusedEarly(c: Calls, m: nat) {
    forall k: nat :: m <= k < 256 ==> Id(k) in c.early && c.early[Id(k)].refused
  }

  /** The first n ids are known as refused, and no others, and none was called. */
  ghost predicate AllEarly(t: Turn, n: nat) {
    && t.calls.tools == [] && t.asks.pending == [] && |t.calls.earlyOrder| == n
    && (forall id :: id in t.calls.early ==> exists k: nat :: k < n && id == Id(k))
    && forall k: nat :: k < n ==> Id(k) in t.calls.early && t.calls.early[Id(k)].refused
  }

  lemma OneMoreEarly(t: Turn, n: nat)
    requires WellFormed(t) && AllEarly(t, n) && n < 256
    ensures AllEarly(Apply(t, Refuse([], Id(n))), n + 1)
  {
    var now := Apply(t, Refuse([], Id(n)));
    forall k: nat | k < n ensures Id(k) != Id(n) { IdsDiffer(k, n); }
    assert Id(n) != "" && Id(n) !in t.calls.early;
    assert now.calls.early == t.calls.early[Id(n) := NO_FACTS.(refused := true)];
  }

  lemma {:induction false} AfterRefusals(turn: string, n: nat)
    requires n <= 256
    ensures AllEarly(TurnOf(turn, Refusals(n)), n)
  {
    if n > 0 {
      assert Front(Refusals(n)) == Refusals(n - 1) && Last(Refusals(n)) == Refuse([], Id(n - 1));
      AfterRefusals(turn, n - 1);
      OneMoreEarly(TurnOf(turn, Refusals(n - 1)), n - 1);
    }
  }

  /** The question was raised last, and the calls but its own were refused. */
  ghost predicate Forgetting(t: Turn, m: nat) {
    && t.asks.pending == [] && t.asks.signals != []
    && (var sig := Last(t.asks.signals); sig.kind.Question? && sig.byTool && sig.toolCall && sig.toolID == "q")
    && |t.calls.tools| == (if m < 256 then m + 1 else 256)
    && (forall i :: 0 <= i < |t.calls.tools| && (i > 0 || m == 256) ==> t.calls.tools[i].facts.refused && t.calls.tools[i].id != "q")
    && RefusedEarly(t.calls, m)
  }

  lemma QuestionAnswered(turn: string)
    ensures Forgetting(TurnOf(turn, Refusals(256) + [ASKED, ANSWER]), 0)
  {
    var ops := Refusals(256) + [ASKED, ANSWER];
    AfterRefusals(turn, 256);
    assert Front(Front(ops)) == Refusals(256) && Last(Front(ops)) == ASKED && Last(ops) == ANSWER;
    var t := TurnOf(turn, Refusals(256));
    var asked := TurnOf(turn, Front(ops));
    assert asked == Apply(t, ASKED) && TurnOf(turn, ops) == Apply(asked, ANSWER);
    IdsDiffer(0, 1);
    forall k: nat ensures Id(k) != "q" { IdsDiffer(k, k + 1); }
    AskedAndAnswered(t);
  }

  lemma AskedAndAnswered(t: Turn)
    requires WellFormed(t) && t.calls.tools == [] && t.asks.pending == [] && "q" !in t.calls.early && RefusedEarly(t.calls, 0)
    ensures WellFormed(Apply(t, ASKED)) && Forgetting(Apply(Apply(t, ASKED), ANSWER), 0)
  {
    var asked := Apply(t, ASKED);
    assert asked.calls.early == t.calls.early && asked.calls.tools == [Tool("q", |t.buffer.blocks|, t.calls.tick + 1, true, NO_FACTS)];
    assert Apply(asked, ANSWER).calls.early == t.calls.early;
  }

  lemma OneMoreRefused(t: Turn, m: nat)
    requires WellFormed(t) && Forgetting(t, m) && m < 256 && Tidy(t.calls)
    ensures Forgetting(Apply(t, UseTool(Id(m), false, [])), m + 1)
  {
    var now := Apply(t, UseTool(Id(m), false, []));
    IdsDiffer(m, m + 1);
    forall k: nat | m < k < 256 ensures Id(k) in now.calls.early && now.calls.early[Id(k)].refused { IdsDiffer(m, k); }
  }

  /** A question that is answered, and m of those calls. */
  function Forgotten(m: nat): seq<Op> {
    Refusals(256) + [ASKED, ANSWER] + CallsTo(m)
  }

  lemma OneMoreCall(m: nat)
    ensures Forgotten(m + 1) == Forgotten(m) + [UseTool(Id(m), false, [])]
  {
    assert CallsTo(m + 1) == CallsTo(m) + [UseTool(Id(m), false, [])];
  }

  lemma {:induction false} AfterCalls(turn: string, m: nat)
    requires m <= 256
    ensures Forgetting(TurnOf(turn, Forgotten(m)), m)
  {
    if m == 0 {
      QuestionAnswered(turn);
      assert Forgotten(0) == Refusals(256) + [ASKED, ANSWER];
    } else {
      AfterCalls(turn, m - 1);
      OneMoreCall(m - 1);
      assert Front(Forgotten(m)) == Forgotten(m - 1) && Last(Forgotten(m)) == UseTool(Id(m - 1), false, []);
      TurnsAreReachable(turn, Forgotten(m - 1));
      OneMoreRefused(TurnOf(turn, Forgotten(m - 1)), m - 1);
    }
  }

  /** 256 calls that were refused before they came push out an answered question's call, and
      the turn ends on the question. */
  lemma AnswerForgotten(turn: string)
    ensures var v := OpenSignal(TurnOf(turn, Forgotten(256)));
      v.Some? && v.value.kind.Question? && v.value.byTool && v.value.toolID == "q"
  {
    AfterCalls(turn, 256);
    var t := TurnOf(turn, Forgotten(256));
    assert Signals(t.asks) == t.asks.signals;
    assert IsOpen(t.calls, Last(t.asks.signals));
  }
}
