/**
 * What a turn's signals are judged by, said by what happened and in which order: which calls came after a
 * question or a refusal, which of them were refused, and what came back for the call that
 * asked. No ticks, and no facts kept with the calls: those are how turnoutput/signals.go
 * remembers the order.
 */
module TurnCalls {
  import opened Lists
  import opened Options
  import opened TurnInvariants
  import opened TurnModel

  // ---- what happened ------------------------------------------------------------------------------

  /** The calls made, by when. */
  function CallsMade(ops: seq<Op>): seq<nat> {
    if ops == [] then []
    else CallsMade(Front(ops)) + (if Last(ops).UseTool? then [|ops| - 1] else [])
  }

  /** The last 256 of them. */
  function Held(ops: seq<Op>): seq<nat> {
    Newest(CallsMade(ops), MAX_TOOLS)
  }

  ghost predicate IsHeld(ops: seq<Op>, i: nat, id: string) {
    i < |ops| && i in Held(ops) && ops[i].UseTool? && ops[i].id == id
  }

  /** The newest call with the id. */
  ghost predicate Newer(ops: seq<Op>, i: nat, id: string) {
    id != "" && IsHeld(ops, i, id) && forall w: nat :: IsHeld(ops, w, id) ==> w <= i
  }

  /** The call that a result or a refusal names. */
  function Names(op: Op): string {
    match op
    case ToolResult(id, _) => id
    case Refuse(_, id) => id
    case _ => ""
  }

  ghost function Before(turn: string, ops: seq<Op>, k: nat): Calls
    requires k <= |ops|
  {
    TurnOf(turn, ops[..k]).calls
  }

  /** What was said at j of a call with the id has been kept for it. */
  ghost predicate Awaits(turn: string, ops: seq<Op>, j: nat, id: string, until: nat)
    requires until <= |ops|
  {
    j < until && Names(ops[j]) == id != "" && forall m: nat :: j < m <= until ==> id in Before(turn, ops, m).early
  }

  /** What was said at j is about call i: the newest with its id then, or the one it was kept for. */
  ghost predicate IsAbout(turn: string, ops: seq<Op>, j: nat, i: nat)
    requires j < |ops| && i < |ops|
  {
    if i < j then Newer(ops[..j], i, Names(ops[j])) else ops[i].UseTool? && Awaits(turn, ops, j, ops[i].id, i)
  }

  ghost predicate IsRefused(turn: string, ops: seq<Op>, i: nat)
    requires i < |ops|
  {
    exists j: nat :: j < |ops| && ops[j].Refuse? && IsAbout(turn, ops, j, i)
  }

  ghost predicate IsResult(turn: string, ops: seq<Op>, j: nat, i: nat)
    requires i < |ops|
  {
    j < |ops| && ops[j].ToolResult? && IsAbout(turn, ops, j, i)
  }

  /** The first result of call i. */
  ghost predicate IsFirstResult(turn: string, ops: seq<Op>, j: nat, i: nat)
    requires i < |ops|
  {
    IsResult(turn, ops, j, i) && forall m: nat :: IsResult(turn, ops, m, i) ==> j <= m
  }

  /** The agent worked on after p: by a call that asks nothing and was not refused. */
  ghost predicate WorkedAfter(turn: string, ops: seq<Op>, p: int) {
    exists w: nat :: w < |ops| && w in Held(ops) && w > p && ops[w].UseTool? && !ops[w].question && !IsRefused(turn, ops, w)
  }

  /** Nothing came after call i, or after its first result if it has one. */
  ghost predicate StandsAtCall(turn: string, ops: seq<Op>, i: nat)
    requires i < |ops|
  {
    if exists j: nat :: IsFirstResult(turn, ops, j, i)
    then exists j: nat :: IsFirstResult(turn, ops, j, i) && !WorkedAfter(turn, ops, j)
    else !WorkedAfter(turn, ops, i)
  }

  ghost predicate IsAnswered(turn: string, ops: seq<Op>, i: nat)
    requires i < |ops|
  {
    exists j: nat :: IsFirstResult(turn, ops, j, i) && !ops[j].isError
  }

  /** What was raised for the call with the id still stands; a call not held is older than
      all that is. */
  ghost predicate StandsFor(turn: string, ops: seq<Op>, id: string, asks: bool) {
    if exists i: nat :: Newer(ops, i, id)
    then exists i: nat :: Newer(ops, i, id) && StandsAtCall(turn, ops, i) && !(asks && IsAnswered(turn, ops, i))
    else !WorkedAfter(turn, ops, -1)
  }

  /** The question or the refusal that came at k still stands. A refusal that names no call is
      of the last thing the agent did. */
  ghost predicate Stands(turn: string, ops: seq<Op>, k: nat)
    requires k < |ops|
  {
    match ops[k]
    case UseTool(id, _, _) => if id == "" then !WorkedAfter(turn, ops, k) else StandsFor(turn, ops, id, true)
    case Refuse(_, id) => id == "" || StandsFor(turn, ops, id, false)
    case _ => !WorkedAfter(turn, ops, k)
  }

  /** The signal is what came at k. */
  predicate RaisedAt(op: Op, sig: Signal) {
    match op
    case UseTool(id, question, asked) =>
      question && sig.kind.Question? && sig.text == Clip(asked) && sig.toolCall && sig.toolID == id && sig.byTool == (id != "")
    case Ask(asked) => sig.kind.Question? && sig.text == Clip(asked) && !sig.byTool && !sig.toolCall
    case PermissionRequest(_, text) => sig.kind.Approval? && sig.text == Clip(text) && !sig.byTool && !sig.toolCall
    case Resolve(_, allowed, text) => !allowed && sig.kind.Approval? && sig.text == Clip(text) && !sig.byTool && !sig.toolCall
    case Refuse(text, id) => sig.kind.Approval? && sig.text == Clip(text) && sig.byTool && sig.toolID == id && !sig.toolCall
    case _ => false
  }

  // ---- ticks -------------------------------------------------------------------------------------

  ghost function Tick(turn: string, ops: seq<Op>, k: nat): int
    requires k <= |ops|
  {
    Before(turn, ops, k).tick
  }

  lemma {:induction false} TrimKeepsCalls(t: Turn)
    requires WellFormed(t)
    ensures var c := Trim(t).calls;
      && c == t.calls.(tools := c.tools) && |c.tools| == |t.calls.tools|
      && forall i :: 0 <= i < |c.tools| ==> c.tools[i] == t.calls.tools[i].(blocksAt := c.tools[i].blocksAt)
    ensures var a := Trim(t).asks;
      && |a.signals| == |t.asks.signals| && |a.pending| == |t.asks.pending|
      && (forall i :: 0 <= i < |a.signals| ==> a.signals[i] == t.asks.signals[i].(at := a.signals[i].at))
      && forall i :: 0 <= i < |a.pending| ==> a.pending[i].sig == t.asks.pending[i].sig.(at := a.pending[i].sig.at)
    decreases |t.buffer.blocks|
  {
    if TooMuch(|t.buffer.blocks|, t.buffer.bytes) {
      TrimKeepsCalls(DropOldest(t));
    }
  }

  /** What an event does to the calls, but for where they sit in the text. */
  lemma ApplyToCalls(t: Turn, op: Op)
    requires WellFormed(t)
    ensures var (c, n) := (Apply(t, op).calls, NotedCalls(t.calls, |t.buffer.blocks|, op));
      && c == n.(tools := c.tools) && |c.tools| == |n.tools|
      && forall i :: 0 <= i < |c.tools| ==> c.tools[i] == n.tools[i].(blocksAt := c.tools[i].blocksAt)
  {
    if op.Delta? {
      AppendCounts(t.buffer, op.text, op.blockID, op.final);
      if op.text != [] { TrimKeepsCalls(t.(buffer := Append(t.buffer, op.text, op.blockID, op.final))); }
    }
  }

  lemma OneMore(turn: string, ops: seq<Op>, op: Op)
    ensures Before(turn, ops + [op], |ops| + 1) == Apply(TurnOf(turn, ops), op).calls
    ensures forall k: nat :: k <= |ops| ==> Before(turn, ops + [op], k) == Before(turn, ops, k)
  {
    assert (ops + [op])[..|ops| + 1] == ops + [op];
    assert Front(ops + [op]) == ops && Last(ops + [op]) == op;
    forall k: nat | k <= |ops| ensures Before(turn, ops + [op], k) == Before(turn, ops, k) {
      assert (ops + [op])[..k] == ops[..k];
    }
  }

  // ---- the calls held --------------------------------------------------------------------------------

  predicate Increasing(list: seq<nat>, bound: nat) {
    (forall x :: x in list ==> x < bound) && forall a, b :: 0 <= a < b < |list| ==> list[a] < list[b]
  }

  lemma {:induction false} MadeInOrder(ops: seq<Op>)
    ensures Increasing(CallsMade(ops), |ops|)
    ensures forall x :: x in CallsMade(ops) ==> ops[x].UseTool?
  {
    if ops != [] {
      MadeInOrder(Front(ops));
      assert forall x: nat :: x < |ops| - 1 ==> Front(ops)[x] == ops[x];
      var (made, n) := (CallsMade(Front(ops)), |ops| - 1);
      forall a, b | 0 <= a < b < |CallsMade(ops)| ensures CallsMade(ops)[a] < CallsMade(ops)[b] {
        assert made[a] in made;
      }
    }
  }

  lemma HeldInOrder(ops: seq<Op>)
    ensures Increasing(Held(ops), |ops|) && |Held(ops)| <= MAX_TOOLS
    ensures forall x :: x in Held(ops) ==> ops[x].UseTool?
  {
    MadeInOrder(ops);
    assert forall x :: x in Held(ops) ==> x in CallsMade(ops);
  }

  lemma HeldGrows(ops: seq<Op>, op: Op)
    ensures Held(ops + [op]) == if op.UseTool? then Newest(Held(ops) + [|ops|], MAX_TOOLS) else Held(ops)
  {
    assert Front(ops + [op]) == ops && Last(ops + [op]) == op;
    assert CallsMade(ops) + [] == CallsMade(ops);
    if op.UseTool? && |CallsMade(ops)| > MAX_TOOLS {
      assert Held(ops)[1..] == CallsMade(ops)[|CallsMade(ops)| - MAX_TOOLS + 1..];
    }
  }

  // ---- what was said of a call -------------------------------------------------------------------------

  ghost function About(turn: string, ops: seq<Op>, i: nat): set<nat>
    requires i < |ops|
  {
    set j | 0 <= j < |ops| && IsAbout(turn, ops, j, i)
  }

  ghost function Awaiting(turn: string, ops: seq<Op>, id: string): set<nat> {
    set j | 0 <= j < |ops| && Awaits(turn, ops, j, id, |ops|)
  }

  ghost predicate SaysRefused(ops: seq<Op>, js: set<nat>) {
    exists j :: j in js && j < |ops| && ops[j].Refuse?
  }

  ghost predicate IsFirst(ops: seq<Op>, js: set<nat>, j: nat) {
    j in js && j < |ops| && ops[j].ToolResult? && forall m :: m in js && m < |ops| && ops[m].ToolResult? ==> j <= m
  }

  /** What is kept with a call is what was said of it: any refusal, and the first result. */
  ghost predicate Tells(turn: string, ops: seq<Op>, js: set<nat>, f: Facts) {
    && (f.refused <==> SaysRefused(ops, js))
    && (f.result.None? ==> forall j :: j in js && j < |ops| ==> !ops[j].ToolResult?)
    && (f.result.Some? ==> exists j :: IsFirst(ops, js, j) && IsOutcome(turn, ops, j, f.result.value))
  }

  ghost predicate IsOutcome(turn: string, ops: seq<Op>, j: nat, o: Outcome)
    requires j < |ops| && ops[j].ToolResult?
  {
    o.isError == ops[j].isError && Tick(turn, ops, j) < o.tick == Tick(turn, ops, j + 1)
  }

  function Learned(f: Facts, op: Op, tick: int): Facts {
    match op
    case Refuse(_, _) => f.(refused := true)
    case ToolResult(_, isError) => if f.result.Some? then f else f.(result := Some(Outcome(isError, tick + 1)))
    case _ => f
  }

  lemma SameTold(turn: string, ops: seq<Op>, op: Op, js: set<nat>, f: Facts)
    requires Tells(turn, ops, js, f) && forall j :: j in js ==> j < |ops|
    ensures Tells(turn, ops + [op], js, f)
  {
    if f.result.Some? {
      var j :| IsFirst(ops, js, j) && IsOutcome(turn, ops, j, f.result.value);
      OutcomeStays(turn, ops, op, j, f.result.value);
      assert IsFirst(ops + [op], js, j);
    }
    if SaysRefused(ops, js) {
      var j :| j in js && j < |ops| && ops[j].Refuse?;
      assert (ops + [op])[j].Refuse?;
    }
  }

  lemma MoreRefused(ops: seq<Op>, op: Op, js: set<nat>)
    requires forall j :: j in js ==> j < |ops|
    ensures SaysRefused(ops + [op], js + {|ops|}) <==> SaysRefused(ops, js) || op.Refuse?
  {
    var all := ops + [op];
    if SaysRefused(ops, js) {
      var j :| j in js && j < |ops| && ops[j].Refuse?;
      assert j in js + {|ops|} && all[j].Refuse?;
    }
    assert all[|ops|] == op && |ops| in js + {|ops|};
  }

  lemma FirstStays(ops: seq<Op>, op: Op, js: set<nat>, j: nat)
    requires IsFirst(ops, js, j) && forall m :: m in js ==> m < |ops|
    ensures IsFirst(ops + [op], js + {|ops|}, j)
  {
  }

  lemma FirstIsNew(ops: seq<Op>, op: Op, js: set<nat>)
    requires op.ToolResult? && forall m :: m in js ==> m < |ops| && !ops[m].ToolResult?
    ensures IsFirst(ops + [op], js + {|ops|}, |ops|)
  {
  }

  lemma OutcomeStays(turn: string, ops: seq<Op>, op: Op, j: nat, o: Outcome)
    requires j < |ops| && ops[j].ToolResult? && IsOutcome(turn, ops, j, o)
    ensures IsOutcome(turn, ops + [op], j, o)
  {
    OneMore(turn, ops, op);
  }

  lemma OneMoreTold(turn: string, ops: seq<Op>, op: Op, js: set<nat>, f: Facts)
    requires Tells(turn, ops, js, f) && forall j :: j in js ==> j < |ops|
    requires op.Refuse? || op.ToolResult?
    requires op.ToolResult? && f.result.None? ==> Tick(turn, ops + [op], |ops| + 1) == Tick(turn, ops, |ops|) + 1
    ensures Tells(turn, ops + [op], js + {|ops|}, Learned(f, op, Tick(turn, ops, |ops|)))
  {
    var (all, more, now) := (ops + [op], js + {|ops|}, Learned(f, op, Tick(turn, ops, |ops|)));
    MoreRefused(ops, op, js);
    if f.result.Some? {
      var j :| IsFirst(ops, js, j) && IsOutcome(turn, ops, j, f.result.value);
      FirstStays(ops, op, js, j);
      OutcomeStays(turn, ops, op, j, f.result.value);
    } else if op.ToolResult? {
      FirstIsNew(ops, op, js);
      OneMore(turn, ops, op);
      assert IsOutcome(turn, all, |ops|, now.result.value);
    }
  }

  lemma SameAbout(turn: string, ops: seq<Op>, op: Op, j: nat, i: nat)
    requires j < |ops| && i < |ops|
    ensures IsAbout(turn, ops + [op], j, i) <==> IsAbout(turn, ops, j, i)
  {
    AwaitsSame(turn, ops, op, j, i);
    assert (ops + [op])[..j] == ops[..j];
  }

  lemma NewAbout(turn: string, ops: seq<Op>, op: Op, i: nat)
    requires i < |ops|
    ensures IsAbout(turn, ops + [op], |ops|, i) <==> Newer(ops, i, Names(op))
  {
    assert (ops + [op])[..|ops|] == ops;
  }

  lemma AboutGrows(turn: string, ops: seq<Op>, op: Op, i: nat)
    requires i < |ops|
    ensures About(turn, ops + [op], i) == About(turn, ops, i) + (if Newer(ops, i, Names(op)) then {|ops|} else {})
  {
    forall j: nat | j < |ops| ensures j in About(turn, ops + [op], i) <==> j in About(turn, ops, i) {
      SameAbout(turn, ops, op, j, i);
    }
    NewAbout(turn, ops, op, i);
  }

  /** What was kept for a call until it came is about it. */
  lemma AboutNew(turn: string, ops: seq<Op>, op: Op)
    requires op.UseTool?
    ensures About(turn, ops + [op], |ops|) == Awaiting(turn, ops, op.id)
  {
    forall j: nat | j < |ops| ensures IsAbout(turn, ops + [op], j, |ops|) <==> Awaits(turn, ops, j, op.id, |ops|) {
      AwaitsSame(turn, ops, op, j, |ops|);
    }
  }

  lemma AwaitingNone(turn: string, ops: seq<Op>, id: string)
    requires id !in TurnOf(turn, ops).calls.early
    ensures Awaiting(turn, ops, id) == {}
  {
    assert ops[..|ops|] == ops;
    forall j: nat | j < |ops| ensures !Awaits(turn, ops, j, id, |ops|) {
      assert id !in Before(turn, ops, |ops|).early;
    }
  }

  lemma AwaitingGrows(turn: string, ops: seq<Op>, op: Op, id: string)
    requires id in TurnOf(turn, ops + [op]).calls.early && id != ""
    ensures Awaiting(turn, ops + [op], id) == Awaiting(turn, ops, id) + (if Names(op) == id then {|ops|} else {})
  {
    forall j: nat | j < |ops| ensures Awaits(turn, ops + [op], j, id, |ops| + 1) <==> Awaits(turn, ops, j, id, |ops|) {
      AwaitsOn(turn, ops, op, j, id);
    }
    AwaitsNow(turn, ops, op, id);
  }

  lemma AwaitsOn(turn: string, ops: seq<Op>, op: Op, j: nat, id: string)
    requires id in TurnOf(turn, ops + [op]).calls.early && j < |ops|
    ensures Awaits(turn, ops + [op], j, id, |ops| + 1) <==> Awaits(turn, ops, j, id, |ops|)
  {
    OneMore(turn, ops, op);
    AwaitsSame(turn, ops, op, j, |ops|);
    assert (ops + [op])[..|ops| + 1] == ops + [op];
  }

  lemma AwaitsNow(turn: string, ops: seq<Op>, op: Op, id: string)
    requires id in TurnOf(turn, ops + [op]).calls.early && id != ""
    ensures Awaits(turn, ops + [op], |ops|, id, |ops| + 1) <==> Names(op) == id
  {
    assert (ops + [op])[..|ops| + 1] == ops + [op];
  }

  lemma AwaitsSame(turn: string, ops: seq<Op>, op: Op, j: nat, until: nat)
    requires until <= |ops|
    ensures forall id :: Awaits(turn, ops + [op], j, id, until) <==> Awaits(turn, ops, j, id, until)
  {
    OneMore(turn, ops, op);
  }

  // ---- the turn's own books ----------------------------------------------------------------------------

  predicate IsCall(ops: seq<Op>, tool: Tool, i: nat) {
    i < |ops| && ops[i].UseTool? && tool.id == ops[i].id && tool.question == ops[i].question
  }

  predicate AreCalls(ops: seq<Op>, tools: seq<Tool>, held: seq<nat>) {
    |tools| == |held| && forall k :: 0 <= k < |tools| ==> IsCall(ops, tools[k], held[k])
  }

  ghost predicate ToolOk(turn: string, ops: seq<Op>, tool: Tool, i: nat) {
    && IsCall(ops, tool, i)
    && Tick(turn, ops, i) < tool.tick == Tick(turn, ops, i + 1)
    && Tells(turn, ops, About(turn, ops, i), tool.facts)
  }

  ghost predicate ToolsOk(turn: string, ops: seq<Op>, tools: seq<Tool>) {
    |tools| == |Held(ops)| && forall k :: 0 <= k < |tools| ==> ToolOk(turn, ops, tools[k], Held(ops)[k])
  }

  ghost predicate EarlyOk(turn: string, ops: seq<Op>, early: map<string, Facts>) {
    forall id :: id in early ==> Tells(turn, ops, Awaiting(turn, ops, id), early[id])
  }

  lemma AreTheCalls(turn: string, ops: seq<Op>, tools: seq<Tool>)
    requires ToolsOk(turn, ops, tools)
    ensures AreCalls(ops, tools, Held(ops))
  {
    forall k | 0 <= k < |tools| ensures IsCall(ops, tools[k], Held(ops)[k]) {
      assert ToolOk(turn, ops, tools[k], Held(ops)[k]);
    }
  }

  lemma NewestIsHeld(ops: seq<Op>, tools: seq<Tool>, id: string, k: nat)
    requires AreCalls(ops, tools, Held(ops)) && ToolIndex(tools, id) == Some(k)
    ensures k < |Held(ops)| && Newer(ops, Held(ops)[k], id)
  {
    HeldInOrder(ops);
    var h := Held(ops);
    assert IsCall(ops, tools[k], h[k]) && h[k] in h;
    forall w: nat | IsHeld(ops, w, id) ensures w <= h[k] {
      var m :| 0 <= m < |h| && h[m] == w;
      assert IsCall(ops, tools[m], h[m]);
    }
  }

  lemma HeldIsNewest(ops: seq<Op>, tools: seq<Tool>, id: string, i: nat)
    requires AreCalls(ops, tools, Held(ops)) && Newer(ops, i, id)
    ensures ToolIndex(tools, id).Some? && ToolIndex(tools, id).value < |Held(ops)| && Held(ops)[ToolIndex(tools, id).value] == i
  {
    var h := Held(ops);
    var m :| 0 <= m < |h| && h[m] == i;
    assert IsCall(ops, tools[m], h[m]);
    NewestIsHeld(ops, tools, id, ToolIndex(tools, id).value);
  }

  /** What a result or a refusal does to what is known of the call it names. */
  lemma FactIsLearned(c: Calls, blocks: nat, op: Op)
    requires Names(op) != ""
    ensures var (now, id) := (NotedCalls(c, blocks, op), Names(op));
      && (op.ToolResult? && FactsOf(c, id).result.None? ==> now.tick == c.tick + 1)
      && match ToolIndex(c.tools, id)
         case Some(k) =>
           now.tools == c.tools[k := c.tools[k].(facts := Learned(c.tools[k].facts, op, c.tick))] && now.early == c.early
         case None =>
           && now.tools == c.tools && id in now.early && now.early[id] == Learned(FactsOf(c, id), op, c.tick)
           && forall x :: x in now.early && x != id ==> x in c.early && now.early[x] == c.early[x]
  {
  }

  lemma AboutIsPast(turn: string, ops: seq<Op>, i: nat, id: string)
    requires i < |ops|
    ensures forall j :: j in About(turn, ops, i) || j in Awaiting(turn, ops, id) ==> j < |ops|
  {
  }

  lemma SameTicks(turn: string, ops: seq<Op>, op: Op, i: nat)
    requires i < |ops|
    ensures Tick(turn, ops + [op], i) == Tick(turn, ops, i) && Tick(turn, ops + [op], i + 1) == Tick(turn, ops, i + 1)
  {
    OneMore(turn, ops, op);
  }

  /** A call that the event says nothing of. */
  lemma ToolStays(turn: string, ops: seq<Op>, op: Op, tool: Tool, i: nat)
    requires ToolOk(turn, ops, tool, i) && !Newer(ops, i, Names(op))
    ensures ToolOk(turn, ops + [op], tool, i)
  {
    SameTicks(turn, ops, op, i);
    AboutGrows(turn, ops, op, i);
    AboutIsPast(turn, ops, i, "");
    SameTold(turn, ops, op, About(turn, ops, i), tool.facts);
  }

  lemma ToolLearns(turn: string, ops: seq<Op>, op: Op, tool: Tool, i: nat)
    requires ToolOk(turn, ops, tool, i) && Newer(ops, i, Names(op))
    requires op.ToolResult? && tool.facts.result.None? ==> Tick(turn, ops + [op], |ops| + 1) == Tick(turn, ops, |ops|) + 1
    ensures ToolOk(turn, ops + [op], tool.(facts := Learned(tool.facts, op, Tick(turn, ops, |ops|))), i)
  {
    SameTicks(turn, ops, op, i);
    AboutGrows(turn, ops, op, i);
    AboutIsPast(turn, ops, i, "");
    OneMoreTold(turn, ops, op, About(turn, ops, i), tool.facts);
  }

  lemma TickNow(turn: string, ops: seq<Op>, op: Op)
    ensures Tick(turn, ops, |ops|) == TurnOf(turn, ops).calls.tick
    ensures Tick(turn, ops + [op], |ops| + 1)
      == NotedCalls(TurnOf(turn, ops).calls, |TurnOf(turn, ops).buffer.blocks|, op).tick
  {
    OneMore(turn, ops, op);
    assert ops[..|ops|] == ops;
    ApplyToCalls(TurnOf(turn, ops), op);
  }

  lemma FactKeepsTool(turn: string, ops: seq<Op>, op: Op, k: nat)
    requires Names(op) != ""
    requires ToolsOk(turn, ops, TurnOf(turn, ops).calls.tools) && k < |Held(ops)|
    ensures var t := TurnOf(turn, ops);
      var now := NotedCalls(t.calls, |t.buffer.blocks|, op);
      |now.tools| == |Held(ops)| && ToolOk(turn, ops + [op], now.tools[k], Held(ops)[k])
  {
    var t := TurnOf(turn, ops);
    var (c, i) := (t.calls, Held(ops)[k]);
    FactIsLearned(c, |t.buffer.blocks|, op);
    AreTheCalls(turn, ops, c.tools);
    TickNow(turn, ops, op);
    assert ToolOk(turn, ops, c.tools[k], i);
    if ToolIndex(c.tools, Names(op)) == Some(k) {
      NewestIsHeld(ops, c.tools, Names(op), k);
      ToolLearns(turn, ops, op, c.tools[k], i);
    } else {
      if Newer(ops, i, Names(op)) { NotTwice(ops, c.tools, Names(op), k); }
      ToolStays(turn, ops, op, c.tools[k], i);
    }
  }

  lemma NotTwice(ops: seq<Op>, tools: seq<Tool>, id: string, k: nat)
    requires AreCalls(ops, tools, Held(ops)) && k < |tools| && Newer(ops, Held(ops)[k], id)
    ensures ToolIndex(tools, id) == Some(k)
  {
    HeldInOrder(ops);
    HeldIsNewest(ops, tools, id, Held(ops)[k]);
  }

  lemma FactKeepsTools(turn: string, ops: seq<Op>, op: Op)
    requires Names(op) != ""
    requires ToolsOk(turn, ops, TurnOf(turn, ops).calls.tools)
    ensures ToolsOk(turn, ops + [op], NotedCalls(TurnOf(turn, ops).calls, |TurnOf(turn, ops).buffer.blocks|, op).tools)
  {
    HeldGrows(ops, op);
    FactIsLearned(TurnOf(turn, ops).calls, |TurnOf(turn, ops).buffer.blocks|, op);
    forall k: nat | k < |Held(ops)|
      ensures ToolOk(turn, ops + [op], NotedCalls(TurnOf(turn, ops).calls, |TurnOf(turn, ops).buffer.blocks|, op).tools[k], Held(ops)[k]) {
      FactKeepsTool(turn, ops, op, k);
    }
  }

  lemma FactKeepsEarly(turn: string, ops: seq<Op>, op: Op)
    requires Names(op) != "" && Tidy(TurnOf(turn, ops).calls)
    requires EarlyOk(turn, ops, TurnOf(turn, ops).calls.early)
    ensures EarlyOk(turn, ops + [op], TurnOf(turn, ops + [op]).calls.early)
  {
    var t := TurnOf(turn, ops);
    var (c, now) := (t.calls, TurnOf(turn, ops + [op]).calls);
    FactIsLearned(c, |t.buffer.blocks|, op);
    TickNow(turn, ops, op);
    assert Front(ops + [op]) == ops;
    forall id | id in now.early ensures Tells(turn, ops + [op], Awaiting(turn, ops + [op], id), now.early[id]) {
      AwaitingGrows(turn, ops, op, id);
      if id !in c.early {
        AwaitingNone(turn, ops, id);
        assert Tells(turn, ops, {}, NO_FACTS);
      }
      if id == Names(op) {
        OneMoreTold(turn, ops, op, Awaiting(turn, ops, id), FactsOf(c, id));
      } else {
        SameTold(turn, ops, op, Awaiting(turn, ops, id), c.early[id]);
      }
    }
  }

  // ---- a call is made ------------------------------------------------------------------------------------

  lemma NewCallIsTold(turn: string, ops: seq<Op>, op: Op)
    requires op.UseTool? && EarlyOk(turn, ops, TurnOf(turn, ops).calls.early) && Tidy(TurnOf(turn, ops).calls)
    ensures var c := TurnOf(turn, ops).calls;
      Tells(turn, ops + [op], About(turn, ops + [op], |ops|), if op.id in c.early then c.early[op.id] else NO_FACTS)
  {
    var c := TurnOf(turn, ops).calls;
    AboutNew(turn, ops, op);
    if op.id in c.early {
      SameTold(turn, ops, op, Awaiting(turn, ops, op.id), c.early[op.id]);
    } else {
      AwaitingNone(turn, ops, op.id);
    }
  }

  lemma NewCallIsOk(turn: string, ops: seq<Op>, op: Op, tool: Tool)
    requires op.UseTool? && EarlyOk(turn, ops, TurnOf(turn, ops).calls.early) && Tidy(TurnOf(turn, ops).calls)
    requires var c := TurnOf(turn, ops).calls;
      tool == Tool(op.id, tool.blocksAt, c.tick + 1, op.question, if op.id in c.early then c.early[op.id] else NO_FACTS)
    ensures ToolOk(turn, ops + [op], tool, |ops|)
  {
    TickNow(turn, ops, op);
    NewCallIsTold(turn, ops, op);
    OneMore(turn, ops, op);
  }

  lemma NewCallIsLast(c: Calls, blocks: nat, op: Op)
    requires op.UseTool? && Tidy(c)
    ensures var now := NotedCalls(c, blocks, op);
      now.tools == Newest(c.tools + [Tool(op.id, blocks, c.tick + 1, op.question, if op.id in c.early then c.early[op.id] else NO_FACTS)], MAX_TOOLS)
  {
  }

  lemma CallKeepsTools(turn: string, ops: seq<Op>, op: Op)
    requires op.UseTool? && EarlyOk(turn, ops, TurnOf(turn, ops).calls.early) && Tidy(TurnOf(turn, ops).calls)
    requires ToolsOk(turn, ops, TurnOf(turn, ops).calls.tools)
    ensures ToolsOk(turn, ops + [op], NotedCalls(TurnOf(turn, ops).calls, |TurnOf(turn, ops).buffer.blocks|, op).tools)
  {
    var t := TurnOf(turn, ops);
    var c := t.calls;
    var tool := Tool(op.id, |t.buffer.blocks|, c.tick + 1, op.question, if op.id in c.early then c.early[op.id] else NO_FACTS);
    NewCallIsLast(c, |t.buffer.blocks|, op);
    NewCallIsOk(turn, ops, op, tool);
    HeldGrows(ops, op);
    forall k: nat | k < |c.tools| ensures ToolOk(turn, ops + [op], c.tools[k], Held(ops)[k]) {
      ToolStays(turn, ops, op, c.tools[k], Held(ops)[k]);
    }
    NewestOk(turn, ops + [op], c.tools + [tool], Held(ops) + [|ops|]);
  }

  lemma NewestOk(turn: string, ops: seq<Op>, tools: seq<Tool>, held: seq<nat>)
    requires |tools| == |held| && Held(ops) == Newest(held, MAX_TOOLS)
    requires forall k :: 0 <= k < |tools| ==> ToolOk(turn, ops, tools[k], held[k])
    ensures ToolsOk(turn, ops, Newest(tools, MAX_TOOLS))
  {
  }

  lemma SilentKeepsEarly(turn: string, ops: seq<Op>, op: Op)
    requires Names(op) == "" && Tidy(TurnOf(turn, ops).calls) && EarlyOk(turn, ops, TurnOf(turn, ops).calls.early)
    ensures EarlyOk(turn, ops + [op], TurnOf(turn, ops + [op]).calls.early)
  {
    var t := TurnOf(turn, ops);
    var (c, now) := (t.calls, TurnOf(turn, ops + [op]).calls);
    ApplyToCalls(t, op);
    assert Front(ops + [op]) == ops;
    forall id | id in now.early ensures Tells(turn, ops + [op], Awaiting(turn, ops + [op], id), now.early[id]) {
      AwaitingGrows(turn, ops, op, id);
      SameTold(turn, ops, op, Awaiting(turn, ops, id), c.early[id]);
    }
  }

  // ---- after any events ----------------------------------------------------------------------------------

  ghost predicate CallsOk(turn: string, ops: seq<Op>) {
    ToolsOk(turn, ops, TurnOf(turn, ops).calls.tools) && EarlyOk(turn, ops, TurnOf(turn, ops).calls.early)
  }

  lemma SilentKeepsTools(turn: string, ops: seq<Op>, op: Op)
    requires Names(op) == "" && !op.UseTool?
    requires ToolsOk(turn, ops, TurnOf(turn, ops).calls.tools)
    ensures ToolsOk(turn, ops + [op], NotedCalls(TurnOf(turn, ops).calls, |TurnOf(turn, ops).buffer.blocks|, op).tools)
  {
    HeldGrows(ops, op);
    forall k: nat | k < |Held(ops)| ensures ToolOk(turn, ops + [op], TurnOf(turn, ops).calls.tools[k], Held(ops)[k]) {
      ToolStays(turn, ops, op, TurnOf(turn, ops).calls.tools[k], Held(ops)[k]);
    }
  }

  lemma ShiftKeepsTools(turn: string, ops: seq<Op>, tools: seq<Tool>, now: seq<Tool>)
    requires ToolsOk(turn, ops, tools) && |now| == |tools|
    requires forall i :: 0 <= i < |now| ==> now[i] == tools[i].(blocksAt := now[i].blocksAt)
    ensures ToolsOk(turn, ops, now)
  {
    forall k: nat | k < |now| ensures ToolOk(turn, ops, now[k], Held(ops)[k]) {
      assert ToolOk(turn, ops, tools[k], Held(ops)[k]);
    }
  }

  lemma StepKeepsCalls(turn: string, ops: seq<Op>, op: Op)
    requires CallsOk(turn, ops)
    ensures CallsOk(turn, ops + [op])
  {
    var t := TurnOf(turn, ops);
    TurnsAreReachable(turn, ops);
    ApplyToCalls(t, op);
    assert Front(ops + [op]) == ops;
    if Names(op) != "" {
      FactKeepsTools(turn, ops, op);
      FactKeepsEarly(turn, ops, op);
    } else {
      SilentKeepsEarly(turn, ops, op);
      if op.UseTool? { CallKeepsTools(turn, ops, op); } else { SilentKeepsTools(turn, ops, op); }
    }
    ShiftKeepsTools(turn, ops + [op], NotedCalls(t.calls, |t.buffer.blocks|, op).tools, TurnOf(turn, ops + [op]).calls.tools);
  }

  lemma {:induction false} CallsAreOk(turn: string, ops: seq<Op>)
    ensures CallsOk(turn, ops)
  {
    if ops != [] {
      CallsAreOk(turn, Front(ops));
      StepKeepsCalls(turn, Front(ops), Last(ops));
      assert Front(ops) + [Last(ops)] == ops;
    }
  }

  lemma TickStep(turn: string, ops: seq<Op>, k: nat)
    requires k < |ops|
    ensures Tick(turn, ops, k) <= Tick(turn, ops, k + 1)
    ensures ops[k].UseTool? ==> Tick(turn, ops, k) < Tick(turn, ops, k + 1)
  {
    var t := TurnOf(turn, ops[..k]);
    TurnsAreReachable(turn, ops[..k]);
    assert Front(ops[..k + 1]) == ops[..k] && Last(ops[..k + 1]) == ops[k];
    ApplyToCalls(t, ops[k]);
    NotedUpTo(t.calls, |t.buffer.blocks|, ops[k]);
  }

  lemma {:induction false} TicksGrow(turn: string, ops: seq<Op>, a: nat, b: nat)
    requires a <= b <= |ops|
    ensures Tick(turn, ops, a) <= Tick(turn, ops, b)
    decreases b - a
  {
    if a < b {
      TickStep(turn, ops, a);
      TicksGrow(turn, ops, a + 1, b);
    }
  }

  /** A call that came after p has a later tick, and no other call has. */
  ghost predicate IsPoint(turn: string, ops: seq<Op>, p: int, point: int) {
    forall w: nat :: w < |ops| && ops[w].UseTool? ==> (w > p <==> Tick(turn, ops, w + 1) > point)
  }

  /** The tick of what came at p: its own if it is a call or a result, else that of the call
      before it. */
  lemma PointOf(turn: string, ops: seq<Op>, p: nat, point: int)
    requires p < |ops| && point == Tick(turn, ops, if ops[p].UseTool? || ops[p].ToolResult? then p + 1 else p)
    ensures IsPoint(turn, ops, p, point)
  {
    forall w: nat | w < |ops| && ops[w].UseTool? ensures w > p <==> Tick(turn, ops, w + 1) > point {
      TickStep(turn, ops, w);
      if w > p { TicksGrow(turn, ops, p + 1, w); TickStep(turn, ops, p); }
      if w < p { TicksGrow(turn, ops, w + 1, p); TickStep(turn, ops, p); }
    }
  }

  lemma WorkedIs(turn: string, ops: seq<Op>, p: int, point: int)
    requires CallsOk(turn, ops) && IsPoint(turn, ops, p, point)
    ensures var tools := TurnOf(turn, ops).calls.tools;
      WorkedAfter(turn, ops, p) <==> exists k :: 0 <= k < |tools| && WorksPast(tools[k], point)
  {
    var tools := TurnOf(turn, ops).calls.tools;
    var h := Held(ops);
    HeldInOrder(ops);
    forall k | 0 <= k < |tools|
      ensures WorksPast(tools[k], point) <==> h[k] > p && !ops[h[k]].question && !IsRefused(turn, ops, h[k]) {
      WorksIs(turn, ops, tools[k], h[k], p, point);
    }
    if WorkedAfter(turn, ops, p) {
      var w: nat :| w < |ops| && w in h && w > p && ops[w].UseTool? && !ops[w].question && !IsRefused(turn, ops, w);
      var k :| 0 <= k < |h| && h[k] == w;
      assert WorksPast(tools[k], point);
    }
    if k :| 0 <= k < |tools| && WorksPast(tools[k], point) {
      assert h[k] in h;
    }
  }

  lemma WorksIs(turn: string, ops: seq<Op>, tool: Tool, w: nat, p: int, point: int)
    requires ToolOk(turn, ops, tool, w) && IsPoint(turn, ops, p, point)
    ensures WorksPast(tool, point) <==> w > p && !ops[w].question && !IsRefused(turn, ops, w)
  {
    assert IsRefused(turn, ops, w) <==> SaysRefused(ops, About(turn, ops, w)) by {
      if IsRefused(turn, ops, w) {
        var j: nat :| j < |ops| && ops[j].Refuse? && IsAbout(turn, ops, j, w);
        assert j in About(turn, ops, w);
      }
    }
  }
}
