/**
 * The order of arrival does not matter. A refusal or a result reaches the reducer on
 * another path than the call it names, and can come first; the turn then ends as it
 * would have had it come after.
 */
module SignalOrder {
  import opened Bytes
  import opened Lists
  import opened Options
  import opened TurnInvariants
  import opened TurnModel

  /** The turn knows nothing of the call id. */
  ghost predicate Fresh(t: Turn, id: string) {
    && id != "" && ToolIndex(t.calls.tools, id).None? && id !in t.calls.early
    && forall i :: 0 <= i < |t.asks.signals| ==> !(t.asks.signals[i].byTool && t.asks.signals[i].toolID == id)
  }

  predicate EarlyHasRoom(t: Turn) {
    |t.calls.earlyOrder| < MAX_EARLY
  }

  function Kept(c: Calls): seq<Tool> {
    if |c.tools| >= MAX_TOOLS then c.tools[1..] else c.tools
  }

  // ---- a call and its refusal -------------------------------------------------------------------

  /** The calls with one more, already refused. */
  function RefusedCalls(c: Calls, id: string, question: bool, at: nat): Calls {
    c.(tick := c.tick + 1, tools := Kept(c) + [Tool(id, at, c.tick + 1, question, Facts(None, true))])
  }

  lemma RefusedThenCalled(c: Calls, id: string, question: bool, at: nat)
    requires Tidy(c) && id != "" && ToolIndex(c.tools, id).None? && id !in c.early && |c.earlyOrder| < MAX_EARLY
    ensures AddTool(SetRefused(c, id), id, question, at) == RefusedCalls(c, id, question, at)
  {
    WithoutLast(c.earlyOrder, id);
    assert c.early[id := Facts(None, true)] - {id} == c.early;
  }

  /** With no room the early refusal costs the oldest early facts. */
  lemma RefusedThenCalledFull(c: Calls, id: string, question: bool, at: nat)
    requires Tidy(c) && id != "" && ToolIndex(c.tools, id).None? && id !in c.early && |c.earlyOrder| >= MAX_EARLY
    ensures |AddTool(SetRefused(c, id), id, question, at).earlyOrder| < |c.earlyOrder|
  {
    assert c.earlyOrder[0] in c.earlyOrder;
    WithoutOne(c.earlyOrder, c.earlyOrder[0]);
    WithoutLast(Without(c.earlyOrder, c.earlyOrder[0]), id);
  }

  lemma CalledThenRefused(c: Calls, id: string, question: bool, at: nat)
    requires id != "" && id !in c.early
    ensures SetRefused(AddTool(c, id, question, at), id) == RefusedCalls(c, id, question, at)
  {
  }

  function RefusedFirst(t: Turn, id: string, question: bool, asked: seq<Byte>, text: seq<Byte>): Turn {
    Noted(Noted(t, Refuse(text, id)), UseTool(id, question, asked))
  }

  function CalledFirst(t: Turn, id: string, question: bool, asked: seq<Byte>, text: seq<Byte>): Turn {
    Noted(Noted(t, UseTool(id, question, asked)), Refuse(text, id))
  }

  /** The signals of a call and its refusal, in that order or the other. */
  function BothSignals(a: Asks, call: Option<Signal>, refusal: Signal, refusedFirst: bool): Asks {
    if call.None? then AddSignal(a, refusal)
    else if refusedFirst then AddSignal(AddSignal(a, refusal), call.value)
    else AddSignal(AddSignal(a, call.value), refusal)
  }

  function CallSignal(blocks: nat, tick: int, id: string, question: bool, asked: seq<Byte>): Option<Signal> {
    if question then Some(QuestionAsked(asked, id, blocks, tick + 1)) else None
  }

  function Refused(t: Turn, id: string, question: bool, asks: Asks): Turn {
    Turn(t.id, t.usageStop, t.buffer.(anonOpen := false), RefusedCalls(t.calls, id, question, |t.buffer.blocks|), asks)
  }

  /** What two operations do to the parts of a turn. */
  lemma NotedTwice(t: Turn, x: Op, y: Op)
    requires !x.NoteStop? && !y.NoteStop?
    ensures var (n, calls) := (|t.buffer.blocks|, NotedCalls(t.calls, |t.buffer.blocks|, x));
      Noted(Noted(t, x), y)
        == Turn(t.id, t.usageStop, t.buffer.(anonOpen := false), NotedCalls(calls, n, y),
                NotedAsks(NotedAsks(t.asks, n, t.calls.tick, x), n, calls.tick, y))
  {
  }

  lemma CallThenRefusal(c: Calls, a: Asks, n: nat, later: int, id: string, question: bool, asked: seq<Byte>, text: seq<Byte>)
    requires id != "" && id !in c.early
    ensures NotedCalls(NotedCalls(c, n, UseTool(id, question, asked)), n, Refuse(text, id)) == RefusedCalls(c, id, question, n)
    ensures NotedAsks(NotedAsks(a, n, c.tick, UseTool(id, question, asked)), n, later, Refuse(text, id))
      == BothSignals(a, CallSignal(n, c.tick, id, question, asked), Refusal(text, id), false)
  {
    CalledThenRefused(c, id, question, n);
  }

  lemma RefusalThenCall(c: Calls, a: Asks, n: nat, id: string, question: bool, asked: seq<Byte>, text: seq<Byte>)
    requires Tidy(c) && id != "" && ToolIndex(c.tools, id).None? && id !in c.early && |c.earlyOrder| < MAX_EARLY
    ensures NotedCalls(NotedCalls(c, n, Refuse(text, id)), n, UseTool(id, question, asked)) == RefusedCalls(c, id, question, n)
    ensures NotedCalls(c, n, Refuse(text, id)).tick == c.tick
    ensures NotedAsks(NotedAsks(a, n, c.tick, Refuse(text, id)), n, c.tick, UseTool(id, question, asked))
      == BothSignals(a, CallSignal(n, c.tick, id, question, asked), Refusal(text, id), true)
  {
    RefusedThenCalled(c, id, question, n);
  }

  /** Both orders leave the same call; they differ in the order of the signals alone. */
  lemma CallFirst(t: Turn, id: string, question: bool, asked: seq<Byte>, text: seq<Byte>)
    requires Fresh(t, id)
    ensures CalledFirst(t, id, question, asked, text) == Refused(t, id, question,
      BothSignals(t.asks, CallSignal(|t.buffer.blocks|, t.calls.tick, id, question, asked), Refusal(text, id), false))
  {
    NotedTwice(t, UseTool(id, question, asked), Refuse(text, id));
    CallThenRefusal(t.calls, t.asks, |t.buffer.blocks|, t.calls.tick + 1, id, question, asked, text);
  }

  lemma RefusalFirst(t: Turn, id: string, question: bool, asked: seq<Byte>, text: seq<Byte>)
    requires Tidy(t.calls) && Fresh(t, id) && EarlyHasRoom(t)
    ensures RefusedFirst(t, id, question, asked, text) == Refused(t, id, question,
      BothSignals(t.asks, CallSignal(|t.buffer.blocks|, t.calls.tick, id, question, asked), Refusal(text, id), true))
  {
    NotedTwice(t, Refuse(text, id), UseTool(id, question, asked));
    RefusalThenCall(t.calls, t.asks, |t.buffer.blocks|, id, question, asked, text);
  }

  lemma NoRoomDiffers(t: Turn, id: string, question: bool, asked: seq<Byte>, text: seq<Byte>)
    requires Tidy(t.calls) && Fresh(t, id) && !EarlyHasRoom(t)
    ensures |RefusedFirst(t, id, question, asked, text).calls.earlyOrder| < |CalledFirst(t, id, question, asked, text).calls.earlyOrder|
  {
    NotedTwice(t, Refuse(text, id), UseTool(id, question, asked));
    RefusedThenCalledFull(t.calls, id, question, |t.buffer.blocks|);
    CallFirst(t, id, question, asked, text);
  }

  lemma LastSignals(a: Asks, call: Signal, refusal: Signal)
    ensures Last(BothSignals(a, Some(call), refusal, true).signals) == call
    ensures Last(BothSignals(a, Some(call), refusal, false).signals) == refusal
  {
  }

  /** A call and its own refusal in either order: the same turn, exactly while the early
      store has room for the refusal and the call asks nothing. */
  lemma RefusalCommutes(t: Turn, id: string, question: bool, asked: seq<Byte>, text: seq<Byte>)
    requires Reachable(t) && Fresh(t, id)
    ensures RefusedFirst(t, id, question, asked, text) == CalledFirst(t, id, question, asked, text)
      <==> EarlyHasRoom(t) && !question
  {
    if !EarlyHasRoom(t) {
      NoRoomDiffers(t, id, question, asked, text);
    } else {
      CallFirst(t, id, question, asked, text);
      RefusalFirst(t, id, question, asked, text);
      if question {
        LastSignals(t.asks, CallSignal(|t.buffer.blocks|, t.calls.tick, id, question, asked).value, Refusal(text, id));
      }
    }
  }

  // ---- a call and its result --------------------------------------------------------------------

  /** Two turns that took one call and its result in opposite orders, the first with the
      result first, right after tick k. The call is at index i while it is kept. */
  datatype Swap = Swap(k: nat, i: Option<nat>)

  predicate Apart(tick: int, k: nat) {
    tick <= k || tick > k + 2
  }

  predicate ResultApart(f: Facts, k: nat) {
    f.result.Some? ==> Apart(f.result.value.tick, k)
  }

  predicate ToolApart(tool: Tool, k: nat) {
    Apart(tool.tick, k) && ResultApart(tool.facts, k)
  }

  /** The call and its result change places in time. */
  predicate Swapped(x: Tool, y: Tool, k: nat) {
    && x.id != "" && x.facts.result.Some? && x.tick == k + 2 && x.facts.result.value.tick == k + 1
    && y == x.(tick := k + 1, facts := x.facts.(result := Some(Outcome(x.facts.result.value.isError, k + 2))))
  }

  predicate TwinTools(a: seq<Tool>, b: seq<Tool>, sw: Swap) {
    && |a| == |b| && (sw.i.Some? ==> sw.i.value < |a|)
    && forall j :: 0 <= j < |a| ==>
      if sw.i == Some(j) then Swapped(a[j], b[j], sw.k) else a[j] == b[j] && ToolApart(a[j], sw.k)
  }

  predicate TwinCalls(a: Calls, b: Calls, sw: Swap) {
    && a.tick == b.tick >= sw.k + 2 && a.early == b.early && a.earlyOrder == b.earlyOrder
    && TwinTools(a.tools, b.tools, sw)
    && forall x :: x in a.early ==> ResultApart(a.early[x], sw.k)
  }

  /** Where a signal of a call was raised is not what places it. */
  predicate TwinSignal(s: Signal, t: Signal, k: nat) {
    if s.byTool then t == s.(tick := t.tick) else t == s && (s.tick <= k || s.tick >= k + 2)
  }

  predicate TwinAsks(a: Asks, b: Asks, k: nat) {
    && |a.signals| == |b.signals| && a.pending == b.pending
    && (forall j :: 0 <= j < |a.signals| ==> TwinSignal(a.signals[j], b.signals[j], k))
    && forall j :: 0 <= j < |a.pending| ==> !a.pending[j].sig.byTool && TwinSignal(a.pending[j].sig, a.pending[j].sig, k)
  }

  /** A later call took over the id of the one at i. */
  predicate TakenOver(tools: seq<Tool>, i: nat)
    requires i < |tools|
  {
    exists j :: i < j < |tools| && tools[j].id == tools[i].id
  }

  /** A signal that names the swapped call is about a question or a refusal. */
  predicate Excused(tools: seq<Tool>, sw: Swap, sig: Signal)
    requires sw.i.Some? ==> sw.i.value < |tools|
  {
    sw.i.Some? && sig.byTool && sig.toolID == tools[sw.i.value].id ==>
      tools[sw.i.value].question || tools[sw.i.value].facts.refused || TakenOver(tools, sw.i.value)
  }

  predicate AllExcused(tools: seq<Tool>, sw: Swap, signals: seq<Signal>)
    requires sw.i.Some? ==> sw.i.value < |tools|
  {
    forall j :: 0 <= j < |signals| ==> Excused(tools, sw, signals[j])
  }

  ghost predicate Twins(a: Turn, b: Turn, sw: Swap) {
    && a.id == b.id && a.usageStop == b.usageStop && a.buffer == b.buffer
    && TwinCalls(a.calls, b.calls, sw) && TwinAsks(a.asks, b.asks, sw.k)
    && AllExcused(a.calls.tools, sw, a.asks.signals)
  }

  // ---- twins end alike ----------------------------------------------------------------------------

  lemma TwinIndex(a: seq<Tool>, b: seq<Tool>, sw: Swap, id: string)
    requires TwinTools(a, b, sw)
    ensures ToolIndex(a, id) == ToolIndex(b, id)
  {
  }

  /** The points of twin signals split the other calls alike, and no call at all lies
      between them but the swapped one. */
  lemma TwinPlace(a: Calls, b: Calls, sw: Swap, s: Signal, t: Signal)
    requires TwinCalls(a, b, sw) && TwinSignal(s, t, sw.k)
    ensures Place(a, s).0 == Place(b, t).0 && Answered(a, s) == Answered(b, t)
    ensures forall tick :: Apart(tick, sw.k) ==> (tick > Place(a, s).1 <==> tick > Place(b, t).1)
  {
    TwinIndex(a.tools, b.tools, sw, s.toolID);
  }

  lemma TwinOpen(a: Calls, b: Calls, sw: Swap, s: Signal, t: Signal)
    requires TwinCalls(a, b, sw) && TwinSignal(s, t, sw.k) && Excused(a.tools, sw, s)
    ensures IsOpen(a, s) == IsOpen(b, t)
  {
    TwinPlace(a, b, sw, s, t);
    TwinIndex(a.tools, b.tools, sw, s.toolID);
    var (p, q) := (Place(a, s).1, Place(b, t).1);
    forall j | 0 <= j < |a.tools| ensures WorksPast(a.tools[j], p) == WorksPast(b.tools[j], q) {
      if sw.i == Some(j) {
        TwinSelf(a, b, sw, s, t);
      }
    }
  }

  /** The swapped call works past its own signal in neither, or in both. */
  lemma TwinSelf(a: Calls, b: Calls, sw: Swap, s: Signal, t: Signal)
    requires TwinCalls(a, b, sw) && TwinSignal(s, t, sw.k) && Excused(a.tools, sw, s) && sw.i.Some?
    ensures WorksPast(a.tools[sw.i.value], Place(a, s).1) == WorksPast(b.tools[sw.i.value], Place(b, t).1)
  {
  }

  lemma {:induction false} TwinLastOpen(a: Calls, b: Calls, sw: Swap, s: seq<Signal>, t: seq<Signal>, question: bool)
    requires TwinCalls(a, b, sw) && |s| == |t| && AllExcused(a.tools, sw, s)
    requires forall j :: 0 <= j < |s| ==> TwinSignal(s[j], t[j], sw.k)
    ensures var (x, y) := (LastOpen(a, s, question), LastOpen(b, t, question));
      x.Some? == y.Some? && (x.Some? ==> TwinSignal(x.value, y.value, sw.k))
  {
    if s != [] {
      TwinOpen(a, b, sw, Last(s), Last(t));
      TwinLastOpen(a, b, sw, Front(s), Front(t), question);
    }
  }

  lemma TwinVerdict(a: Turn, b: Turn, sw: Swap)
    requires Twins(a, b, sw)
    ensures var (x, y) := (OpenSignal(a), OpenSignal(b));
      x.Some? == y.Some? && (x.Some? ==> TwinSignal(x.value, y.value, sw.k))
  {
    TwinLastOpen(a.calls, b.calls, sw, Signals(a.asks), Signals(b.asks), true);
    TwinLastOpen(a.calls, b.calls, sw, Signals(a.asks), Signals(b.asks), false);
  }

  lemma TwinSignalText(a: Turn, b: Turn, sw: Swap, s: Signal, t: Signal, text: seq<Byte>)
    requires Twins(a, b, sw) && TwinSignal(s, t, sw.k)
    ensures SignalText(a, s, text) == SignalText(b, t, text) && s.kind == t.kind
  {
    TwinPlace(a.calls, b.calls, sw, s, t);
  }

  /** Twins give the same output, whatever ends them. */
  lemma TwinOutput(a: Turn, b: Turn, sw: Swap, term: Ending)
    requires Twins(a, b, sw)
    ensures OutputOf(a, term) == OutputOf(b, term)
  {
    if !IsCut(a, term) && !term.failed {
      TwinVerdict(a, b, sw);
      if OpenSignal(a).Some? {
        TwinSignalText(a, b, sw, OpenSignal(a).value, OpenSignal(b).value, term.text);
      }
    }
  }

  // ---- twins stay twins ---------------------------------------------------------------------------

  function Older(sw: Swap): Swap {
    if sw.i.Some? && sw.i.value > 0 then sw.(i := Some(sw.i.value - 1)) else sw.(i := None)
  }

  /** Where the swapped call is once another was recorded. */
  function AfterCall(c: Calls, sw: Swap): Swap {
    if |c.tools| >= MAX_TOOLS then Older(sw) else sw
  }

  lemma KeptAreTwins(a: Calls, b: Calls, sw: Swap)
    requires TwinCalls(a, b, sw)
    ensures TwinTools(Kept(a), Kept(b), AfterCall(a, sw))
  {
    if |a.tools| >= MAX_TOOLS { RestAreTwins(a.tools, b.tools, sw); }
  }

  lemma RestAreTwins(a: seq<Tool>, b: seq<Tool>, sw: Swap)
    requires TwinTools(a, b, sw) && a != []
    ensures TwinTools(a[1..], b[1..], Older(sw))
  {
    assert forall j :: 0 <= j < |a| - 1 ==> a[1..][j] == a[j + 1] && b[1..][j] == b[j + 1];
  }

  lemma CalledAreTwins(a: Calls, b: Calls, sw: Swap, id: string, question: bool, at: nat)
    requires TwinCalls(a, b, sw)
    ensures TwinCalls(AddTool(a, id, question, at), AddTool(b, id, question, at), AfterCall(a, sw))
  {
    KeptAreTwins(a, b, sw);
    var facts := if id != "" && id in a.early then a.early[id] else NO_FACTS;
    var tool := Tool(id, at, a.tick + 1, question, facts);
    assert AddTool(a, id, question, at).tools == Kept(a) + [tool];
    assert AddTool(b, id, question, at).tools == Kept(b) + [tool];
  }

  lemma KeptAreExcused(a: Calls, sw: Swap, sig: Signal)
    requires sw.i.Some? ==> sw.i.value < |a.tools|
    requires Excused(a.tools, sw, sig)
    ensures var now := AfterCall(a, sw);
      (now.i.Some? ==> now.i.value < |Kept(a)|) && Excused(Kept(a), now, sig)
  {
  }

  lemma AppendExcuses(tools: seq<Tool>, tool: Tool, sw: Swap, sig: Signal)
    requires sw.i.Some? ==> sw.i.value < |tools|
    requires Excused(tools, sw, sig) || sig.toolID == tool.id
    ensures Excused(tools + [tool], sw, sig)
  {
    if sw.i.Some? {
      var i := sw.i.value;
      if TakenOver(tools, i) {
        var j :| i < j < |tools| && tools[j].id == tools[i].id;
        assert (tools + [tool])[j].id == tools[i].id;
      }
      if tool.id == tools[i].id {
        assert (tools + [tool])[|tools|].id == (tools + [tool])[i].id;
      }
    }
  }

  lemma CallExcuses(a: Calls, sw: Swap, id: string, question: bool, at: nat, sig: Signal)
    requires sw.i.Some? ==> sw.i.value < |a.tools|
    requires Excused(a.tools, sw, sig) || sig.toolID == id
    ensures AfterCall(a, sw).i.Some? ==> AfterCall(a, sw).i.value < |AddTool(a, id, question, at).tools|
    ensures Excused(AddTool(a, id, question, at).tools, AfterCall(a, sw), sig)
  {
    var r := AddTool(a, id, question, at);
    assert r.tools == Kept(a) + [Last(r.tools)];
    if Excused(a.tools, sw, sig) { KeptAreExcused(a, sw, sig); }
    AppendExcuses(Kept(a), Last(r.tools), AfterCall(a, sw), sig);
  }

  /** Facts written to twins: of the swapped call only its refusal can change. */
  lemma FactsAreTwins(a: Calls, b: Calls, sw: Swap, id: string)
    requires TwinCalls(a, b, sw)
    ensures FactsOf(a, id).refused == FactsOf(b, id).refused
    ensures FactsOf(a, id).result.Some? == FactsOf(b, id).result.Some?
    ensures FactsOf(a, id).result.None? ==> FactsOf(a, id) == FactsOf(b, id)
  {
  }

  lemma SetSameFactsAreTwins(a: Calls, b: Calls, sw: Swap, id: string, facts: Facts)
    requires TwinCalls(a, b, sw) && ResultApart(facts, sw.k)
    requires ToolIndex(a.tools, id).Some? ==> Some(ToolIndex(a.tools, id).value) != sw.i
    ensures TwinCalls(SetFacts(a, id, facts), SetFacts(b, id, facts), sw)
  {
    TwinIndex(a.tools, b.tools, sw, id);
  }

  /** A call with no result is not the swapped one. */
  lemma NoResultIsNotSwapped(a: Calls, b: Calls, sw: Swap, id: string)
    requires TwinCalls(a, b, sw) && FactsOf(a, id).result.None?
    ensures ToolIndex(a.tools, id).Some? ==> Some(ToolIndex(a.tools, id).value) != sw.i
  {
  }

  lemma NewResultIsTwin(a: Calls, b: Calls, sw: Swap, id: string, isError: bool)
    requires TwinCalls(a, b, sw) && id != "" && FactsOf(a, id) == FactsOf(b, id) && FactsOf(a, id).result.None?
    requires ToolIndex(a.tools, id).Some? ==> Some(ToolIndex(a.tools, id).value) != sw.i
    ensures TwinCalls(SetResult(a, id, isError), SetResult(b, id, isError), sw)
  {
    var facts := FactsOf(a, id).(result := Some(Outcome(isError, a.tick + 1)));
    SetSameFactsAreTwins(a, b, sw, id, facts);
    LaterAreTwins(SetFacts(a, id, facts), SetFacts(b, id, facts), sw, a.tick + 1);
  }

  lemma ResultsAreTwins(a: Calls, b: Calls, sw: Swap, id: string, isError: bool)
    requires TwinCalls(a, b, sw)
    ensures TwinCalls(SetResult(a, id, isError), SetResult(b, id, isError), sw)
  {
    FactsAreTwins(a, b, sw, id);
    if id != "" && FactsOf(a, id).result.None? {
      NoResultIsNotSwapped(a, b, sw, id);
      NewResultIsTwin(a, b, sw, id, isError);
    }
  }

  lemma LaterAreTwins(a: Calls, b: Calls, sw: Swap, tick: int)
    requires TwinCalls(a, b, sw) && tick >= sw.k + 2
    ensures TwinCalls(a.(tick := tick), b.(tick := tick), sw)
  {
  }

  lemma RefusalsAreTwins(a: Calls, b: Calls, sw: Swap, id: string)
    requires TwinCalls(a, b, sw)
    ensures TwinCalls(SetRefused(a, id), SetRefused(b, id), sw)
  {
    TwinIndex(a.tools, b.tools, sw, id);
    FactsAreTwins(a, b, sw, id);
    if id != "" && (ToolIndex(a.tools, id).None? || Some(ToolIndex(a.tools, id).value) != sw.i) {
      if ToolIndex(a.tools, id).Some? { assert ToolApart(a.tools[ToolIndex(a.tools, id).value], sw.k); }
      SetSameFactsAreTwins(a, b, sw, id, FactsOf(a, id).(refused := true));
    }
  }

  /** New facts never take an excuse away. */
  lemma FactsExcuse(a: Calls, sw: Swap, id: string, facts: Facts, sig: Signal)
    requires sw.i.Some? ==> sw.i.value < |a.tools|
    requires Excused(a.tools, sw, sig) && (FactsOf(a, id).refused ==> facts.refused)
    ensures Excused(SetFacts(a, id, facts).tools, sw, sig)
  {
    var now := SetFacts(a, id, facts).tools;
    assert |now| == |a.tools| && forall j :: 0 <= j < |now| ==> now[j].id == a.tools[j].id;
    if sw.i.Some? && TakenOver(a.tools, sw.i.value) {
      var j :| sw.i.value < j < |a.tools| && a.tools[j].id == a.tools[sw.i.value].id;
      assert now[j].id == now[sw.i.value].id;
    }
  }

  /** A refusal of a call excuses its own signal. */
  lemma RefusalIsExcused(a: Calls, sw: Swap, id: string, text: seq<Byte>)
    requires sw.i.Some? ==> sw.i.value < |a.tools| && a.tools[sw.i.value].id != ""
    ensures Excused(SetRefused(a, id).tools, sw, Refusal(text, id))
  {
    if sw.i.Some? && id == a.tools[sw.i.value].id {
      var i := ToolIndex(a.tools, id).value;
      var now := SetRefused(a, id).tools;
      if i > sw.i.value {
        assert now[i].id == now[sw.i.value].id;
      }
    }
  }

  function NextSwap(a: Calls, sw: Swap, op: Op): Swap {
    if op.UseTool? then AfterCall(a, sw) else sw
  }

  lemma NotedCallsAreTwins(a: Calls, b: Calls, sw: Swap, blocks: nat, op: Op)
    requires TwinCalls(a, b, sw)
    ensures TwinCalls(NotedCalls(a, blocks, op), NotedCalls(b, blocks, op), NextSwap(a, sw, op))
  {
    match op
    case UseTool(id, question, _) => CalledAreTwins(a, b, sw, id, question, blocks);
    case ToolResult(id, isError) => ResultsAreTwins(a, b, sw, id, isError);
    case Refuse(_, id) => RefusalsAreTwins(a, b, sw, id);
    case _ =>
  }

  lemma NotedCallsExcuse(a: Calls, b: Calls, sw: Swap, blocks: nat, op: Op, sig: Signal)
    requires TwinCalls(a, b, sw) && Excused(a.tools, sw, sig)
    ensures TwinCalls(NotedCalls(a, blocks, op), NotedCalls(b, blocks, op), NextSwap(a, sw, op))
    ensures Excused(NotedCalls(a, blocks, op).tools, NextSwap(a, sw, op), sig)
  {
    NotedCallsAreTwins(a, b, sw, blocks, op);
    match op
    case UseTool(id, question, _) => CallExcuses(a, sw, id, question, blocks, sig);
    case ToolResult(id, isError) => FactsExcuse(a, sw, id, FactsOf(a, id).(result := Some(Outcome(isError, a.tick + 1))), sig);
    case Refuse(_, id) => FactsExcuse(a, sw, id, FactsOf(a, id).(refused := true), sig);
    case _ =>
  }

  lemma AddSignalAreTwins(a: Asks, b: Asks, k: nat, s: Signal, t: Signal)
    requires TwinAsks(a, b, k) && TwinSignal(s, t, k)
    ensures TwinAsks(AddSignal(a, s), AddSignal(b, t), k)
  {
  }

  lemma SettledAreTwins(a: Asks, b: Asks, k: nat, ids: seq<string>, allowed: bool, unasked: Signal)
    requires TwinAsks(a, b, k) && TwinSignal(unasked, unasked, k)
    ensures TwinAsks(Settled(a, ids, allowed, unasked), Settled(b, ids, allowed, unasked), k)
  {
    if a.pending == [] {
      AddSignalAreTwins(a, b, k, unasked, unasked);
    } else {
      var i := if Named(a.pending, ids).Some? then Named(a.pending, ids).value else 0;
      var rest := RemoveAt(a.pending, i);
      assert TwinAsks(a.(pending := rest), b.(pending := rest), k);
      AddSignalAreTwins(a.(pending := rest), b.(pending := rest), k, a.pending[i].sig, a.pending[i].sig);
    }
  }

  lemma NotedAsksAreTwins(a: Asks, b: Asks, k: nat, blocks: nat, tick: int, op: Op)
    requires TwinAsks(a, b, k) && tick >= k + 2
    ensures TwinAsks(NotedAsks(a, blocks, tick, op), NotedAsks(b, blocks, tick, op), k)
  {
    match op
    case UseTool(id, question, asked) =>
      var sig := QuestionAsked(asked, id, blocks, tick + 1);
      AddSignalAreTwins(a, b, k, sig, sig);
    case Ask(asked) =>
      var sig := AtPoint(Question, asked, blocks, tick);
      AddSignalAreTwins(a, b, k, sig, sig);
    case PermissionRequest(_, _) =>
    case Resolve(ids, allowed, text) => SettledAreTwins(a, b, k, ids, allowed, AtPoint(Approval, text, blocks, tick));
    case Refuse(text, id) => AddSignalAreTwins(a, b, k, Refusal(text, id), Refusal(text, id));
    case _ =>
  }

  /** Every signal after an operation was there before, sits at a point, or names the call
      the operation recorded or refused. */
  predicate IsNew(op: Op, sig: Signal) {
    || !sig.byTool
    || (op.UseTool? && op.question && sig.toolID == op.id)
    || (op.Refuse? && sig == Refusal(op.text, op.toolUseID))
  }

  lemma AddSignalFrom(a: Asks, sig: Signal, j: nat)
    requires j < |AddSignal(a, sig).signals|
    ensures AddSignal(a, sig).signals[j] == sig || exists i :: 0 <= i < |a.signals| && a.signals[i] == AddSignal(a, sig).signals[j]
  {
  }

  lemma SignalsComeFrom(a: Asks, k: nat, blocks: nat, tick: int, op: Op, j: nat)
    requires TwinAsks(a, a, k) && j < |NotedAsks(a, blocks, tick, op).signals|
    ensures var sig := NotedAsks(a, blocks, tick, op).signals[j];
      IsNew(op, sig) || exists i :: 0 <= i < |a.signals| && a.signals[i] == sig
  {
    match op
    case UseTool(id, question, asked) =>
      if question { AddSignalFrom(a, QuestionAsked(asked, id, blocks, tick + 1), j); }
    case Ask(asked) => AddSignalFrom(a, AtPoint(Question, asked, blocks, tick), j);
    case Resolve(ids, allowed, text) =>
      if !allowed {
        if a.pending == [] {
          AddSignalFrom(a, AtPoint(Approval, text, blocks, tick), j);
        } else {
          var i := if Named(a.pending, ids).Some? then Named(a.pending, ids).value else 0;
          AddSignalFrom(a.(pending := RemoveAt(a.pending, i)), a.pending[i].sig, j);
        }
      }
    case Refuse(text, id) => AddSignalFrom(a, Refusal(text, id), j);
    case _ =>
  }

  lemma NewIsExcused(a: Calls, b: Calls, sw: Swap, blocks: nat, op: Op, sig: Signal)
    requires TwinCalls(a, b, sw) && IsNew(op, sig)
    ensures TwinCalls(NotedCalls(a, blocks, op), NotedCalls(b, blocks, op), NextSwap(a, sw, op))
    ensures Excused(NotedCalls(a, blocks, op).tools, NextSwap(a, sw, op), sig)
  {
    NotedCallsAreTwins(a, b, sw, blocks, op);
    if sig.byTool && op.UseTool? {
      CallExcuses(a, sw, op.id, op.question, blocks, sig);
    } else if sig.byTool {
      RefusalIsExcused(a, sw, op.toolUseID, op.text);
    }
  }

  lemma NotedStayTwins(a: Turn, b: Turn, sw: Swap, op: Op)
    requires Twins(a, b, sw)
    ensures Twins(Noted(a, op), Noted(b, op), NextSwap(a.calls, sw, op))
  {
    var (n, tick) := (|a.buffer.blocks|, a.calls.tick);
    NotedCallsAreTwins(a.calls, b.calls, sw, n, op);
    NotedAsksAreTwins(a.asks, b.asks, sw.k, n, tick, op);
    var (tools, next, signals) := (NotedCalls(a.calls, n, op).tools, NextSwap(a.calls, sw, op), NotedAsks(a.asks, n, tick, op).signals);
    forall j | 0 <= j < |signals| ensures Excused(tools, next, signals[j]) {
      SignalsComeFrom(a.asks, sw.k, n, tick, op, j);
      if IsNew(op, signals[j]) {
        NewIsExcused(a.calls, b.calls, sw, n, op, signals[j]);
      } else {
        NotedCallsExcuse(a.calls, b.calls, sw, n, op, signals[j]);
      }
    }
  }

  lemma ShiftedStayTwins(a: Turn, b: Turn, sw: Swap)
    requires Twins(a, b, sw)
    ensures Twins(Shifted(a), Shifted(b), sw)
  {
  }

  lemma {:induction false} TrimStayTwins(a: Turn, b: Turn, sw: Swap)
    requires Twins(a, b, sw) && WellFormed(a)
    ensures Twins(Trim(a), Trim(b), sw)
    decreases |a.buffer.blocks|
  {
    if TooMuch(|a.buffer.blocks|, a.buffer.bytes) {
      var left := Buffer(a.buffer.blocks[1..], a.buffer.anonOpen, a.buffer.bytes - |a.buffer.blocks[0].text|);
      ShiftedStayTwins(a.(buffer := left), b.(buffer := left), sw);
      TrimStayTwins(DropOldest(a), DropOldest(b), sw);
    }
  }

  lemma StayTwins(a: Turn, b: Turn, sw: Swap, op: Op) returns (next: Swap)
    requires Twins(a, b, sw) && WellFormed(a)
    ensures WellFormed(b) && Twins(Apply(a, op), Apply(b, op), next)
  {
    next := sw;
    if op.Delta? {
      AppendCounts(a.buffer, op.text, op.blockID, op.final);
      var grown := Append(a.buffer, op.text, op.blockID, op.final);
      TrimStayTwins(a.(buffer := grown), b.(buffer := grown), sw);
    } else {
      NotedStayTwins(a, b, sw, op);
      next := NextSwap(a.calls, sw, op);
    }
  }

  lemma {:induction false} TwinsForever(a: Turn, b: Turn, sw: Swap, ops: seq<Op>) returns (now: Swap)
    requires Twins(a, b, sw) && WellFormed(a)
    ensures WellFormed(b) && Twins(Continue(a, ops), Continue(b, ops), now)
  {
    now := sw;
    if ops != [] {
      now := TwinsForever(a, b, sw, Front(ops));
      now := StayTwins(Continue(a, Front(ops)), Continue(b, Front(ops)), now, Last(ops));
    }
  }

  // ---- the first pair of twins --------------------------------------------------------------------

  lemma ResultThenCalled(c: Calls, id: string, question: bool, at: nat, isError: bool)
    requires Tidy(c) && id != "" && ToolIndex(c.tools, id).None? && id !in c.early && |c.earlyOrder| < MAX_EARLY
    ensures AddTool(SetResult(c, id, isError), id, question, at)
      == c.(tick := c.tick + 2,
            tools := Kept(c) + [Tool(id, at, c.tick + 2, question, Facts(Some(Outcome(isError, c.tick + 1)), false))])
  {
    var facts := Facts(Some(Outcome(isError, c.tick + 1)), false);
    WithoutLast(c.earlyOrder, id);
    assert SetResult(c, id, isError) == c.(tick := c.tick + 1, early := c.early[id := facts], earlyOrder := c.earlyOrder + [id]);
    assert c.early[id := facts] - {id} == c.early;
  }

  lemma CalledThenResult(c: Calls, id: string, question: bool, at: nat, isError: bool)
    requires id != "" && id !in c.early
    ensures SetResult(AddTool(c, id, question, at), id, isError)
      == c.(tick := c.tick + 2,
            tools := Kept(c) + [Tool(id, at, c.tick + 1, question, Facts(Some(Outcome(isError, c.tick + 2)), false))])
  {
  }

  /** A call at tick and its result at the other of the next two ticks. */
  function BothTool(c: Calls, blocks: nat, id: string, question: bool, isError: bool, tick: int): Tool {
    Tool(id, blocks, tick, question, Facts(Some(Outcome(isError, 2 * c.tick + 3 - tick)), false))
  }

  function BothCalls(c: Calls, blocks: nat, id: string, question: bool, isError: bool, tick: int): Calls {
    c.(tick := c.tick + 2, tools := Kept(c) + [BothTool(c, blocks, id, question, isError, tick)])
  }

  function BothAsks(a: Asks, blocks: nat, id: string, question: bool, asked: seq<Byte>, tick: int): Asks {
    if question then AddSignal(a, QuestionAsked(asked, id, blocks, tick)) else a
  }

  function Both(t: Turn, id: string, question: bool, asked: seq<Byte>, isError: bool, tick: int): Turn {
    var n := |t.buffer.blocks|;
    Turn(t.id, t.usageStop, t.buffer.(anonOpen := false),
         BothCalls(t.calls, n, id, question, isError, tick), BothAsks(t.asks, n, id, question, asked, tick))
  }

  lemma ResultFirst(t: Turn, id: string, question: bool, asked: seq<Byte>, isError: bool)
    requires Tidy(t.calls) && Fresh(t, id) && EarlyHasRoom(t)
    ensures Noted(Noted(t, ToolResult(id, isError)), UseTool(id, question, asked))
      == Both(t, id, question, asked, isError, t.calls.tick + 2)
  {
    ResultThenCalled(t.calls, id, question, |t.buffer.blocks|, isError);
  }

  lemma CallThenResult(t: Turn, id: string, question: bool, asked: seq<Byte>, isError: bool)
    requires Fresh(t, id)
    ensures Noted(Noted(t, UseTool(id, question, asked)), ToolResult(id, isError))
      == Both(t, id, question, asked, isError, t.calls.tick + 1)
  {
    CalledThenResult(t.calls, id, question, |t.buffer.blocks|, isError);
  }

  lemma CallsBecomeTwins(c: Calls, blocks: nat, id: string, question: bool, isError: bool)
    requires CallsUpTo(c) && id != ""
    ensures TwinCalls(BothCalls(c, blocks, id, question, isError, c.tick + 2), BothCalls(c, blocks, id, question, isError, c.tick + 1),
                      Swap(c.tick, Some(|Kept(c)|)))
  {
  }

  lemma AsksBecomeTwins(a: Asks, blocks: nat, id: string, question: bool, asked: seq<Byte>, k: nat)
    requires AsksUpTo(a, k) && id != ""
    ensures TwinAsks(BothAsks(a, blocks, id, question, asked, k + 2), BothAsks(a, blocks, id, question, asked, k + 1), k)
  {
  }

  /** The signals of a turn that does not know the call say nothing of it. */
  lemma SignalsAreExcused(t: Turn, tool: Tool, asked: seq<Byte>, k: nat, tick: int)
    requires Fresh(t, tool.id)
    ensures AllExcused(Kept(t.calls) + [tool], Swap(k, Some(|Kept(t.calls)|)),
                       BothAsks(t.asks, |t.buffer.blocks|, tool.id, tool.question, asked, tick).signals)
  {
  }

  /** A call and its own first result, in either order, make twins. */
  lemma ResultMakesTwins(t: Turn, id: string, question: bool, asked: seq<Byte>, isError: bool)
    requires Reachable(t) && Fresh(t, id) && EarlyHasRoom(t)
    ensures Twins(Noted(Noted(t, ToolResult(id, isError)), UseTool(id, question, asked)),
                  Noted(Noted(t, UseTool(id, question, asked)), ToolResult(id, isError)),
                  Swap(t.calls.tick, Some(|Kept(t.calls)|)))
  {
    ResultFirst(t, id, question, asked, isError);
    CallThenResult(t, id, question, asked, isError);
    BothAreTwins(t, id, question, asked, isError);
  }

  lemma BothAreTwins(t: Turn, id: string, question: bool, asked: seq<Byte>, isError: bool)
    requires CallsUpTo(t.calls) && AsksUpTo(t.asks, t.calls.tick) && Fresh(t, id)
    ensures Twins(Both(t, id, question, asked, isError, t.calls.tick + 2), Both(t, id, question, asked, isError, t.calls.tick + 1),
                  Swap(t.calls.tick, Some(|Kept(t.calls)|)))
  {
    var (n, k: nat) := (|t.buffer.blocks|, t.calls.tick);
    var (a, b) := (Both(t, id, question, asked, isError, k + 2), Both(t, id, question, asked, isError, k + 1));
    CallsBecomeTwins(t.calls, n, id, question, isError);
    AsksBecomeTwins(t.asks, n, id, question, asked, k);
    SignalsAreExcused(t, BothTool(t.calls, n, id, question, isError, k + 2), asked, k, k + 2);
    PartsMakeTwins(a, b, Swap(k, Some(|Kept(t.calls)|)));
  }

  lemma PartsMakeTwins(a: Turn, b: Turn, sw: Swap)
    requires a.id == b.id && a.usageStop == b.usageStop && a.buffer == b.buffer
    requires TwinCalls(a.calls, b.calls, sw) && TwinAsks(a.asks, b.asks, sw.k)
    requires AllExcused(a.calls.tools, sw, a.asks.signals)
    ensures Twins(a, b, sw)
  {
  }

  /** A call and its own first result, in either order: whatever else the turn brings, it
      ends on the same signal and gives the same output. */
  lemma ResultCommutes(turn: string, before: seq<Op>, id: string, question: bool, asked: seq<Byte>, isError: bool,
                       after: seq<Op>, term: Ending)
    requires Fresh(TurnOf(turn, before), id) && EarlyHasRoom(TurnOf(turn, before))
    ensures var t := TurnOf(turn, before);
      var a := Noted(Noted(t, ToolResult(id, isError)), UseTool(id, question, asked));
      var b := Noted(Noted(t, UseTool(id, question, asked)), ToolResult(id, isError));
      && var (x, y) := (OpenSignal(Continue(a, after)), OpenSignal(Continue(b, after)));
      && x.Some? == y.Some? && (x.Some? ==> x.value.kind == y.value.kind && x.value.text == y.value.text && x.value.toolID == y.value.toolID)
      && OutputOf(Continue(a, after), term) == OutputOf(Continue(b, after), term)
  {
    var t := TurnOf(turn, before);
    var a := Noted(Noted(t, ToolResult(id, isError)), UseTool(id, question, asked));
    var b := Noted(Noted(t, UseTool(id, question, asked)), ToolResult(id, isError));
    TurnsAreReachable(turn, before);
    ResultMakesTwins(t, id, question, asked, isError);
    var sw := TwinsForever(a, b, Swap(t.calls.tick, Some(|Kept(t.calls)|)), after);
    TwinVerdict(Continue(a, after), Continue(b, after), sw);
    TwinOutput(Continue(a, after), Continue(b, after), sw, term);
  }
}
