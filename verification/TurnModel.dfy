/**
 * One turn of the turn-output reducer, on values: the text buffer of
 * turnoutput/reducer.go and the tool calls, refusals and requests of
 * turnoutput/signals.go, with the operations the feeds in turnoutput/feed.go apply.
 */
module TurnModel {
  import opened Bytes
  import opened Lists
  import opened Options
  import opened Utf8

  const MAX_BLOCKS := 128
  const MAX_TURN_BYTES := 4194304
  const MAX_BLOCK_BYTES := 1048576
  const MAX_PENDING := 64
  const MAX_SIGNAL_BYTES := 8192
  const MAX_TOOLS := 256
  const MAX_SIGNALS := 64
  const MAX_EARLY := 256

  datatype Kind = Final | Question | Approval | Failure | Terminal

  datatype Confidence = Exact | Heuristic

  datatype StopReason = NoStop | Cancelled | ErrorStop | OtherStop(word: string)

  datatype Block = Block(id: string, final: bool, text: seq<Byte>)

  datatype Buffer = Buffer(blocks: seq<Block>, anonOpen: bool, bytes: nat)

  /** A tool call's result: tick is where it fell among the turn's calls and results. */
  datatype Outcome = Outcome(isError: bool, tick: int)

  datatype Facts = Facts(result: Option<Outcome>, refused: bool)

  datatype Tool = Tool(id: string, blocksAt: nat, tick: int, question: bool, facts: Facts)

  datatype Signal = Signal(kind: Kind, text: seq<Byte>, byTool: bool, toolID: string, toolCall: bool, at: nat, tick: int)

  datatype Request = Request(ids: seq<string>, sig: Signal)

  datatype Calls = Calls(tick: int, tools: seq<Tool>, early: map<string, Facts>, earlyOrder: seq<string>)

  datatype Asks = Asks(signals: seq<Signal>, pending: seq<Request>)

  datatype Turn = Turn(id: string, usageStop: StopReason, buffer: Buffer, calls: Calls, asks: Asks)

  function NewTurn(id: string): Turn {
    Turn(id, NoStop, Buffer([], false, 0), Calls(0, [], map[], []), Asks([], []))
  }

  /** What the body of a turn can bring. */
  datatype Op =
    | Delta(text: seq<Byte>, blockID: string, final: bool)
    | Pause  // an event that only ends the anonymous block
    | UseTool(id: string, question: bool, asked: seq<Byte>)
    | ToolResult(id: string, isError: bool)
    | Ask(asked: seq<Byte>)
    | PermissionRequest(ids: seq<string>, text: seq<Byte>)
    | Resolve(ids: seq<string>, allowed: bool, text: seq<Byte>)
    | Refuse(text: seq<Byte>, toolUseID: string)
    | NoteStop(stop: StopReason)

  // ---- text -----------------------------------------------------------------------------------

  function Size(blocks: seq<Block>): nat {
    if blocks == [] then 0 else |blocks[0].text| + Size(blocks[1..])
  }

  /** The newest block with the id; blocks that were dropped are not found. */
  function FindBlock(blocks: seq<Block>, id: string): (r: Option<nat>)
    ensures r.Some? ==> r.value < |blocks| && blocks[r.value].id == id
    ensures r.None? ==> forall i :: 0 <= i < |blocks| ==> blocks[i].id != id
  {
    if blocks == [] then None
    else if Last(blocks).id == id then Some(|blocks| - 1)
    else
      assert forall i :: 0 <= i < |blocks| - 1 ==> blocks[i] == Front(blocks)[i];
      FindBlock(Front(blocks), id)
  }

  function Write(blocks: seq<Block>, i: nat, text: seq<Byte>, final: bool): seq<Block>
    requires i < |blocks|
  {
    var b := blocks[i];
    blocks[i := Block(b.id, b.final || final, b.text + Cut(text, MAX_BLOCK_BYTES - |b.text|))]
  }

  /** The block a delta goes to, after the one it may start. */
  function Target(blocks: seq<Block>, anonOpen: bool, blockID: string): (r: (seq<Block>, nat))
    requires anonOpen ==> blocks != []
    ensures r.1 < |r.0| && blocks <= r.0 && |r.0| <= |blocks| + 1
  {
    if blockID != "" then
      match FindBlock(blocks, blockID)
      case Some(i) => (blocks, i)
      case None => (blocks + [Block(blockID, false, [])], |blocks|)
    else if anonOpen then (blocks, |blocks| - 1)
    else (blocks + [Block("", false, [])], |blocks|)
  }

  /** addDelta, before it trims. */
  function Append(b: Buffer, text: seq<Byte>, blockID: string, final: bool): Buffer
    requires b.anonOpen ==> b.blocks != []
  {
    if text == [] then b
    else
      var (blocks, i) := Target(b.blocks, b.anonOpen, blockID);
      var cut := Cut(text, MAX_BLOCK_BYTES - |blocks[i].text|);
      Buffer(Write(blocks, i, text, final), blockID == "", b.bytes + |cut|)
  }

  function Down(n: nat): nat {
    if n > 0 then n - 1 else 0
  }

  function Shifted(t: Turn): Turn {
    t.(calls := t.calls.(tools := seq(|t.calls.tools|, i requires 0 <= i < |t.calls.tools| =>
         t.calls.tools[i].(blocksAt := Down(t.calls.tools[i].blocksAt)))),
       asks := Asks(
         seq(|t.asks.signals|, i requires 0 <= i < |t.asks.signals| =>
           t.asks.signals[i].(at := Down(t.asks.signals[i].at))),
         seq(|t.asks.pending|, i requires 0 <= i < |t.asks.pending| =>
           t.asks.pending[i].(sig := t.asks.pending[i].sig.(at := Down(t.asks.pending[i].sig.at))))))
  }

  /** The oldest block goes, and every stored position with it. */
  function DropOldest(t: Turn): Turn
    requires t.buffer.blocks != [] && |t.buffer.blocks[0].text| <= t.buffer.bytes
  {
    Shifted(t.(buffer := t.buffer.(blocks := t.buffer.blocks[1..],
                                   bytes := t.buffer.bytes - |t.buffer.blocks[0].text|)))
  }

  predicate TooMuch(blocks: nat, bytes: nat) {
    blocks > 1 && (blocks > MAX_BLOCKS || bytes > MAX_TURN_BYTES)
  }

  function Trim(t: Turn): Turn
    requires t.buffer.bytes == Size(t.buffer.blocks)
    decreases |t.buffer.blocks|
  {
    if TooMuch(|t.buffer.blocks|, t.buffer.bytes) then Trim(DropOldest(t)) else t
  }

  // ---- tool calls -----------------------------------------------------------------------------

  /** The newest call with the id. */
  function ToolIndex(tools: seq<Tool>, id: string): (r: Option<nat>)
    ensures r.Some? ==> id != "" && r.value < |tools| && tools[r.value].id == id
    ensures r.Some? ==> forall i :: r.value < i < |tools| ==> tools[i].id != id
    ensures r.None? ==> id == "" || forall i :: 0 <= i < |tools| ==> tools[i].id != id
  {
    if id == "" || tools == [] then None
    else if Last(tools).id == id then Some(|tools| - 1)
    else
      assert forall i :: 0 <= i < |tools| - 1 ==> tools[i] == Front(tools)[i];
      ToolIndex(Front(tools), id)
  }

  /** The list without the first x. */
  function Without(list: seq<string>, x: string): seq<string> {
    if list == [] then []
    else if list[0] == x then list[1..]
    else [list[0]] + Without(list[1..], x)
  }

  lemma {:induction false} WithoutAt(list: seq<string>, x: string, i: nat)
    requires i <= |list| && (forall j :: 0 <= j < i ==> list[j] != x) && (i < |list| ==> list[i] == x)
    ensures Without(list, x) == if i < |list| then list[..i] + list[i + 1..] else list
  {
    if 0 < i {
      var rest := list[1..];
      WithoutAt(rest, x, i - 1);
      assert list == [list[0]] + rest;
      if i < |list| {
        assert list[..i] == [list[0]] + rest[..i - 1] && list[i + 1..] == rest[i..];
      }
    }
  }

  function ForgetEarly(c: Calls, id: string): Calls {
    c.(early := c.early - {id}, earlyOrder := Without(c.earlyOrder, id))
  }

  const NO_FACTS := Facts(None, false)

  function AddTool(c: Calls, id: string, question: bool, blocksAt: nat): Calls {
    var kept := if |c.tools| >= MAX_TOOLS then c.tools[1..] else c.tools;
    var claims := id != "" && id in c.early;
    var facts := if claims then c.early[id] else NO_FACTS;
    var tool := Tool(id, blocksAt, c.tick + 1, question, facts);
    (if claims then ForgetEarly(c, id) else c).(tick := c.tick + 1, tools := kept + [tool])
  }

  /** What the turn knows of the call with the id, wherever it is kept. */
  function FactsOf(c: Calls, id: string): Facts {
    match ToolIndex(c.tools, id)
    case Some(i) => c.tools[i].facts
    case None => if id in c.early then c.early[id] else NO_FACTS
  }

  /** factsFor, and the write through the pointer it returns. */
  function SetFacts(c: Calls, id: string, facts: Facts): Calls {
    match ToolIndex(c.tools, id)
    case Some(i) => c.(tools := c.tools[i := c.tools[i].(facts := facts)])
    case None =>
      if id in c.early then c.(early := c.early[id := facts])
      else
        var room := if |c.earlyOrder| >= MAX_EARLY then ForgetEarly(c, c.earlyOrder[0]) else c;
        room.(early := room.early[id := facts], earlyOrder := room.earlyOrder + [id])
  }

  function SetResult(c: Calls, id: string, isError: bool): Calls {
    if id == "" then c
    else
      var facts := FactsOf(c, id);
      if facts.result.Some? then c
      else SetFacts(c, id, facts.(result := Some(Outcome(isError, c.tick + 1)))).(tick := c.tick + 1)
  }

  function SetRefused(c: Calls, id: string): Calls {
    if id == "" then c else SetFacts(c, id, FactsOf(c, id).(refused := true))
  }

  // ---- signals --------------------------------------------------------------------------------

  function Clip(text: seq<Byte>): seq<Byte> {
    Cut(TrimSpace(text), MAX_SIGNAL_BYTES)
  }

  /** The last n of a list. */
  function Newest<T>(list: seq<T>, n: nat): seq<T> {
    if |list| > n then list[|list| - n..] else list
  }

  function AddSignal(a: Asks, sig: Signal): Asks {
    a.(signals := Newest(a.signals + [sig], MAX_SIGNALS))
  }

  function QuestionAsked(text: seq<Byte>, toolID: string, at: nat, tick: int): Signal {
    Signal(Question, Clip(text), toolID != "", toolID, true, at, tick)
  }

  /** An approval or a question that sits where it arrived. */
  function AtPoint(kind: Kind, text: seq<Byte>, at: nat, tick: int): Signal {
    Signal(kind, Clip(text), false, "", false, at, tick)
  }

  function Refusal(text: seq<Byte>, toolID: string): Signal {
    Signal(Approval, Clip(text), true, toolID, false, 0, 0)
  }

  function AddRequest(a: Asks, request: Request): Asks {
    a.(pending := Newest(a.pending + [request], MAX_PENDING))
  }

  predicate Overlaps(a: seq<string>, b: seq<string>) {
    exists i :: 0 <= i < |a| && a[i] != "" && a[i] in b
  }

  /** The oldest pending request any of the ids names. */
  function Named(pending: seq<Request>, ids: seq<string>): (r: Option<nat>)
    ensures r.Some? ==> r.value < |pending|
  {
    if pending == [] then None
    else if Overlaps(pending[0].ids, ids) then Some(0)
    else match Named(pending[1..], ids)
      case Some(i) => Some(i + 1)
      case None => None
  }

  function RemoveAt<T>(list: seq<T>, i: nat): seq<T>
    requires i < |list|
  {
    list[..i] + list[i + 1..]
  }

  function Settled(a: Asks, ids: seq<string>, allowed: bool, unasked: Signal): Asks {
    if a.pending == [] then (if allowed then a else AddSignal(a, unasked))
    else
      var i := if Named(a.pending, ids).Some? then Named(a.pending, ids).value else 0;
      var rest := a.(pending := RemoveAt(a.pending, i));
      if allowed then rest else AddSignal(rest, a.pending[i].sig)
  }

  // ---- one operation ----------------------------------------------------------------------------

  /** What an operation other than a delta does to the calls, with so many text blocks. */
  function NotedCalls(c: Calls, blocks: nat, op: Op): Calls {
    match op
    case UseTool(id, question, _) => AddTool(c, id, question, blocks)
    case ToolResult(id, isError) => SetResult(c, id, isError)
    case Refuse(_, toolUseID) => SetRefused(c, toolUseID)
    case _ => c
  }

  /** What it does to the signals and requests, with the calls at tick. */
  function NotedAsks(a: Asks, blocks: nat, tick: int, op: Op): Asks {
    match op
    case UseTool(id, question, asked) => if question then AddSignal(a, QuestionAsked(asked, id, blocks, tick + 1)) else a
    case Ask(asked) => AddSignal(a, AtPoint(Question, asked, blocks, tick))
    case PermissionRequest(ids, text) => AddRequest(a, Request(ids, AtPoint(Approval, text, blocks, tick)))
    case Resolve(ids, allowed, text) => Settled(a, ids, allowed, AtPoint(Approval, text, blocks, tick))
    case Refuse(text, toolUseID) => AddSignal(a, Refusal(text, toolUseID))
    case _ => a
  }

  /** Every operation but a delta: all but a stop reason also end the anonymous block. */
  function Noted(t: Turn, op: Op): Turn {
    Turn(t.id,
         if op.NoteStop? && op.stop != NoStop then op.stop else t.usageStop,
         if op.NoteStop? then t.buffer else t.buffer.(anonOpen := false),
         NotedCalls(t.calls, |t.buffer.blocks|, op),
         NotedAsks(t.asks, |t.buffer.blocks|, t.calls.tick, op))
  }

  ghost predicate WellFormed(t: Turn) {
    && t.buffer.bytes == Size(t.buffer.blocks)
    && (t.buffer.anonOpen ==> t.buffer.blocks != [])
  }

  lemma {:induction false} SizeOfWrite(blocks: seq<Block>, i: nat, text: seq<Byte>, final: bool)
    requires i < |blocks|
    ensures Size(Write(blocks, i, text, final)) == Size(blocks) + |Cut(text, MAX_BLOCK_BYTES - |blocks[i].text|)|
  {
    var written := Write(blocks, i, text, final);
    if i == 0 {
      assert written[1..] == blocks[1..];
    } else {
      assert written[1..] == Write(blocks[1..], i - 1, text, final);
      SizeOfWrite(blocks[1..], i - 1, text, final);
    }
  }

  lemma {:induction false} SizeOfAppend(a: seq<Block>, b: seq<Block>)
    ensures Size(a + b) == Size(a) + Size(b)
  {
    if a == [] {
      assert a + b == b;
    } else {
      assert (a + b)[1..] == a[1..] + b;
      SizeOfAppend(a[1..], b);
    }
  }

  /** The byte counter is the size of what is held. */
  lemma AppendCounts(b: Buffer, text: seq<Byte>, blockID: string, final: bool)
    requires b.bytes == Size(b.blocks) && (b.anonOpen ==> b.blocks != [])
    ensures var r := Append(b, text, blockID, final);
      r.bytes == Size(r.blocks) && (r.anonOpen ==> r.blocks != [])
  {
    if text != [] {
      var (blocks, i) := Target(b.blocks, b.anonOpen, blockID);
      SizeOfWrite(blocks, i, text, final);
      if |blocks| > |b.blocks| {
        assert blocks == b.blocks + [blocks[|b.blocks|]];
        SizeOfAppend(b.blocks, [blocks[|b.blocks|]]);
      }
    }
  }

  function Apply(t: Turn, op: Op): Turn
    requires WellFormed(t)
  {
    match op
    case Delta(text, blockID, final) =>
      AppendCounts(t.buffer, text, blockID, final);
      if text == [] then t else Trim(t.(buffer := Append(t.buffer, text, blockID, final)))
    case _ => Noted(t, op)
  }

  lemma {:induction false} TrimCounts(t: Turn)
    requires WellFormed(t)
    ensures WellFormed(Trim(t))
    decreases |t.buffer.blocks|
  {
    if TooMuch(|t.buffer.blocks|, t.buffer.bytes) {
      TrimCounts(DropOldest(t));
    }
  }

  lemma ApplyCounts(t: Turn, op: Op)
    requires WellFormed(t)
    ensures WellFormed(Apply(t, op))
  {
    if op.Delta? {
      AppendCounts(t.buffer, op.text, op.blockID, op.final);
      TrimCounts(t.(buffer := Append(t.buffer, op.text, op.blockID, op.final)));
    }
  }

  /** The turn after the operations. */
  ghost function Continue(t: Turn, ops: seq<Op>): (r: Turn)
    requires WellFormed(t)
    ensures WellFormed(r)
  {
    if ops == [] then t
    else
      var before := Continue(t, Front(ops));
      ApplyCounts(before, Last(ops));
      Apply(before, Last(ops))
  }

  ghost function TurnOf(id: string, ops: seq<Op>): (t: Turn)
    ensures WellFormed(t)
  {
    Continue(NewTurn(id), ops)
  }

  // ---- how a turn ends ------------------------------------------------------------------------

  /** Where a signal sits: the text before it, and the point past which a call works on. */
  function Place(c: Calls, sig: Signal): (nat, int) {
    if !sig.byTool then (sig.at, sig.tick)
    else if sig.toolID == "" then
      (if c.tools == [] then (0, 0) else (Last(c.tools).blocksAt, Last(c.tools).tick))
    else
      match ToolIndex(c.tools, sig.toolID)
      case None => (0, -1)
      case Some(i) =>
        var tool := c.tools[i];
        (tool.blocksAt, if tool.facts.result.Some? then tool.facts.result.value.tick else tool.tick)
  }

  predicate Answered(c: Calls, sig: Signal) {
    && sig.toolCall && sig.toolID != ""
    && var i := ToolIndex(c.tools, sig.toolID);
      i.Some? && c.tools[i.value].facts.result.Some? && !c.tools[i.value].facts.result.value.isError
  }

  /** A call that started after the point and is real work. */
  predicate WorksPast(tool: Tool, point: int) {
    tool.tick > point && !tool.question && !tool.facts.refused
  }

  predicate IsOpen(c: Calls, sig: Signal) {
    && !Answered(c, sig)
    && forall i :: 0 <= i < |c.tools| ==> !WorksPast(c.tools[i], Place(c, sig).1)
  }

  function Signals(a: Asks): seq<Signal> {
    a.signals + seq(|a.pending|, i requires 0 <= i < |a.pending| => a.pending[i].sig)
  }

  /** The last open signal that is, or is not, a question. */
  function LastOpen(c: Calls, signals: seq<Signal>, question: bool): (r: Option<Signal>)
    ensures r.Some? ==> r.value.kind.Question? == question
  {
    if signals == [] then None
    else if IsOpen(c, Last(signals)) && Last(signals).kind.Question? == question then Some(Last(signals))
    else LastOpen(c, Front(signals), question)
  }

  function OpenSignal(t: Turn): Option<Signal> {
    var question := LastOpen(t.calls, Signals(t.asks), true);
    if question.Some? then question else LastOpen(t.calls, Signals(t.asks), false)
  }

  /** The last block with text, among the final ones or among all. */
  function LastText(blocks: seq<Block>, finals: bool): seq<Byte> {
    if blocks == [] then []
    else if (Last(blocks).final || !finals) && TrimSpace(Last(blocks).text) != [] then TrimSpace(Last(blocks).text)
    else LastText(Front(blocks), finals)
  }

  function Pick(blocks: seq<Block>, from: nat, termText: seq<Byte>): (seq<Byte>, Confidence) {
    if TrimSpace(termText) != [] then (TrimSpace(termText), Exact)
    else
      var rest := if from > |blocks| then [] else blocks[from..];
      if LastText(rest, true) != [] then (LastText(rest, true), Exact)
      else (LastText(rest, false), Heuristic)
  }

  predicate HasTextAfter(blocks: seq<Block>, from: nat) {
    from <= |blocks| && LastText(blocks[from..], false) != []
  }

  function SignalText(t: Turn, sig: Signal, termText: seq<Byte>): (seq<Byte>, Confidence) {
    var at := Place(t.calls, sig).0;
    var blocks := t.buffer.blocks;
    var picked := Pick(blocks, at, termText);
    if HasTextAfter(blocks, at) && picked.0 != [] then picked
    else if !HasTextAfter(blocks, at) && TrimSpace(termText) != [] && blocks == [] then (TrimSpace(termText), Exact)
    else if sig.text != [] then (sig.text, Exact)
    else Pick(blocks, 0, termText)
  }

  // ---- its output -------------------------------------------------------------------------------

  /** The reason a producer gives for a failed turn. */
  datatype Reason = NoReason | Interrupted | ProcessExited | OtherReason(word: seq<Byte>)

  /** What a turn's terminal event says; cut when the session itself ended the turn. */
  datatype Ending = Ending(failed: bool, errText: seq<Byte>, cut: bool, reason: Reason, stopReason: StopReason, text: seq<Byte>)

  datatype Output = Output(turnID: string, text: seq<Byte>, kind: Kind, stopReason: StopReason, confidence: Confidence)

  /** "interrupted" and "process_exited". */
  function ReasonText(reason: Reason): seq<Byte> {
    match reason
    case NoReason => []
    case Interrupted => [105, 110, 116, 101, 114, 114, 117, 112, 116, 101, 100]
    case ProcessExited => [112, 114, 111, 99, 101, 115, 115, 95, 101, 120, 105, 116, 101, 100]
    case OtherReason(word) => word
  }

  function EndingStop(t: Turn, term: Ending): StopReason {
    if term.stopReason != NoStop then term.stopReason else t.usageStop
  }

  predicate IsCut(t: Turn, term: Ending) {
    term.cut || (term.failed && (term.reason.Interrupted? || term.reason.ProcessExited?)) || EndingStop(t, term).Cancelled?
  }

  /** The first of the candidates that is not empty, or else the last. */
  function OrElse(first: (seq<Byte>, Confidence), second: (seq<Byte>, Confidence)): (seq<Byte>, Confidence) {
    if first.0 != [] then first else second
  }

  function OrError(stop: StopReason): StopReason {
    if stop == NoStop then ErrorStop else stop
  }

  /** The record finish makes of the turn. */
  function OutputOf(t: Turn, term: Ending): Output {
    var stop := EndingStop(t, term);
    var blame := OrElse((TrimSpace(term.errText), Exact), (ReasonText(term.reason), Heuristic));
    var picked := Pick(t.buffer.blocks, 0, term.text);
    if IsCut(t, term) then
      var said := OrElse(picked, blame);
      Output(t.id, said.0, Terminal, if term.reason.Interrupted? then Cancelled else OrError(stop), said.1)
    else if term.failed then Output(t.id, blame.0, Failure, OrError(stop), blame.1)
    else
      match OpenSignal(t)
      case None => Output(t.id, picked.0, Final, stop, picked.1)
      case Some(sig) =>
        var said := SignalText(t, sig, term.text);
        Output(t.id, said.0, sig.kind, stop, said.1)
  }
}
