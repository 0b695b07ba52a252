/**
 * The turn type of turnoutput/reducer.go and turnoutput/signals.go, as it is written: its
 * lists and maps are replaced step by step, and a block of text is reached both from the
 * list of blocks and by its id. Each method is the operation of TurnModel of that name.
 */
module LiveTurn {
  import opened Bytes
  import opened Lists
  import opened Options
  import opened TurnModel
  import opened Utf8

  class TextBlock {
    const id: string
    var final: bool
    var text: seq<Byte>

    constructor (id: string)
      ensures this.id == id && Value() == Block(id, false, [])
    {
      this.id, final, text := id, false, [];
    }

    function Value(): Block
      reads this
    {
      Block(id, final, text)
    }

    /** As much of the text as the block still has room for. */
    method Take(more: seq<Byte>, last: bool) returns (taken: nat)
      modifies `text, `final
      ensures Value() == old(Block(id, final || last, text + Cut(more, MAX_BLOCK_BYTES - |text|)))
      ensures taken == |text| - old(|text|)
    {
      var cut := CutUTF8(more, MAX_BLOCK_BYTES - |text|);
      text := text + cut;
      if last {
        final := true;
      }
      taken := |cut|;
    }
  }

  /** What the blocks hold. */
  ghost function TextsOf(blocks: seq<TextBlock>): (r: seq<Block>)
    reads blocks
    ensures |r| == |blocks|
  {
    seq(|blocks|, i requires 0 <= i < |blocks| reads blocks => blocks[i].Value())
  }

  /** Each block is in the list once, and byID finds exactly those with an id. */
  ghost predicate Indexes(byID: map<string, TextBlock>, blocks: seq<TextBlock>) {
    && (forall i, j :: 0 <= i < j < |blocks| ==> blocks[i] != blocks[j])
    && (forall i :: 0 <= i < |blocks| && blocks[i].id != "" ==> blocks[i].id in byID && byID[blocks[i].id] == blocks[i])
    && (forall k :: k in byID ==> k != "" && byID[k] in blocks && byID[k].id == k)
  }

  /** byID finds the block FindBlock does. */
  lemma ByIDFinds(byID: map<string, TextBlock>, blocks: seq<TextBlock>, id: string)
    requires Indexes(byID, blocks) && id != ""
    ensures id in byID <==> FindBlock(TextsOf(blocks), id).Some?
    ensures id in byID ==> blocks[FindBlock(TextsOf(blocks), id).value] == byID[id]
  {
    var found := FindBlock(TextsOf(blocks), id);
    if found.Some? {
      assert TextsOf(blocks)[found.value].id == blocks[found.value].id;
    }
    if id in byID {
      var i :| 0 <= i < |blocks| && blocks[i] == byID[id];
      assert TextsOf(blocks)[i].id == id;
    }
  }

  function WithoutID(byID: map<string, TextBlock>, id: string): map<string, TextBlock> {
    if id != "" then byID - {id} else byID
  }

  lemma IndexesRest(byID: map<string, TextBlock>, blocks: seq<TextBlock>)
    requires Indexes(byID, blocks) && blocks != []
    ensures Indexes(WithoutID(byID, blocks[0].id), blocks[1..])
    ensures TextsOf(blocks[1..]) == TextsOf(blocks)[1..]
  {
  }

  lemma IndexesMore(byID: map<string, TextBlock>, blocks: seq<TextBlock>, b: TextBlock)
    requires Indexes(byID, blocks) && b !in blocks && b.id !in byID
    ensures Indexes(if b.id != "" then byID[b.id := b] else byID, blocks + [b])
  {
  }

  lemma TextsOfMore(blocks: seq<TextBlock>, b: TextBlock)
    ensures TextsOf(blocks + [b]) == TextsOf(blocks) + [b.Value()]
    ensures Size(TextsOf(blocks + [b])) == Size(TextsOf(blocks)) + |b.text|
  {
    assert TextsOf(blocks + [b]) == TextsOf(blocks) + [b.Value()];
    SizeOfAppend(TextsOf(blocks), [b.Value()]);
    assert [b.Value()][1..] == [];
  }

  lemma TextsOfRest(blocks: seq<TextBlock>, from: nat)
    requires from <= |blocks|
    ensures TextsOf(blocks[from..]) == TextsOf(blocks)[from..]
  {
  }

  lemma TextsOfFront(blocks: seq<TextBlock>, i: nat)
    requires i < |blocks|
    ensures Front(TextsOf(blocks)[..i + 1]) == TextsOf(blocks)[..i]
    ensures Last(TextsOf(blocks)[..i + 1]) == blocks[i].Value()
  {
  }

  /** The last block with text, among the final ones or among all. */
  method FindText(blocks: seq<TextBlock>, finals: bool) returns (text: seq<Byte>)
    ensures text == LastText(TextsOf(blocks), finals)
  {
    ghost var texts := TextsOf(blocks);
    var i := |blocks|;
    assert texts[..i] == texts;
    while i > 0
      invariant 0 <= i <= |blocks| && LastText(texts, finals) == LastText(texts[..i], finals)
    {
      i := i - 1;
      TextsOfFront(blocks, i);
      if blocks[i].final || !finals {
        text := TrimSpace(blocks[i].text);
        if text != [] {
          return;
        }
      }
    }
    return [];
  }

  class LiveTurn {
    const id: string
    var usageStop: StopReason
    var blocks: seq<TextBlock>
    var byID: map<string, TextBlock>
    var anonOpen: bool
    var bytes: nat
    var tick: int
    var tools: seq<Tool>
    var early: map<string, Facts>
    var earlyOrder: seq<string>
    var signals: seq<Signal>
    var pending: seq<Request>

    constructor (id: string)
      ensures Valid() && View() == NewTurn(id) && this.id == id && blocks == []
    {
      this.id, usageStop := id, NoStop;
      blocks, byID, anonOpen, bytes := [], map[], false, 0;
      tick, tools, early, earlyOrder := 0, [], map[], [];
      signals, pending := [], [];
    }

    /** The anonymous block, while open, is the last. */
    ghost predicate Indexed()
      reads this
    {
      Indexes(byID, blocks) && (anonOpen ==> blocks != [] && Last(blocks).id == "")
    }

    function CallsNow(): Calls
      reads this
    {
      Calls(tick, tools, early, earlyOrder)
    }

    function AsksNow(): Asks
      reads this
    {
      Asks(signals, pending)
    }

    ghost function View(): Turn
      reads this, blocks
    {
      Turn(id, usageStop, Buffer(TextsOf(blocks), anonOpen, bytes), CallsNow(), AsksNow())
    }

    ghost predicate Valid()
      reads this, blocks
    {
      Indexed() && bytes == Size(TextsOf(blocks))
    }

    // ---- text ---------------------------------------------------------------------------------

    /** The text of a delta, cut to what the block still takes. */
    method WriteTo(b: TextBlock, ghost i: nat, text: seq<Byte>, final: bool)
      requires Indexed() && i < |blocks| && blocks[i] == b && bytes == Size(TextsOf(blocks))
      modifies b`text, b`final, `bytes
      ensures Valid()
      ensures TextsOf(blocks) == Write(old(TextsOf(blocks)), i, text, final)
    {
      SizeOfWrite(TextsOf(blocks), i, text, final);
      ghost var before := TextsOf(blocks);
      var taken := b.Take(text, final);
      bytes := bytes + taken;
      assert TextsOf(blocks) == Write(before, i, text, final);
    }

    /** A new block at the end. */
    method StartBlock(blockID: string) returns (b: TextBlock)
      requires Indexed() && (blockID != "" ==> blockID !in byID)
      modifies `blocks, `byID, `anonOpen
      ensures Indexed() && fresh(b) && anonOpen == (blockID == "") && blocks == old(blocks) + [b]
      ensures TextsOf(blocks) == old(TextsOf(blocks)) + [Block(blockID, false, [])]
      ensures Size(TextsOf(blocks)) == Size(old(TextsOf(blocks)))
    {
      b := new TextBlock(blockID);
      TextsOfMore(blocks, b);
      IndexesMore(byID, blocks, b);
      if blockID != "" {
        byID := byID[blockID := b];
      }
      blocks := blocks + [b];
      anonOpen := blockID == "";
    }

    /** The block a delta goes to. */
    method TargetBlock(blockID: string) returns (b: TextBlock, ghost i: nat)
      requires Indexed()
      modifies `blocks, `byID, `anonOpen
      ensures Indexed() && i < |blocks| && blocks[i] == b && anonOpen == (blockID == "")
      ensures Target(old(TextsOf(blocks)), old(anonOpen), blockID) == (TextsOf(blocks), i)
      ensures Size(TextsOf(blocks)) == Size(old(TextsOf(blocks)))
      ensures forall x :: x in blocks ==> x in old(blocks) || fresh(x)
    {
      if blockID != "" {
        ByIDFinds(byID, blocks, blockID);
        if blockID in byID {
          b, i := byID[blockID], FindBlock(TextsOf(blocks), blockID).value;
          anonOpen := false;
        } else {
          i := |blocks|;
          b := StartBlock(blockID);
        }
      } else if anonOpen {
        b, i := Last(blocks), |blocks| - 1;
      } else {
        i := |blocks|;
        b := StartBlock("");
      }
    }

    method AddDelta(text: seq<Byte>, blockID: string, final: bool)
      requires Valid()
      modifies this, blocks
      ensures Valid() && View() == Apply(old(View()), Delta(text, blockID, final))
      ensures forall x :: x in blocks ==> x in old(blocks) || fresh(x)
    {
      if text == [] {
        return;
      }
      Grow(text, blockID, final);
      TrimBlocks();
    }

    method Grow(text: seq<Byte>, blockID: string, final: bool)
      requires Valid() && text != []
      modifies `blocks, `byID, `anonOpen, `bytes, blocks
      ensures Valid() && Buffer(TextsOf(blocks), anonOpen, bytes) == Append(old(View().buffer), text, blockID, final)
      ensures forall x :: x in blocks ==> x in old(blocks) || fresh(x)
    {
      ghost var before := View().buffer;
      ghost var grown := Append(before, text, blockID, final);
      AppendCounts(before, text, blockID, final);
      var b;
      ghost var i;
      b, i := TargetBlock(blockID);
      assert b in blocks && grown.blocks == Write(TextsOf(blocks), i, text, final) && grown.anonOpen == anonOpen;
      WriteTo(b, i, text, final);
    }

    method RemoveOldest()
      requires Valid() && |blocks| > 1
      modifies `blocks, `byID, `bytes
      ensures Valid() && blocks == old(blocks)[1..] && bytes == old(bytes) - old(|blocks[0].text|)
      ensures TextsOf(blocks) == old(TextsOf(blocks))[1..]
    {
      ghost var texts := TextsOf(blocks);
      assert texts[0] == blocks[0].Value() && Size(texts) == |texts[0].text| + Size(texts[1..]);
      IndexesRest(byID, blocks);
      var oldest := blocks[0];
      bytes := bytes - |oldest.text|;
      byID := WithoutID(byID, oldest.id);
      blocks := blocks[1..];
    }

    method DropOldestBlock()
      requires Valid() && |blocks| > 1
      modifies this
      ensures Valid() && View() == DropOldest(old(View()))
      ensures blocks == old(blocks)[1..]
    {
      RemoveOldest();
      BlocksShifted();
    }

    method TrimBlocks()
      requires Valid()
      modifies this
      ensures Valid() && View() == Trim(old(View()))
      ensures forall x :: x in blocks ==> x in old(blocks)
    {
      while |blocks| > 1 && (|blocks| > MAX_BLOCKS || bytes > MAX_TURN_BYTES)
        invariant Valid() && Trim(View()) == Trim(old(View()))
        invariant forall x :: x in blocks ==> x in old(blocks)
        decreases |blocks|
      {
        DropOldestBlock();
      }
    }

    /** Every stored position moves down by one, if it can. */
    method BlocksShifted()
      modifies `tools, `signals, `pending
      ensures View() == Shifted(old(View()))
    {
      ShiftTools();
      ShiftSignals();
      ShiftPending();
    }

    method ShiftTools()
      modifies `tools
      ensures tools == Shifted(old(View())).calls.tools
    {
      for i := 0 to |tools|
        invariant |tools| == |old(tools)|
        invariant forall j :: 0 <= j < |tools| ==>
          tools[j] == if j < i then old(tools)[j].(blocksAt := Down(old(tools)[j].blocksAt)) else old(tools)[j]
      {
        if tools[i].blocksAt > 0 {
          tools := tools[i := tools[i].(blocksAt := tools[i].blocksAt - 1)];
        }
      }
    }

    method ShiftSignals()
      modifies `signals
      ensures signals == Shifted(old(View())).asks.signals
    {
      for i := 0 to |signals|
        invariant |signals| == |old(signals)|
        invariant forall j :: 0 <= j < |signals| ==>
          signals[j] == if j < i then old(signals)[j].(at := Down(old(signals)[j].at)) else old(signals)[j]
      {
        if signals[i].at > 0 {
          signals := signals[i := signals[i].(at := signals[i].at - 1)];
        }
      }
    }

    method ShiftPending()
      modifies `pending
      ensures pending == Shifted(old(View())).asks.pending
    {
      for i := 0 to |pending|
        invariant |pending| == |old(pending)|
        invariant forall j :: 0 <= j < |pending| ==>
          pending[j] == if j < i then old(pending)[j].(sig := old(pending)[j].sig.(at := Down(old(pending)[j].sig.at)))
                        else old(pending)[j]
      {
        if pending[i].sig.at > 0 {
          pending := pending[i := pending[i].(sig := pending[i].sig.(at := pending[i].sig.at - 1))];
        }
      }
    }

    method Boundary()
      requires Valid()
      modifies `anonOpen
      ensures Valid() && View() == Noted(old(View()), Pause)
    {
      anonOpen := false;
    }

    // ---- tool calls -----------------------------------------------------------------------------

    /** toolIndex. */
    method FindTool(toolID: string) returns (found: Option<nat>)
      ensures found == ToolIndex(tools, toolID)
    {
      if toolID == "" {
        return None;
      }
      var i := |tools|;
      assert tools[..i] == tools;
      while i > 0
        invariant 0 <= i <= |tools| && ToolIndex(tools, toolID) == ToolIndex(tools[..i], toolID)
      {
        i := i - 1;
        assert Last(tools[..i + 1]) == tools[i] && Front(tools[..i + 1]) == tools[..i];
        if tools[i].id == toolID {
          return Some(i);
        }
      }
      return None;
    }

    method ForgetEarlyFacts(toolID: string)
      modifies `early, `earlyOrder
      ensures CallsNow() == ForgetEarly(old(CallsNow()), toolID)
    {
      early := early - {toolID};
      var i := 0;
      while i < |earlyOrder| && earlyOrder[i] != toolID
        invariant i <= |earlyOrder| && forall j :: 0 <= j < i ==> earlyOrder[j] != toolID
      {
        i := i + 1;
      }
      WithoutAt(earlyOrder, toolID, i);
      if i < |earlyOrder| {
        earlyOrder := earlyOrder[..i] + earlyOrder[i + 1..];
      }
    }

    method RecordTool(toolID: string, question: bool) returns (index: nat)
      modifies `tools, `tick, `early, `earlyOrder
      ensures CallsNow() == AddTool(old(CallsNow()), toolID, question, |blocks|)
      ensures index == |tools| - 1
    {
      if |tools| >= MAX_TOOLS {
        tools := tools[1..];
      }
      tick := tick + 1;
      var tool := Tool(toolID, |blocks|, tick, question, NO_FACTS);
      if toolID in early && toolID != "" {
        tool := tool.(facts := early[toolID]);
        ForgetEarlyFacts(toolID);
      }
      tools := tools + [tool];
      return |tools| - 1;
    }

    /** What factsFor points to. */
    method KnownFacts(toolID: string) returns (facts: Facts)
      ensures facts == FactsOf(CallsNow(), toolID)
    {
      var i := FindTool(toolID);
      if i.Some? {
        return tools[i.value].facts;
      }
      return if toolID in early then early[toolID] else NO_FACTS;
    }

    /** factsFor, and the write through its pointer. */
    method WriteFacts(toolID: string, facts: Facts)
      modifies `tools, `early, `earlyOrder
      ensures CallsNow() == SetFacts(old(CallsNow()), toolID, facts)
    {
      var i := FindTool(toolID);
      if i.Some? {
        tools := tools[i.value := tools[i.value].(facts := facts)];
        return;
      }
      if toolID in early {
        early := early[toolID := facts];
        return;
      }
      if |earlyOrder| >= MAX_EARLY {
        ForgetEarlyFacts(earlyOrder[0]);
      }
      early := early[toolID := facts];
      earlyOrder := earlyOrder + [toolID];
    }

    method RecordResult(toolID: string, isError: bool)
      modifies `tools, `tick, `early, `earlyOrder
      ensures CallsNow() == SetResult(old(CallsNow()), toolID, isError)
    {
      if toolID == "" {
        return;
      }
      var facts := KnownFacts(toolID);
      if facts.result.Some? {
        return;
      }
      WriteFacts(toolID, facts.(result := Some(Outcome(isError, tick + 1))));
      tick := tick + 1;
    }

    // ---- signals --------------------------------------------------------------------------------

    method Raise(sig: Signal)
      modifies `signals
      ensures AsksNow() == AddSignal(old(AsksNow()), sig)
    {
      signals := signals + [sig];
      if |signals| > MAX_SIGNALS {
        signals := signals[|signals| - MAX_SIGNALS..];
      }
    }

    method RaiseQuestion(asked: seq<Byte>, index: nat)
      requires index < |tools|
      modifies `signals
      ensures AsksNow() == AddSignal(old(AsksNow()), QuestionAsked(asked, tools[index].id, |blocks|, tick))
    {
      Raise(Signal(Question, Clip(asked), tools[index].id != "", tools[index].id, true, |blocks|, tick));
    }

    method RaiseApproval(text: seq<Byte>, toolID: string)
      modifies `signals, `tools, `early, `earlyOrder
      ensures CallsNow() == SetRefused(old(CallsNow()), toolID)
      ensures AsksNow() == AddSignal(old(AsksNow()), Refusal(text, toolID))
    {
      if toolID != "" {
        var facts := KnownFacts(toolID);
        WriteFacts(toolID, facts.(refused := true));
      }
      Raise(Signal(Approval, Clip(text), true, toolID, false, 0, 0));
    }

    method AskPermission(ids: seq<string>, text: seq<Byte>)
      modifies `pending
      ensures AsksNow() == AddRequest(old(AsksNow()), Request(ids, AtPoint(Approval, text, |blocks|, tick)))
    {
      pending := pending + [Request(ids, Signal(Approval, Clip(text), false, "", false, |blocks|, tick))];
      if |pending| > MAX_PENDING {
        pending := pending[|pending| - MAX_PENDING..];
      }
    }

    /** The first pending request that one of the ids names. */
    method FindPending(ids: seq<string>) returns (found: Option<nat>)
      ensures found == Named(pending, ids)
    {
      for i := 0 to |pending|
        invariant Named(pending, ids) == match Named(pending[i..], ids)
          case Some(j) => Some(i + j)
          case None => None
      {
        assert pending[i..][1..] == pending[i + 1..];
        if Overlaps(pending[i].ids, ids) {
          return Some(i);
        }
      }
      return None;
    }

    method ResolvePermission(ids: seq<string>, allowed: bool, text: seq<Byte>)
      modifies `pending, `signals
      ensures AsksNow() == Settled(old(AsksNow()), ids, allowed, AtPoint(Approval, text, |blocks|, tick))
    {
      var found := FindPending(ids);
      if found.None? && pending != [] {
        found := Some(0);
      }
      var sig := Signal(Approval, Clip(text), false, "", false, |blocks|, tick);
      if found.Some? {
        sig := pending[found.value].sig;
        pending := pending[..found.value] + pending[found.value + 1..];
      }
      if !allowed {
        Raise(sig);
      }
    }

    /** An event in the turn's body, as the feeds apply it. */
    method Observe(op: Op)
      requires Valid()
      modifies this, blocks
      ensures Valid() && View() == Apply(old(View()), op)
      ensures forall x :: x in blocks ==> x in old(blocks) || fresh(x)
    {
      match op
      case Delta(text, blockID, final) => AddDelta(text, blockID, final);
      case NoteStop(stop) => if stop != NoStop { usageStop := stop; }
      case _ => Mark(op);
    }

    /** An event that also ends the anonymous block. */
    method Mark(op: Op)
      requires Valid() && !op.Delta? && !op.NoteStop?
      modifies `anonOpen, `tools, `tick, `early, `earlyOrder, `signals, `pending
      ensures Valid() && View() == Noted(old(View()), op)
    {
      ghost var before := View();
      anonOpen := false;
      Note(op);
      assert View().calls == CallsNow() && View().asks == AsksNow() && View().buffer == before.buffer.(anonOpen := false);
    }

    method Note(op: Op)
      requires !op.Delta? && !op.NoteStop?
      modifies `tools, `tick, `early, `earlyOrder, `signals, `pending
      ensures CallsNow() == NotedCalls(old(CallsNow()), |blocks|, op)
      ensures AsksNow() == NotedAsks(old(AsksNow()), |blocks|, old(tick), op)
    {
      match op
      case Pause =>
      case UseTool(toolID, question, asked) =>
        var index := RecordTool(toolID, question);
        if question { RaiseQuestion(asked, index); }
      case ToolResult(toolID, isError) => RecordResult(toolID, isError);
      case Ask(asked) => Raise(Signal(Question, Clip(asked), false, "", false, |blocks|, tick));
      case PermissionRequest(ids, text) => AskPermission(ids, text);
      case Resolve(ids, allowed, text) => ResolvePermission(ids, allowed, text);
      case Refuse(text, toolID) => RaiseApproval(text, toolID);
    }

    // ---- how the turn ended -----------------------------------------------------------------------

    method PlaceSignal(sig: Signal) returns (at: nat, after: int)
      ensures (at, after) == Place(CallsNow(), sig)
    {
      if !sig.byTool {
        return sig.at, sig.tick;
      }
      if sig.toolID == "" {
        if |tools| > 0 {
          return tools[|tools| - 1].blocksAt, tools[|tools| - 1].tick;
        }
        return 0, 0;
      }
      var i := FindTool(sig.toolID);
      if i.None? {
        return 0, -1;
      }
      var tool := tools[i.value];
      after := tool.tick;
      if tool.facts.result.Some? {
        after := tool.facts.result.value.tick;
      }
      return tool.blocksAt, after;
    }

    /** open. */
    method EndedOn(sig: Signal) returns (ended: bool)
      ensures ended == IsOpen(CallsNow(), sig)
    {
      if sig.toolCall && sig.toolID != "" {
        var i := FindTool(sig.toolID);
        if i.Some? && tools[i.value].facts.result.Some? && !tools[i.value].facts.result.value.isError {
          return false;
        }
      }
      var _, after := PlaceSignal(sig);
      for i := 0 to |tools|
        invariant forall j :: 0 <= j < i ==> !WorksPast(tools[j], after)
      {
        if tools[i].tick > after && !tools[i].question && !tools[i].facts.refused {
          return false;
        }
      }
      return true;
    }

    /** openSignal: the last open question, else the last open approval. */
    method FindOpenSignal() returns (sig: Option<Signal>)
      ensures sig == OpenSignal(View())
    {
      var question, approval: Option<Signal> := None, None;
      ghost var all := Signals(AsksNow());
      for i := 0 to |signals| + |pending|
        invariant question == LastOpen(CallsNow(), all[..i], true) && approval == LastOpen(CallsNow(), all[..i], false)
      {
        var s := if i < |signals| then signals[i] else pending[i - |signals|].sig;
        assert Front(all[..i + 1]) == all[..i] && Last(all[..i + 1]) == s;
        var ended := EndedOn(s);
        if ended {
          if s.kind == Question {
            question := Some(s);
          } else {
            approval := Some(s);
          }
        }
      }
      assert all[..|signals| + |pending|] == all;
      return if question.Some? then question else approval;
    }

    method PickText(start: nat, termText: seq<Byte>) returns (text: seq<Byte>, confidence: Confidence)
      ensures (text, confidence) == Pick(TextsOf(blocks), start, termText)
    {
      text := TrimSpace(termText);
      if text != [] {
        return text, Exact;
      }
      var from := if start > |blocks| then |blocks| else start;
      TextsOfRest(blocks, from);
      text := FindText(blocks[from..], true);
      if text != [] {
        return text, Exact;
      }
      text := FindText(blocks[from..], false);
      return text, Heuristic;
    }

    /** hasTextAfter. */
    method HasText(from: nat) returns (has: bool)
      ensures has == HasTextAfter(TextsOf(blocks), from)
    {
      if from > |blocks| {
        return false;
      }
      TextsOfRest(blocks, from);
      var text := FindText(blocks[from..], false);
      return text != [];
    }

    method TextOfSignal(sig: Signal, termText: seq<Byte>, pickText: seq<Byte>, pickConfidence: Confidence)
      returns (text: seq<Byte>, confidence: Confidence)
      requires (pickText, pickConfidence) == Pick(TextsOf(blocks), 0, termText)
      ensures (text, confidence) == SignalText(View(), sig, termText)
    {
      var at, _ := PlaceSignal(sig);
      var later := HasText(at);
      if later {
        text, confidence := PickText(at, termText);
        if text != [] {
          return;
        }
      } else if |blocks| == 0 && TrimSpace(termText) != [] {
        return TrimSpace(termText), Exact;
      }
      if sig.text != [] {
        return sig.text, Exact;
      }
      return pickText, pickConfidence;
    }
  }
}
