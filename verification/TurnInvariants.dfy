/**
 * What every turn the reducer can reach keeps: bounded text and lists, early facts only
 * for calls it does not have, and ticks that never run ahead of the turn's own.
 */
module TurnInvariants {
  import opened Bytes
  import opened Lists
  import opened Options
  import opened TurnModel

  // ---- the early store --------------------------------------------------------------------------

  predicate Distinct(list: seq<string>) {
    forall i, j :: 0 <= i < j < |list| ==> list[i] != list[j]
  }

  /** Facts are kept early only for calls the turn does not have, each once, 256 at most. */
  ghost predicate Tidy(c: Calls) {
    && |c.tools| <= MAX_TOOLS && |c.earlyOrder| <= MAX_EARLY && Distinct(c.earlyOrder)
    && (forall x :: x in c.early <==> x in c.earlyOrder)
    && forall x :: x in c.early ==> x != "" && ToolIndex(c.tools, x).None?
  }

  lemma {:induction false} WithoutOne(list: seq<string>, x: string)
    requires Distinct(list)
    ensures Distinct(Without(list, x)) && |Without(list, x)| <= |list|
    ensures forall y :: y in Without(list, x) <==> y in list && y != x
    ensures x in list ==> |Without(list, x)| == |list| - 1
  {
    if list != [] {
      var rest := list[1..];
      assert forall y :: y in list <==> y == list[0] || y in rest by { assert list == [list[0]] + rest; }
      WithoutOne(rest, x);
      if list[0] != x { DistinctOfCons(list[0], Without(rest, x)); }
    }
  }

  lemma DistinctOfCons(x: string, list: seq<string>)
    requires Distinct(list) && x !in list
    ensures Distinct([x] + list)
  {
  }

  lemma {:induction false} WithoutLast(list: seq<string>, x: string)
    requires x !in list
    ensures Without(list + [x], x) == list
  {
    if list != [] {
      assert (list + [x])[1..] == list[1..] + [x];
      WithoutLast(list[1..], x);
      assert list == [list[0]] + list[1..];
    }
  }

  lemma ToolIndexOfAdd(tools: seq<Tool>, tool: Tool, id: string)
    ensures ToolIndex(tools + [tool], id) == if id != "" && tool.id == id then Some(|tools|) else ToolIndex(tools, id)
  {
  }

  lemma NoToolInTail(tools: seq<Tool>, id: string)
    requires tools != [] && ToolIndex(tools, id).None?
    ensures ToolIndex(tools[1..], id).None?
  {
  }

  lemma AddToolIsTidy(c: Calls, id: string, question: bool, blocksAt: nat)
    requires Tidy(c)
    ensures Tidy(AddTool(c, id, question, blocksAt))
  {
    var kept := if |c.tools| >= MAX_TOOLS then c.tools[1..] else c.tools;
    var r := AddTool(c, id, question, blocksAt);
    WithoutOne(c.earlyOrder, id);
    forall x | x in r.early ensures x != "" && ToolIndex(r.tools, x).None? {
      if |c.tools| >= MAX_TOOLS { NoToolInTail(c.tools, x); }
      ToolIndexOfAdd(kept, Last(r.tools), x);
    }
  }

  lemma SetFactsIsTidy(c: Calls, id: string, facts: Facts)
    requires Tidy(c) && id != ""
    ensures Tidy(SetFacts(c, id, facts))
  {
    var r := SetFacts(c, id, facts);
    match ToolIndex(c.tools, id)
    case Some(i) =>
      forall x | x in r.early ensures ToolIndex(r.tools, x).None? {
        SameIds(c.tools, r.tools, x);
      }
    case None =>
      if id !in c.early {
        if |c.earlyOrder| >= MAX_EARLY {
          assert c.earlyOrder[0] in c.earlyOrder;
          WithoutOne(c.earlyOrder, c.earlyOrder[0]);
        }
      }
  }

  lemma {:induction false} SameIds(a: seq<Tool>, b: seq<Tool>, id: string)
    requires |a| == |b| && forall i :: 0 <= i < |a| ==> a[i].id == b[i].id
    ensures ToolIndex(a, id) == ToolIndex(b, id)
  {
  }

  lemma SetResultIsTidy(c: Calls, id: string, isError: bool)
    requires Tidy(c)
    ensures Tidy(SetResult(c, id, isError))
  {
    if id != "" && FactsOf(c, id).result.None? {
      SetFactsIsTidy(c, id, FactsOf(c, id).(result := Some(Outcome(isError, c.tick + 1))));
    }
  }

  lemma SetRefusedIsTidy(c: Calls, id: string)
    requires Tidy(c)
    ensures Tidy(SetRefused(c, id))
  {
    if id != "" { SetFactsIsTidy(c, id, FactsOf(c, id).(refused := true)); }
  }

  lemma NotedIsTidy(c: Calls, blocks: nat, op: Op)
    requires Tidy(c)
    ensures Tidy(NotedCalls(c, blocks, op))
  {
    match op
    case UseTool(id, question, _) => AddToolIsTidy(c, id, question, blocks);
    case ToolResult(id, isError) => SetResultIsTidy(c, id, isError);
    case Refuse(_, id) => SetRefusedIsTidy(c, id);
    case _ =>
  }

  // ---- ticks ------------------------------------------------------------------------------------

  predicate FactsUpTo(f: Facts, tick: int) {
    f.result.Some? ==> 0 < f.result.value.tick <= tick
  }

  predicate ToolUpTo(tool: Tool, tick: int) {
    0 < tool.tick <= tick && FactsUpTo(tool.facts, tick)
  }

  predicate CallsUpTo(c: Calls) {
    && c.tick >= 0
    && (forall i :: 0 <= i < |c.tools| ==> ToolUpTo(c.tools[i], c.tick))
    && forall x :: x in c.early ==> FactsUpTo(c.early[x], c.tick)
  }

  /** Few signals and requests, none from the future; a request sits where it arrived. */
  predicate AsksUpTo(a: Asks, tick: int) {
    && |a.signals| <= MAX_SIGNALS && |a.pending| <= MAX_PENDING
    && (forall i :: 0 <= i < |a.signals| ==> 0 <= a.signals[i].tick <= tick)
    && forall i :: 0 <= i < |a.pending| ==> !a.pending[i].sig.byTool && 0 <= a.pending[i].sig.tick <= tick
  }

  // ---- text -------------------------------------------------------------------------------------

  ghost predicate SmallBlocks(blocks: seq<Block>) {
    forall b :: b in blocks ==> |b.text| <= MAX_BLOCK_BYTES
  }

  /** What addDelta leaves: no block too large, and no more than trim allows. */
  ghost predicate TextFits(b: Buffer) {
    SmallBlocks(b.blocks) && !TooMuch(|b.blocks|, b.bytes)
  }

  lemma AppendIsSmall(b: Buffer, text: seq<Byte>, blockID: string, final: bool)
    requires SmallBlocks(b.blocks) && (b.anonOpen ==> b.blocks != [])
    ensures SmallBlocks(Append(b, text, blockID, final).blocks)
  {
    if text != [] {
      var (blocks, i) := Target(b.blocks, b.anonOpen, blockID);
      forall x | x in Write(blocks, i, text, final) ensures |x.text| <= MAX_BLOCK_BYTES {
        var j :| 0 <= j < |blocks| && Write(blocks, i, text, final)[j] == x;
        assert j < |b.blocks| ==> blocks[j] == b.blocks[j];
      }
    }
  }

  lemma SizeOfOne(blocks: seq<Block>)
    requires |blocks| <= 1 && SmallBlocks(blocks)
    ensures Size(blocks) <= MAX_BLOCK_BYTES
  {
    if blocks != [] {
      assert blocks[0] in blocks;
    }
  }

  /** What holds of every turn a run can reach. */
  ghost predicate Reachable(t: Turn) {
    WellFormed(t) && TextFits(t.buffer) && Tidy(t.calls) && CallsUpTo(t.calls) && AsksUpTo(t.asks, t.calls.tick)
  }

  lemma SetResultUpTo(c: Calls, id: string, isError: bool)
    requires CallsUpTo(c)
    ensures CallsUpTo(SetResult(c, id, isError)) && c.tick <= SetResult(c, id, isError).tick
  {
  }

  lemma SetRefusedUpTo(c: Calls, id: string)
    requires CallsUpTo(c)
    ensures CallsUpTo(SetRefused(c, id)) && c.tick == SetRefused(c, id).tick
  {
  }

  lemma NotedUpTo(c: Calls, blocks: nat, op: Op)
    requires CallsUpTo(c)
    ensures CallsUpTo(NotedCalls(c, blocks, op)) && c.tick <= NotedCalls(c, blocks, op).tick
    ensures op.UseTool? ==> NotedCalls(c, blocks, op).tick == c.tick + 1
  {
    match op
    case ToolResult(id, isError) => SetResultUpTo(c, id, isError);
    case Refuse(_, id) => SetRefusedUpTo(c, id);
    case _ =>
  }

  lemma AddSignalUpTo(a: Asks, sig: Signal, tick: int)
    requires AsksUpTo(a, tick) && 0 <= sig.tick <= tick
    ensures AsksUpTo(AddSignal(a, sig), tick)
  {
  }

  lemma AddRequestUpTo(a: Asks, request: Request, tick: int)
    requires AsksUpTo(a, tick) && !request.sig.byTool && 0 <= request.sig.tick <= tick
    ensures AsksUpTo(AddRequest(a, request), tick)
  {
  }

  lemma SettledUpTo(a: Asks, ids: seq<string>, allowed: bool, unasked: Signal, tick: int)
    requires AsksUpTo(a, tick) && 0 <= unasked.tick <= tick
    ensures AsksUpTo(Settled(a, ids, allowed, unasked), tick)
  {
  }

  lemma NotedAsksUpTo(a: Asks, blocks: nat, tick: int, op: Op)
    requires tick >= 0 && AsksUpTo(a, tick)
    ensures var r := NotedAsks(a, blocks, tick, op);
      AsksUpTo(r, if op.UseTool? then tick + 1 else tick)
  {
    match op
    case UseTool(id, question, asked) => AddSignalUpTo(a, QuestionAsked(asked, id, blocks, tick + 1), tick + 1);
    case Ask(asked) => AddSignalUpTo(a, AtPoint(Question, asked, blocks, tick), tick);
    case PermissionRequest(ids, text) => AddRequestUpTo(a, Request(ids, AtPoint(Approval, text, blocks, tick)), tick);
    case Resolve(ids, allowed, text) => SettledUpTo(a, ids, allowed, AtPoint(Approval, text, blocks, tick), tick);
    case Refuse(text, id) => AddSignalUpTo(a, Refusal(text, id), tick);
    case _ =>
  }

  /** Trimming shifts positions and lets the oldest blocks go, until the rest fits. */
  lemma {:induction false} TrimIsReachable(t: Turn)
    requires WellFormed(t) && SmallBlocks(t.buffer.blocks)
    requires Tidy(t.calls) && CallsUpTo(t.calls) && AsksUpTo(t.asks, t.calls.tick)
    ensures Reachable(Trim(t))
    decreases |t.buffer.blocks|
  {
    if TooMuch(|t.buffer.blocks|, t.buffer.bytes) {
      ShiftedIsTidy(t);
      TrimIsReachable(DropOldest(t));
    }
  }

  lemma ShiftedIsTidy(t: Turn)
    requires Tidy(t.calls) && CallsUpTo(t.calls) && AsksUpTo(t.asks, t.calls.tick)
    ensures Tidy(Shifted(t).calls) && CallsUpTo(Shifted(t).calls) && AsksUpTo(Shifted(t).asks, t.calls.tick)
  {
    forall x | x in t.calls.early ensures ToolIndex(Shifted(t).calls.tools, x).None? {
      SameIds(t.calls.tools, Shifted(t).calls.tools, x);
    }
  }

  lemma ApplyIsReachable(t: Turn, op: Op)
    requires Reachable(t)
    ensures Reachable(Apply(t, op))
  {
    if op.Delta? {
      AppendCounts(t.buffer, op.text, op.blockID, op.final);
      AppendIsSmall(t.buffer, op.text, op.blockID, op.final);
      TrimIsReachable(t.(buffer := Append(t.buffer, op.text, op.blockID, op.final)));
    } else {
      NotedIsTidy(t.calls, |t.buffer.blocks|, op);
      NotedUpTo(t.calls, |t.buffer.blocks|, op);
      NotedAsksUpTo(t.asks, |t.buffer.blocks|, t.calls.tick, op);
    }
  }

  lemma {:induction false} TurnsAreReachable(id: string, ops: seq<Op>)
    ensures Reachable(TurnOf(id, ops))
  {
    if ops != [] {
      TurnsAreReachable(id, Front(ops));
      ApplyIsReachable(TurnOf(id, Front(ops)), Last(ops));
    }
  }

  /** A turn in reach holds at most 128 blocks, 4 MiB in all and 1 MiB in each. */
  lemma TextIsBounded(t: Turn)
    requires Reachable(t)
    ensures |t.buffer.blocks| <= MAX_BLOCKS && t.buffer.bytes == Size(t.buffer.blocks) <= MAX_TURN_BYTES
    ensures forall b :: b in t.buffer.blocks ==> |b.text| <= MAX_BLOCK_BYTES
  {
    if |t.buffer.blocks| <= 1 { SizeOfOne(t.buffer.blocks); }
  }
}
