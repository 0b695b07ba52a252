/**
 * The text a turn keeps is whole characters: blocks and signal texts are cut, but never
 * inside a character of valid UTF-8.
 */
module TurnText {
  import opened Bytes
  import opened Lists
  import opened TurnInvariants
  import opened TurnModel
  import opened Utf8

  predicate TextOf(op: Op, text: seq<Byte>) {
    match op
    case Delta(t, _, _) => text == t
    case UseTool(_, _, asked) => text == asked
    case Ask(asked) => text == asked
    case PermissionRequest(_, t) => text == t
    case Resolve(_, _, t) => text == t
    case Refuse(t, _) => text == t
    case _ => false
  }

  ghost predicate ValidOp(op: Op) {
    forall text :: TextOf(op, text) ==> Valid(text)
  }

  ghost predicate ValidBlocks(blocks: seq<Block>) {
    forall b :: b in blocks ==> Valid(b.text)
  }

  ghost predicate ValidAsks(a: Asks) {
    && (forall sig :: sig in a.signals ==> Valid(sig.text))
    && (forall r :: r in a.pending ==> Valid(r.sig.text))
  }

  lemma WriteIsValid(blocks: seq<Block>, i: nat, text: seq<Byte>, final: bool)
    requires i < |blocks| && ValidBlocks(blocks) && SmallBlocks(blocks) && Valid(text)
    ensures ValidBlocks(Write(blocks, i, text, final))
  {
    assert blocks[i] in blocks;
    CutIsTheLongestValidPrefix(text, MAX_BLOCK_BYTES - |blocks[i].text|);
    ValidJoin(blocks[i].text, Cut(text, MAX_BLOCK_BYTES - |blocks[i].text|));
    forall b | b in Write(blocks, i, text, final) ensures Valid(b.text) {
      var j :| 0 <= j < |blocks| && Write(blocks, i, text, final)[j] == b;
      assert blocks[j] in blocks;
    }
  }

  lemma AppendIsValid(b: Buffer, text: seq<Byte>, blockID: string, final: bool)
    requires ValidBlocks(b.blocks) && SmallBlocks(b.blocks) && (b.anonOpen ==> b.blocks != []) && Valid(text)
    ensures ValidBlocks(Append(b, text, blockID, final).blocks)
  {
    if text != [] {
      var (blocks, i) := Target(b.blocks, b.anonOpen, blockID);
      assert forall x :: x in blocks ==> x in b.blocks || x.text == [];
      WriteIsValid(blocks, i, text, final);
    }
  }

  lemma {:induction false} TrimIsValid(t: Turn)
    requires WellFormed(t) && ValidBlocks(t.buffer.blocks) && ValidAsks(t.asks)
    ensures ValidBlocks(Trim(t).buffer.blocks) && ValidAsks(Trim(t).asks)
    decreases |t.buffer.blocks|
  {
    if TooMuch(|t.buffer.blocks|, t.buffer.bytes) {
      ShiftedIsValid(t);
      assert forall b :: b in t.buffer.blocks[1..] ==> b in t.buffer.blocks;
      TrimIsValid(DropOldest(t));
    }
  }

  lemma ShiftedIsValid(t: Turn)
    requires ValidAsks(t.asks)
    ensures ValidAsks(Shifted(t).asks)
  {
    var a := Shifted(t).asks;
    forall sig | sig in a.signals ensures Valid(sig.text) {
      var i :| 0 <= i < |t.asks.signals| && a.signals[i] == sig;
      assert t.asks.signals[i] in t.asks.signals;
    }
    forall r | r in a.pending ensures Valid(r.sig.text) {
      var i :| 0 <= i < |t.asks.pending| && a.pending[i] == r;
      assert t.asks.pending[i] in t.asks.pending;
    }
  }

  lemma ClipIsValid(text: seq<Byte>)
    requires Valid(text)
    ensures Valid(Clip(text)) && |Clip(text)| <= MAX_SIGNAL_BYTES
  {
    TrimKeepsValid(text);
    CutIsTheLongestValidPrefix(TrimSpace(text), MAX_SIGNAL_BYTES);
  }

  lemma AddSignalIsValid(a: Asks, sig: Signal)
    requires ValidAsks(a) && Valid(sig.text)
    ensures ValidAsks(AddSignal(a, sig))
  {
    assert forall x :: x in AddSignal(a, sig).signals ==> x in a.signals || x == sig;
  }

  lemma AddRequestIsValid(a: Asks, request: Request)
    requires ValidAsks(a) && Valid(request.sig.text)
    ensures ValidAsks(AddRequest(a, request))
  {
    assert forall x :: x in AddRequest(a, request).pending ==> x in a.pending || x == request;
  }

  lemma InRemoved<T>(list: seq<T>, i: nat)
    requires i < |list|
    ensures list[i] in list
    ensures forall x :: x in RemoveAt(list, i) ==> x in list
  {
    forall x | x in RemoveAt(list, i) ensures x in list {
      var j :| 0 <= j < |RemoveAt(list, i)| && RemoveAt(list, i)[j] == x;
      assert x == list[if j < i then j else j + 1];
    }
  }

  lemma SettledIsValid(a: Asks, ids: seq<string>, allowed: bool, unasked: Signal)
    requires ValidAsks(a) && Valid(unasked.text)
    ensures ValidAsks(Settled(a, ids, allowed, unasked))
  {
    if a.pending == [] {
      AddSignalIsValid(a, unasked);
    } else {
      var i := if Named(a.pending, ids).Some? then Named(a.pending, ids).value else 0;
      var rest := a.(pending := RemoveAt(a.pending, i));
      InRemoved(a.pending, i);
      AddSignalIsValid(rest, a.pending[i].sig);
    }
  }

  lemma NotedAsksAreValid(a: Asks, blocks: nat, tick: int, op: Op)
    requires ValidAsks(a) && ValidOp(op)
    ensures ValidAsks(NotedAsks(a, blocks, tick, op))
  {
    match op
    case UseTool(id, question, asked) =>
      assert TextOf(op, asked);
      ClipIsValid(asked);
      AddSignalIsValid(a, QuestionAsked(asked, id, blocks, tick + 1));
    case Ask(asked) =>
      assert TextOf(op, asked);
      ClipIsValid(asked);
      AddSignalIsValid(a, AtPoint(Question, asked, blocks, tick));
    case PermissionRequest(ids, text) =>
      assert TextOf(op, text);
      ClipIsValid(text);
      AddRequestIsValid(a, Request(ids, AtPoint(Approval, text, blocks, tick)));
    case Resolve(ids, allowed, text) =>
      assert TextOf(op, text);
      ClipIsValid(text);
      SettledIsValid(a, ids, allowed, AtPoint(Approval, text, blocks, tick));
    case Refuse(text, id) =>
      assert TextOf(op, text);
      ClipIsValid(text);
      AddSignalIsValid(a, Refusal(text, id));
    case _ =>
  }

  lemma ApplyIsValid(t: Turn, op: Op)
    requires Reachable(t) && ValidBlocks(t.buffer.blocks) && ValidAsks(t.asks) && ValidOp(op)
    ensures ValidBlocks(Apply(t, op).buffer.blocks) && ValidAsks(Apply(t, op).asks)
  {
    if op.Delta? {
      assert TextOf(op, op.text);
      AppendCounts(t.buffer, op.text, op.blockID, op.final);
      AppendIsValid(t.buffer, op.text, op.blockID, op.final);
      TrimIsValid(t.(buffer := Append(t.buffer, op.text, op.blockID, op.final)));
    } else {
      NotedAsksAreValid(t.asks, |t.buffer.blocks|, t.calls.tick, op);
    }
  }

  /** If everything said is valid UTF-8, so is everything kept: no cut splits a character. */
  lemma {:induction false} TextStaysValid(id: string, ops: seq<Op>)
    requires forall op :: op in ops ==> ValidOp(op)
    ensures ValidBlocks(TurnOf(id, ops).buffer.blocks) && ValidAsks(TurnOf(id, ops).asks)
  {
    if ops != [] {
      assert Last(ops) in ops;
      TextStaysValid(id, Front(ops));
      TurnsAreReachable(id, Front(ops));
      ApplyIsValid(TurnOf(id, Front(ops)), Last(ops));
    }
  }
}
