/**
 * The bounded turn against an unbounded one. The history keeps every block ever made
 * and where in it each call and signal stood; it only remembers how many blocks the
 * buffer has let go. The turn the reducer keeps is always that history, seen from the
 * first block it still holds.
 */
module TurnHistory {
  import opened Bytes
  import opened Lists
  import opened Options
  import opened TurnModel
  import opened Utf8

  /** all.buffer.blocks is never trimmed; the blocks below dropped have been let go. */
  datatype History = History(all: Turn, dropped: nat)

  function Start(id: string): History {
    History(NewTurn(id), 0)
  }

  // ---- what a history looks like ------------------------------------------------------------

  function Seen(position: nat, dropped: nat): nat {
    if position > dropped then position - dropped else 0
  }

  function SeenTools(tools: seq<Tool>, dropped: nat): (r: seq<Tool>)
    ensures |r| == |tools|
  {
    seq(|tools|, i requires 0 <= i < |tools| => tools[i].(blocksAt := Seen(tools[i].blocksAt, dropped)))
  }

  function SeenSignal(sig: Signal, dropped: nat): Signal {
    sig.(at := Seen(sig.at, dropped))
  }

  function SeenSignals(signals: seq<Signal>, dropped: nat): (r: seq<Signal>)
    ensures |r| == |signals|
  {
    seq(|signals|, i requires 0 <= i < |signals| => SeenSignal(signals[i], dropped))
  }

  function SeenPending(pending: seq<Request>, dropped: nat): (r: seq<Request>)
    ensures |r| == |pending|
  {
    seq(|pending|, i requires 0 <= i < |pending| => pending[i].(sig := SeenSignal(pending[i].sig, dropped)))
  }

  function SeenCalls(c: Calls, dropped: nat): Calls {
    c.(tools := SeenTools(c.tools, dropped))
  }

  function SeenAsks(a: Asks, dropped: nat): Asks {
    Asks(SeenSignals(a.signals, dropped), SeenPending(a.pending, dropped))
  }

  ghost predicate Sound(h: History) {
    && h.dropped <= |h.all.buffer.blocks|
    && (h.all.buffer.blocks != [] ==> h.dropped < |h.all.buffer.blocks|)
    && (h.all.buffer.anonOpen ==> h.all.buffer.blocks != [])
  }

  function SeenBuffer(b: Buffer, dropped: nat): Buffer
    requires dropped <= |b.blocks|
  {
    Buffer(b.blocks[dropped..], b.anonOpen, Size(b.blocks[dropped..]))
  }

  /** The turn kept: the blocks from the first one held, their exact size, and every
      position counted from there, 0 for what was before it. */
  function View(h: History): Turn
    requires h.dropped <= |h.all.buffer.blocks|
  {
    Turn(h.all.id, h.all.usageStop, SeenBuffer(h.all.buffer, h.dropped),
         SeenCalls(h.all.calls, h.dropped), SeenAsks(h.all.asks, h.dropped))
  }

  // ---- what happens to a history ------------------------------------------------------------

  /** The fewest blocks, from at least dropped, to let go so that what is left fits. */
  function Dropped(blocks: seq<Block>, dropped: nat): (d: nat)
    requires dropped <= |blocks|
    ensures dropped <= d <= |blocks| && (dropped < |blocks| ==> d < |blocks|)
    ensures !TooMuch(|blocks| - d, Size(blocks[d..]))
    ensures forall e :: dropped <= e < d ==> TooMuch(|blocks| - e, Size(blocks[e..]))
    decreases |blocks| - dropped
  {
    if TooMuch(|blocks| - dropped, Size(blocks[dropped..])) then Dropped(blocks, dropped + 1) else dropped
  }

  /** A delta starts a block at the end or adds to one still held. */
  function Grown(blocks: seq<Block>, dropped: nat, anonOpen: bool, text: seq<Byte>, blockID: string, final: bool): seq<Block>
    requires dropped <= |blocks| && (anonOpen ==> dropped < |blocks|)
  {
    GrownAt(blocks, dropped, Target(blocks[dropped..], anonOpen, blockID), text, final)
  }

  function GrownAt(blocks: seq<Block>, dropped: nat, where: (seq<Block>, nat), text: seq<Byte>, final: bool): seq<Block>
    requires dropped <= |blocks| && where.1 < |where.0|
  {
    blocks[..dropped] + Write(where.0, where.1, text, final)
  }

  function Recorded(h: History, op: Op): History
    requires Sound(h)
  {
    match op
    case Delta(text, blockID, final) =>
      if text == [] then h
      else
        var blocks := Grown(h.all.buffer.blocks, h.dropped, h.all.buffer.anonOpen, text, blockID, final);
        History(h.all.(buffer := Buffer(blocks, blockID == "", 0)), Dropped(blocks, h.dropped))
    case _ => h.(all := Noted(h.all, op))
  }

  // ---- the simulation -------------------------------------------------------------------------

  lemma {:induction false} ToolIndexSeen(tools: seq<Tool>, id: string, dropped: nat)
    ensures ToolIndex(SeenTools(tools, dropped), id) == ToolIndex(tools, id)
  {
    if tools != [] {
      assert Front(SeenTools(tools, dropped)) == SeenTools(Front(tools), dropped);
      ToolIndexSeen(Front(tools), id, dropped);
    }
  }

  lemma FactsSeen(c: Calls, id: string, facts: Facts, dropped: nat)
    ensures FactsOf(SeenCalls(c, dropped), id) == FactsOf(c, id)
    ensures SeenCalls(SetFacts(c, id, facts), dropped) == SetFacts(SeenCalls(c, dropped), id, facts)
  {
    ToolIndexSeen(c.tools, id, dropped);
    var i := ToolIndex(c.tools, id);
    if i.Some? {
      assert SeenTools(c.tools[i.value := c.tools[i.value].(facts := facts)], dropped)
          == SeenTools(c.tools, dropped)[i.value := SeenTools(c.tools, dropped)[i.value].(facts := facts)];
    }
  }

  lemma SetResultSeen(c: Calls, id: string, isError: bool, dropped: nat)
    ensures SeenCalls(SetResult(c, id, isError), dropped) == SetResult(SeenCalls(c, dropped), id, isError)
  {
    FactsSeen(c, id, FactsOf(c, id).(result := Some(Outcome(isError, c.tick + 1))), dropped);
  }

  lemma SetRefusedSeen(c: Calls, id: string, dropped: nat)
    ensures SeenCalls(SetRefused(c, id), dropped) == SetRefused(SeenCalls(c, dropped), id)
  {
    FactsSeen(c, id, FactsOf(c, id).(refused := true), dropped);
  }

  lemma AddSignalSeen(a: Asks, sig: Signal, dropped: nat)
    ensures SeenAsks(AddSignal(a, sig), dropped) == AddSignal(SeenAsks(a, dropped), SeenSignal(sig, dropped))
  {
  }

  lemma {:induction false} NamedSeen(pending: seq<Request>, ids: seq<string>, dropped: nat)
    ensures Named(SeenPending(pending, dropped), ids) == Named(pending, ids)
  {
    if pending != [] {
      assert SeenPending(pending, dropped)[1..] == SeenPending(pending[1..], dropped);
      NamedSeen(pending[1..], ids, dropped);
    }
  }

  lemma SettledSeen(a: Asks, ids: seq<string>, allowed: bool, unasked: Signal, dropped: nat)
    ensures SeenAsks(Settled(a, ids, allowed, unasked), dropped)
         == Settled(SeenAsks(a, dropped), ids, allowed, SeenSignal(unasked, dropped))
  {
    if a.pending == [] {
      AddSignalSeen(a, unasked, dropped);
    } else {
      NamedSeen(a.pending, ids, dropped);
      var i := if Named(a.pending, ids).Some? then Named(a.pending, ids).value else 0;
      var rest := a.(pending := RemoveAt(a.pending, i));
      var seen := SeenPending(a.pending, dropped);
      assert SeenPending(rest.pending, dropped) == RemoveAt(seen, i);
      AddSignalSeen(rest, a.pending[i].sig, dropped);
    }
  }

  lemma NotedCallsSeen(c: Calls, blocks: nat, op: Op, d: nat)
    ensures SeenCalls(NotedCalls(c, blocks, op), d) == NotedCalls(SeenCalls(c, d), Seen(blocks, d), op)
  {
    match op
    case UseTool(id, question, _) =>
    case ToolResult(id, isError) => SetResultSeen(c, id, isError, d);
    case Refuse(_, id) => SetRefusedSeen(c, id, d);
    case _ =>
  }

  lemma NotedAsksSeen(a: Asks, blocks: nat, tick: int, op: Op, d: nat)
    ensures SeenAsks(NotedAsks(a, blocks, tick, op), d) == NotedAsks(SeenAsks(a, d), Seen(blocks, d), tick, op)
  {
    match op
    case UseTool(id, question, asked) => AddSignalSeen(a, QuestionAsked(asked, id, blocks, tick + 1), d);
    case Ask(asked) => AddSignalSeen(a, AtPoint(Question, asked, blocks, tick), d);
    case PermissionRequest(ids, text) =>
    case Resolve(ids, allowed, text) => SettledSeen(a, ids, allowed, AtPoint(Approval, text, blocks, tick), d);
    case Refuse(text, id) => AddSignalSeen(a, Refusal(text, id), d);
    case _ =>
  }

  /** Everything but a delta does to the view what it does to the history. */
  lemma NotedSeen(h: History, op: Op)
    requires Sound(h) && !op.Delta?
    ensures Sound(Recorded(h, op)) && View(Recorded(h, op)) == Noted(View(h), op)
  {
    var (t, d) := (h.all, h.dropped);
    NotedCallsSeen(t.calls, |t.buffer.blocks|, op, d);
    NotedAsksSeen(t.asks, |t.buffer.blocks|, t.calls.tick, op, d);
  }

  /** Letting go of one block is seeing the history from one further on. */
  lemma DropOldestSeen(h: History)
    requires h.dropped + 1 < |h.all.buffer.blocks|
    ensures DropOldest(View(h)) == View(h.(dropped := h.dropped + 1))
  {
  }

  lemma {:induction false} TrimSeen(h: History)
    requires h.dropped <= |h.all.buffer.blocks|
    ensures Trim(View(h)) == View(h.(dropped := Dropped(h.all.buffer.blocks, h.dropped)))
    decreases |h.all.buffer.blocks| - h.dropped
  {
    var (blocks, d) := (h.all.buffer.blocks, h.dropped);
    if TooMuch(|blocks| - d, Size(blocks[d..])) {
      DropOldestSeen(h);
      TrimSeen(h.(dropped := d + 1));
    }
  }

  lemma DeltaSeen(h: History, text: seq<Byte>, blockID: string, final: bool)
    requires Sound(h)
    ensures WellFormed(View(h))
    ensures Sound(Recorded(h, Delta(text, blockID, final)))
    ensures View(Recorded(h, Delta(text, blockID, final))) == Apply(View(h), Delta(text, blockID, final))
  {
    if text != [] {
      var (blocks, d) := (h.all.buffer.blocks, h.dropped);
      var kept := blocks[d..];
      AppendCounts(View(h).buffer, text, blockID, final);
      var (target, i) := Target(kept, h.all.buffer.anonOpen, blockID);
      var grown := Grown(blocks, d, h.all.buffer.anonOpen, text, blockID, final);
      assert grown[d..] == Write(target, i, text, final);
      TrimSeen(History(h.all.(buffer := Buffer(grown, blockID == "", 0)), d));
    }
  }

  lemma RecordedSeen(h: History, op: Op)
    requires Sound(h)
    ensures Sound(Recorded(h, op)) && WellFormed(View(h)) && View(Recorded(h, op)) == Apply(View(h), op)
  {
    DeltaSeen(h, [], "", false);
    if op.Delta? {
      DeltaSeen(h, op.text, op.blockID, op.final);
    } else {
      NotedSeen(h, op);
    }
  }

  // ---- whole turns ----------------------------------------------------------------------------

  ghost function HistoryOf(id: string, ops: seq<Op>): (h: History)
    ensures Sound(h)
  {
    if ops == [] then Start(id)
    else
      var before := HistoryOf(id, Front(ops));
      RecordedSeen(before, Last(ops));
      Recorded(before, Last(ops))
  }

  /** The bounded turn is the unbounded history seen from the first block still held: its
      blocks are a suffix of every block ever made, each stored position is what is left of
      the position in the history, and the byte count is the size of the blocks. */
  lemma {:induction false} TheBufferIsASuffix(id: string, ops: seq<Op>)
    ensures TurnOf(id, ops) == View(HistoryOf(id, ops))
  {
    if ops == [] {
      assert View(Start(id)) == NewTurn(id);
    } else {
      TheBufferIsASuffix(id, Front(ops));
      RecordedSeen(HistoryOf(id, Front(ops)), Last(ops));
    }
  }

  predicate Extends(was: Block, now: Block) {
    was.id == now.id && was.text <= now.text && (was.final ==> now.final)
  }

  lemma GrownExtends(blocks: seq<Block>, dropped: nat, anonOpen: bool, text: seq<Byte>, blockID: string, final: bool)
    requires dropped <= |blocks| && (anonOpen ==> dropped < |blocks|)
    ensures var now := Grown(blocks, dropped, anonOpen, text, blockID, final);
      && |blocks| <= |now| <= |blocks| + 1 && blocks[..dropped] == now[..dropped]
      && forall j :: 0 <= j < |blocks| ==> Extends(blocks[j], now[j])
  {
  }

  /** What was let go is never written again, and nothing already written is undone. */
  lemma TheHistoryOnlyGrows(h: History, op: Op)
    requires Sound(h)
    ensures var (was, now) := (h.all.buffer.blocks, Recorded(h, op).all.buffer.blocks);
      && h.dropped <= Recorded(h, op).dropped
      && |was| <= |now| <= |was| + 1 && was[..h.dropped] == now[..h.dropped]
      && forall j :: 0 <= j < |was| ==> Extends(was[j], now[j])
  {
    if op.Delta? && op.text != [] {
      GrownExtends(h.all.buffer.blocks, h.dropped, h.all.buffer.anonOpen, op.text, op.blockID, op.final);
    }
  }

  // ---- where text goes ------------------------------------------------------------------------

  /** Where a delta goes: to the newest block held with its id; without an id to the last block
      if nothing has ended that; else to a new one. */
  predicate IsWhere(blocks: seq<Block>, dropped: nat, anonOpen: bool, blockID: string, i: nat) {
    if blockID == "" then i == if anonOpen then |blocks| - 1 else |blocks|
    else
      && dropped <= i <= |blocks| && (i < |blocks| ==> blocks[i].id == blockID)
      && forall j :: dropped <= j < |blocks| && (i == |blocks| || j > i) ==> blocks[j].id != blockID
  }

  function TextAt(blocks: seq<Block>, i: nat): seq<Byte> {
    if i < |blocks| then blocks[i].text else []
  }

  /** Block i has the text at its end, as much as 1 MiB leaves room for, and no other changed. */
  predicate Landed(was: seq<Block>, now: seq<Block>, i: nat, text: seq<Byte>, blockID: string, final: bool) {
    && |now| == (if i < |was| then |was| else i + 1) && i < |now|
    && now[i].text == TextAt(was, i) + Cut(text, 1048576 - |TextAt(was, i)|)
    && (now[i].final <==> final || (i < |was| && was[i].final))
    && now[i].id == (if i < |was| then was[i].id else blockID)
    && forall j :: 0 <= j < |was| && j != i ==> now[j] == was[j]
  }

  lemma RecordedDelta(h: History, text: seq<Byte>, blockID: string, final: bool)
    requires Sound(h) && text != []
    ensures Recorded(h, Delta(text, blockID, final)).all.buffer
      == Buffer(Grown(h.all.buffer.blocks, h.dropped, h.all.buffer.anonOpen, text, blockID, final), blockID == "", 0)
  {
  }

  /** A delta adds its text to one block held, or to a new one. */
  lemma DeltaLands(h: History, text: seq<Byte>, blockID: string, final: bool) returns (i: nat)
    requires Sound(h) && text != []
    ensures var (b, now) := (h.all.buffer, Recorded(h, Delta(text, blockID, final)).all.buffer);
      && IsWhere(b.blocks, h.dropped, b.anonOpen, blockID, i)
      && Landed(b.blocks, now.blocks, i, text, blockID, final) && (now.anonOpen <==> blockID == "")
  {
    RecordedDelta(h, text, blockID, final);
    i := LandsAt(h.all.buffer.blocks, h.dropped, h.all.buffer.anonOpen, text, blockID, final);
  }

  lemma LandsAt(blocks: seq<Block>, dropped: nat, anonOpen: bool, text: seq<Byte>, blockID: string, final: bool) returns (i: nat)
    requires dropped <= |blocks| && (anonOpen ==> dropped < |blocks|)
    ensures IsWhere(blocks, dropped, anonOpen, blockID, i)
    ensures Landed(blocks, Grown(blocks, dropped, anonOpen, text, blockID, final), i, text, blockID, final)
  {
    var where := TargetIs(blocks, dropped, anonOpen, blockID);
    i := dropped + where.1;
    GrownIs(blocks, dropped, anonOpen, text, blockID, final, where);
  }

  lemma GrownIs(blocks: seq<Block>, dropped: nat, anonOpen: bool, text: seq<Byte>, blockID: string, final: bool, where: (seq<Block>, nat))
    requires dropped <= |blocks| && (anonOpen ==> dropped < |blocks|)
    requires Target(blocks[dropped..], anonOpen, blockID) == where && IsTarget(blocks, dropped, where, blockID)
    ensures Landed(blocks, Grown(blocks, dropped, anonOpen, text, blockID, final), dropped + where.1, text, blockID, final)
  {
    WrittenLanded(blocks, dropped, where, text, blockID, final);
  }

  /** The block is one held, or a new one at the end. */
  predicate IsTarget(blocks: seq<Block>, dropped: nat, where: (seq<Block>, nat), blockID: string)
    requires dropped <= |blocks|
  {
    var (target, k) := where;
    && k < |target| && |target| == (if dropped + k < |blocks| then |blocks| - dropped else k + 1)
    && (forall j :: dropped <= j < |blocks| ==> target[j - dropped] == blocks[j])
    && target[k] == if dropped + k < |blocks| then blocks[dropped + k] else Block(blockID, false, [])
  }

  lemma WrittenLanded(blocks: seq<Block>, dropped: nat, where: (seq<Block>, nat), text: seq<Byte>, blockID: string, final: bool)
    requires dropped <= |blocks| && IsTarget(blocks, dropped, where, blockID)
    ensures Landed(blocks, GrownAt(blocks, dropped, where, text, final), dropped + where.1, text, blockID, final)
  {
    var (target, k) := where;
    var (written, now) := (Write(target, k, text, final), GrownAt(blocks, dropped, where, text, final));
    assert now[dropped + k] == written[k];
    forall j | dropped <= j < |blocks| && j != dropped + k ensures now[j] == blocks[j] {
      assert now[j] == written[j - dropped] == target[j - dropped];
    }
  }

  lemma TargetIs(blocks: seq<Block>, dropped: nat, anonOpen: bool, blockID: string) returns (where: (seq<Block>, nat))
    requires dropped <= |blocks| && (anonOpen ==> dropped < |blocks|)
    ensures Target(blocks[dropped..], anonOpen, blockID) == where && IsTarget(blocks, dropped, where, blockID)
    ensures IsWhere(blocks, dropped, anonOpen, blockID, dropped + where.1)
  {
    var kept := blocks[dropped..];
    where := Target(kept, anonOpen, blockID);
    NewestNamed(kept, blockID);
    forall j | dropped <= j < |blocks| ensures blocks[j] == kept[j - dropped] {}
  }

  lemma {:induction false} NewestNamed(blocks: seq<Block>, id: string)
    ensures match FindBlock(blocks, id)
      case Some(k) => forall j :: k < j < |blocks| ==> blocks[j].id != id
      case None => true
  {
    if blocks != [] && Last(blocks).id != id {
      NewestNamed(Front(blocks), id);
      assert forall j :: 0 <= j < |blocks| - 1 ==> Front(blocks)[j] == blocks[j];
    }
  }

  /** Nothing has come since an anonymous delta that ends its block. */
  function IsSpeaking(ops: seq<Op>): bool {
    ops != [] &&
    match Last(ops)
    case Delta(text, blockID, _) => if text == [] then IsSpeaking(Front(ops)) else blockID == ""
    case NoteStop(_) => IsSpeaking(Front(ops))
    case _ => false
  }

  lemma {:induction false} AnonymousBlockIsOpen(id: string, ops: seq<Op>)
    ensures HistoryOf(id, ops).all.buffer.anonOpen <==> IsSpeaking(ops)
  {
    if ops != [] {
      AnonymousBlockIsOpen(id, Front(ops));
    }
  }

  /** It lets go of the fewest blocks for 128 blocks and 4 MiB to be left, or one block. */
  lemma FewestAreDropped(blocks: seq<Block>, dropped: nat)
    requires dropped <= |blocks|
    ensures var d := Dropped(blocks, dropped);
      && (|blocks| - d <= 1 || (|blocks| - d <= 128 && Size(blocks[d..]) <= 4194304))
      && forall e :: dropped <= e < d ==> |blocks| - e > 1 && (|blocks| - e > 128 || Size(blocks[e..]) > 4194304)
  {
    var d := Dropped(blocks, dropped);
    forall e | dropped <= e < d ensures |blocks| - e > 1 && (|blocks| - e > 128 || Size(blocks[e..]) > 4194304) {
      assert TooMuch(|blocks| - e, Size(blocks[e..]));
    }
  }
}
