/**
 * What the record of a turn says (finish and pick of turnoutput/reducer.go, signalText of
 * turnoutput/signals.go), by cases and without the functions that compute it: the kind, the
 * stop reason, and which of the texts the agent or the runtime gave is reported.
 */
module TurnOutputs {
  import opened Bytes
  import opened Lists
  import opened TurnModel
  import opened Utf8

  // ---- which text ---------------------------------------------------------------------------------

  predicate Blank(text: seq<Byte>) {
    TrimSpace(text) == []
  }

  /** Block i is the last from `from` with text, among the final ones or among all. */
  predicate IsLastText(blocks: seq<Block>, from: nat, i: nat, finals: bool) {
    && from <= i < |blocks| && (finals ==> blocks[i].final) && !Blank(blocks[i].text)
    && forall j :: i < j < |blocks| && (finals ==> blocks[j].final) ==> Blank(blocks[j].text)
  }

  ghost predicate HasText(blocks: seq<Block>, from: nat, finals: bool) {
    exists i: nat :: IsLastText(blocks, from, i, finals)
  }

  /** The terminal event's text, else the last final block with text, else the last with any. */
  ghost predicate IsPick(blocks: seq<Block>, from: nat, termText: seq<Byte>, said: (seq<Byte>, Confidence)) {
    if !Blank(termText) then said == (TrimSpace(termText), Exact)
    else if HasText(blocks, from, true) then
      exists i: nat :: IsLastText(blocks, from, i, true) && said == (TrimSpace(blocks[i].text), Exact)
    else if HasText(blocks, from, false) then
      exists i: nat :: IsLastText(blocks, from, i, false) && said == (TrimSpace(blocks[i].text), Heuristic)
    else said == ([], Heuristic)
  }

  lemma SameInFront(blocks: seq<Block>, from: nat, finals: bool)
    requires from < |blocks| && ((finals && !Last(blocks).final) || Blank(Last(blocks).text))
    ensures forall i: nat :: IsLastText(blocks, from, i, finals) <==> IsLastText(Front(blocks), from, i, finals)
  {
    assert forall j :: 0 <= j < |blocks| - 1 ==> Front(blocks)[j] == blocks[j];
  }

  lemma {:induction false} LastTextIs(blocks: seq<Block>, from: nat, finals: bool)
    requires from <= |blocks|
    ensures var text := LastText(blocks[from..], finals);
      && (text == [] <==> !HasText(blocks, from, finals))
      && (text != [] ==> exists i: nat :: IsLastText(blocks, from, i, finals) && text == TrimSpace(blocks[i].text))
    decreases |blocks|
  {
    if from < |blocks| {
      assert Front(blocks[from..]) == Front(blocks)[from..] && Last(blocks[from..]) == Last(blocks);
      if (Last(blocks).final || !finals) && !Blank(Last(blocks).text) {
        assert IsLastText(blocks, from, |blocks| - 1, finals);
      } else {
        LastTextIs(Front(blocks), from, finals);
        SameInFront(blocks, from, finals);
      }
    }
  }

  lemma PickIs(blocks: seq<Block>, from: nat, termText: seq<Byte>)
    ensures IsPick(blocks, from, termText, Pick(blocks, from, termText))
  {
    if from <= |blocks| {
      LastTextIs(blocks, from, true);
      LastTextIs(blocks, from, false);
    }
  }

  /** For a question or an approval: what was written from block `at` on, or its own text. */
  ghost predicate IsSignalText(blocks: seq<Block>, at: nat, own: seq<Byte>, termText: seq<Byte>, said: (seq<Byte>, Confidence)) {
    if HasText(blocks, at, false) then IsPick(blocks, at, termText, said)
    else if blocks == [] && !Blank(termText) then said == (TrimSpace(termText), Exact)
    else if own != [] then said == (own, Exact)
    else IsPick(blocks, 0, termText, said)
  }

  lemma SignalTextIs(t: Turn, sig: Signal, termText: seq<Byte>)
    ensures IsSignalText(t.buffer.blocks, Place(t.calls, sig).0, sig.text, termText, SignalText(t, sig, termText))
  {
    var (blocks, at) := (t.buffer.blocks, Place(t.calls, sig).0);
    PickIs(blocks, at, termText);
    PickIs(blocks, 0, termText);
    if at <= |blocks| { LastTextIs(blocks, at, false); }
  }

  // ---- the stop reason ----------------------------------------------------------------------------

  /** The last stop reason the runtime gave in the turn. */
  function LastStop(ops: seq<Op>): StopReason {
    if ops == [] then NoStop
    else if Last(ops).NoteStop? && Last(ops).stop != NoStop then Last(ops).stop
    else LastStop(Front(ops))
  }

  lemma {:induction false} TrimKeepsStop(t: Turn)
    requires WellFormed(t)
    ensures Trim(t).usageStop == t.usageStop && Trim(t).id == t.id
    decreases |t.buffer.blocks|
  {
    if TooMuch(|t.buffer.blocks|, t.buffer.bytes) {
      TrimKeepsStop(DropOldest(t));
    }
  }

  lemma {:induction false} StopIsTheLast(turn: string, ops: seq<Op>)
    ensures TurnOf(turn, ops).usageStop == LastStop(ops) && TurnOf(turn, ops).id == turn
  {
    if ops != [] {
      StopIsTheLast(turn, Front(ops));
      var (t, op) := (TurnOf(turn, Front(ops)), Last(ops));
      if op.Delta? && op.text != [] {
        AppendCounts(t.buffer, op.text, op.blockID, op.final);
        TrimKeepsStop(t.(buffer := Append(t.buffer, op.text, op.blockID, op.final)));
      }
    }
  }

  /** The terminal event's stop reason, or else the last the runtime gave. */
  function StopOf(ops: seq<Op>, term: Ending): StopReason {
    if term.stopReason == NoStop then LastStop(ops) else term.stopReason
  }

  // ---- the record ---------------------------------------------------------------------------------

  /** It was cut short: by the session's end, an interrupt, a process exit or a cancel. */
  predicate WasCut(term: Ending, stop: StopReason) {
    || term.cut || stop == Cancelled
    || (term.failed && (term.reason == Interrupted || term.reason == ProcessExited))
  }

  /** What is blamed for it: the error's text, or else the word for the reason. */
  ghost predicate IsBlame(term: Ending, said: (seq<Byte>, Confidence)) {
    if !Blank(term.errText) then said == (TrimSpace(term.errText), Exact) else said == (ReasonText(term.reason), Heuristic)
  }

  /** Of a turn that was cut short: what the agent said, or else what is blamed. */
  ghost predicate IsCutRecord(blocks: seq<Block>, term: Ending, stop: StopReason, out: Output) {
    && out.kind == Terminal
    && out.stopReason == (if term.reason == Interrupted then Cancelled else if stop == NoStop then ErrorStop else stop)
    && if Blank(term.text) && !HasText(blocks, 0, false) then IsBlame(term, (out.text, out.confidence))
       else IsPick(blocks, 0, term.text, (out.text, out.confidence))
  }

  ghost predicate IsFailedRecord(term: Ending, stop: StopReason, out: Output) {
    && out.kind == Failure && out.stopReason == (if stop == NoStop then ErrorStop else stop)
    && IsBlame(term, (out.text, out.confidence))
  }

  /** Of one that completed: what it ended on, and the text of that; or else what was said. */
  ghost predicate IsCompletedRecord(t: Turn, term: Ending, stop: StopReason, out: Output) {
    && out.stopReason == stop
    && match OpenSignal(t)
       case None => out.kind == Final && IsPick(t.buffer.blocks, 0, term.text, (out.text, out.confidence))
       case Some(sig) =>
         && out.kind == sig.kind
         && IsSignalText(t.buffer.blocks, Place(t.calls, sig).0, sig.text, term.text, (out.text, out.confidence))
  }

  lemma TextOfAny(blocks: seq<Block>)
    ensures HasText(blocks, 0, true) ==> HasText(blocks, 0, false)
  {
    if HasText(blocks, 0, true) {
      LastTextIs(blocks, 0, true);
      LastTextIs(blocks, 0, false);
      var i: nat :| IsLastText(blocks, 0, i, true);
      SomeText(blocks, i);
    }
  }

  lemma {:induction false} SomeText(blocks: seq<Block>, i: nat)
    requires i < |blocks| && !Blank(blocks[i].text)
    ensures HasText(blocks, 0, false)
    decreases |blocks| - i
  {
    if forall j :: i < j < |blocks| ==> Blank(blocks[j].text) {
      assert IsLastText(blocks, 0, i, false);
    } else {
      var j :| i < j < |blocks| && !Blank(blocks[j].text);
      SomeText(blocks, j);
    }
  }

  lemma PickOfNothing(blocks: seq<Block>, termText: seq<Byte>)
    ensures Pick(blocks, 0, termText).0 == [] <==> Blank(termText) && !HasText(blocks, 0, false)
  {
    assert blocks[0..] == blocks;
    LastTextIs(blocks, 0, true);
    LastTextIs(blocks, 0, false);
    TextOfAny(blocks);
  }

  /** The record of turn t, which ended so. */
  ghost predicate IsRecord(t: Turn, term: Ending, out: Output) {
    var stop := if term.stopReason == NoStop then t.usageStop else term.stopReason;
    && out.turnID == t.id
    && if WasCut(term, stop) then IsCutRecord(t.buffer.blocks, term, stop, out)
       else if term.failed then IsFailedRecord(term, stop, out)
       else IsCompletedRecord(t, term, stop, out)
  }

  lemma OutputIs(t: Turn, term: Ending)
    ensures IsRecord(t, term, OutputOf(t, term))
  {
    PickIs(t.buffer.blocks, 0, term.text);
    PickOfNothing(t.buffer.blocks, term.text);
    if OpenSignal(t).Some? { SignalTextIs(t, OpenSignal(t).value, term.text); }
  }

  /** The record of any turn, however it ended, with the stop reason of the terminal event or
      else the last the runtime gave. */
  lemma RecordIs(turn: string, ops: seq<Op>, term: Ending)
    ensures TurnOf(turn, ops).id == turn && IsRecord(TurnOf(turn, ops), term, OutputOf(TurnOf(turn, ops), term))
    ensures (if term.stopReason == NoStop then TurnOf(turn, ops).usageStop else term.stopReason) == StopOf(ops, term)
  {
    StopIsTheLast(turn, ops);
    OutputIs(TurnOf(turn, ops), term);
  }

  /** A signal's text is its first 8 KiB, without the white space around it. */
  lemma ClipIs(text: seq<Byte>)
    ensures Clip(text) <= TrimSpace(text) && |Clip(text)| <= 8192
    ensures |TrimSpace(text)| <= 8192 ==> Clip(text) == TrimSpace(text)
  {
  }
}
