/**
 * The Reducer of turnoutput/reducer.go as it is written: lists, maps and flags changed
 * step by step under its lock, so that each method is one step of ReducerModel. A turn
 * is held by value here; LiveTurn is the turn as an object.
 */
module TurnReducer {
  import opened Bytes
  import F = Feeds
  import opened Lists
  import opened Options
  import opened ReducerModel
  import opened TurnModel
  import opened Utf8

  class Reducer {
    var open: map<string, Turn>
    var order: seq<string>
    var finished: seq<string>
    var settled: bool
    var lastDone: DoneSignature
    var lastError: seq<Byte>
    var heldStop: StopReason
    var pendingStop: StopReason

    constructor ()
      ensures View() == NEW
    {
      open, order, finished, settled := map[], [], [], false;
      lastDone, lastError, heldStop, pendingStop := NO_DONE, [], NoStop, NoStop;
    }

    function View(): State
      reads this
    {
      State(open, order, finished, settled, lastDone, lastError, heldStop, pendingStop)
    }

    ghost predicate Valid()
      reads this
    {
      Inv(View())
    }

    method WasFinished(id: string) returns (was: bool)
      ensures was == (id in finished)
    {
      for i := 0 to |finished|
        invariant id !in finished[..i]
      {
        if finished[i] == id {
          return true;
        }
      }
      return false;
    }

    /** begin: past 64 the oldest open turn is dropped, without an output. */
    method Begin(id: string)
      requires |order| <= MAX_OPEN_TURNS
      modifies this
      ensures View() == Begun(old(View()), id)
    {
      open := open[id := NewTurn(id).(usageStop := pendingStop)];
      pendingStop, heldStop := NoStop, NoStop;
      order := order + [id];
      ghost var (grown, list) := (open, order);
      while |order| > MAX_OPEN_TURNS
        invariant (order == list && open == grown) || (|order| == MAX_OPEN_TURNS && order == list[1..] && open == grown - {list[0]})
        modifies `open, `order
        decreases |order|
      {
        open := open - {order[0]};
        order := order[1..];
      }
      settled := false;
    }

    /** body: the id of the turn an event belongs to. */
    method BodyOf(id: string, mint: string) returns (turn: Option<string>)
      requires Valid()
      modifies this
      ensures (View(), turn) == BodyTurn(old(View()), id, mint)
    {
      if id == "" {
        if |order| > 0 {
          return Some(order[|order| - 1]);
        }
        Begin(mint);
        return Some(mint);
      }
      if id in open {
        return Some(id);
      }
      var was := WasFinished(id);
      if was {
        return None;
      }
      Begin(id);
      return Some(id);
    }

    /** ending: the turn a terminal event closes. */
    method EndingOf(id: string, term: Ending, mint: string) returns (turn: Option<Turn>)
      requires order != [] ==> Last(order) in open
      modifies `pendingStop, `heldStop
      ensures turn == EndingTurn(old(View()), id, term, mint)
      ensures turn.None? ==> View() == old(View())
    {
      if id != "" {
        if id in open {
          return Some(open[id]);
        }
        var was := WasFinished(id);
        return if was then None else Some(NewTurn(id));
      }
      if |order| > 0 {
        return Some(open[order[|order| - 1]]);
      }
      var stop := term.stopReason;
      if stop == NoStop {
        stop := heldStop;
      }
      if settled {
        var errText := TrimSpace(term.errText);
        if term.failed {
          if errText != [] && errText == lastError {
            return None;
          }
        } else if stop != Cancelled && lastDone == DoneSignature(stop, TrimSpace(term.text)) {
          return None;
        }
      }
      var t := NewTurn(mint).(usageStop := pendingStop);
      if heldStop != NoStop {
        t := t.(usageStop := heldStop);
      }
      pendingStop, heldStop := NoStop, NoStop;
      return Some(t);
    }

    method NoteStop(stop: StopReason)
      requires order != [] ==> Last(order) in open
      modifies `open, `heldStop, `pendingStop
      ensures View() == NotedStop(old(View()), stop)
    {
      if stop == NoStop {
        return;
      }
      if |order| > 0 {
        var id := order[|order| - 1];
        open := open[id := open[id].(usageStop := stop)];
        return;
      }
      if settled {
        heldStop := stop;
        return;
      }
      pendingStop := stop;
    }

    method NoteUsage(stop: StopReason)
      requires Valid()
      modifies `open, `heldStop, `pendingStop
      ensures Valid() && View() == old(NotedStop(View(), stop))
    {
      StopKeeps(View(), stop);
      NoteStop(stop);
    }

    method RemoveFromOrder(id: string)
      modifies `order
      ensures order == Without(old(order), id)
    {
      var i := 0;
      while i < |order| && order[i] != id
        invariant i <= |order| && forall j :: 0 <= j < i ==> order[j] != id
      {
        i := i + 1;
      }
      WithoutAt(order, id, i);
      if i < |order| {
        order := order[..i] + order[i + 1..];
      }
    }

    /** finish: the turn leaves the books, and its output is made. */
    method Finish(t: Turn, term: Ending) returns (out: Output)
      modifies this
      ensures View() == Finished(old(View()), t, term)
      ensures out == OutputOf(t, term)
    {
      var stop := CloseBooks(t, term);
      out := MakeOutput(t, term, stop);
    }

    method CloseBooks(t: Turn, term: Ending) returns (stop: StopReason)
      modifies this
      ensures View() == Finished(old(View()), t, term)
      ensures stop == EndingStop(t, term)
    {
      open := open - {t.id};
      RemoveFromOrder(t.id);
      Remember(t.id);
      settled := |order| == 0;
      pendingStop, heldStop := NoStop, NoStop;
      stop := term.stopReason;
      if stop == NoStop {
        stop := t.usageStop;
      }
      if term.failed {
        lastError, lastDone := TrimSpace(term.errText), NO_DONE;
      } else {
        lastDone := DoneSignature(stop, TrimSpace(term.text));
      }
    }

    method Remember(id: string)
      modifies `finished
      ensures finished == Newest(old(finished) + [id], FINISHED_MEMORY)
    {
      finished := finished + [id];
      if |finished| > FINISHED_MEMORY {
        finished := finished[|finished| - FINISHED_MEMORY..];
      }
    }

    /** The kind of an output, its text and where that came from. */
    static method MakeOutput(t: Turn, term: Ending, stop: StopReason) returns (out: Output)
      requires stop == EndingStop(t, term)
      ensures out == OutputOf(t, term)
    {
      var cut := term.cut || (term.failed && (term.reason == Interrupted || term.reason == ProcessExited)) || stop == Cancelled;
      var (text, confidence) := Pick(t.buffer.blocks, 0, term.text);
      if term.failed && !cut {
        text, confidence := TrimSpace(term.errText), Exact;
        if text == [] {
          text, confidence := ReasonText(term.reason), Heuristic;
        }
        return Output(t.id, text, Failure, if stop == NoStop then ErrorStop else stop, confidence);
      }
      if cut {
        if text == [] {
          text, confidence := TrimSpace(term.errText), Exact;
        }
        if text == [] {
          text, confidence := ReasonText(term.reason), Heuristic;
        }
        var said := if term.reason == Interrupted then Cancelled else stop;
        return Output(t.id, text, Terminal, if said == NoStop then ErrorStop else said, confidence);
      }
      var sig := OpenSignal(t);
      if sig.Some? {
        var said := SignalText(t, sig.value, term.text);
        return Output(t.id, said.0, sig.value.kind, stop, said.1);
      }
      return Output(t.id, text, Final, stop, confidence);
    }

    method EndTurn(id: string, term: Ending, mint: string) returns (out: Option<Output>)
      requires Valid() && Mintable(View(), mint)
      modifies this
      ensures Valid() && (View(), out) == Reported(old(Step(View(), Input(Ended(id, term), mint))))
    {
      EndedKeeps(View(), id, term, mint);
      ghost var before := View();
      var t := EndingOf(id, term, mint);
      if t.None? {
        return None;
      }
      var record := Finish(t.value, term);
      return Some(record);
    }

    /** The current turn ends, for a session that is gone. */
    method EndCurrent(term: Ending) returns (out: Option<Output>)
      requires Valid()
      modifies this
      ensures Valid() && (View(), out) == Reported(old(CloseOne(View(), CurrentTurn(View()), term)))
    {
      CurrentKeeps(View(), term);
      if |order| == 0 {
        return None;
      }
      var record := Finish(open[order[|order| - 1]], term);
      return Some(record);
    }

    /** An event in a turn's body: with `boundary` it first ends the anonymous block. */
    method InBody(id: string, boundary: bool, op: Option<Op>, mint: string)
      requires Valid() && Mintable(View(), mint)
      requires boundary && op.Some? ==> !op.value.Delta? && !op.value.NoteStop?
      modifies this
      ensures Valid()
      ensures View() == old(Operated(View(), id, if boundary && op.None? then Some(Pause) else op, mint))
    {
      ghost var (before, all) := (View(), if boundary && op.None? then Some(Pause) else op);
      BodyKeeps(before, id, mint);
      var turn := BodyOf(id, mint);
      if turn.Some? {
        WriteBody(turn.value, boundary, op);
      }
      assert View() == Operated(before, id, all, mint);
      OperatedKeeps(before, id, all, mint);
    }

    method WriteBody(id: string, boundary: bool, op: Option<Op>)
      requires id in open && WellFormed(open[id])
      requires boundary && op.Some? ==> !op.value.Delta? && !op.value.NoteStop?
      modifies `open
      ensures open == (if op.Some? then old(open)[id := Apply(old(open)[id], op.value)]
                       else if boundary then old(open)[id := Apply(old(open)[id], Pause)]
                       else old(open))
    {
      var t := open[id];
      if boundary {
        t := Apply(t, Pause);
      }
      if op.Some? {
        BoundaryFirst(open[id], op.value);
        t := Apply(t, op.value);
      }
      open := open[id := t];
    }

    method StartTurn(turn: string, mint: string)
      requires Valid() && Mintable(View(), mint)
      modifies this
      ensures Valid() && View() == old(Step(View(), Input(Started(turn), mint)).0)
    {
      StartedKeeps(View(), turn, mint);
      if turn != "" { var _ := BodyOf(turn, mint); }
    }

    method InBodyDelta(turn: string, delta: Option<F.DeltaFields>, mint: string)
      requires Valid() && Mintable(View(), mint)
      modifies this
      ensures Valid() && View() == old(Operated(View(), turn, F.DeltaIn(delta), mint))
    {
      if delta.None? || delta.value.phase == F.Thought || delta.value.thinking {
        InBody(turn, false, None, mint);
        return;
      }
      var text := delta.value.content;
      if text == [] {
        text := delta.value.text;
      }
      InBody(turn, false, Some(Delta(text, delta.value.blockID, delta.value.phase == F.FinalPhase)), mint);
    }

    /** A permission request, or a question the runtime asks by request. */
    method InBodyRequest(turn: string, eventID: string, request: Option<F.RequestFields>, mint: string)
      requires Valid() && Mintable(View(), mint)
      modifies this
      ensures Valid() && View() == old(Operated(View(), turn, Some(F.RequestOp(eventID, request)), mint))
    {
      if request.None? {
        InBody(turn, true, None, mint);
      } else if request.value.question {
        InBody(turn, true, Some(Ask(request.value.asked)), mint);
      } else {
        InBody(turn, true, Some(PermissionRequest([eventID, request.value.key], request.value.text)), mint);
      }
    }

    method InBodyResolved(turn: string, parentID: string, resolved: Option<F.ResolvedFields>, mint: string)
      requires Valid() && Mintable(View(), mint)
      modifies this
      ensures Valid() && View() == old(Operated(View(), turn, Some(F.ResolvedOp(parentID, resolved)), mint))
    {
      if resolved.None? || resolved.value.question {
        InBody(turn, true, None, mint);
        return;
      }
      var allowed := resolved.value.allowed.Some? && resolved.value.allowed.value;
      InBody(turn, true, Some(Resolve([parentID, resolved.value.key], allowed, resolved.value.text)), mint);
    }

    method InBodyResult(turn: string, result: Option<F.ResultPayload>, mint: string)
      requires Valid() && Mintable(View(), mint)
      modifies this
      ensures Valid() && View() == old(Operated(View(), turn, Some(F.ResultOp(result)), mint))
    {
      if result.Some? {
        var (id, outcome) := F.ResultOutcome(result.value);
        if outcome.Some? {
          InBody(turn, true, Some(ToolResult(id, outcome.value)), mint);
          return;
        }
      }
      InBody(turn, true, None, mint);
    }

    /** The cases of Observe that are a turn's body. */
    method ObserveBody(ev: F.RuntimeEvent, mint: string)
      requires Valid() && Mintable(View(), mint)
      requires F.Observed(ev).Some? && F.Observed(ev).value.Body?
      modifies this
      ensures Valid()
      ensures View() == old(Operated(View(), F.Observed(ev).value.turn, F.Observed(ev).value.op, mint))
    {
      match ev
      case AgentDelta(turn, delta) => InBodyDelta(turn, delta, mint);
      case AgentToolUse(turn, tool) =>
        if tool.None? {
          InBody(turn, true, None, mint);
          return;
        }
        InBody(turn, true, Some(UseTool(tool.value.id, tool.value.question, tool.value.asked)), mint);
      case AgentToolResult(turn, result) => InBodyResult(turn, result, mint);
      case AgentSubagentSpawn(turn) => InBody(turn, true, None, mint);
      case PermissionRequested(turn, eventID, request) => InBodyRequest(turn, eventID, request, mint);
      case PermissionResolved(turn, parentID, resolved) => InBodyResolved(turn, parentID, resolved, mint);
      case PermissionDenied(turn, text, id) =>
        InBody(turn, true, Some(Refuse(text, id)), mint);
    }

    /** Observe: one event of the runtime feed. The books stay in order, and the output, if
        any, is that of the turn the step closed. */
    method Observe(ev: F.RuntimeEvent, mint: string) returns (out: Option<Output>)
      requires Valid() && Mintable(View(), mint)
      modifies this
      ensures Valid() && (View(), out) == old(FeedStep(View(), F.Observed(ev), mint))
    {
      out := None;
      match ev
      case TurnStarted(turn) => StartTurn(turn, mint);
      case TurnEnded(turn, term) =>
        out := EndTurn(turn, term, mint);
      case RuntimeExited(errText) =>
        out := EndCurrent(ExitEnding(errText));
      case OtherKind =>
      case _ => ObserveBody(ev, mint);
    }

    /** ObserveProvider: one typed event, which carries no turn id. */
    method ObserveProvider(ev: F.ProviderEvent, mint: string) returns (out: Option<Output>)
      requires Valid() && Mintable(View(), mint)
      modifies this
      ensures Valid() && (View(), out) == old(FeedStep(View(), F.ObservedProvider(ev), mint))
    {
      out := None;
      match ev
      case ProviderDelta(text, blockID, phase) =>
        InBody("", false, if phase == F.Thought then None else Some(Delta(text, blockID, phase == F.FinalPhase)), mint);
      case ProviderThinking =>
        InBody("", false, None, mint);
      case ProviderToolUse(tool) =>
        InBody("", true, Some(UseTool(tool.id, tool.question, tool.asked)), mint);
      case ProviderToolResult(id, isError) =>
        InBody("", true, Some(ToolResult(id, isError)), mint);
      case ProviderSpawn =>
        InBody("", true, None, mint);
      case ProviderUsage(stop) =>
        NoteUsage(stop);
      case ProviderDenied(text, id) =>
        InBody("", true, Some(Refuse(text, id)), mint);
      case ProviderDone(stop, text) =>
        out := EndTurn("", Ending(false, [], false, NoReason, stop, text), mint);
      case ProviderError(errText) =>
        out := EndTurn("", Ending(true, errText, false, NoReason, NoStop, []), mint);
      case OtherProvider =>
    }

    /** ObserveStream: one legacy stream event. */
    method ObserveStream(ev: F.StreamEvent, mint: string) returns (out: Option<Output>)
      requires Valid() && Mintable(View(), mint)
      modifies this
      ensures Valid() && (View(), out) == old(FeedStep(View(), F.ObservedStream(ev), mint))
    {
      out := None;
      match ev
      case StreamDelta(content, blockID, phase) =>
        InBody("", false, if phase == F.Thought then None else Some(Delta(content, blockID, phase == F.FinalPhase)), mint);
      case StreamThinking =>
        InBody("", false, None, mint);
      case StreamToolUse(tool) =>
        if tool.None? {
          InBody("", true, None, mint);
        } else {
          InBody("", true, Some(UseTool(tool.value.id, tool.value.question, tool.value.asked)), mint);
        }
      case StreamUsage(stop) =>
        NoteUsage(stop);
      case StreamDone(content) =>
        out := EndTurn("", Ending(false, [], false, NoReason, NoStop, content), mint);
      case StreamError(errText) =>
        out := EndTurn("", Ending(true, errText, false, NoReason, NoStop, []), mint);
      case OtherStream =>
    }

    /** Flush: the current turn ends, for a host that learns the session is gone. */
    method FlushTurn(reason: seq<Byte>, mint: string) returns (out: Option<Output>)
      requires Valid() && Mintable(View(), mint)
      modifies this
      ensures Valid() && (View(), out) == old(FeedStep(View(), Some(Flush(reason)), mint))
    {
      var why := if TrimSpace(reason) == [] then ReasonText(ProcessExited) else reason;
      out := EndCurrent(Ending(true, [], true, ReasonOf(why), NoStop, []));
    }
  }

  /** Ending the anonymous block first changes nothing for an event that ends it anyway. */
  lemma BoundaryFirst(t: Turn, op: Op)
    requires WellFormed(t)
    ensures WellFormed(Apply(t, Pause))
    ensures !op.Delta? && !op.NoteStop? ==> Apply(Apply(t, Pause), op) == Apply(t, op)
  {
  }

  /** A decoded event as a caller sees it; one the feed does not know does nothing. */
  ghost function FeedStep(s: State, event: Option<Event>, mint: string): (State, Option<Output>)
    requires Inv(s) && Mintable(s, mint)
  {
    if event.None? then (s, None) else Reported(Step(s, Input(event.value, mint)))
  }

  /** A step as a caller sees it: of the turn that closed, its output. */
  ghost function Reported(step: (State, Option<Closed>)): (State, Option<Output>) {
    (step.0, if step.1.None? then None else Some(OutputOf(step.1.value.turn, step.1.value.term)))
  }
}
