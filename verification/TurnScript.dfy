/**
 * The events of a native run, read off its inputs: what each input says, which of them begin
 * and end a turn, and the terminal event each ending gets (wrapper/event_translator.go and
 * the closures of Run in wrapper/wrapper.go).
 */
module TurnScript {
  import opened Lists
  import opened Options
  import opened TurnEvents

  /** The kind of an event and the turn it is of. */
  datatype Line = Line(kind: Kind, turn: Option<nat>)

  // ---- what the inputs say --------------------------------------------------------------------

  /** Needs a turn to be open, and begins one if none is. */
  predicate Needs(i: Input) {
    match i
    case Usage(_) => false
    case Stream(ev, _) => ev.Delta? || ev.Thinking? || ev.ToolUse? || ev.Error? || ev.Done?
    case Provider(ev) => ev.ToolResult? || ev.SubagentSpawn? || ev.Denied?
    case Permission => true
  }

  /** The turn is open after the inputs. */
  predicate LeavesOpen(inputs: seq<Input>) {
    inputs != [] && !EndsTurn(Last(inputs)) && (Needs(Last(inputs)) || LeavesOpen(Front(inputs)))
  }

  function TurnsBegun(inputs: seq<Input>): nat {
    if inputs == [] then 0
    else TurnsBegun(Front(inputs)) + if Needs(Last(inputs)) && !LeavesOpen(Front(inputs)) then 1 else 0
  }

  /** What an input says of its turn, or of no turn. */
  function Says(i: Input, turn: Option<nat>): seq<Line> {
    match i
    case Usage(_) => []
    case Stream(ev, finding) =>
      (match ev
       case Delta => [Line(AgentDelta, turn)]
       case Thinking => [Line(AgentDelta, turn)]
       case ToolUse => [Line(AgentToolUse, turn)] + if finding then [Line(PolicyFinding, turn)] else []
       case Error => [Line(TurnFailed, turn), Line(SessionIdle, turn)]
       case Done => [Line(TurnCompleted, turn), Line(SessionIdle, turn)]
       case SessionId => []
       case OtherStream => [])
    case Provider(ev) =>
      (match ev
       case ToolResult => [Line(AgentToolResult, turn)]
       case SubagentSpawn => [Line(AgentSubagentSpawn, turn)]
       case Denied => [Line(PermissionDenied, turn)]
       case Lost => [Line(SessionLost, turn)]
       case AuthFailure => [Line(AuthFailed, None)]
       case Beat => [Line(Heartbeat, None)]
       case OtherProvider => [])
    case Permission => [Line(PermissionRequested, turn), Line(PermissionResolved, turn)]
  }

  /** With the beginning of the turn, if it needs one and none is open. */
  function Adds(i: Input, open: bool, begun: nat): seq<Line> {
    if open && begun > 0 then Says(i, Some(begun - 1))
    else if Needs(i) then
      [Line(TurnStarted, Some(begun)), Line(SessionProcessing, Some(begun))] + Says(i, Some(begun))
    else Says(i, None)
  }

  function Script(inputs: seq<Input>): seq<Line> {
    if inputs == [] then []
    else Script(Front(inputs)) + Adds(Last(inputs), LeavesOpen(Front(inputs)), TurnsBegun(Front(inputs)))
  }

  function Lines(events: seq<Event<Report>>): seq<Line> {
    seq(|events|, i requires 0 <= i < |events| => Line(events[i].kind, events[i].turn))
  }

  /** The turn id, as the inputs say. */
  function OpenTurn(inputs: seq<Input>): Option<nat> {
    if LeavesOpen(inputs) && TurnsBegun(inputs) > 0 then Some(TurnsBegun(inputs) - 1) else None
  }

  lemma {:induction false} BegunWhileOpen(inputs: seq<Input>)
    ensures LeavesOpen(inputs) ==> TurnsBegun(inputs) > 0
  {
    if inputs != [] { BegunWhileOpen(Front(inputs)); }
  }

  lemma EmitAdds(s: State, kind: Kind, turn: Option<nat>)
    ensures Lines(Emit(s, kind, turn).events) == Lines(s.events) + [Line(kind, turn)]
  {
  }

  function Beginning(open: Option<nat>, minted: nat): seq<Line> {
    if open.Some? then [] else [Line(TurnStarted, Some(minted)), Line(SessionProcessing, Some(minted))]
  }

  lemma OpenedAdds(s: State)
    ensures Lines(Opened(s).events) == Lines(s.events) + Beginning(s.open, s.minted)
    ensures Opened(s).open.Some? && Opened(s).open == if s.open.Some? then s.open else Some(s.minted)
  {
    if s.open.None? {
      var begun := s.(open := Some(s.minted), minted := s.minted + 1);
      EmitAdds(begun, TurnStarted, Some(s.minted));
      EmitAdds(Emit(begun, TurnStarted, Some(s.minted)), SessionProcessing, Some(s.minted));
    }
  }

  lemma ClosedAdds(s: State, kind: Kind)
    requires s.open.Some?
    ensures Lines(Closed(s, kind).events) == Lines(s.events) + [Line(kind, s.open), Line(SessionIdle, s.open)]
  {
    var ended := s.(events := s.events + [Event(kind, s.open, s.usage, TerminalStop(kind, s.usage))]);
    assert Lines(ended.events) == Lines(s.events) + [Line(kind, s.open)];
    EmitAdds(ended, SessionIdle, s.open);
  }

  lemma StreamAdds(s: State, ev: StreamEvent, finding: bool)
    ensures Lines(Step(s, Stream(ev, finding)).events)
      == if Needs(Stream(ev, finding)) then Lines(s.events) + Beginning(s.open, s.minted) + Says(Stream(ev, finding), Opened(s).open)
         else Lines(s.events)
  {
    OpenedAdds(s);
    var begun := Opened(s);
    match ev
    case Error => ClosedAdds(begun, TurnFailed);
    case Done => ClosedAdds(begun, TurnCompleted);
    case ToolUse =>
      EmitAdds(begun, AgentToolUse, begun.open);
      EmitAdds(Emit(begun, AgentToolUse, begun.open), PolicyFinding, begun.open);
    case SessionId =>
    case OtherStream =>
    case _ => EmitAdds(begun, AgentDelta, begun.open);
  }

  lemma ProviderAdds(s: State, ev: ProviderEvent)
    ensures Lines(Step(s, Provider(ev)).events)
      == if Needs(Provider(ev)) then Lines(s.events) + Beginning(s.open, s.minted) + Says(Provider(ev), Opened(s).open)
         else Lines(s.events) + Says(Provider(ev), s.open)
  {
    OpenedAdds(s);
    var begun := Opened(s);
    match ev
    case ToolResult => EmitAdds(begun, AgentToolResult, begun.open);
    case SubagentSpawn => EmitAdds(begun, AgentSubagentSpawn, begun.open);
    case Denied => EmitAdds(begun, PermissionDenied, begun.open);
    case Lost => EmitAdds(s, SessionLost, s.open);
    case AuthFailure => EmitAdds(s, AuthFailed, None);
    case Beat => EmitAdds(s, Heartbeat, None);
    case OtherProvider =>
  }

  lemma AskedAdds(s: State)
    ensures Lines(Step(s, Permission).events) == Lines(s.events) + Beginning(s.open, s.minted) + Says(Permission, Opened(s).open)
  {
    OpenedAdds(s);
    var begun := Opened(s);
    EmitAdds(begun, PermissionRequested, begun.open);
    EmitAdds(Emit(begun, PermissionRequested, begun.open), PermissionResolved, begun.open);
  }

  lemma StepMoves(s: State, i: Input)
    ensures var now := Step(s, i);
      && now.minted == s.minted + (if Needs(i) && s.open.None? then 1 else 0)
      && now.open == if EndsTurn(i) then None else if Needs(i) && s.open.None? then Some(s.minted) else s.open
  {
  }

  lemma StepAdds(s: State, i: Input)
    requires s.open.Some? ==> s.minted > 0 && s.open == Some(s.minted - 1)
    ensures Lines(Step(s, i).events) == Lines(s.events) + Adds(i, s.open.Some?, s.minted)
  {
    match i
    case Usage(_) =>
    case Stream(ev, finding) => StreamAdds(s, ev, finding);
    case Provider(ev) => ProviderAdds(s, ev);
    case Permission => AskedAdds(s);
  }

  /** The events so far are the script of the inputs so far. */
  lemma {:induction false} RunFollowsTheScript(inputs: seq<Input>)
    ensures var s := Run(inputs);
      Lines(s.events) == Script(inputs) && s.minted == TurnsBegun(inputs) && s.open == OpenTurn(inputs)
  {
    if inputs != [] {
      RunFollowsTheScript(Front(inputs));
      BegunWhileOpen(Front(inputs));
      BegunWhileOpen(inputs);
      StepAdds(Run(Front(inputs)), Last(inputs));
      StepMoves(Run(Front(inputs)), Last(inputs));
    }
  }

  /** A whole run is the script of its inputs; the flush fails a turn that was left open; and
      process.exited is last. */
  lemma WholeRunFollowsTheScript(inputs: seq<Input>)
    ensures var turn := OpenTurn(inputs);
      && (turn.Some? <==> LeavesOpen(inputs))
      && Lines(WholeRun(inputs)) == Script(inputs)
         + (if LeavesOpen(inputs) then [Line(TurnFailed, turn), Line(SessionIdle, turn)] else []) + [Line(ProcessExited, None)]
  {
    RunFollowsTheScript(inputs);
    BegunWhileOpen(inputs);
    FlushAdds(Run(inputs));
    EmitAdds(Flushed(Run(inputs)), ProcessExited, None);
  }

  lemma FlushAdds(s: State)
    ensures Lines(Flushed(s).events) == Lines(s.events) + if s.open.Some? then [Line(TurnFailed, s.open), Line(SessionIdle, s.open)] else []
  {
    if s.open.Some? { ClosedAdds(s, TurnFailed); }
  }

  // ---- terminal events ------------------------------------------------------------------------

  /** How a turn is said to have ended: failed or not, and with which stop reason. */
  datatype Terminal = Terminal(failed: bool, stop: Stop)

  /** A failed turn's stop reason is the word error; a completed one's is the last reported
      for it, if any was. */
  function Completed(reports: seq<Option<Report>>): Terminal {
    Terminal(false, if LatestStop(reports) == "" then NoStop else Reported(LatestStop(reports)))
  }

  const FAILED := Terminal(true, StopError)

  /** One for each ending, with what was reported since the one before it. */
  function Endings(inputs: seq<Input>): seq<Terminal> {
    if inputs == [] then []
    else if !EndsTurn(Last(inputs)) then Endings(Front(inputs))
    else Endings(Front(inputs)) + [if Last(inputs).event.Error? then FAILED else Completed(Since(Front(inputs)))]
  }

  function Terminals(events: seq<Event<Report>>): seq<Terminal> {
    if events == [] then []
    else if Last(events).kind.TurnFailed? || Last(events).kind.TurnCompleted? then
      Terminals(Front(events)) + [Terminal(Last(events).kind.TurnFailed?, Last(events).stop)]
    else Terminals(Front(events))
  }

  lemma EmitEndsNothing(s: State, kind: Kind, turn: Option<nat>)
    requires !kind.TurnFailed? && !kind.TurnCompleted?
    ensures Terminals(Emit(s, kind, turn).events) == Terminals(s.events) && Emit(s, kind, turn).usage == s.usage
  {
  }

  lemma OpenedEndsNothing(s: State)
    ensures Terminals(Opened(s).events) == Terminals(s.events) && Opened(s).usage == s.usage
  {
  }

  function StopOn(usage: Option<Report>): Stop {
    if StopOf(usage) == "" then NoStop else Reported(StopOf(usage))
  }

  lemma ClosedEnds(s: State, kind: Kind)
    requires s.open.Some? && (kind.TurnFailed? || kind.TurnCompleted?)
    ensures Terminals(Closed(s, kind).events)
      == Terminals(s.events) + [Terminal(kind.TurnFailed?, if kind.TurnFailed? then StopError else StopOn(s.usage))]
  {
    var ended := s.(events := s.events + [Event(kind, s.open, s.usage, TerminalStop(kind, s.usage))]);
    assert Front(ended.events) == s.events;
    EmitEndsNothing(ended, SessionIdle, s.open);
  }

  lemma StreamEndsNothing(s: State, ev: StreamEvent, finding: bool)
    requires !ev.Error? && !ev.Done?
    ensures Terminals(Step(s, Stream(ev, finding)).events) == Terminals(s.events)
  {
    OpenedEndsNothing(s);
    var begun := Opened(s);
    match ev
    case ToolUse =>
      EmitEndsNothing(begun, AgentToolUse, begun.open);
      EmitEndsNothing(Emit(begun, AgentToolUse, begun.open), PolicyFinding, begun.open);
    case SessionId =>
    case OtherStream =>
    case _ => EmitEndsNothing(begun, AgentDelta, begun.open);
  }

  lemma InsideEndsNothing(s: State, i: Input)
    requires !EndsTurn(i)
    ensures Terminals(Step(s, i).events) == Terminals(s.events)
  {
    match i
    case Usage(_) =>
    case Stream(ev, finding) => StreamEndsNothing(s, ev, finding);
    case Provider(ev) => ProviderEndsNothing(s, ev);
    case Permission => AskedEndsNothing(s);
  }

  lemma ProviderEndsNothing(s: State, ev: ProviderEvent)
    ensures Terminals(Step(s, Provider(ev)).events) == Terminals(s.events)
  {
    OpenedEndsNothing(s);
    if ProviderKind(ev).Some? {
      var kind := ProviderKind(ev).value;
      var begun := if IsTurnInternal(kind) then Opened(s) else s;
      EmitEndsNothing(begun, kind, Scope(begun, kind));
    }
  }

  lemma AskedEndsNothing(s: State)
    ensures Terminals(Asked(s).events) == Terminals(s.events)
  {
    OpenedEndsNothing(s);
    var begun := Opened(s);
    EmitEndsNothing(begun, PermissionRequested, begun.open);
    EmitEndsNothing(Emit(begun, PermissionRequested, begun.open), PermissionResolved, begun.open);
  }

  lemma EndingIs(s: State, i: Input)
    requires EndsTurn(i)
    ensures Opened(s).open.Some? && Step(s, i) == Closed(Opened(s), if i.event.Error? then TurnFailed else TurnCompleted)
  {
  }

  lemma EndingEnds(s: State, i: Input)
    requires EndsTurn(i)
    ensures Terminals(Step(s, i).events)
      == Terminals(s.events) + [if i.event.Error? then FAILED else Terminal(false, StopOn(s.usage))]
  {
    EndingIs(s, i);
    OpenedEndsNothing(s);
    ClosedEnds(Opened(s), if i.event.Error? then TurnFailed else TurnCompleted);
  }

  /** The terminal events, in order: a failure for each error and a completion for each end,
      with the stop reason last reported since the one before. */
  lemma {:induction false} TerminalsAreTheEndings(inputs: seq<Input>)
    ensures Terminals(Run(inputs).events) == Endings(inputs)
    ensures StopOf(Run(inputs).usage) == LatestStop(Since(inputs))
  {
    if inputs != [] {
      TerminalsAreTheEndings(Front(inputs));
      UsageRidesOnItsTerminal(inputs);
      TotalKeepsTheStop(Since(inputs));
      if EndsTurn(Last(inputs)) {
        EndingEnds(Run(Front(inputs)), Last(inputs));
      } else {
        InsideEndsNothing(Run(Front(inputs)), Last(inputs));
      }
    }
  }

  /** Over a whole run there is one more failure, of a turn left open. */
  lemma EndingsOfAWholeRun(inputs: seq<Input>)
    ensures Terminals(WholeRun(inputs)) == Endings(inputs) + if LeavesOpen(inputs) then [FAILED] else []
  {
    RunFollowsTheScript(inputs);
    BegunWhileOpen(inputs);
    TerminalsAreTheEndings(inputs);
    var s := Run(inputs);
    if s.open.Some? { ClosedEnds(s, TurnFailed); }
    EmitEndsNothing(Flushed(s), ProcessExited, None);
  }
}
