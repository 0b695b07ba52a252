/**
 * The managed session of acp/lifecycle.go as values: what its concurrent methods
 * share, and each of their locked sections as a function.
 */
module LifecycleModel {
  datatype State = Launching | Ready | Processing | Closing | Closed | Failed

  datatype Outcome = NoOutcome | OutcomeClosed | Disconnected | ChildExit | MalformedStream | Canceled

  datatype Kind =
    | SessionReady
    | TurnStarted
    | TurnCompleted(canceled: bool)
    | TurnFailed(canceled: bool)
    | ProcessExited(error: bool)
    | OtherKind

  /** A client event; the tag tells two events of one kind apart. */
  datatype Event = Event(kind: Kind, tag: nat)

  /** A channel, with what would panic counted: a second close, a send after one. */
  datatype Channel = Channel(closes: nat, badSends: nat)

  const OPEN := Channel(0, 0)

  function Sent(c: Channel): Channel {
    if c.closes > 0 then c.(badSends := c.badSends + 1) else c
  }

  function Shut(c: Channel): Channel {
    c.(closes := c.closes + 1)
  }

  predicate NeverPanicked(c: Channel) {
    c.closes <= 1 && c.badSends == 0
  }

  /** What finish fixes for good. */
  datatype Verdict = Verdict(state: State, terminal: Outcome, turn: Outcome, err: Outcome)

  datatype Flags = Flags(
    closeRequested: bool, sawProcessExit: bool, sawMalformed: bool,
    launchCommitted: bool, pendingReady: bool, finished: bool)

  /** The session's channels, the flags that guard them and what went out on events. */
  datatype Channels = Channels(
    events: Channel, eventsClosed: bool, published: seq<Event>,
    diagnostics: Channel, diagnosticsClosed: bool, diagnosticWG: int,
    done: Channel, launchDone: Channel)

  datatype Session = Session(verdict: Verdict, flags: Flags, ch: Channels)

  const NEW := Session(Verdict(Launching, NoOutcome, NoOutcome, NoOutcome),
                       Flags(false, false, false, false, false, false),
                       Channels(OPEN, false, [], OPEN, false, 0, OPEN, OPEN))

  function SetState(s: Session, state: State): Session {
    s.(verdict := s.verdict.(state := state))
  }

  predicate Terminal(state: State) {
    state.Closed? || state.Failed?
  }

  /** Snapshot's Live. */
  predicate Live(s: Session) {
    s.flags.launchCommitted && (s.verdict.state.Ready? || s.verdict.state.Processing? || s.verdict.state.Closing?)
  }

  /** Prompt's admission; false is ErrNotLive. */
  function AdmitPrompt(s: Session): (Session, bool) {
    if s.verdict.state.Ready? then (SetState(s, Processing), true) else (s, false)
  }

  /** A Prompt the client refused goes back to ready. */
  function FailPrompt(s: Session): Session {
    if s.verdict.state.Processing? then SetState(s, Ready) else s
  }

  function RequestClose(s: Session): Session {
    (if Terminal(s.verdict.state) then s else SetState(s, Closing)).(flags := s.flags.(closeRequested := true))
  }

  function TurnEnded(s: Session, canceled: bool): Session {
    var s1 := if s.verdict.state.Closing? then s else SetState(s, Ready);
    s1.(verdict := s1.verdict.(turn := if canceled then Canceled else NoOutcome))
  }

  function ObserveEvent(s: Session, kind: Kind): Session {
    if s.flags.finished then s
    else match kind
      case SessionReady =>
        if s.verdict.state.Launching? && s.flags.launchCommitted then SetState(s, Ready)
        else if s.verdict.state.Launching? then s.(flags := s.flags.(pendingReady := true))
        else s
      case TurnCompleted(canceled) => TurnEnded(s, canceled)
      case TurnFailed(canceled) => TurnEnded(s, canceled)
      case TurnStarted => if s.verdict.state.Closing? then s else SetState(s, Processing)
      case ProcessExited(error) =>
        var s1 := s.(flags := s.flags.(sawProcessExit := true));
        if error then s1.(verdict := s1.verdict.(err := ChildExit, terminal := ChildExit)) else s1
      case OtherKind => s
  }

  /** publish: nothing once the channel is closed, and a full buffer drops. */
  function Publish(s: Session, ev: Event, room: bool): Session {
    if s.ch.eventsClosed || !room then s
    else s.(ch := s.ch.(events := Sent(s.ch.events), published := s.ch.published + [ev]))
  }

  /** emitDiagnostic's entry; false refuses the diagnostic. */
  function EnterDiagnostic(s: Session): (Session, bool) {
    if s.ch.diagnosticsClosed then (s, false) else (s.(ch := s.ch.(diagnosticWG := s.ch.diagnosticWG + 1)), true)
  }

  function MarkMalformed(s: Session): Session {
    s.(flags := s.flags.(sawMalformed := true))
  }

  function SendDiagnostic(s: Session, room: bool): Session {
    if room then s.(ch := s.ch.(diagnostics := Sent(s.ch.diagnostics))) else s
  }

  function LeaveDiagnostic(s: Session): Session {
    s.(ch := s.ch.(diagnosticWG := s.ch.diagnosticWG - 1))
  }

  /** The locked section of finish. */
  function FixOutcome(s: Session): Session {
    var v := s.verdict;
    s.(flags := s.flags.(finished := true),
       verdict :=
         if s.flags.closeRequested then v.(state := Closed, terminal := OutcomeClosed)
         else if s.flags.sawMalformed then v.(state := Failed, terminal := MalformedStream, err := MalformedStream)
         else if v.err != NoOutcome then v.(state := Failed)
         else if s.flags.sawProcessExit then v.(state := Closed, terminal := ChildExit)
         else v.(state := Failed, terminal := Disconnected, err := Disconnected))
  }

  function CloseEvents(s: Session): Session {
    s.(ch := s.ch.(eventsClosed := true, events := Shut(s.ch.events)))
  }

  function RefuseDiagnostics(s: Session): Session {
    s.(ch := s.ch.(diagnosticsClosed := true))
  }

  function CloseDiagnostics(s: Session): Session {
    s.(ch := s.ch.(diagnostics := Shut(s.ch.diagnostics)))
  }

  function CloseDone(s: Session): Session {
    s.(ch := s.ch.(done := Shut(s.ch.done)))
  }

  /** A failed launch or commit, before its teardown. */
  function AbortLaunch(s: Session): Session {
    SetState(s.(flags := s.flags.(closeRequested := true)), Closing)
  }

  function CommitLaunch(s: Session): Session {
    var s1 := s.(flags := s.flags.(launchCommitted := true));
    if s1.verdict.state.Launching? then SetState(s1, Ready) else s1
  }

  function CloseLaunchDone(s: Session): Session {
    s.(ch := s.ch.(launchDone := Shut(s.ch.launchDone)))
  }
}
