/**
 * Every interleaving of a session's goroutines (acp/lifecycle.go): the Launch call,
 * the drain loop, any number of Prompt and Close calls and diagnostic callbacks, and
 * the one execution of finish. sync.Once is modelled as it behaves: the first caller
 * runs the function and every other caller waits for it.
 */
module LifecycleRuns {
  import opened LifecycleModel
  import opened Counting
  import Runs

  datatype LaunchPc =
    | InClient                  // Client.Launch is running
    | Committing                // the host's Commit callback is running
    | Accepted                  // both succeeded
    | CommitSignal              // committed; launchDone is next
    | AbortMark | AbortClose | AbortSignal | AbortFinish
    | Returned(ok: bool)

  datatype DrainPc =
    | Reading
    | AwaitReady(ev: Event)     // holds session.ready until the launch is decided
    | Publishing(ev: Event)
    | Eof                       // the client's channel closed
    | Finishing
    | Over

  /** The single run of finish, and who it is for. */
  datatype FinishPc =
    | NotStarted | FClose | FOutcome | FUnregister | FEvents | FRefuse | FWait | FDiagnostics | FDone | Finished

  datatype OncePc = Idle | Running | Done

  datatype ClosePc = Requesting | InOnce | AwaitDone | CloseReturned

  datatype PromptPc = InPrompt | PromptFailed | PromptReturned

  datatype DiagnosticPc = Entered(malformed: bool) | Sending | InCallback | Left

  datatype Thread = Thread(
    s: Session, launch: LaunchPc, drain: DrainPc, finish: FinishPc, closeOnce: OncePc, clientCloses: nat,
    closers: map<nat, ClosePc>, prompts: map<nat, PromptPc>, emitters: map<nat, DiagnosticPc>,
    received: seq<Event>)

  const START := Thread(NEW, InClient, Reading, NotStarted, Idle, 0, map[], map[], map[], [])

  datatype Step =
    | LaunchResult(ok: bool)
    | CommitResult(ok: bool)
    | LaunchCommit
    | LaunchSignal
    | LaunchReturn
    | AbortBegin
    | AbortThroughOnce
    | OnceEnter
    | OnceLeave
    | Read(ev: Event)
    | ReadyDecided
    | DrainPublish(room: bool)
    | ClientChannelClosed
    | DrainAwait
    | DrainReturn
    | FinishEnter
    | FinishMove
    | PromptBegin(p: nat)
    | PromptResult(p: nat, ok: bool)
    | PromptRevert(p: nat)
    | CloseBegin(c: nat)
    | CloseRequest(c: nat)
    | CloseThroughOnce(c: nat)
    | CloseReturn(c: nat)
    | DiagnosticEnter(d: nat, malformed: bool)
    | DiagnosticMark(d: nat)
    | DiagnosticSend(d: nat, room: bool)
    | DiagnosticLeave(d: nat)

  /** Somebody is at closeOnce.Do, so its function can start. */
  ghost predicate AtOnce(t: Thread) {
    t.launch.AbortClose? || t.finish.FClose? || exists c :: c in t.closers && t.closers[c].InOnce?
  }

  ghost predicate Enabled(t: Thread, step: Step) {
    match step
    case LaunchResult(_) => t.launch.InClient?
    case CommitResult(_) => t.launch.Committing?
    case LaunchCommit => t.launch.Accepted?
    case LaunchSignal => t.launch.CommitSignal? || t.launch.AbortSignal?
    case LaunchReturn => t.launch.AbortFinish? && t.finish.Finished?
    case AbortBegin => t.launch.AbortMark?
    case AbortThroughOnce => t.launch.AbortClose? && t.closeOnce.Done?
    case OnceEnter => t.closeOnce.Idle? && AtOnce(t)
    case OnceLeave => t.closeOnce.Running?
    case Read(_) => t.drain.Reading?
    case ReadyDecided => t.drain.AwaitReady? && t.s.ch.launchDone.closes > 0
    case DrainPublish(_) => t.drain.Publishing?
    case ClientChannelClosed => t.drain.Reading?
    case DrainAwait => t.drain.Eof? && t.s.ch.launchDone.closes > 0
    case DrainReturn => t.drain.Finishing? && t.finish.Finished?
    case FinishEnter => t.finish.NotStarted? && (t.drain.Finishing? || t.launch.AbortFinish?)
    case FinishMove =>
      && !t.finish.NotStarted? && !t.finish.Finished?
      && (t.finish.FClose? ==> t.closeOnce.Done?)
      && (t.finish.FWait? ==> t.s.ch.diagnosticWG == 0)
    case PromptBegin(p) => p !in t.prompts
    case PromptResult(p, _) => p in t.prompts && t.prompts[p].InPrompt?
    case PromptRevert(p) => p in t.prompts && t.prompts[p].PromptFailed?
    case CloseBegin(c) => c !in t.closers
    case CloseRequest(c) => c in t.closers && t.closers[c].Requesting?
    case CloseThroughOnce(c) => c in t.closers && t.closers[c].InOnce? && t.closeOnce.Done?
    case CloseReturn(c) => c in t.closers && t.closers[c].AwaitDone?
    case DiagnosticEnter(d, _) => d !in t.emitters
    case DiagnosticMark(d) => d in t.emitters && t.emitters[d].Entered?
    case DiagnosticSend(d, _) => d in t.emitters && t.emitters[d].Sending?
    case DiagnosticLeave(d) => d in t.emitters && t.emitters[d].InCallback?
  }

  ghost function FinishNext(t: Thread): Thread {
    match t.finish
    case FClose => t.(finish := FOutcome)
    case FOutcome => t.(s := FixOutcome(t.s), finish := FUnregister)
    case FUnregister => t.(finish := FEvents)
    case FEvents => t.(s := CloseEvents(t.s), finish := FRefuse)
    case FRefuse => t.(s := RefuseDiagnostics(t.s), finish := FWait)
    case FWait => t.(finish := FDiagnostics)
    case FDiagnostics => t.(s := CloseDiagnostics(t.s), finish := FDone)
    case FDone => t.(s := CloseDone(t.s), finish := Finished)
    case _ => t
  }

  ghost function Apply(t: Thread, step: Step): Thread
    requires Enabled(t, step)
  {
    match step
    case LaunchResult(ok) => t.(launch := if ok then Committing else AbortMark)
    case CommitResult(ok) => t.(launch := if ok then Accepted else AbortMark)
    case LaunchCommit => t.(s := CommitLaunch(t.s), launch := CommitSignal)
    case LaunchSignal =>
      t.(s := CloseLaunchDone(t.s), launch := if t.launch.CommitSignal? then Returned(true) else AbortFinish)
    case LaunchReturn => t.(launch := Returned(false))
    case AbortBegin => t.(s := AbortLaunch(t.s), launch := AbortClose)
    case AbortThroughOnce => t.(launch := AbortSignal)
    case OnceEnter => t.(closeOnce := Running, clientCloses := t.clientCloses + 1)
    case OnceLeave => t.(closeOnce := Done)
    case Read(ev) =>
      t.(s := ObserveEvent(t.s, ev.kind), received := t.received + [ev],
         drain := if ev.kind.SessionReady? then AwaitReady(ev) else Publishing(ev))
    case ReadyDecided => t.(drain := if t.s.flags.launchCommitted then Publishing(t.drain.ev) else Reading)
    case DrainPublish(room) => t.(s := Publish(t.s, t.drain.ev, room), drain := Reading)
    case ClientChannelClosed => t.(drain := Eof)
    case DrainAwait => t.(drain := Finishing)
    case DrainReturn => t.(drain := Over)
    case FinishEnter => t.(finish := FClose)
    case FinishMove => FinishNext(t)
    case PromptBegin(p) =>
      var (s, ok) := AdmitPrompt(t.s);
      t.(s := s, prompts := t.prompts[p := if ok then InPrompt else PromptReturned])
    case PromptResult(p, ok) => t.(prompts := t.prompts[p := if ok then PromptReturned else PromptFailed])
    case PromptRevert(p) => t.(s := FailPrompt(t.s), prompts := t.prompts[p := PromptReturned])
    case CloseBegin(c) => t.(closers := t.closers[c := Requesting])
    case CloseRequest(c) => t.(s := RequestClose(t.s), closers := t.closers[c := InOnce])
    case CloseThroughOnce(c) => t.(closers := t.closers[c := AwaitDone])
    case CloseReturn(c) => t.(closers := t.closers[c := CloseReturned])
    case DiagnosticEnter(d, malformed) =>
      var (s, ok) := EnterDiagnostic(t.s);
      t.(s := s, emitters := t.emitters[d := if ok then Entered(malformed) else Left])
    case DiagnosticMark(d) =>
      t.(s := if t.emitters[d].malformed then MarkMalformed(t.s) else t.s, emitters := t.emitters[d := Sending])
    case DiagnosticSend(d, room) => t.(s := SendDiagnostic(t.s, room), emitters := t.emitters[d := InCallback])
    case DiagnosticLeave(d) => t.(s := LeaveDiagnostic(t.s), emitters := t.emitters[d := Left])
  }

  ghost predicate Next(t: Thread, t': Thread) {
    exists step :: Enabled(t, step) && t' == Apply(t, step)
  }

  ghost predicate Init(t: Thread) {
    t == START
  }

  ghost predicate Run(run: seq<Thread>) {
    Runs.IsRun(Init, Next, run)
  }

  // ---- the invariant -------------------------------------------------------------------

  /** How far finish has come. */
  function Rank(f: FinishPc): nat {
    match f
    case NotStarted => 0
    case FClose => 1
    case FOutcome => 2
    case FUnregister => 3
    case FEvents => 4
    case FRefuse => 5
    case FWait => 6
    case FDiagnostics => 7
    case FDone => 8
    case Finished => 9
  }

  ghost function Active(emitters: map<nat, DiagnosticPc>): set<nat> {
    set d | d in emitters && !emitters[d].Left?
  }

  /** b is a with some elements left out. */
  ghost predicate Subsequence<T>(b: seq<T>, a: seq<T>) {
    if b == [] then true
    else if a == [] then false
    else (b[|b| - 1] == a[|a| - 1] && Subsequence(b[..|b| - 1], a[..|a| - 1])) || Subsequence(b, a[..|a| - 1])
  }

  ghost predicate LaunchOk(t: Thread) {
    && t.s.ch.launchDone.closes == (if t.launch.Returned? || t.launch.AbortFinish? then 1 else 0)
    && t.s.ch.launchDone.badSends == 0
    && (t.s.flags.launchCommitted <==> t.launch.CommitSignal? || t.launch == Returned(true))
    && (t.launch == Returned(false) ==> t.finish.Finished?)
  }

  ghost predicate FinishOk(t: Thread) {
    var rank := Rank(t.finish);
    && (rank > 0 ==> t.s.ch.launchDone.closes == 1)
    && (t.s.flags.finished <==> rank > 2)
    && (t.s.flags.finished ==> Terminal(t.s.verdict.state))
    && (t.s.ch.eventsClosed <==> rank > 4) && t.s.ch.events == Channel(if rank > 4 then 1 else 0, 0)
    && (t.s.ch.diagnosticsClosed <==> rank > 5) && t.s.ch.diagnostics == Channel(if rank > 7 then 1 else 0, 0)
    && (rank > 6 ==> t.s.ch.diagnosticWG == 0)
    && t.s.ch.done == Channel(if rank > 8 then 1 else 0, 0)
    && (rank > 1 ==> t.closeOnce.Done?)
    && t.clientCloses == (if t.closeOnce.Idle? then 0 else 1)
  }

  ghost predicate DrainOk(t: Thread) {
    && (t.drain.Finishing? || t.drain.Over? ==> t.s.ch.launchDone.closes == 1)
    && (t.drain.Over? ==> t.finish.Finished?)
    && (t.drain.Publishing? && t.drain.ev.kind.SessionReady? ==> t.s.flags.launchCommitted)
    && (forall i :: 0 <= i < |t.s.ch.published| && t.s.ch.published[i].kind.SessionReady? ==> t.s.flags.launchCommitted)
    && (if t.drain.AwaitReady? || t.drain.Publishing? then
          && t.received != [] && t.received[|t.received| - 1] == t.drain.ev
          && Subsequence(t.s.ch.published, t.received[..|t.received| - 1])
        else Subsequence(t.s.ch.published, t.received))
    && (t.drain.AwaitReady? ==> t.drain.ev.kind.SessionReady?)
  }

  ghost predicate Inv(t: Thread) {
    LaunchOk(t) && FinishOk(t) && DrainOk(t) && t.s.ch.diagnosticWG == |Active(t.emitters)|
  }

  lemma ActiveAfter(emitters: map<nat, DiagnosticPc>, d: nat, pc: DiagnosticPc)
    ensures |Active(emitters[d := pc])| ==
      |Active(emitters)| - Bit(d in emitters && !emitters[d].Left?) + Bit(!pc.Left?)
  {
    CountOne(Active(emitters), Active(emitters[d := pc]), d);
  }

  predicate IsDiagnostic(step: Step) {
    step.DiagnosticEnter? || step.DiagnosticMark? || step.DiagnosticSend? || step.DiagnosticLeave?
  }

  lemma EnterKeeps(t: Thread, d: nat, malformed: bool)
    requires Inv(t) && Enabled(t, DiagnosticEnter(d, malformed))
    ensures Inv(Apply(t, DiagnosticEnter(d, malformed)))
  {
    ActiveAfter(t.emitters, d, if EnterDiagnostic(t.s).1 then Entered(malformed) else Left);
  }

  lemma MarkKeeps(t: Thread, d: nat)
    requires Inv(t) && Enabled(t, DiagnosticMark(d))
    ensures Inv(Apply(t, DiagnosticMark(d)))
  {
    ActiveAfter(t.emitters, d, Sending);
  }

  /** While a callback is counted, finish has not closed Diagnostics. */
  lemma SendKeeps(t: Thread, d: nat, room: bool)
    requires Inv(t) && Enabled(t, DiagnosticSend(d, room))
    ensures Inv(Apply(t, DiagnosticSend(d, room)))
  {
    ActiveAfter(t.emitters, d, InCallback);
    assert d in Active(t.emitters);
  }

  lemma LeaveKeeps(t: Thread, d: nat)
    requires Inv(t) && Enabled(t, DiagnosticLeave(d))
    ensures Inv(Apply(t, DiagnosticLeave(d)))
  {
    ActiveAfter(t.emitters, d, Left);
    assert d in Active(t.emitters);
  }

  lemma DiagnosticKeeps(t: Thread, step: Step)
    requires Inv(t) && Enabled(t, step) && IsDiagnostic(step)
    ensures Inv(Apply(t, step))
  {
    match step
    case DiagnosticEnter(d, malformed) => EnterKeeps(t, d, malformed);
    case DiagnosticMark(d) => MarkKeeps(t, d);
    case DiagnosticSend(d, room) => SendKeeps(t, d, room);
    case DiagnosticLeave(d) => LeaveKeeps(t, d);
  }

  predicate IsDrain(step: Step) {
    step.Read? || step.ReadyDecided? || step.DrainPublish? || step.ClientChannelClosed? || step.DrainAwait? || step.DrainReturn?
  }

  /** What observeEvent leaves alone. */
  lemma ObserveFrame(s: Session, kind: Kind)
    ensures ObserveEvent(s, kind).ch == s.ch
    ensures ObserveEvent(s, kind).flags.launchCommitted == s.flags.launchCommitted
    ensures ObserveEvent(s, kind).flags.finished == s.flags.finished
    ensures s.flags.finished ==> ObserveEvent(s, kind) == s
  {
  }

  lemma ReadKeeps(t: Thread, ev: Event)
    requires Inv(t) && t.drain.Reading?
    ensures Inv(Apply(t, Read(ev)))
  {
  }

  lemma PublishKeeps(t: Thread, room: bool)
    requires Inv(t) && t.drain.Publishing?
    ensures Inv(Apply(t, DrainPublish(room)))
  {
  }

  lemma DecideKeeps(t: Thread)
    requires Inv(t) && Enabled(t, ReadyDecided)
    ensures Inv(Apply(t, ReadyDecided))
  {
  }

  predicate IsFinish(step: Step) {
    step.FinishEnter? || step.FinishMove? || step.OnceEnter? || step.OnceLeave?
  }

  lemma FinishMoveKeeps(t: Thread)
    requires Inv(t) && Enabled(t, FinishMove)
    ensures Inv(FinishNext(t))
  {
    var t' := FinishNext(t);
    FinishMoveFrame(t);
    FinishMoveOk(t);
    DrainFrame(t, t');
  }

  lemma FinishMoveFrame(t: Thread)
    requires LaunchOk(t) && FinishOk(t) && Enabled(t, FinishMove)
    ensures var t' := FinishNext(t);
      && LaunchOk(t') && t' == t.(s := t'.s, finish := t'.finish)
      && t'.s.ch.published == t.s.ch.published && t'.s.ch.launchDone == t.s.ch.launchDone
      && t'.s.ch.diagnosticWG == t.s.ch.diagnosticWG
      && t'.s.flags.launchCommitted == t.s.flags.launchCommitted
  {
  }

  lemma FinishMoveOk(t: Thread)
    requires FinishOk(t) && Enabled(t, FinishMove)
    ensures FinishOk(FinishNext(t))
  {
  }

  /** The drain loop depends on little of what the others do. */
  lemma DrainFrame(t: Thread, t': Thread)
    requires DrainOk(t) && t'.drain == t.drain && t'.received == t.received
    requires t'.s.ch.published == t.s.ch.published && t'.s.ch.launchDone == t.s.ch.launchDone
    requires t'.s.flags.launchCommitted == t.s.flags.launchCommitted
    requires t.finish.Finished? ==> t'.finish.Finished?
    ensures DrainOk(t')
  {
  }

  lemma FinishKeeps(t: Thread, step: Step)
    requires Inv(t) && Enabled(t, step) && IsFinish(step)
    ensures Inv(Apply(t, step))
  {
    if step.FinishMove? { FinishMoveKeeps(t); }
  }

  predicate IsLaunch(step: Step) {
    || step.LaunchResult? || step.CommitResult? || step.LaunchCommit? || step.LaunchSignal? || step.LaunchReturn?
    || step.AbortBegin? || step.AbortThroughOnce?
  }

  lemma LaunchKeeps(t: Thread, step: Step)
    requires Inv(t) && Enabled(t, step) && IsLaunch(step)
    ensures Inv(Apply(t, step))
  {
  }

  /** Prompt and Close write the state while finish has not fixed it, and nothing else the
      others rest on. */
  lemma CallFrame(t: Thread, t': Thread)
    requires Inv(t) && t' == t.(s := t'.s, closers := t'.closers, prompts := t'.prompts) && t'.s.ch == t.s.ch
    requires t'.s.flags.launchCommitted == t.s.flags.launchCommitted && t'.s.flags.finished == t.s.flags.finished
    requires t.s.flags.finished ==> t'.s.verdict.state == t.s.verdict.state
    ensures Inv(t')
  {
  }

  lemma CallKeeps(t: Thread, step: Step)
    requires Inv(t) && Enabled(t, step)
    requires !IsDiagnostic(step) && !IsDrain(step) && !IsFinish(step) && !IsLaunch(step)
    ensures Inv(Apply(t, step))
  {
    CallFrame(t, Apply(t, step));
  }

  lemma StepKeepsInv(t: Thread, step: Step)
    requires Inv(t) && Enabled(t, step)
    ensures Inv(Apply(t, step))
  {
    if IsDiagnostic(step) { DiagnosticKeeps(t, step); }
    else if IsFinish(step) { FinishKeeps(t, step); }
    else if IsLaunch(step) { LaunchKeeps(t, step); }
    else if IsDrain(step) {
      match step
      case Read(ev) => ReadKeeps(t, ev);
      case DrainPublish(room) => PublishKeeps(t, room);
      case ReadyDecided => DecideKeeps(t);
      case _ =>
    }
    else { CallKeeps(t, step); }
  }

  lemma InvIsInductive()
    ensures Runs.Inductive(Init, Next, Inv)
  {
    assert Active(START.emitters) == {};
    forall s, t | Inv(s) && Next(s, t) ensures Inv(t) {
      var step :| Enabled(s, step) && t == Apply(s, step);
      StepKeepsInv(s, step);
    }
  }

  lemma InvAt(run: seq<Thread>, i: nat)
    requires Run(run) && i < |run|
    ensures Inv(run[i])
  {
    InvIsInductive();
    Runs.Holds(Init, Next, Inv, run, i);
  }
}
