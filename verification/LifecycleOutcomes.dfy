/**
 * How a session is said to have ended (observeEvent and finish of acp/lifecycle.go), from
 * what happened in its run: the events the client reported, the malformed frames it
 * diagnosed, and who asked for the close.
 */
module LifecycleOutcomes {
  import opened LifecycleModel
  import LR = LifecycleRuns
  import LT = LifecycleTheorems
  import Runs

  // ---- what happened --------------------------------------------------------------------------

  predicate SawExit(received: seq<Event>) {
    exists ev :: ev in received && ev.kind.ProcessExited?
  }

  /** The last turn that ended, and whether it was cancelled. */
  function LastTurn(received: seq<Event>): Outcome {
    if received == [] then NoOutcome
    else match received[|received| - 1].kind
      case TurnCompleted(canceled) => if canceled then Canceled else NoOutcome
      case TurnFailed(canceled) => if canceled then Canceled else NoOutcome
      case _ => LastTurn(received[..|received| - 1])
  }

  predicate Aborting(launch: LR.LaunchPc) {
    launch.AbortClose? || launch.AbortSignal? || launch.AbortFinish? || launch == LR.Returned(false)
  }

  /** Somebody asked for the close: a Close call, or a launch that failed. */
  predicate Asked(closers: map<nat, LR.ClosePc>) {
    exists c :: c in closers && !closers[c].Requesting?
  }

  /** Somebody asked for the close: a Close call, or a launch that failed. */
  predicate CloseAsked(t: LR.Thread) {
    Aborting(t.launch) || Asked(t.closers)
  }

  /** A malformed frame is diagnosed. */
  ghost predicate Malforms(t: LR.Thread, t': LR.Thread) {
    exists d: nat :: d in t.emitters && d in t'.emitters && t.emitters[d] == LR.Entered(true) && t'.emitters[d].Sending?
  }

  ghost predicate MalformsAt(run: seq<LR.Thread>, k: nat) {
    k + 1 < |run| && Malforms(run[k], run[k + 1])
  }

  ghost predicate SawMalformed(run: seq<LR.Thread>, i: nat) {
    exists k: nat :: k < i && MalformsAt(run, k)
  }

  // ---- what the session remembers of it ---------------------------------------------------------

  ghost predicate Remembers(t: LR.Thread) {
    && (t.s.flags.closeRequested <==> CloseAsked(t))
    && (!t.s.flags.finished ==>
          && (t.s.flags.sawProcessExit <==> SawExit(t.received))
          && t.s.verdict.err == (if LT.SawErrorExit(t.received) then ChildExit else NoOutcome)
          && t.s.verdict.terminal == t.s.verdict.err
          && t.s.verdict.turn == LastTurn(t.received)
          && (t.s.verdict.state.Closing? <==> CloseAsked(t))
          && !Terminal(t.s.verdict.state)
          && (t.s.flags.launchCommitted ==> !t.s.verdict.state.Launching?))
  }

  lemma OneMoreReceived(received: seq<Event>, ev: Event)
    ensures SawExit(received + [ev]) <==> SawExit(received) || ev.kind.ProcessExited?
    ensures LT.SawErrorExit(received + [ev]) <==> LT.SawErrorExit(received) || ev.kind == ProcessExited(true)
    ensures LastTurn(received + [ev]) == match ev.kind
      case TurnCompleted(canceled) => if canceled then Canceled else NoOutcome
      case TurnFailed(canceled) => if canceled then Canceled else NoOutcome
      case _ => LastTurn(received)
  {
    LT.SawGrows(received, ev);
    assert (received + [ev])[..|received|] == received;
  }

  lemma ReadRemembers(t: LR.Thread, ev: Event)
    requires Remembers(t) && t.drain.Reading?
    ensures Remembers(LR.Apply(t, LR.Read(ev)))
  {
    OneMoreReceived(t.received, ev);
  }

  lemma AskedAfter(closers: map<nat, LR.ClosePc>, c: nat, pc: LR.ClosePc)
    requires c !in closers || closers[c].Requesting? || !pc.Requesting?
    ensures Asked(closers[c := pc]) <==> Asked(closers) || !pc.Requesting?
  {
    if Asked(closers) {
      var other :| other in closers && !closers[other].Requesting?;
      assert other in closers[c := pc] && !closers[c := pc][other].Requesting?;
    }
    if !pc.Requesting? { assert c in closers[c := pc]; }
  }

  lemma CloseRemembers(t: LR.Thread, step: LR.Step)
    requires Remembers(t) && LR.Enabled(t, step)
    requires step.CloseBegin? || step.CloseRequest? || step.CloseThroughOnce? || step.CloseReturn?
    ensures Remembers(LR.Apply(t, step))
  {
    var pc := match step
      case CloseBegin(_) => LR.Requesting
      case CloseRequest(_) => LR.InOnce
      case CloseThroughOnce(_) => LR.AwaitDone
      case CloseReturn(_) => LR.CloseReturned;
    AskedAfter(t.closers, step.c, pc);
  }

  lemma LaunchRemembers(t: LR.Thread, step: LR.Step)
    requires LR.Inv(t) && Remembers(t) && LR.Enabled(t, step) && LR.IsLaunch(step)
    ensures Remembers(LR.Apply(t, step))
  {
  }

  lemma PromptRemembers(t: LR.Thread, step: LR.Step)
    requires LR.Inv(t) && Remembers(t) && LR.Enabled(t, step) && (step.PromptBegin? || step.PromptResult? || step.PromptRevert?)
    ensures Remembers(LR.Apply(t, step))
  {
  }

  lemma DrainRemembers(t: LR.Thread, step: LR.Step)
    requires Remembers(t) && LR.Enabled(t, step) && LR.IsDrain(step) && !step.Read?
    ensures Remembers(LR.Apply(t, step))
  {
  }

  lemma FixRemembers(t: LR.Thread)
    requires Remembers(t) && t.finish.FOutcome?
    ensures Remembers(t.(s := FixOutcome(t.s), finish := LR.FUnregister))
  {
  }

  lemma MoveKeeps(t: LR.Thread)
    requires LR.Enabled(t, LR.FinishMove) && !t.finish.FOutcome?
    ensures var now := LR.FinishNext(t);
      && now.s.verdict == t.s.verdict && now.s.flags == t.s.flags
      && now == t.(s := now.s, finish := now.finish)
  {
  }

  lemma SameRemembers(t: LR.Thread, now: LR.Thread)
    requires Remembers(t) && now == t.(s := now.s, finish := now.finish)
    requires now.s.verdict == t.s.verdict && now.s.flags == t.s.flags
    ensures Remembers(now)
  {
  }

  lemma MoveRemembers(t: LR.Thread)
    requires Remembers(t) && LR.Enabled(t, LR.FinishMove) && !t.finish.FOutcome?
    ensures Remembers(LR.FinishNext(t))
  {
    MoveKeeps(t);
    SameRemembers(t, LR.FinishNext(t));
  }

  lemma FinishRemembers(t: LR.Thread, step: LR.Step)
    requires Remembers(t) && LR.Enabled(t, step) && LR.IsFinish(step)
    ensures Remembers(LR.Apply(t, step))
  {
    if step.FinishMove? {
      if t.finish.FOutcome? { FixRemembers(t); } else { MoveRemembers(t); }
    }
  }

  lemma DiagnosticRemembers(t: LR.Thread, step: LR.Step)
    requires Remembers(t) && LR.Enabled(t, step) && LR.IsDiagnostic(step)
    ensures Remembers(LR.Apply(t, step))
  {
  }

  lemma StepRemembers(t: LR.Thread, step: LR.Step)
    requires LR.Inv(t) && Remembers(t) && LR.Enabled(t, step)
    ensures Remembers(LR.Apply(t, step))
  {
    if step.Read? { ReadRemembers(t, step.ev); }
    else if LR.IsFinish(step) { FinishRemembers(t, step); }
    else if LR.IsDiagnostic(step) { DiagnosticRemembers(t, step); }
    else if LR.IsLaunch(step) { LaunchRemembers(t, step); }
    else if LR.IsDrain(step) { DrainRemembers(t, step); }
    else if step.PromptBegin? || step.PromptResult? || step.PromptRevert? { PromptRemembers(t, step); }
    else { CloseRemembers(t, step); }
  }

  ghost predicate Known(t: LR.Thread) {
    LR.Inv(t) && Remembers(t)
  }

  lemma RememberedAt(run: seq<LR.Thread>, i: nat)
    requires LR.Run(run) && i < |run|
    ensures Known(run[i])
  {
    LR.InvIsInductive();
    assert LR.Init(LR.START);
    forall t, t' | Known(t) && LR.Next(t, t') ensures Known(t') {
      var step :| LR.Enabled(t, step) && t' == LR.Apply(t, step);
      StepRemembers(t, step);
      LR.StepKeepsInv(t, step);
    }
    Runs.Holds(LR.Init, LR.Next, Known, run, i);
  }

  // ---- malformed frames ---------------------------------------------------------------------------

  lemma StepMalforms(t: LR.Thread, step: LR.Step)
    requires LR.Enabled(t, step)
    ensures LR.Apply(t, step).s.flags.sawMalformed <==> t.s.flags.sawMalformed || Malforms(t, LR.Apply(t, step))
  {
    if step.DiagnosticMark? && t.emitters[step.d].malformed {
      assert Malforms(t, LR.Apply(t, step));
    }
  }

  lemma MoreMalformed(run: seq<LR.Thread>, i: nat)
    requires 0 < i < |run|
    ensures SawMalformed(run, i) <==> SawMalformed(run, i - 1) || Malforms(run[i - 1], run[i])
  {
    assert MalformsAt(run, i - 1) <==> Malforms(run[i - 1], run[i]);
  }

  lemma {:induction false} MalformedMeans(run: seq<LR.Thread>, i: nat)
    requires LR.Run(run) && i < |run|
    ensures run[i].s.flags.sawMalformed <==> SawMalformed(run, i)
  {
    if i == 0 {
      Runs.StartsAt(LR.Init, LR.Next, run);
    } else {
      MalformedMeans(run, i - 1);
      MoreMalformed(run, i);
      NextMalforms(run, i);
    }
  }

  lemma NextMalforms(run: seq<LR.Thread>, i: nat)
    requires LR.Run(run) && 0 < i < |run|
    ensures run[i].s.flags.sawMalformed <==> run[i - 1].s.flags.sawMalformed || Malforms(run[i - 1], run[i])
  {
    Runs.StepAt(LR.Init, LR.Next, run, i);
    var step :| LR.Enabled(run[i - 1], step) && run[i] == LR.Apply(run[i - 1], step);
    StepMalforms(run[i - 1], step);
  }

  // ---- how it ended ---------------------------------------------------------------------------------

  /** What finish makes of a session, at the one step that fixes it. Asked to close it is
      closed, and the error is that of a failed exit reported by then; otherwise a malformed
      stream, a failed exit, a clean exit, or a transport that was lost, in this order. */
  lemma OutcomeOfARun(run: seq<LR.Thread>, i: nat)
    requires LR.Run(run) && i + 1 < |run| && run[i].finish.FOutcome? && run[i + 1].finish.FUnregister?
    ensures var (t, v) := (run[i], run[i + 1].s.verdict);
      && v.turn == LastTurn(t.received)
      && if CloseAsked(t) then
           v.state == Closed && v.terminal == OutcomeClosed && v.err == if LT.SawErrorExit(t.received) then ChildExit else NoOutcome
         else if SawMalformed(run, i) then v.state == Failed && v.terminal == v.err == MalformedStream
         else if LT.SawErrorExit(t.received) then v.state == Failed && v.terminal == v.err == ChildExit
         else if SawExit(t.received) then v.state == Closed && v.terminal == ChildExit && v.err == NoOutcome
         else v.state == Failed && v.terminal == v.err == Disconnected
  {
    RememberedAt(run, i);
    MalformedMeans(run, i);
    Runs.StepAt(LR.Init, LR.Next, run, i + 1);
    var step :| LR.Enabled(run[i], step) && run[i + 1] == LR.Apply(run[i], step);
    LT.RankMoves(run[i], step);
    assert step.FinishMove?;
  }

  // ---- turns ------------------------------------------------------------------------------------------

  /** While finish has not fixed the outcome, the session is closing exactly if somebody asked
      for it, and the outcome of the turn is that of the last that ended. */
  lemma ClosingOfARun(run: seq<LR.Thread>, i: nat)
    requires LR.Run(run) && i < |run| && !run[i].s.flags.finished
    ensures run[i].s.verdict.state.Closing? <==> CloseAsked(run[i])
    ensures run[i].s.verdict.turn == LastTurn(run[i].received)
  {
    RememberedAt(run, i);
  }

  /** The state an event of the client leads to, while nobody asked for the close. */
  function StateAfter(state: State, committed: bool, kind: Kind): State {
    match kind
    case TurnStarted => Processing
    case TurnCompleted(_) => Ready
    case TurnFailed(_) => Ready
    case SessionReady => if state.Launching? && committed then Ready else state
    case _ => state
  }

  /** Otherwise it is ready once a turn has ended, and processing once one has started. */
  lemma StateOfARun(run: seq<LR.Thread>, i: nat)
    requires LR.Run(run) && i + 1 < |run| && !run[i].s.flags.finished && !CloseAsked(run[i])
    requires |run[i + 1].received| > |run[i].received|
    ensures var (t, now) := (run[i], run[i + 1]);
      now.s.verdict.state == StateAfter(t.s.verdict.state, t.s.flags.launchCommitted, now.received[|now.received| - 1].kind)
  {
    RememberedAt(run, i);
    Runs.StepAt(LR.Init, LR.Next, run, i + 1);
    var step :| LR.Enabled(run[i], step) && run[i + 1] == LR.Apply(run[i], step);
    OnlyReading(run[i], step);
  }

  /** A prompt is admitted exactly to a session that is ready, which then is processing; one
      refused leaves the session as it was. */
  lemma AdmissionOfARun(run: seq<LR.Thread>, i: nat, p: nat)
    requires LR.Run(run) && i + 1 < |run| && p !in run[i].prompts && p in run[i + 1].prompts
    ensures var (t, now) := (run[i], run[i + 1]);
      if t.s.verdict.state == Ready then now.prompts[p] == LR.InPrompt && now.s == t.s.(verdict := t.s.verdict.(state := Processing))
      else now.prompts[p] == LR.PromptReturned && now.s == t.s
  {
    Runs.StepAt(LR.Init, LR.Next, run, i + 1);
    var step :| LR.Enabled(run[i], step) && run[i + 1] == LR.Apply(run[i], step);
    PromptsMove(run[i], step, p);
  }

  lemma PromptsMove(t: LR.Thread, step: LR.Step, p: nat)
    requires LR.Enabled(t, step)
    ensures p !in t.prompts && p in LR.Apply(t, step).prompts ==> step == LR.PromptBegin(p)
    ensures p in t.prompts && t.prompts[p].PromptFailed? && LR.Apply(t, step).prompts[p] != t.prompts[p] ==> step == LR.PromptRevert(p)
  {
  }

  /** A prompt the client refused makes a processing session ready again, and changes no other. */
  lemma RefusalOfARun(run: seq<LR.Thread>, i: nat, p: nat)
    requires LR.Run(run) && i + 1 < |run| && p in run[i].prompts && p in run[i + 1].prompts
    requires run[i].prompts[p].PromptFailed? && run[i + 1].prompts[p] != run[i].prompts[p]
    ensures var (t, now) := (run[i], run[i + 1]);
      now.s == if t.s.verdict.state == Processing then t.s.(verdict := t.s.verdict.(state := Ready)) else t.s
  {
    Runs.StepAt(LR.Init, LR.Next, run, i + 1);
    var step :| LR.Enabled(run[i], step) && run[i + 1] == LR.Apply(run[i], step);
    PromptsMove(run[i], step, p);
  }

  lemma OnlyReading(t: LR.Thread, step: LR.Step)
    requires LR.Enabled(t, step) && |LR.Apply(t, step).received| > |t.received|
    ensures step.Read?
  {
    if !step.Read? { LT.OnlyReadReceives(t, step); }
  }

  /** The host's commit makes a launching session ready, and changes no other. */
  lemma CommitOfARun(run: seq<LR.Thread>, i: nat)
    requires LR.Run(run) && i + 1 < |run| && !run[i].s.flags.launchCommitted && run[i + 1].s.flags.launchCommitted
    ensures var (v, now) := (run[i].s.verdict, run[i + 1].s.verdict);
      now == if v.state == Launching then v.(state := Ready) else v
  {
    Runs.StepAt(LR.Init, LR.Next, run, i + 1);
    var step :| LR.Enabled(run[i], step) && run[i + 1] == LR.Apply(run[i], step);
    OnlyCommitCommits(run[i], step);
  }

  lemma OnlyCommitCommits(t: LR.Thread, step: LR.Step)
    requires LR.Enabled(t, step) && !t.s.flags.launchCommitted && LR.Apply(t, step).s.flags.launchCommitted
    ensures step.LaunchCommit?
  {
    match step
    case FinishMove => FinishCommitsNothing(t);
    case Read(ev) => LR.ObserveFrame(t.s, ev.kind);
    case DrainPublish(_) =>
    case DiagnosticEnter(_, _) =>
    case DiagnosticMark(_) =>
    case DiagnosticSend(_, _) =>
    case DiagnosticLeave(_) =>
    case PromptBegin(_) =>
    case PromptRevert(_) =>
    case CloseRequest(_) =>
    case _ =>
  }

  lemma FinishCommitsNothing(t: LR.Thread)
    ensures LR.FinishNext(t).s.flags.launchCommitted == t.s.flags.launchCommitted
  {
  }

  /** A session is live from the host's commit until finish fixes its outcome. */
  lemma LiveOfARun(run: seq<LR.Thread>, i: nat)
    requires LR.Run(run) && i < |run|
    ensures Live(run[i].s) <==> run[i].s.flags.launchCommitted && !run[i].s.flags.finished
  {
    RememberedAt(run, i);
  }

  /** What the drain loop holds is published exactly while Events is open and has room. */
  lemma PublishOfARun(run: seq<LR.Thread>, i: nat, room: bool)
    requires LR.Run(run) && i + 1 < |run| && LR.Enabled(run[i], LR.DrainPublish(room)) && run[i + 1] == LR.Apply(run[i], LR.DrainPublish(room))
    ensures run[i + 1].s.ch.published == run[i].s.ch.published + if room && run[i].s.ch.events.closes == 0 then [run[i].drain.ev] else []
  {
    LR.InvAt(run, i);
  }
}
