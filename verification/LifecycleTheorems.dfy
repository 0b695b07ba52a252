/**
 * The manager of acp/lifecycle.go over any number of sessions, and what every run of
 * it promises. Register is Manager.Launch reserving an id; every other step is one of
 * a session's own, and the only one that touches the registry is its finish.
 */
module LifecycleTheorems {
  import opened LifecycleModel
  import LR = LifecycleRuns
  import Runs

  datatype Managed = Managed(id: string, t: LR.Thread)

  datatype Manager = Manager(registry: map<string, nat>, sessions: map<nat, Managed>)

  /** Lookup */
  predicate Maps(m: Manager, id: string, k: nat) {
    id in m.registry && m.registry[id] == k
  }

  /** unregister: remove the id only if it still names this session. */
  function Unregister(registry: map<string, nat>, id: string, k: nat): map<string, nat> {
    if id in registry && registry[id] == k then registry - {id} else registry
  }

  ghost predicate Registers(m: Manager, m': Manager, k: nat, id: string) {
    && id != "" && id !in m.registry && k !in m.sessions
    && m' == Manager(m.registry[id := k], m.sessions[k := Managed(id, LR.START)])
  }

  ghost predicate Steps(m: Manager, m': Manager, k: nat, step: LR.Step) {
    && k in m.sessions
    && LR.Enabled(m.sessions[k].t, step)
    && m' == Manager(
         if step.FinishMove? && m.sessions[k].t.finish.FUnregister? then Unregister(m.registry, m.sessions[k].id, k)
         else m.registry,
         m.sessions[k := m.sessions[k].(t := LR.Apply(m.sessions[k].t, step))])
  }

  ghost predicate Init(m: Manager) {
    m == Manager(map[], map[])
  }

  ghost predicate Next(m: Manager, m': Manager) {
    (exists k, id :: Registers(m, m', k, id)) || (exists k, step :: Steps(m, m', k, step))
  }

  ghost predicate Run(run: seq<Manager>) {
    Runs.IsRun(Init, Next, run)
  }

  // ---- the invariant -------------------------------------------------------------------

  /** A session keeps its place in the registry until its finish gives it up. */
  ghost predicate Placed(g: Managed) {
    LR.Rank(g.t.finish) <= 3
  }

  ghost predicate RegistryOk(registry: map<string, nat>, sessions: map<nat, Managed>) {
    && (forall id :: id in registry ==>
          registry[id] in sessions && sessions[registry[id]].id == id && Placed(sessions[registry[id]]))
    && (forall k :: k in sessions && Placed(sessions[k]) ==> sessions[k].id in registry && registry[sessions[k].id] == k)
  }

  ghost predicate SessionsOk(sessions: map<nat, Managed>) {
    forall k :: k in sessions ==> LR.Inv(sessions[k].t)
  }

  ghost predicate Inv(m: Manager) {
    SessionsOk(m.sessions) && RegistryOk(m.registry, m.sessions)
  }

  lemma RegistryAdds(registry: map<string, nat>, sessions: map<nat, Managed>, k: nat, g: Managed)
    requires RegistryOk(registry, sessions) && k !in sessions && g.id !in registry && Placed(g)
    ensures RegistryOk(registry[g.id := k], sessions[k := g])
  {
  }

  lemma RegistryMoves(registry: map<string, nat>, sessions: map<nat, Managed>, k: nat, g: Managed)
    requires RegistryOk(registry, sessions) && k in sessions && g.id == sessions[k].id
    requires Placed(g) ==> Placed(sessions[k])
    ensures RegistryOk(if Placed(sessions[k]) && !Placed(g) then Unregister(registry, g.id, k) else registry, sessions[k := g])
    ensures !Placed(sessions[k]) ==> !Placed(g) && Unregister(registry, g.id, k) == registry
  {
  }

  lemma SessionsMove(sessions: map<nat, Managed>, k: nat, g: Managed)
    requires SessionsOk(sessions) && LR.Inv(g.t)
    ensures SessionsOk(sessions[k := g])
  {
  }

  lemma RegisterKeeps(m: Manager, m': Manager, k: nat, id: string)
    requires Inv(m) && Registers(m, m', k, id)
    ensures Inv(m')
  {
    RegistryAdds(m.registry, m.sessions, k, Managed(id, LR.START));
    SessionsMove(m.sessions, k, Managed(id, LR.START));
  }

  lemma FinishRank(t: LR.Thread)
    requires LR.Enabled(t, LR.FinishMove)
    ensures LR.Rank(LR.FinishNext(t).finish) == LR.Rank(t.finish) + 1
  {
  }

  lemma OthersLeaveFinish(t: LR.Thread, step: LR.Step)
    requires LR.Enabled(t, step) && !step.FinishMove? && !step.FinishEnter?
    ensures LR.Apply(t, step).finish == t.finish
  {
  }

  /** Only finish moves a session past its place in the registry. */
  lemma RankMoves(t: LR.Thread, step: LR.Step)
    requires LR.Enabled(t, step)
    ensures var f := LR.Apply(t, step).finish;
      && LR.Rank(t.finish) <= LR.Rank(f)
      && (LR.Rank(t.finish) <= 3 < LR.Rank(f) <==> step.FinishMove? && t.finish.FUnregister?)
  {
    if step.FinishMove? {
      FinishRank(t);
    } else if !step.FinishEnter? {
      OthersLeaveFinish(t, step);
    }
  }

  lemma SessionKeeps(m: Manager, m': Manager, k: nat, step: LR.Step)
    requires Inv(m) && Steps(m, m', k, step)
    ensures Inv(m')
  {
    var t := m.sessions[k].t;
    LR.StepKeepsInv(t, step);
    RankMoves(t, step);
    var g := m.sessions[k].(t := LR.Apply(t, step));
    RegistryMoves(m.registry, m.sessions, k, g);
    SessionsMove(m.sessions, k, g);
  }

  lemma InvIsInductive()
    ensures Runs.Inductive(Init, Next, Inv)
  {
    forall m, m' | Inv(m) && Next(m, m') ensures Inv(m') {
      if k, id :| Registers(m, m', k, id) {
        RegisterKeeps(m, m', k, id);
      } else {
        var k, step :| Steps(m, m', k, step);
        SessionKeeps(m, m', k, step);
      }
    }
  }

  lemma SessionAt(run: seq<Manager>, i: nat, k: nat)
    requires Run(run) && i < |run| && k in run[i].sessions
    ensures LR.Inv(run[i].sessions[k].t) && RegistryOk(run[i].registry, run[i].sessions)
  {
    InvIsInductive();
    Runs.Holds(Init, Next, Inv, run, i);
  }

  // ---- channels ----------------------------------------------------------------------------

  /** No channel of any session is ever closed twice, or sent on once closed. */
  lemma NoChannelPanics(run: seq<Manager>, i: nat, k: nat)
    requires Run(run) && i < |run| && k in run[i].sessions
    ensures var ch := run[i].sessions[k].t.s.ch;
      && NeverPanicked(ch.events) && NeverPanicked(ch.diagnostics)
      && NeverPanicked(ch.done) && NeverPanicked(ch.launchDone)
  {
    SessionAt(run, i, k);
  }

  /** When done is closed, Events and Diagnostics are closed, no diagnostic callback is
      running, and Client.Close has run once, to its end. */
  lemma DoneClosesLast(run: seq<Manager>, i: nat, k: nat)
    requires Run(run) && i < |run| && k in run[i].sessions
    requires run[i].sessions[k].t.s.ch.done.closes > 0
    ensures var t := run[i].sessions[k].t;
      && t.s.ch.events.closes == 1 && t.s.ch.diagnostics.closes == 1
      && (forall d :: d in t.emitters ==> t.emitters[d].Left?)
      && t.clientCloses == 1 && t.closeOnce.Done?
  {
    SessionAt(run, i, k);
    var t := run[i].sessions[k].t;
    forall d | d in t.emitters ensures t.emitters[d].Left? {
      assert d in LR.Active(t.emitters) ==> |LR.Active(t.emitters)| > 0;
    }
  }

  // ---- the registry ------------------------------------------------------------------------

  ghost predicate Unmapped(m: Manager, k: nat) {
    k in m.sessions && !Placed(m.sessions[k])
  }

  /** Once done is closed the manager never again maps any id to the session. */
  lemma DoneIsUnmapped(run: seq<Manager>, i: nat, j: nat, k: nat, id: string)
    requires Run(run) && i <= j < |run| && k in run[i].sessions
    requires run[i].sessions[k].t.s.ch.done.closes > 0
    ensures !Maps(run[j], id, k)
  {
    SessionAt(run, i, k);
    InvIsInductive();
    UnmappedIsStable(k);
    Runs.Stays(Init, Next, Inv, (m: Manager) => Unmapped(m, k), run, i, j);
    SessionAt(run, j, k);
  }

  lemma UnmappedIsStable(k: nat)
    ensures Runs.Stable(Next, Inv, (m: Manager) => Unmapped(m, k))
  {
    forall m: Manager, m': Manager | Inv(m) && Next(m, m') && Unmapped(m, k) ensures Unmapped(m', k) {
      if j, id :| Registers(m, m', j, id) {
      } else {
        var j, step :| Steps(m, m', j, step);
        RankMoves(m.sessions[j].t, step);
      }
    }
  }

  /** A step that takes an id out of the registry, or gives it to another session, is
      the finish of the session it named, and only takes it out. */
  lemma OnlyItsOwnFinishUnregisters(m: Manager, m': Manager, k: nat, step: LR.Step, id: string)
    requires Steps(m, m', k, step) && id in m.registry && !Maps(m', id, m.registry[id])
    ensures id !in m'.registry && m'.registry == m.registry - {id}
    ensures k == m.registry[id] && m.sessions[k].t.finish.FUnregister?
  {
  }

  /** Reserving an id never disturbs another. */
  lemma RegisterTakesNothing(m: Manager, m': Manager, k: nat, id: string, other: string)
    requires Registers(m, m', k, id) && other in m.registry
    ensures Maps(m', other, m.registry[other])
  {
  }

  // ---- readiness -------------------------------------------------------------------------------

  /** What goes out is a subsequence, in order, of what the client emitted; and
      session.ready goes out only of a launch the host committed. */
  lemma PublishedInOrder(run: seq<Manager>, i: nat, k: nat)
    requires Run(run) && i < |run| && k in run[i].sessions
    ensures var t := run[i].sessions[k].t;
      && LR.Subsequence(t.s.ch.published, t.received)
      && ((exists ev :: ev in t.s.ch.published && ev.kind.SessionReady?) ==> t.s.flags.launchCommitted)
  {
    SessionAt(run, i, k);
  }

  predicate Aborted(launch: LR.LaunchPc) {
    launch.AbortMark? || launch.AbortClose? || launch.AbortSignal? || launch.AbortFinish? || launch == LR.Returned(false)
  }

  /** An aborted launch never publishes session.ready, nor is the session ever live. */
  lemma AbortedNeverReady(run: seq<Manager>, i: nat, k: nat)
    requires Run(run) && i < |run| && k in run[i].sessions && Aborted(run[i].sessions[k].t.launch)
    ensures var t := run[i].sessions[k].t;
      (forall ev :: ev in t.s.ch.published ==> !ev.kind.SessionReady?) && !Live(t.s)
  {
    SessionAt(run, i, k);
  }

  // ---- the terminal state --------------------------------------------------------------------

  lemma StepKeepsVerdict(t: LR.Thread, step: LR.Step)
    requires LR.Inv(t) && LR.Enabled(t, step) && t.s.flags.finished
    ensures var t' := LR.Apply(t, step); t'.s.flags.finished && t'.s.verdict == t.s.verdict
  {
    if step.FinishMove? {
      LR.FinishMoveKeeps(t);
    }
  }

  ghost predicate Fixed(m: Manager, k: nat, v: Verdict) {
    k in m.sessions && m.sessions[k].t.s.flags.finished && m.sessions[k].t.s.verdict == v
  }

  lemma FixedIsStable(k: nat, v: Verdict)
    ensures Runs.Stable(Next, Inv, (m: Manager) => Fixed(m, k, v))
  {
    forall m: Manager, m': Manager | Inv(m) && Next(m, m') && Fixed(m, k, v) ensures Fixed(m', k, v) {
      if j, id :| Registers(m, m', j, id) {
      } else {
        var j, step :| Steps(m, m', j, step);
        if j == k { StepKeepsVerdict(m.sessions[k].t, step); }
      }
    }
  }

  /** Once finish has fixed the outcome the state is terminal, the session is not live,
      and no call, event or launch step changes state, outcomes or error again. */
  lemma TerminalIsAbsorbing(run: seq<Manager>, i: nat, j: nat, k: nat)
    requires Run(run) && i <= j < |run| && k in run[i].sessions && run[i].sessions[k].t.s.flags.finished
    ensures k in run[j].sessions && run[j].sessions[k].t.s.verdict == run[i].sessions[k].t.s.verdict
    ensures Terminal(run[j].sessions[k].t.s.verdict.state) && !Live(run[j].sessions[k].t.s)
  {
    var v := run[i].sessions[k].t.s.verdict;
    InvIsInductive();
    FixedIsStable(k, v);
    Runs.Stays(Init, Next, Inv, (m: Manager) => Fixed(m, k, v), run, i, j);
    SessionAt(run, j, k);
  }

  // ---- the error of an intentional close -------------------------------------------------------

  predicate ErrorExit(ev: Event) {
    ev.kind == ProcessExited(true)
  }

  predicate SawErrorExit(received: seq<Event>) {
    exists ev :: ev in received && ErrorExit(ev)
  }

  /** Until the outcome is fixed, the error is set exactly when the client reported a
      failed exit. */
  ghost predicate ErrTracksExit(t: LR.Thread) {
    !t.s.flags.finished ==> (t.s.verdict.err != NoOutcome <==> SawErrorExit(t.received))
  }

  lemma SawGrows(received: seq<Event>, ev: Event)
    ensures SawErrorExit(received + [ev]) <==> SawErrorExit(received) || ErrorExit(ev)
  {
  }

  lemma ReadKeepsErr(t: LR.Thread, ev: Event)
    requires ErrTracksExit(t) && t.drain.Reading?
    ensures ErrTracksExit(LR.Apply(t, LR.Read(ev)))
  {
    SawGrows(t.received, ev);
  }

  lemma OnlyReadReceives(t: LR.Thread, step: LR.Step)
    requires LR.Enabled(t, step) && !step.Read?
    ensures LR.Apply(t, step).received == t.received
  {
  }

  lemma FinishMoveStays(t: LR.Thread)
    requires t.s.flags.finished
    ensures LR.FinishNext(t).s.flags.finished
  {
  }

  lemma FinishedStays(t: LR.Thread, step: LR.Step)
    requires LR.Enabled(t, step) && t.s.flags.finished
    ensures LR.Apply(t, step).s.flags.finished
  {
    match step
    case FinishMove => FinishMoveStays(t);
    case Read(ev) => LR.ObserveFrame(t.s, ev.kind);
    case DrainPublish(_) =>
    case DiagnosticEnter(_, _) =>
    case DiagnosticMark(_) =>
    case DiagnosticSend(_, _) =>
    case DiagnosticLeave(_) =>
    case PromptBegin(_) =>
    case PromptRevert(_) =>
    case CloseRequest(_) =>
    case _ =>
  }

  lemma FinishKeepsErr(t: LR.Thread)
    requires LR.Enabled(t, LR.FinishMove) && !t.finish.FOutcome?
    ensures LR.FinishNext(t).s.verdict.err == t.s.verdict.err
  {
  }

  lemma OthersKeepErr(t: LR.Thread, step: LR.Step)
    requires LR.Enabled(t, step) && !step.Read? && !step.FinishMove?
    ensures LR.Apply(t, step).s.verdict.err == t.s.verdict.err
  {
  }

  lemma OnlyFinishWritesErr(t: LR.Thread, step: LR.Step)
    requires LR.Enabled(t, step) && !step.Read? && !LR.Apply(t, step).s.flags.finished
    ensures LR.Apply(t, step).s.verdict.err == t.s.verdict.err
  {
    if step.FinishMove? {
      if !t.finish.FOutcome? { FinishKeepsErr(t); }
    } else {
      OthersKeepErr(t, step);
    }
  }

  lemma NextKeepsErr(t: LR.Thread, t': LR.Thread)
    requires ErrTracksExit(t) && LR.Next(t, t')
    ensures ErrTracksExit(t')
  {
    var step :| LR.Enabled(t, step) && t' == LR.Apply(t, step);
    if step.Read? {
      ReadKeepsErr(t, step.ev);
    } else {
      OnlyReadReceives(t, step);
      if t.s.flags.finished {
        FinishedStays(t, step);
      } else if !t'.s.flags.finished {
        OnlyFinishWritesErr(t, step);
      }
    }
  }

  /** Wait after an intentional Close is nil exactly when no failed exit had been
      reported by then: finish does not clear an error observed before it. */
  lemma IntentionalCloseError(run: seq<LR.Thread>, i: nat)
    requires LR.Run(run) && i < |run| && run[i].finish.FOutcome? && run[i].s.flags.closeRequested
    ensures var v := FixOutcome(run[i].s).verdict;
      && v.state == Closed && v.terminal == OutcomeClosed
      && (v.err == NoOutcome <==> !SawErrorExit(run[i].received))
  {
    LR.InvAt(run, i);
    forall t, t' | ErrTracksExit(t) && LR.Next(t, t') ensures ErrTracksExit(t') { NextKeepsErr(t, t'); }
    assert ErrTracksExit(LR.START);
    Runs.Holds(LR.Init, LR.Next, ErrTracksExit, run, i);
  }

  /** The run, with one more step. */
  lemma Then(run: seq<LR.Thread>, step: LR.Step) returns (longer: seq<LR.Thread>)
    requires LR.Run(run) && LR.Enabled(run[|run| - 1], step)
    ensures |longer| == |run| + 1 && LR.Run(longer) && longer[|run|] == LR.Apply(run[|run| - 1], step)
  {
    assert LR.Next(run[|run| - 1], LR.Apply(run[|run| - 1], step));
    Runs.Extended(LR.Init, LR.Next, run, LR.Apply(run[|run| - 1], step));
    longer := run + [LR.Apply(run[|run| - 1], step)];
  }

  lemma Launched() returns (run: seq<LR.Thread>)
    ensures LR.Run(run)
    ensures run[|run| - 1] == LR.START.(s := CloseLaunchDone(CommitLaunch(NEW)), launch := LR.Returned(true))
  {
    run := [LR.START];
    run := Then(run, LR.LaunchResult(true));
    run := Then(run, LR.CommitResult(true));
    run := Then(run, LR.LaunchCommit);
    run := Then(run, LR.LaunchSignal);
  }

  /** The client's last event, and the end of its channel. */
  lemma Drained(before: seq<LR.Thread>, ev: Event) returns (run: seq<LR.Thread>)
    requires LR.Run(before) && !ev.kind.SessionReady?
    requires var t := before[|before| - 1]; t.drain.Reading? && t.s.ch.launchDone.closes > 0
    ensures LR.Run(run)
    ensures var t := before[|before| - 1];
      run[|run| - 1] == t.(s := ObserveEvent(t.s, ev.kind), received := t.received + [ev], drain := LR.Finishing)
  {
    LR.ObserveFrame(before[|before| - 1].s, ev.kind);
    run := Then(before, LR.Read(ev));
    run := Then(run, LR.DrainPublish(false));
    run := Then(run, LR.ClientChannelClosed);
    run := Then(run, LR.DrainAwait);
  }

  /** A Close that gets to the client first. */
  lemma CloseFirst(before: seq<LR.Thread>) returns (run: seq<LR.Thread>)
    requires LR.Run(before)
    requires var t := before[|before| - 1]; t.closeOnce.Idle? && 0 !in t.closers
    ensures LR.Run(run)
    ensures var t := before[|before| - 1];
      run[|run| - 1] == t.(s := RequestClose(t.s), closers := t.closers[0 := LR.InOnce], closeOnce := LR.Done,
                           clientCloses := t.clientCloses + 1)
  {
    run := Then(before, LR.CloseBegin(0));
    run := Then(run, LR.CloseRequest(0));
    assert run[|run| - 1].closers == before[|before| - 1].closers[0 := LR.InOnce];
    assert 0 in run[|run| - 1].closers && run[|run| - 1].closers[0].InOnce?;
    run := Then(run, LR.OnceEnter);
    run := Then(run, LR.OnceLeave);
  }

  /** finish, up to its outcome. */
  lemma AtOutcome(before: seq<LR.Thread>) returns (run: seq<LR.Thread>)
    requires LR.Run(before)
    requires var t := before[|before| - 1]; t.drain.Finishing? && t.finish.NotStarted? && t.closeOnce.Done?
    ensures LR.Run(run) && run[|run| - 1] == before[|before| - 1].(finish := LR.FOutcome)
  {
    run := Then(before, LR.FinishEnter);
    run := Then(run, LR.FinishMove);
  }

  /** The run of a session that saw its child fail and was then closed on purpose: it ends
      closed, with the child's error still its Wait error. */
  lemma IntentionalCloseCanKeepAnError() returns (run: seq<LR.Thread>)
    ensures LR.Run(run)
    ensures var t := run[|run| - 1];
      && t.finish.FOutcome? && t.s.flags.closeRequested && SawErrorExit(t.received)
      && var v := FixOutcome(t.s).verdict; v.state == Closed && v.terminal == OutcomeClosed && v.err == ChildExit
  {
    var exit := Event(ProcessExited(true), 0);
    run := Launched();
    run := Drained(run, exit);
    run := CloseFirst(run);
    run := AtOutcome(run);
    assert exit in run[|run| - 1].received && ErrorExit(exit);
  }
}
