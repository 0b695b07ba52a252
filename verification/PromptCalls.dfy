/**
 * The session/prompt call of a turn (acp/ndjsonclient.go): Prompt's request, the reader
 * that closes the turn's admission before it hands over the response, and finishTurn,
 * which runs when the call is over. Calls (ClientCalls) and turns with the permission
 * coordinator (ClientTurns) interleave step by step.
 */
module PromptCalls {
  import CC = ClientCalls
  import CT = ClientTurns
  import P = PermissionModel
  import PR = PermissionRuns
  import PT = PermissionTheorems
  import opened Options
  import Runs

  /** What the reader has done with a prompt's response: nothing yet; removed the call, and
      next closes the turn's admission; closed it. */
  datatype Reader = Unread | Closing | Closed

  /** A call that is a prompt, of this turn. */
  datatype Link = Link(turn: nat, reader: Reader)

  datatype State = State(calls: CC.State, client: CT.State, prompts: map<nat, Link>, lifetimeEnded: bool)

  datatype Step =
    | Client(client: CT.Step)
    | Call(call: CC.Step)
    | PromptCall(turn: nat)
    | CloseAdmission(id: nat)
    | LifetimeEnds

  /** The call's caller no longer waits: it goes on to finishTurn. */
  predicate Over(c: CC.Caller) {
    !c.Writing? && !c.Waiting?
  }

  predicate HasCall(s: State, t: nat) {
    exists id :: id in s.prompts && s.prompts[id].turn == t
  }

  predicate CallIsOver(s: State, t: nat) {
    exists id :: id in s.prompts && s.prompts[id].turn == t && id in s.calls.calls && Over(s.calls.calls[id].caller)
  }

  /** finishTurn follows the prompt's call; admission is closed by the reader or by
      EndTurn; a prompt's response is sent once admission is closed; its wait is bounded by
      the client's lifetime, which can end at any time: with the client or its process, or
      when a permission response could not be delivered, which closes neither. */
  ghost predicate Enabled(s: State, step: Step) {
    match step
    case Client(step) =>
      && CT.Enabled(s.client, step)
      && !(step.Permission? && step.step.CloseTurnAdmission?)
      && (step.EndTurn? ==> CallIsOver(s, step.t))
    case Call(step) =>
      && CC.Enabled(s.calls, step)
      && (step.Send? && step.id in s.prompts ==> !s.prompts[step.id].reader.Closing?)
      && (step.ContextEnds? && step.id in s.prompts ==> s.lifetimeEnded)
    case PromptCall(t) => CT.At(s.client.b, t, CT.Open) && !HasCall(s, t)
    case CloseAdmission(id) => id in s.prompts && s.prompts[id].reader.Closing?
    case LifetimeEnds => true
  }

  /** deliverResponse removes the call, and if it is a prompt turns to its admission. */
  function Read(s: State, step: CC.Step): map<nat, Link> {
    if step.Deliver? && step.id in s.prompts && step.id in s.calls.pending then
      s.prompts[step.id := s.prompts[step.id].(reader := Closing)]
    else s.prompts
  }

  ghost function Apply(s: State, step: Step): State
    requires Enabled(s, step)
  {
    match step
    case Client(step) => s.(client := CT.Apply(s.client, step))
    case Call(step) => s.(calls := CC.Apply(s.calls, step), prompts := Read(s, step))
    case PromptCall(t) =>
      s.(calls := CC.Apply(s.calls, CC.Begin), prompts := s.prompts[s.calls.nextID + 1 := Link(t, Unread)])
    case CloseAdmission(id) =>
      s.(client := CT.Apply(s.client, CT.Permission(PR.CloseTurnAdmission)),
         prompts := s.prompts[id := s.prompts[id].(reader := Closed)])
    case LifetimeEnds => s.(lifetimeEnded := true)
  }

  ghost predicate Init(s: State) {
    CC.Init(s.calls) && CT.Init(s.client) && s.prompts == map[] && !s.lifetimeEnded
  }

  ghost predicate Next(s: State, t: State) {
    exists step :: Enabled(s, step) && t == Apply(s, step)
  }

  ghost predicate Run(run: seq<State>) {
    Runs.IsRun(Init, Next, run)
  }

  // ---- the invariant --------------------------------------------------------------------------------

  /** Requests can still be admitted to the generation. */
  ghost predicate Active(c: P.Coordinator, g: nat) {
    g in c.turns && c.turns[g].active
  }

  /** The call left the map for its response. */
  predicate Answered(c: CC.Call) {
    c.departures != [] && c.departures[0].ByResponse?
  }

  /** One prompt: its turn stays open while its caller waits, and no response reaches the
      caller before the turn's admission is closed. */
  ghost predicate LinkOk(c: CC.Call, b: CT.Books, co: P.Coordinator, lifetimeEnded: bool, link: Link) {
    && link.turn in b.turns && 1 <= link.turn <= co.generation
    && (!Over(c.caller) ==> b.turns[link.turn].pc.Open?)
    && (c.caller.Abandoned? ==> lifetimeEnded)
    && (link.reader.Closing? ==> c.holder.Some? && !c.sent)
    && (link.reader.Unread? ==> !Answered(c))
    && (link.reader.Closed? ==> !Active(co, link.turn))
  }

  ghost predicate LinksOk(s: State) {
    forall id :: id in s.prompts ==>
      id in s.calls.calls && LinkOk(s.calls.calls[id], s.client.b, s.client.p.c, s.lifetimeEnded, s.prompts[id])
  }

  /** A turn has one prompt. */
  predicate OnePrompt(prompts: map<nat, Link>) {
    forall id, other :: id in prompts && other in prompts && prompts[id].turn == prompts[other].turn ==> id == other
  }

  ghost predicate Inv(s: State) {
    && CC.Inv(s.calls) && CT.Inv(s.client) && CT.Minted(s.client) && LinksOk(s) && OnePrompt(s.prompts)
  }

  // ---- the client's steps ---------------------------------------------------------------------------

  /** What a step of the client leaves of a turn: its generation, and its place unless the
      turn is ended. */
  lemma ClientLeaves(client: CT.State, step: CT.Step, t: nat)
    requires CT.Enabled(client, step) && t in client.b.turns && t <= client.b.minted
    ensures var now := CT.Apply(client, step);
      && t in now.b.turns && now.b.turns[t].generation == client.b.turns[t].generation
      && (client.b.turns[t].pc.Open? && !(step.EndTurn? && step.t == t) ==> now.b.turns[t].pc.Open?)
  {
  }

  /** Towards the end: an inactive turn stays so, and a closed coordinator stays closed. */
  lemma CoordinatorMoves(client: CT.State, step: CT.Step)
    requires CT.Inv(client) && CT.Enabled(client, step)
    ensures PT.TurnsMove(client.p.c, CT.Apply(client, step).p.c)
  {
    match step
    case Permission(step) => PT.StepMoves(client.p, step);
    case Prompt => PT.StepMoves(client.p, PR.BeginTurn);
    case EndTurn(t) => PT.StepMoves(client.p, PR.EndTurn(t));
    case EndTurnReturns(t) => PT.StepMoves(client.p, PR.EndTurnReturn(t));
    case _ => assert CT.Apply(client, step).p == client.p;
  }

  lemma StaysInactive(c: P.Coordinator, now: P.Coordinator, g: nat)
    requires PT.TurnsMove(c, now) && PR.TurnsOk(c) && 1 <= g <= c.generation && !Active(c, g)
    ensures !Active(now, g)
  {
  }

  lemma ClientKeeps(client: CT.State, step: CT.Step)
    requires CT.Inv(client) && CT.Minted(client) && CT.Enabled(client, step)
    ensures var now := CT.Apply(client, step);
      CT.Inv(now) && CT.Minted(now)
  {
    CT.StepKeepsInv(client, step);
    CT.StepKeepsMinted(client, step);
  }

  lemma OneStill(prompts: map<nat, Link>, id: nat, reader: Reader)
    requires OnePrompt(prompts) && id in prompts
    ensures OnePrompt(prompts[id := prompts[id].(reader := reader)])
  {
  }

  /** A prompt under a step that leaves its call and its place alone. */
  lemma LinkStill(c: CC.Call, client: CT.State, now: CT.State, ended: bool, link: Link)
    requires CT.Inv(client) && LinkOk(c, client.b, client.p.c, ended, link) && PT.TurnsMove(client.p.c, now.p.c)
    requires link.turn in now.b.turns && (client.b.turns[link.turn].pc.Open? && !Over(c.caller) ==> now.b.turns[link.turn].pc.Open?)
    ensures LinkOk(c, now.b, now.p.c, ended, link)
  {
    if !Active(client.p.c, link.turn) { StaysInactive(client.p.c, now.p.c, link.turn); }
  }

  lemma ClientStepKeeps(s: State, step: CT.Step)
    requires Inv(s) && Enabled(s, Client(step))
    ensures Inv(Apply(s, Client(step)))
  {
    ClientKeeps(s.client, step);
    LinksAfterClient(s, step);
  }

  lemma LinksAfterClient(s: State, step: CT.Step)
    requires LinksOk(s) && OnePrompt(s.prompts) && CT.Inv(s.client) && CT.Minted(s.client) && Enabled(s, Client(step))
    ensures LinksOk(Apply(s, Client(step)))
  {
    CoordinatorMoves(s.client, step);
    var now := CT.Apply(s.client, step);
    forall id | id in s.prompts ensures LinkOk(s.calls.calls[id], now.b, now.p.c, s.lifetimeEnded, s.prompts[id]) {
      ClientLeaves(s.client, step, s.prompts[id].turn);
      LinkStill(s.calls.calls[id], s.client, now, s.lifetimeEnded, s.prompts[id]);
    }
  }

  // ---- the calls' steps -------------------------------------------------------------------------------

  /** What a step of the calls does to one of them. */
  lemma OneCall(calls: CC.State, step: CC.Step, id: nat)
    requires CC.Inv(calls) && CC.Enabled(calls, step) && id in calls.calls
    ensures id in CC.Apply(calls, step).calls
    ensures var (c, now) := (calls.calls[id], CC.Apply(calls, step).calls[id]);
      && (Over(c.caller) ==> Over(now.caller))
      && (now.caller.Abandoned? ==> c.caller.Abandoned? || step == CC.ContextEnds(id))
      && (c.holder.Some? && !c.sent && step != CC.Send(id) ==> now.holder.Some? && !now.sent)
  {
    assert CC.CallOk(id, calls.calls[id], id in calls.pending);
  }

  lemma OneDeparture(calls: CC.State, step: CC.Step, id: nat)
    requires CC.Inv(calls) && CC.Enabled(calls, step) && id in calls.calls
    ensures id in CC.Apply(calls, step).calls
    ensures var (c, now) := (calls.calls[id], CC.Apply(calls, step).calls[id]);
      if step.Deliver? && step.id == id && id in calls.pending then now.holder.Some? && !now.sent
      else Answered(now) ==> Answered(c)
  {
    assert CC.CallOk(id, calls.calls[id], id in calls.pending);
  }

  lemma LinksAfterCall(s: State, step: CC.Step)
    requires CC.Inv(s.calls) && LinksOk(s) && Enabled(s, Call(step))
    ensures LinksOk(Apply(s, Call(step)))
  {
    var calls := CC.Apply(s.calls, step).calls;
    forall id | id in s.prompts
      ensures id in calls && LinkOk(calls[id], s.client.b, s.client.p.c, s.lifetimeEnded, Read(s, step)[id]) {
      OneCall(s.calls, step, id);
      OneDeparture(s.calls, step, id);
    }
  }

  lemma CallStepKeeps(s: State, step: CC.Step)
    requires Inv(s) && Enabled(s, Call(step))
    ensures Inv(Apply(s, Call(step)))
  {
    LinksAfterCall(s, step);
    CC.StepKeepsInv(s.calls, step);
    if step.Deliver? && step.id in s.prompts { OneStill(s.prompts, step.id, Closing); }
  }

  lemma NewCallIsNew(calls: CC.State)
    requires CC.Inv(calls)
    ensures calls.nextID + 1 !in calls.calls && CC.Inv(CC.Apply(calls, CC.Begin))
    ensures CC.Apply(calls, CC.Begin).calls == calls.calls[calls.nextID + 1 := CC.NewCall()]
  {
    CC.StepKeepsInv(calls, CC.Begin);
  }

  lemma PromptCallKeeps(s: State, t: nat)
    requires Inv(s) && Enabled(s, PromptCall(t))
    ensures Inv(Apply(s, PromptCall(t)))
  {
    NewCallIsNew(s.calls);
    OneMore(s.prompts, s.calls.nextID + 1, t);
    OpenTurn(s.client, t);
    LinksAfterPrompt(s, t);
  }

  lemma OneMore(prompts: map<nat, Link>, id: nat, t: nat)
    requires OnePrompt(prompts) && forall other :: other in prompts ==> prompts[other].turn != t
    ensures OnePrompt(prompts[id := Link(t, Unread)])
  {
  }

  lemma OpenTurn(client: CT.State, t: nat)
    requires CT.Inv(client) && CT.Minted(client) && CT.At(client.b, t, CT.Open)
    ensures 1 <= t <= client.p.c.generation
  {
    assert CT.TurnOk(CT.StandingOf(client.p), client.b.current, t, client.b.turns[t]);
  }

  lemma LinksAfterPrompt(s: State, t: nat)
    requires CC.Inv(s.calls) && LinksOk(s) && Enabled(s, PromptCall(t)) && 1 <= t <= s.client.p.c.generation
    ensures LinksOk(Apply(s, PromptCall(t)))
  {
    NewCallIsNew(s.calls);
    assert LinkOk(CC.NewCall(), s.client.b, s.client.p.c, s.lifetimeEnded, Link(t, Unread));
  }

  // ---- the reader closes admission ----------------------------------------------------------------------

  lemma ClosedAdmission(c: P.Coordinator, g: nat)
    requires PR.TurnsOk(c) && 1 <= g <= c.generation
    ensures !Active(P.CloseTurnAdmission(c), g)
  {
    assert PR.TurnOk(c, g);
  }

  lemma CloseAdmissionKeeps(s: State, id: nat)
    requires Inv(s) && Enabled(s, CloseAdmission(id))
    ensures Inv(Apply(s, CloseAdmission(id)))
  {
    ClientKeeps(s.client, CT.Permission(PR.CloseTurnAdmission));
    OneStill(s.prompts, id, Closed);
    LinksAfterClosing(s, id);
  }

  lemma LinksAfterClosing(s: State, id: nat)
    requires LinksOk(s) && CT.Inv(s.client) && Enabled(s, CloseAdmission(id))
    ensures LinksOk(Apply(s, CloseAdmission(id)))
  {
    var step := CT.Permission(PR.CloseTurnAdmission);
    CoordinatorMoves(s.client, step);
    var now := CT.Apply(s.client, step);
    forall other | other in s.prompts
      ensures LinkOk(s.calls.calls[other], now.b, now.p.c, s.lifetimeEnded, s.prompts[other]) {
      LinkStill(s.calls.calls[other], s.client, now, s.lifetimeEnded, s.prompts[other]);
    }
    ClosedAdmission(s.client.p.c, s.prompts[id].turn);
  }

  lemma NextKeepsInv(s: State, step: Step)
    requires Inv(s) && Enabled(s, step)
    ensures Inv(Apply(s, step))
  {
    match step
    case Client(step) => ClientStepKeeps(s, step);
    case Call(step) => CallStepKeeps(s, step);
    case PromptCall(t) => PromptCallKeeps(s, t);
    case CloseAdmission(id) => CloseAdmissionKeeps(s, id);
    case LifetimeEnds =>
  }

  lemma InvAt(run: seq<State>, i: nat)
    requires Run(run) && i < |run|
    ensures Inv(run[i])
  {
    forall s: State | Init(s) ensures Inv(s) { CT.InvIsInductive(); }
    forall s: State, t: State | Inv(s) && Next(s, t) ensures Inv(t) {
      var step :| Enabled(s, step) && t == Apply(s, step);
      NextKeepsInv(s, step);
    }
    Runs.Holds(Init, Next, Inv, run, i);
  }

  // ---- what is promised -------------------------------------------------------------------------------

  /** Closing admission now ends that of turn u, which was still open to requests. */
  ghost predicate Takes(s: State, u: nat) {
    Active(s.client.p.c, u) && !Active(P.CloseTurnAdmission(s.client.p.c), u)
  }

  /** A turn that is open to requests is the client's current one. */
  lemma ActiveIsCurrent(client: CT.State, u: nat)
    requires CT.Inv(client) && CT.Minted(client) && Active(client.p.c, u)
    ensures client.b.current == Some(u) && u == client.p.c.generation && P.Current(client.p.c, u)
  {
    assert PR.TurnOk(client.p.c, u);
    assert CT.TurnOk(CT.StandingOf(client.p), client.b.current, u, client.b.turns[u]);
    assert u in client.p.ends ==> PR.EndOk(client.p.c, client.p.ends[u]);
  }

  lemma TakesTheCurrent(s: State, u: nat)
    requires Inv(s)
    ensures Takes(s, u) <==> s.client.b.current == Some(u) && Active(s.client.p.c, u)
  {
    if Active(s.client.p.c, u) { ActiveIsCurrent(s.client, u); }
  }

  /** The client's current turn is not the call's own, and is open to requests. */
  ghost predicate AnotherIsOpen(s: State, t: nat) {
    s.client.b.current.Some? && s.client.b.current.value != t && Active(s.client.p.c, s.client.b.current.value)
  }

  /** When the reader closes admission for a prompt's response, it ends that of the
      client's current turn, if it is still open, and of no other: of another turn than the
      prompt's own exactly if currentTurnID is set to another, still open. That needs that
      the prompt's caller gave up after the call was removed, as the client's lifetime ended
      or its own write was reported as failed; while the caller waits, the turn is its own. */
  lemma AdmissionIsItsOwn(run: seq<State>, i: nat, id: nat)
    requires Run(run) && i < |run| && Enabled(run[i], CloseAdmission(id))
    ensures var (s, t) := (run[i], run[i].prompts[id].turn);
      && id in s.calls.calls
      && (forall u: nat :: Takes(s, u) <==> s.client.b.current == Some(u) && Active(s.client.p.c, u))
      && ((exists u: nat :: u != t && Takes(s, u)) <==> AnotherIsOpen(s, t))
      && (s.client.b.current != Some(t) ==>
            s.calls.calls[id].caller.WriteFailed? || (s.calls.calls[id].caller.Abandoned? && s.lifetimeEnded))
  {
    InvAt(run, i);
    var (s, t) := (run[i], run[i].prompts[id].turn);
    OnlyTheCurrent(s, t);
    CallerGaveUp(s, id);
  }

  lemma OnlyTheCurrent(s: State, t: nat)
    requires Inv(s)
    ensures forall u: nat :: Takes(s, u) <==> s.client.b.current == Some(u) && Active(s.client.p.c, u)
    ensures (exists u: nat :: u != t && Takes(s, u)) <==> AnotherIsOpen(s, t)
  {
    forall u: nat ensures Takes(s, u) <==> s.client.b.current == Some(u) && Active(s.client.p.c, u) {
      TakesTheCurrent(s, u);
    }
    if AnotherIsOpen(s, t) { assert Takes(s, s.client.b.current.value); }
  }

  lemma CallerGaveUp(s: State, id: nat)
    requires Inv(s) && id in s.prompts && s.prompts[id].reader.Closing?
    ensures id in s.calls.calls
    ensures s.client.b.current != Some(s.prompts[id].turn) ==>
      s.calls.calls[id].caller.WriteFailed? || (s.calls.calls[id].caller.Abandoned? && s.lifetimeEnded)
  {
    var t := s.prompts[id].turn;
    assert LinkOk(s.calls.calls[id], s.client.b, s.client.p.c, s.lifetimeEnded, s.prompts[id]);
    assert CC.CallOk(id, s.calls.calls[id], id in s.calls.pending);
    assert CT.TurnOk(CT.StandingOf(s.client.p), s.client.b.current, t, s.client.b.turns[t]);
  }

  /** Once a prompt's response has reached its caller, its turn admits no more requests. */
  lemma NoAdmissionAfterTheResponse(run: seq<State>, i: nat, id: nat)
    requires Run(run) && i < |run| && id in run[i].prompts && id in run[i].calls.calls
    requires Answered(run[i].calls.calls[id]) && run[i].calls.calls[id].sent
    ensures var (c, t) := (run[i].client.p.c, run[i].prompts[id].turn);
      !Active(c, t) && (P.Admit(c, true).1.activeTurn ==> P.Admit(c, true).1.generation != t)
  {
    InvAt(run, i);
    var s := run[i];
    assert LinkOk(s.calls.calls[id], s.client.b, s.client.p.c, s.lifetimeEnded, s.prompts[id]);
  }

  // ---- a later prompt's admission, closed ------------------------------------------------------------

  /** The run, with one more step. */
  lemma Then(run: seq<State>, step: Step) returns (longer: seq<State>)
    requires Run(run) && Enabled(run[|run| - 1], step)
    ensures |longer| == |run| + 1 && Run(longer) && longer[|run|] == Apply(run[|run| - 1], step)
  {
    assert Next(run[|run| - 1], Apply(run[|run| - 1], step));
    Runs.Extended(Init, Next, run, Apply(run[|run| - 1], step));
    longer := run + [Apply(run[|run| - 1], step)];
  }

  /** The run, with one more step of the client. */
  lemma ThenClient(run: seq<State>, step: CT.Step) returns (longer: seq<State>)
    requires Run(run) && CT.Enabled(run[|run| - 1].client, step) && !(step.Permission? && step.step.CloseTurnAdmission?)
    requires step.EndTurn? ==> CallIsOver(run[|run| - 1], step.t)
    ensures |longer| == |run| + 1 && Run(longer)
    ensures longer[|run|] == run[|run| - 1].(client := CT.Apply(run[|run| - 1].client, step))
  {
    longer := Then(run, Client(step));
  }

  /** Only the first turn, in the first generation. */
  ghost predicate FirstTurn(client: CT.State) {
    && client.b == CT.Books(1, Some(1), map[1 := CT.Turn(1, CT.Open)], 1)
    && client.p.c.generation == 1 && client.p.c.turns == map[1 := P.BEGUN] && client.p.c.registered == {1}
    && client.p.ends == map[] && !client.p.c.closed && !client.closed && client.session && !client.ch.closing
  }

  lemma Prompted() returns (run: seq<State>)
    ensures Run(run)
    ensures var s := run[|run| - 1];
      s.calls == CC.State(0, {}, map[]) && s.prompts == map[] && !s.lifetimeEnded && FirstTurn(s.client)
  {
    var p := PR.System(P.New(false), map[], map[], map[]);
    var client := CT.State(p, false, false, CT.Books(0, None, map[], 0), CT.Channel(false, false, map[], []));
    run := [State(CC.State(0, {}, map[]), client, map[], false)];
    run := ThenClient(run, CT.Launch);
    run := ThenClient(run, CT.Prompt);
  }

  /** The prompt's request is written. */
  lemma Asked(before: seq<State>) returns (run: seq<State>)
    requires Run(before)
    requires var s := before[|before| - 1];
      s.calls == CC.State(0, {}, map[]) && s.prompts == map[] && CT.At(s.client.b, 1, CT.Open)
    ensures Run(run)
    ensures var (s, now) := (before[|before| - 1], run[|run| - 1]);
      && now.prompts == map[1 := Link(1, Unread)] && now.client == s.client
      && now.calls == CC.State(1, {1}, map[1 := CC.NewCall().(caller := CC.Waiting)])
  {
    run := Then(before, PromptCall(1));
    assert run[|run| - 1].calls == CC.State(1, {1}, map[1 := CC.NewCall()]);
    run := Then(run, Call(CC.WriteDone(1)));
  }

  /** The reader has just removed the prompt's call. */
  lemma Removed(before: seq<State>) returns (run: seq<State>)
    requires Run(before)
    requires var s := before[|before| - 1];
      && s.calls == CC.State(1, {1}, map[1 := CC.NewCall().(caller := CC.Waiting)])
      && s.prompts == map[1 := Link(1, Unread)]
    ensures Run(run)
    ensures var (s, now) := (before[|before| - 1], run[|run| - 1]);
      && now.prompts == map[1 := Link(1, Closing)] && now.client == s.client
      && 1 in now.calls.calls && now.calls.calls[1].caller.Waiting?
  {
    run := Then(before, Call(CC.Deliver(1, 0)));
  }

  /** The client's lifetime ends, and with it the caller's wait. */
  lemma GivenUp(before: seq<State>) returns (run: seq<State>)
    requires Run(before)
    requires var s := before[|before| - 1];
      1 in s.calls.calls && s.calls.calls[1].caller.Waiting? && s.prompts == map[1 := Link(1, Closing)]
    ensures Run(run) && run[|run| - 1].prompts == before[|before| - 1].prompts
    ensures CallIsOver(run[|run| - 1], 1) && run[|run| - 1].client == before[|before| - 1].client
  {
    run := Then(before, LifetimeEnds);
    run := Then(run, Call(CC.ContextEnds(1)));
    assert 1 in run[|run| - 1].prompts && Over(run[|run| - 1].calls.calls[1].caller);
  }

  /** The turn once EndTurn has closed it. */
  const ENDED := P.Turn(false, false, true, 0, true, 1)

  /** The first turn in EndTurn, or past it. */
  ghost predicate InEndTurn(client: CT.State, returned: bool) {
    && client.b == CT.Books(1, Some(1), map[1 := CT.Turn(1, if returned then CT.Ended else CT.Ending)], 1)
    && client.p.c.generation == 1 && client.p.c.turns == map[1 := ENDED]
    && client.p.ends == map[1 := PR.EndCall(1, returned)] && !client.p.c.closed && !client.closed && client.session && !client.ch.closing
  }

  lemma EndFirst(client: CT.State)
    requires FirstTurn(client)
    ensures CT.Enabled(client, CT.EndTurn(1)) && InEndTurn(CT.Apply(client, CT.EndTurn(1)), false)
  {
    assert P.CloseTurnAdmission(client.p.c).turns == map[1 := ENDED];
  }

  lemma ReturnFirst(client: CT.State)
    requires InEndTurn(client, false)
    ensures CT.Enabled(client, CT.EndTurnReturns(1)) && InEndTurn(CT.Apply(client, CT.EndTurnReturns(1)), true)
  {
  }

  /** The first turn's id is cleared, and nothing is closed. */
  ghost predicate Cleared(client: CT.State) {
    CT.Admits(client) && client.b.minted == client.p.c.generation == 1 && !client.p.c.closed
  }

  lemma ClearFirst(client: CT.State)
    requires InEndTurn(client, true)
    ensures CT.Enabled(client, CT.Clear(1))
    ensures Cleared(CT.Apply(client, CT.Clear(1)))
  {
  }

  /** finishTurn, up to the clearing of the turn id. */
  lemma Finished(before: seq<State>) returns (run: seq<State>)
    requires Run(before)
    requires CallIsOver(before[|before| - 1], 1) && FirstTurn(before[|before| - 1].client)
    ensures Run(run) && run[|run| - 1].prompts == before[|before| - 1].prompts
    ensures Cleared(run[|run| - 1].client)
  {
    EndFirst(before[|before| - 1].client);
    run := ThenClient(before, CT.EndTurn(1));
    run := Returned(run);
    run := ClearedAt(run);
  }

  lemma Returned(before: seq<State>) returns (run: seq<State>)
    requires Run(before) && InEndTurn(before[|before| - 1].client, false)
    ensures Run(run) && run[|run| - 1].prompts == before[|before| - 1].prompts && InEndTurn(run[|run| - 1].client, true)
  {
    ReturnFirst(before[|before| - 1].client);
    run := ThenClient(before, CT.EndTurnReturns(1));
  }

  lemma ClearedAt(before: seq<State>) returns (run: seq<State>)
    requires Run(before) && InEndTurn(before[|before| - 1].client, true)
    ensures Run(run) && run[|run| - 1].prompts == before[|before| - 1].prompts
    ensures Cleared(run[|run| - 1].client)
  {
    ClearFirst(before[|before| - 1].client);
    run := ThenClient(before, CT.Clear(1));
  }

  lemma AdmittedAgain(before: seq<State>) returns (run: seq<State>)
    requires Run(before) && Cleared(before[|before| - 1].client)
    ensures Run(run) && run[|run| - 1].prompts == before[|before| - 1].prompts
    ensures var client := run[|run| - 1].client;
      && Active(client.p.c, 2) && !Active(P.CloseTurnAdmission(client.p.c), 2)
      && !client.p.c.closed && !client.closed && !client.ch.closing
  {
    run := ThenClient(before, CT.Prompt);
  }

  /** A run in which the reader ends the admission of the next prompt's turn, with nothing
      closed: its own prompt's caller gave up when the client's lifetime ended, after the
      call was removed. */
  lemma AnotherTurnsAdmission() returns (run: seq<State>)
    ensures Run(run)
    ensures var s := run[|run| - 1];
      && Enabled(s, CloseAdmission(1)) && s.prompts[1].turn == 1
      && Takes(s, 2) && !s.client.p.c.closed && !s.client.closed && !s.client.ch.closing
  {
    run := Prompted();
    run := Asked(run);
    run := Removed(run);
    run := GivenUp(run);
    run := Finished(run);
    run := AdmittedAgain(run);
  }
}
