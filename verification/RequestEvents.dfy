/**
 * The two events of a permission request (handleServerRequest of acp/ndjsonclient.go): the
 * requested event with the turn id read after admission, and the resolved event with the
 * same id after the response was written. They are emitted between the steps of ClientTurns,
 * beside the terminal events of the turns.
 */
module RequestEvents {
  import CT = ClientTurns
  import P = PermissionModel
  import PR = PermissionRuns
  import opened Options
  import Runs

  /** How far a request has been told of: its turn id read, requested, and resolved. */
  datatype Told = Untold | Read(turn: Option<nat>) | Asked(turn: Option<nat>) | Answered(turn: Option<nat>)

  /** The events attempted, in order. */
  datatype Event =
    | Requested(r: nat, turn: Option<nat>)
    | Resolved(r: nat, turn: Option<nat>)
    | Terminal(t: nat)

  datatype State = State(client: CT.State, told: map<nat, Told>, events: seq<Event>)

  datatype Step =
    | Client(client: CT.Step)
    | ReadTurn(r: nat)
    | EmitRequested(r: nat)
    | EmitResolved(r: nat)

  function ToldOf(told: map<nat, Told>, r: nat): Told {
    if r in told then told[r] else Untold
  }

  /** Events are emitted for a request that was admitted to an active turn. */
  predicate Dispatched(p: PR.System, r: nat) {
    r in p.requests && p.requests[r].admission.activeTurn
  }

  /** A dispatch works on the request once onAdmission has returned, and completes once the
      response was written and told of. Every request of this client is a dispatch. */
  predicate InTurn(p: PR.System, told: map<nat, Told>, step: PR.Step) {
    match step
    case Admit(_, _, forDispatch) => forDispatch
    case Check(r) => Dispatched(p, r) ==> ToldOf(told, r).Asked?
    case Forget(r) => Dispatched(p, r) ==> ToldOf(told, r).Answered?
    case Complete(r) => Dispatched(p, r) ==> ToldOf(told, r).Answered?
    case _ => true
  }

  ghost predicate Enabled(s: State, step: Step) {
    match step
    case Client(step) => CT.Enabled(s.client, step) && (step.Permission? ==> InTurn(s.client.p, s.told, step.step))
    case ReadTurn(r) => Dispatched(s.client.p, r) && s.client.p.requests[r].pc.Admitted? && ToldOf(s.told, r).Untold?
    case EmitRequested(r) => Dispatched(s.client.p, r) && s.client.p.requests[r].pc.Admitted? && ToldOf(s.told, r).Read?
    case EmitResolved(r) =>
      && Dispatched(s.client.p, r) && (s.client.p.requests[r].pc.Written? || s.client.p.requests[r].pc.Responded?)
      && ToldOf(s.told, r).Asked?
  }

  ghost function Apply(s: State, step: Step): State
    requires Enabled(s, step)
  {
    match step
    case Client(step) =>
      s.(client := CT.Apply(s.client, step), events := if step.Report? then s.events + [Terminal(step.t)] else s.events)
    case ReadTurn(r) => s.(told := s.told[r := Read(s.client.b.current)])
    case EmitRequested(r) =>
      State(CT.Apply(s.client, CT.Emit), s.told[r := Asked(s.told[r].turn)], s.events + [Requested(r, s.told[r].turn)])
    case EmitResolved(r) =>
      State(CT.Apply(s.client, CT.Emit), s.told[r := Answered(s.told[r].turn)], s.events + [Resolved(r, s.told[r].turn)])
  }

  ghost predicate Init(s: State) {
    CT.Init(s.client) && s.told == map[] && s.events == []
  }

  ghost predicate Next(s: State, t: State) {
    exists step :: Enabled(s, step) && t == Apply(s, step)
  }

  ghost predicate Run(run: seq<State>) {
    Runs.IsRun(Init, Next, run)
  }

  // ---- the invariant --------------------------------------------------------------------------------

  /** What is told of a request names the turn it was admitted to, and no request completes
      untold. */
  predicate RequestOk(d: PR.Dispatch, told: Told) {
    && (d.admission.activeTurn ==> d.admission.counted)
    && (!told.Untold? ==> d.admission.activeTurn && told.turn == Some(d.admission.generation))
    && (d.admission.activeTurn && !d.pc.Admitted? ==> told.Asked? || told.Answered?)
    && (d.admission.activeTurn && d.pc.Completed? ==> told.Answered?)
  }

  predicate RequestsOk(requests: map<nat, PR.Dispatch>, told: map<nat, Told>) {
    && told.Keys <= requests.Keys
    && forall r :: r in requests ==> RequestOk(requests[r], ToldOf(told, r))
  }

  predicate EventOk(e: Event, told: map<nat, Told>, turns: map<nat, CT.Turn>) {
    match e
    case Requested(r, turn) => (ToldOf(told, r).Asked? || ToldOf(told, r).Answered?) && turn == told[r].turn
    case Resolved(r, turn) => ToldOf(told, r).Answered? && turn == told[r].turn
    case Terminal(t) => t in turns && CT.HasReported(turns[t].pc)
  }

  predicate EventsOk(events: seq<Event>, told: map<nat, Told>, turns: map<nat, CT.Turn>) {
    forall i :: 0 <= i < |events| ==> EventOk(events[i], told, turns)
  }

  predicate Logged(events: seq<Event>, r: nat, told: Told) {
    && (told.Asked? || told.Answered? ==> Requested(r, told.turn) in events)
    && (told.Answered? ==> Resolved(r, told.turn) in events)
  }

  predicate AllLogged(events: seq<Event>, told: map<nat, Told>) {
    forall r :: r in told ==> Logged(events, r, told[r])
  }

  /** Two events in this order: a turn's terminal event is its last and only one, a request
      is told of once before it is resolved once. */
  predicate MayFollow(e: Event, later: Event) {
    match e
    case Terminal(t) => later != Terminal(t) && (!later.Terminal? ==> later.turn != Some(t))
    case Requested(r, _) => !(later.Requested? && later.r == r)
    case Resolved(r, _) => later.Terminal? || later.r != r
  }

  predicate Ordered(events: seq<Event>) {
    forall i, j :: 0 <= i < j < |events| ==> MayFollow(events[i], events[j])
  }

  ghost predicate Inv(s: State) {
    && CT.Inv(s.client) && CT.Minted(s.client)
    && RequestsOk(s.client.p.requests, s.told)
    && EventsOk(s.events, s.told, s.client.b.turns) && Ordered(s.events) && AllLogged(s.events, s.told)
  }

  // ---- requests in flight -----------------------------------------------------------------------------

  /** A request in flight belongs to the client's current turn, which has not ended, and the
      Events channel is open. */
  lemma InFlightIsCurrent(client: CT.State, r: nat)
    requires CT.Inv(client) && CT.Minted(client) && Dispatched(client.p, r)
    requires client.p.requests[r].admission.counted && !client.p.requests[r].pc.Completed?
    ensures var t := client.p.requests[r].admission.generation;
      && t in client.b.turns && (client.b.turns[t].pc.Open? || client.b.turns[t].pc.Ending?)
      && client.b.current == Some(t) && !client.ch.closed
  {
    var t := client.p.requests[r].admission.generation;
    assert PR.RequestOk(client.p.c, client.p.callbacks, r, client.p.requests[r]);
    assert PR.TurnOk(client.p.c, t);
    assert r in PR.Bound(client.p.requests, t);
    assert CT.TurnOk(CT.StandingOf(client.p), client.b.current, t, client.b.turns[t]);
    assert t in client.p.ends ==> PR.EndOk(client.p.c, client.p.ends[t]);
    CT.StillInFlight(client.b.turns, t);
  }

  /** What a step of the coordinator does to a request. */
  lemma RequestMoves(p: PR.System, step: PR.Step, r: nat)
    requires PR.Enabled(p, step) && r in p.requests
    ensures var (d, now) := (p.requests[r], PR.Apply(p, step).requests);
      && r in now && now[r].admission == d.admission
      && (d.pc.Admitted? ==> now[r].pc.Admitted? || step == PR.Check(r))
      && (now[r].pc.Completed? ==> d.pc.Completed? || step == PR.Complete(r))
  {
  }

  lemma NewRequest(p: PR.System, step: PR.Step, r: nat)
    requires PR.Enabled(p, step) && r !in p.requests && r in PR.Apply(p, step).requests
    ensures step.Admit? && step.r == r
    ensures PR.Apply(p, step).requests[r] == PR.Dispatch(P.Admit(p.c, step.forDispatch).1, step.wire, PR.Admitted, None)
  {
  }

  lemma PermissionKeeps(p: PR.System, step: PR.Step, told: map<nat, Told>)
    requires PR.Enabled(p, step) && InTurn(p, told, step) && RequestsOk(p.requests, told)
    ensures RequestsOk(PR.Apply(p, step).requests, told)
  {
    var now := PR.Apply(p, step).requests;
    forall r | r in now ensures RequestOk(now[r], ToldOf(told, r)) {
      if r in p.requests { RequestMoves(p, step, r); } else { NewRequest(p, step, r); }
    }
    forall r | r in told ensures r in now { RequestMoves(p, step, r); }
  }

  // ---- the client's steps -----------------------------------------------------------------------------

  lemma SameRequests(client: CT.State, step: CT.Step)
    requires CT.Enabled(client, step) && !step.Permission?
    ensures CT.Apply(client, step).p.requests == client.p.requests
  {
  }

  /** A turn that has reported stays so. */
  lemma ReportedStays(client: CT.State, step: CT.Step, t: nat)
    requires CT.Enabled(client, step) && t in client.b.turns && t <= client.b.minted && CT.HasReported(client.b.turns[t].pc)
    ensures t in CT.Apply(client, step).b.turns && CT.HasReported(CT.Apply(client, step).b.turns[t].pc)
  {
  }

  lemma EventsStay(client: CT.State, step: CT.Step, events: seq<Event>, told: map<nat, Told>)
    requires CT.Enabled(client, step) && EventsOk(events, told, client.b.turns)
    requires forall t :: t in client.b.turns ==> t <= client.b.minted
    ensures EventsOk(events, told, CT.Apply(client, step).b.turns)
  {
    forall i | 0 <= i < |events| ensures EventOk(events[i], told, CT.Apply(client, step).b.turns) {
      if events[i].Terminal? { ReportedStays(client, step, events[i].t); }
    }
  }

  lemma OneMoreEvent(events: seq<Event>, e: Event)
    requires Ordered(events) && forall i :: 0 <= i < |events| ==> MayFollow(events[i], e)
    ensures Ordered(events + [e])
  {
  }

  lemma StillLogged(events: seq<Event>, e: Event, told: map<nat, Told>)
    requires AllLogged(events, told)
    ensures AllLogged(events + [e], told)
  {
    assert forall x :: x in events ==> x in events + [e];
  }

  lemma RequestsAfterClient(s: State, step: CT.Step)
    requires Inv(s) && Enabled(s, Client(step))
    ensures RequestsOk(CT.Apply(s.client, step).p.requests, s.told)
  {
    if step.Permission? {
      PermissionKeeps(s.client.p, step.step, s.told);
    } else {
      SameRequests(s.client, step);
    }
  }

  lemma ReportFollows(s: State, t: nat)
    requires Inv(s) && Enabled(s, Client(CT.Report(t)))
    ensures Ordered(s.events + [Terminal(t)])
    ensures EventsOk(s.events + [Terminal(t)], s.told, CT.Apply(s.client, CT.Report(t)).b.turns)
  {
    forall i | 0 <= i < |s.events| ensures MayFollow(s.events[i], Terminal(t)) {
      assert EventOk(s.events[i], s.told, s.client.b.turns);
    }
    OneMoreEvent(s.events, Terminal(t));
    EventsStay(s.client, CT.Report(t), s.events, s.told);
  }

  lemma ClientKeeps(s: State, step: CT.Step)
    requires Inv(s) && Enabled(s, Client(step))
    ensures Inv(Apply(s, Client(step)))
  {
    CT.StepKeepsInv(s.client, step);
    CT.StepKeepsMinted(s.client, step);
    RequestsAfterClient(s, step);
    EventsStay(s.client, step, s.events, s.told);
    if step.Report? {
      ReportFollows(s, step.t);
      StillLogged(s.events, Terminal(step.t), s.told);
    }
  }

  // ---- the request's own steps ------------------------------------------------------------------------

  /** Only what is told of one request changes. */
  lemma RetoldKeeps(requests: map<nat, PR.Dispatch>, told: map<nat, Told>, r: nat, now: Told)
    requires RequestsOk(requests, told) && r in requests && RequestOk(requests[r], now)
    ensures RequestsOk(requests, told[r := now])
  {
  }

  /** A request not told of yet has no event. */
  lemma ReadTells(events: seq<Event>, told: map<nat, Told>, turns: map<nat, CT.Turn>, r: nat, now: Told)
    requires EventsOk(events, told, turns) && AllLogged(events, told) && ToldOf(told, r).Untold? && now.Read?
    ensures EventsOk(events, told[r := now], turns) && AllLogged(events, told[r := now])
  {
    forall i | 0 <= i < |events| ensures EventOk(events[i], told[r := now], turns) {
      assert EventOk(events[i], told, turns);
    }
  }

  lemma ReadKeeps(s: State, r: nat)
    requires Inv(s) && Enabled(s, ReadTurn(r))
    ensures Inv(Apply(s, ReadTurn(r)))
  {
    var now := Read(s.client.b.current);
    assert RequestOk(s.client.p.requests[r], ToldOf(s.told, r));
    InFlightIsCurrent(s.client, r);
    RetoldKeeps(s.client.p.requests, s.told, r, now);
    ReadTells(s.events, s.told, s.client.b.turns, r, now);
  }

  /** The next event of request r. */
  predicate NextOf(told: map<nat, Told>, e: Event, now: Told) {
    || (e.Requested? && ToldOf(told, e.r).Read? && e.turn == told[e.r].turn && now == Asked(e.turn))
    || (e.Resolved? && ToldOf(told, e.r).Asked? && e.turn == told[e.r].turn && now == Answered(e.turn))
  }

  /** It comes before its turn's terminal event, as that turn has not reported. */
  lemma NextFollows(events: seq<Event>, told: map<nat, Told>, turns: map<nat, CT.Turn>, e: Event, now: Told, t: nat)
    requires EventsOk(events, told, turns) && Ordered(events) && NextOf(told, e, now)
    requires e.turn == Some(t) && t in turns && !CT.HasReported(turns[t].pc)
    ensures Ordered(events + [e]) && EventsOk(events + [e], told[e.r := now], turns)
  {
    forall i | 0 <= i < |events| ensures MayFollow(events[i], e) && EventOk(events[i], told[e.r := now], turns) {
      assert EventOk(events[i], told, turns);
    }
    OneMoreEvent(events, e);
  }

  lemma NextLogged(events: seq<Event>, told: map<nat, Told>, e: Event, now: Told)
    requires NextOf(told, e, now) && AllLogged(events, told)
    ensures AllLogged(events + [e], told[e.r := now])
  {
    StillLogged(events, e, told);
    assert e in events + [e];
  }

  lemma ClientAfterEmit(client: CT.State)
    requires CT.Inv(client) && CT.Minted(client)
    ensures var now := CT.Apply(client, CT.Emit);
      CT.Inv(now) && CT.Minted(now) && now.p == client.p && now.b == client.b
  {
    CT.StepKeepsInv(client, CT.Emit);
  }

  lemma EmitKeeps(s: State, e: Event, now: Told)
    requires Inv(s) && NextOf(s.told, e, now) && Dispatched(s.client.p, e.r) && !s.client.p.requests[e.r].pc.Completed?
    requires now.Asked? || !s.client.p.requests[e.r].pc.Admitted?
    ensures Inv(State(CT.Apply(s.client, CT.Emit), s.told[e.r := now], s.events + [e]))
  {
    var requests := s.client.p.requests;
    assert RequestOk(requests[e.r], ToldOf(s.told, e.r));
    ClientAfterEmit(s.client);
    InFlightIsCurrent(s.client, e.r);
    NextFollows(s.events, s.told, s.client.b.turns, e, now, requests[e.r].admission.generation);
    NextLogged(s.events, s.told, e, now);
    RetoldKeeps(requests, s.told, e.r, now);
  }

  lemma StepKeepsInv(s: State, step: Step)
    requires Inv(s) && Enabled(s, step)
    ensures Inv(Apply(s, step))
  {
    match step
    case Client(step) => ClientKeeps(s, step);
    case ReadTurn(r) => ReadKeeps(s, r);
    case EmitRequested(r) => EmitKeeps(s, Requested(r, s.told[r].turn), Asked(s.told[r].turn));
    case EmitResolved(r) => EmitKeeps(s, Resolved(r, s.told[r].turn), Answered(s.told[r].turn));
  }

  lemma InvAt(run: seq<State>, i: nat)
    requires Run(run) && i < |run|
    ensures Inv(run[i])
  {
    forall s: State | Init(s) ensures Inv(s) { CT.InvIsInductive(); }
    forall s: State, t: State | Inv(s) && Next(s, t) ensures Inv(t) {
      var step :| Enabled(s, step) && t == Apply(s, step);
      StepKeepsInv(s, step);
    }
    Runs.Holds(Init, Next, Inv, run, i);
  }

  // ---- what is promised -------------------------------------------------------------------------------

  lemma InOrder(events: seq<Event>, i: nat, j: nat)
    requires Ordered(events) && i < |events| && j < |events|
    ensures i < j ==> MayFollow(events[i], events[j])
  {
  }

  predicate Of(e: Event, r: nat) {
    !e.Terminal? && e.r == r
  }

  lemma BeforeTheTerminal(events: seq<Event>, k: nat, t: nat)
    requires Ordered(events) && k < |events| && !events[k].Terminal? && events[k].turn == Some(t)
    ensures forall c :: 0 <= c < |events| && events[c] == Terminal(t) ==> k < c
  {
    forall c | 0 <= c < |events| && events[c] == Terminal(t) ensures k < c {
      InOrder(events, c, k);
    }
  }

  /** The turn a request was admitted to is one of the client's, by its generation. */
  lemma ItsTurn(client: CT.State, r: nat)
    requires CT.Inv(client) && CT.Minted(client) && Dispatched(client.p, r)
    ensures var t := client.p.requests[r].admission.generation; t in client.b.turns && client.b.turns[t].generation == t
  {
    assert PR.RequestOk(client.p.c, client.p.callbacks, r, client.p.requests[r]);
  }

  /** Every event of a request carries the id of the turn the request was admitted to, and
      comes before that turn's terminal event. */
  lemma EventsAreOfTheirTurn(run: seq<State>, i: nat, r: nat, k: nat)
    requires Run(run) && i < |run| && Dispatched(run[i].client.p, r) && k < |run[i].events| && Of(run[i].events[k], r)
    ensures var (s, t) := (run[i], run[i].client.p.requests[r].admission.generation);
      && t in s.client.b.turns && s.client.b.turns[t].generation == t && s.events[k].turn == Some(t)
      && forall c :: 0 <= c < |s.events| && s.events[c] == Terminal(t) ==> k < c
  {
    InvAt(run, i);
    var s := run[i];
    ItsTurn(s.client, r);
    assert EventOk(s.events[k], s.told, s.client.b.turns);
    assert RequestOk(s.client.p.requests[r], ToldOf(s.told, r));
    BeforeTheTerminal(s.events, k, s.client.p.requests[r].admission.generation);
  }

  /** When one is emitted its turn is the client's current one, and the Events channel is open. */
  lemma EventsFindTheChannelOpen(run: seq<State>, i: nat, step: Step)
    requires Run(run) && i < |run| && Enabled(run[i], step) && (step.EmitRequested? || step.EmitResolved?)
    ensures !run[i].client.ch.closed && run[i].client.b.current == run[i].told[step.r].turn
  {
    InvAt(run, i);
    assert RequestOk(run[i].client.p.requests[step.r], ToldOf(run[i].told, step.r));
    InFlightIsCurrent(run[i].client, step.r);
  }

  /** By the time a turn's terminal event is attempted, every request admitted to it has been
      told of once and then resolved once. */
  lemma EveryRequestIsToldOf(run: seq<State>, i: nat, r: nat, c: nat) returns (a: nat, b: nat)
    requires Run(run) && i < |run| && Dispatched(run[i].client.p, r) && c < |run[i].events|
    requires run[i].events[c] == Terminal(run[i].client.p.requests[r].admission.generation)
    ensures var (s, t) := (run[i], run[i].client.p.requests[r].admission.generation);
      && a < b < c && s.events[a] == Requested(r, Some(t)) && s.events[b] == Resolved(r, Some(t))
      && forall k :: 0 <= k < |s.events| && Of(s.events[k], r) ==> k == a || k == b
  {
    InvAt(run, i);
    var s := run[i];
    AnsweredByThen(s, r, c);
    a, b := ToldOnce(s.events, r, s.told[r]);
    EventsAreOfTheirTurn(run, i, r, b);
  }

  /** A turn that has reported has no request in flight. */
  lemma AnsweredByThen(s: State, r: nat, c: nat)
    requires Inv(s) && Dispatched(s.client.p, r) && c < |s.events|
    requires s.events[c] == Terminal(s.client.p.requests[r].admission.generation)
    ensures ToldOf(s.told, r) == Answered(Some(s.client.p.requests[r].admission.generation))
  {
    assert EventOk(s.events[c], s.told, s.client.b.turns);
    assert RequestOk(s.client.p.requests[r], ToldOf(s.told, r));
    if !s.client.p.requests[r].pc.Completed? { InFlightIsCurrent(s.client, r); }
  }

  /** The two events of a request that was answered, and no other. */
  lemma ToldOnce(events: seq<Event>, r: nat, told: Told) returns (a: nat, b: nat)
    requires Ordered(events) && Logged(events, r, told) && told.Answered?
    ensures a < b < |events| && events[a] == Requested(r, told.turn) && events[b] == Resolved(r, told.turn)
    ensures forall k :: 0 <= k < |events| && Of(events[k], r) ==> k == a || k == b
  {
    a :| 0 <= a < |events| && events[a] == Requested(r, told.turn);
    b :| 0 <= b < |events| && events[b] == Resolved(r, told.turn);
    InOrder(events, b, a);
    forall k | 0 <= k < |events| && Of(events[k], r) ensures k == a || k == b {
      Once(events, a, b, k, r);
    }
  }

  lemma Once(events: seq<Event>, a: nat, b: nat, k: nat, r: nat)
    requires Ordered(events) && a < |events| && b < |events| && k < |events| && Of(events[k], r)
    requires events[a].Requested? && events[a].r == r && events[b].Resolved? && events[b].r == r
    ensures k == a || k == b
  {
    var other := if events[k].Requested? then a else b;
    InOrder(events, k, other);
    InOrder(events, other, k);
  }
}
