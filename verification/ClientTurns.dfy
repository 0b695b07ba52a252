/**
 * Turns of the NDJSON client (acp/ndjsonclient.go) over the permission coordinator: a
 * Prompt admits a turn and begins it there, finishTurn ends it there, and closeEvents
 * waits for every admitted turn before it closes the Events channel. Each section run
 * under a lock is a step, and so is every step of the coordinator's own requests.
 */
module ClientTurns {
  import opened Counting
  import opened Options
  import P = PermissionModel
  import PR = PermissionRuns
  import PP = PermissionProofs
  import Runs

  /** Where an admitted turn stands in finishTurn. */
  datatype Pc =
    | Open      // prompting, or waiting for the response
    | Ending    // in EndTurn, waiting for the requests of its generation
    | Ended     // EndTurn has returned
    | Cleared   // currentTurnID no longer names it
    | Reported  // its terminal event was attempted
    | Done      // and the wait group told

  datatype Turn = Turn(generation: nat, pc: Pc)

  /** A closeEvents call: waiting for the turns, past the wait, or returned. */
  datatype Closer = Waiting | Past | Returned

  /** What reaches the Events channel: a terminal event attempted while it was open (the
      channel may be full), one skipped because it was closed, anything else, the close. */
  datatype Act = Attempt(turn: nat) | Skip(turn: nat) | Other | CloseChannel

  /** The client's turns. */
  datatype Books = Books(minted: nat, current: Option<nat>, turns: map<nat, Turn>, wg: int)

  /** The client's Events channel. */
  datatype Channel = Channel(closing: bool, closed: bool, closers: map<nat, Closer>, log: seq<Act>)

  datatype State = State(p: PR.System, closed: bool, session: bool, b: Books, ch: Channel)

  datatype Step =
    | Permission(step: PR.Step)
    | Launch
    | Prompt
    | EndTurn(t: nat)
    | EndTurnReturns(t: nat)
    | Clear(t: nat)
    | Report(t: nat)
    | WaitGroupDone(t: nat)
    | Emit
    | Close
    | CloseEvents(k: nat)
    | WaitReturns(k: nat)
    | CloseChannelOnce(k: nat)

  /** Prompt is refused while a turn is in flight, once the client is closed or its events
      are closing, and before a session exists. */
  predicate Admits(s: State) {
    s.b.current.None? && !s.closed && !s.ch.closing && s.session
  }

  predicate At(b: Books, t: nat, pc: Pc) {
    t in b.turns && b.turns[t].pc == pc
  }

  /** The coordinator's own steps: turns are begun and ended by the client only. */
  predicate OfTheCoordinator(step: PR.Step) {
    !step.BeginTurn? && !step.EndTurn? && !step.EndTurnReturn?
  }

  ghost predicate Enabled(s: State, step: Step) {
    match step
    case Permission(step) => OfTheCoordinator(step) && PR.Enabled(s.p, step)
    case Prompt => Admits(s)
    case EndTurn(t) => At(s.b, t, Open) && PR.Enabled(s.p, PR.EndTurn(t))
    case EndTurnReturns(t) => At(s.b, t, Ending) && PR.Enabled(s.p, PR.EndTurnReturn(t))
    case Clear(t) => At(s.b, t, Ended)
    case Report(t) => At(s.b, t, Cleared)
    case WaitGroupDone(t) => At(s.b, t, Reported)
    case CloseEvents(k) => k !in s.ch.closers
    case WaitReturns(k) => k in s.ch.closers && s.ch.closers[k].Waiting? && s.b.wg == 0
    case CloseChannelOnce(k) => k in s.ch.closers && s.ch.closers[k].Past?
    case _ => true
  }

  function Move(b: Books, t: nat, pc: Pc): Books
    requires t in b.turns
  {
    b.(turns := b.turns[t := b.turns[t].(pc := pc)])
  }

  /** Prompt, in the generation its BeginTurn made. */
  function Admit(b: Books, generation: nat): Books {
    Books(b.minted + 1, Some(b.minted + 1), b.turns[b.minted + 1 := Turn(generation, Open)], b.wg + 1)
  }

  function ClearID(b: Books, t: nat): Books
    requires t in b.turns
  {
    Move(b, t, Cleared).(current := if b.current == Some(t) then None else b.current)
  }

  function Emitted(ch: Channel, act: Act, skipped: seq<Act>): Channel {
    ch.(log := if ch.closed then ch.log + skipped else ch.log + [act])
  }

  function ClosedOnce(ch: Channel, k: nat): Channel {
    Emitted(ch, CloseChannel, []).(closers := ch.closers[k := Returned], closed := true)
  }

  ghost function Apply(s: State, step: Step): State
    requires Enabled(s, step)
  {
    match step
    case Permission(step) => s.(p := PR.Apply(s.p, step))
    case Launch => s.(session := true)
    case Prompt => s.(p := PR.Apply(s.p, PR.BeginTurn), b := Admit(s.b, s.p.c.generation + 1))
    case EndTurn(t) => s.(p := PR.Apply(s.p, PR.EndTurn(t)), b := Move(s.b, t, Ending))
    case EndTurnReturns(t) => s.(p := PR.Apply(s.p, PR.EndTurnReturn(t)), b := Move(s.b, t, Ended))
    case Clear(t) => s.(b := ClearID(s.b, t))
    case Report(t) => s.(b := Move(s.b, t, Reported), ch := Emitted(s.ch, Attempt(t), [Skip(t)]))
    case WaitGroupDone(t) => s.(b := Move(s.b, t, Done).(wg := s.b.wg - 1))
    case Emit => s.(ch := Emitted(s.ch, Other, []))
    case Close => s.(closed := true)
    case CloseEvents(k) => s.(ch := s.ch.(closing := true, closers := s.ch.closers[k := Waiting]))
    case WaitReturns(k) => s.(ch := s.ch.(closers := s.ch.closers[k := Past]))
    case CloseChannelOnce(k) => s.(ch := ClosedOnce(s.ch, k))
  }

  ghost predicate Init(s: State) {
    && PR.Init(s.p)
    && s == State(s.p, false, false, Books(0, None, map[], 0), Channel(false, false, map[], []))
  }

  ghost predicate Next(s: State, t: State) {
    exists step :: Enabled(s, step) && t == Apply(s, step)
  }

  ghost predicate Run(run: seq<State>) {
    Runs.IsRun(Init, Next, run)
  }

  // ---- the invariant ------------------------------------------------------------------------------

  ghost function InFlight(turns: map<nat, Turn>): set<nat> {
    set t | t in turns && turns[t].pc != Done
  }

  predicate Begun(pc: Pc) {
    pc.Open? || pc.Ending? || pc.Ended?
  }

  /** What the client's turns rest on in the coordinator. */
  datatype Standing = Standing(generation: nat, live: bool, ends: map<nat, PR.EndCall>)

  ghost function StandingOf(p: PR.System): Standing {
    Standing(p.c.generation, P.Current(p.c, p.c.generation), p.ends)
  }

  /** A turn that is still current has the coordinator's generation; one that went past
      EndTurn has its call there, and that call has returned. */
  ghost predicate TurnOk(p: Standing, current: Option<nat>, t: nat, turn: Turn) {
    && 1 <= turn.generation <= p.generation
    && (Begun(turn.pc) <==> current == Some(t))
    && (Begun(turn.pc) ==> turn.generation == p.generation)
    && (turn.pc.Open? ==> p.live)
    && (turn.pc.Open? <==> t !in p.ends)
    && (t in p.ends ==> p.ends[t].generation == turn.generation && (p.ends[t].returned <==> !turn.pc.Ending?))
  }

  ghost predicate BooksOk(p: Standing, b: Books) {
    && (forall t :: t in b.turns ==> t <= b.minted && TurnOk(p, b.current, t, b.turns[t]))
    && (forall t :: t in p.ends ==> t in b.turns)
    && (b.current.Some? ==> b.current.value in b.turns)
    && b.wg == |InFlight(b.turns)|
  }

  ghost predicate ClosingOk(ch: Channel, wg: int) {
    && (forall k :: k in ch.closers ==> ch.closing && (!ch.closers[k].Waiting? ==> wg == 0))
    && (ch.closed ==> ch.closing && wg == 0)
  }

  /** How often a turn's terminal event was attempted. */
  function Attempts(log: seq<Act>, t: nat): nat {
    if log == [] then 0 else Attempts(log[..|log| - 1], t) + (if log[|log| - 1] == Attempt(t) then 1 else 0)
  }

  /** The channel is closed once and last, and no terminal event finds it closed. */
  ghost predicate ChannelOk(ch: Channel) {
    && (forall i :: 0 <= i < |ch.log| ==> !ch.log[i].Skip? && (ch.log[i].CloseChannel? ==> i == |ch.log| - 1 && ch.closed))
    && (ch.closed ==> ch.log != [] && ch.log[|ch.log| - 1].CloseChannel?)
  }

  predicate HasReported(pc: Pc) {
    pc.Reported? || pc.Done?
  }

  ghost predicate AttemptsOk(log: seq<Act>, turns: map<nat, Turn>) {
    forall t :: Attempts(log, t) == if t in turns && HasReported(turns[t].pc) then 1 else 0
  }

  ghost predicate ClientOk(p: Standing, b: Books, ch: Channel) {
    BooksOk(p, b) && ClosingOk(ch, b.wg) && ChannelOk(ch) && AttemptsOk(ch.log, b.turns)
  }

  ghost predicate Inv(s: State) {
    PR.Inv(s.p) && ClientOk(StandingOf(s.p), s.b, s.ch)
  }

  // ---- what the client does to its own books --------------------------------------------------------

  lemma CountMove(turns: map<nat, Turn>, t: nat, turn: Turn)
    ensures |InFlight(turns[t := turn])| == |InFlight(turns)| - Bit(t in turns && turns[t].pc != Done) + Bit(turn.pc != Done)
  {
    CountOne(InFlight(turns), InFlight(turns[t := turn]), t);
  }

  lemma StillInFlight(turns: map<nat, Turn>, t: nat)
    requires t in turns && turns[t].pc != Done
    ensures |InFlight(turns)| > 0
  {
    assert t in InFlight(turns);
  }

  lemma AdmitKeeps(p: Standing, b: Books, ch: Channel)
    requires ClientOk(p, b, ch) && b.current.None? && !ch.closing
    ensures ClientOk(Standing(p.generation + 1, true, p.ends), Admit(b, p.generation + 1), ch)
    ensures b.minted + 1 !in b.turns && b.minted + 1 !in p.ends
  {
    CountMove(b.turns, b.minted + 1, Turn(p.generation + 1, Open));
  }

  /** One turn moves on, and with it what the coordinator or the client says of it. */
  lemma MoveKeeps(p: Standing, q: Standing, b: Books, now: Option<nat>, t: nat, pc: Pc)
    requires BooksOk(p, b) && t in b.turns && b.turns[t].pc != Done && q.generation == p.generation
    requires TurnOk(q, now, t, b.turns[t].(pc := pc))
    requires q.live == p.live || b.current == Some(t)
    requires q.ends == p.ends || (t in q.ends && q.ends == p.ends[t := q.ends[t]])
    requires now == b.current || (b.current == Some(t) && now == None)
    ensures BooksOk(q, Move(b, t, pc).(current := now, wg := if pc.Done? then b.wg - 1 else b.wg))
  {
    CountMove(b.turns, t, b.turns[t].(pc := pc));
    forall u | u in b.turns && u != t ensures TurnOk(q, now, u, b.turns[u]) {
      assert TurnOk(p, b.current, u, b.turns[u]);
    }
  }

  lemma EndTurnBooks(p: Standing, b: Books, ch: Channel, t: nat)
    requires ClientOk(p, b, ch) && At(b, t, Open)
    ensures p.live && p.generation == b.turns[t].generation && t !in p.ends
    ensures ClientOk(Standing(p.generation, true, p.ends[t := PR.EndCall(p.generation, false)]), Move(b, t, Ending), ch)
  {
    assert TurnOk(p, b.current, t, b.turns[t]);
    MoveKeeps(p, Standing(p.generation, true, p.ends[t := PR.EndCall(p.generation, false)]), b, b.current, t, Ending);
  }

  lemma EndTurnReturnsBooks(p: Standing, q: Standing, b: Books, ch: Channel, t: nat)
    requires ClientOk(p, b, ch) && At(b, t, Ending) && t in p.ends
    requires q.generation == p.generation && q.ends == p.ends[t := PR.EndCall(p.ends[t].generation, true)]
    ensures ClientOk(q, Move(b, t, Ended), ch)
  {
    assert TurnOk(p, b.current, t, b.turns[t]);
    MoveKeeps(p, q, b, b.current, t, Ended);
  }

  lemma ClearBooks(p: Standing, b: Books, ch: Channel, t: nat)
    requires ClientOk(p, b, ch) && At(b, t, Ended)
    ensures ClientOk(p, ClearID(b, t), ch) && b.current == Some(t)
  {
    assert TurnOk(p, b.current, t, b.turns[t]);
    MoveKeeps(p, p, b, None, t, Cleared);
  }

  lemma ReportBooks(p: Standing, b: Books, ch: Channel, t: nat)
    requires ClientOk(p, b, ch) && At(b, t, Cleared)
    ensures ClientOk(p, Move(b, t, Reported), Emitted(ch, Attempt(t), [Skip(t)])) && !ch.closed
  {
    assert TurnOk(p, b.current, t, b.turns[t]);
    MoveKeeps(p, p, b, b.current, t, Reported);
    StillInFlight(b.turns, t);
  }

  lemma WaitGroupBooks(p: Standing, b: Books, ch: Channel, t: nat)
    requires ClientOk(p, b, ch) && At(b, t, Reported)
    ensures ClientOk(p, Move(b, t, Done).(wg := b.wg - 1), ch)
  {
    assert TurnOk(p, b.current, t, b.turns[t]);
    MoveKeeps(p, p, b, b.current, t, Done);
    StillInFlight(b.turns, t);
  }

  lemma EmitKeeps(p: Standing, b: Books, ch: Channel)
    requires ClientOk(p, b, ch)
    ensures ClientOk(p, b, Emitted(ch, Other, []))
  {
    assert ch.log + [] == ch.log;
  }

  lemma CloseKeeps(p: Standing, b: Books, ch: Channel, k: nat)
    requires ClientOk(p, b, ch) && k in ch.closers && ch.closers[k].Past?
    ensures ClientOk(p, b, ClosedOnce(ch, k))
  {
    assert ch.log + [] == ch.log;
  }

  // ---- the coordinator under the client -------------------------------------------------------------

  lemma StandingStays(p: PR.System, step: PR.Step)
    requires OfTheCoordinator(step) && PR.Enabled(p, step)
    ensures StandingOf(PR.Apply(p, step)) == StandingOf(p)
  {
  }

  /** The coordinator's own steps leave the standing of the turns alone. */
  lemma CoordinatorStep(p: PR.System, step: PR.Step)
    requires PR.Inv(p) && OfTheCoordinator(step) && PR.Enabled(p, step)
    ensures PR.Inv(PR.Apply(p, step)) && StandingOf(PR.Apply(p, step)) == StandingOf(p)
  {
    PP.StepKeepsInv(p, step);
    StandingStays(p, step);
  }

  lemma BeginTurnStep(p: PR.System)
    requires PR.Inv(p)
    ensures var q := PR.Apply(p, PR.BeginTurn);
      PR.Inv(q) && StandingOf(q) == Standing(p.c.generation + 1, true, p.ends)
  {
    PP.StepKeepsInv(p, PR.BeginTurn);
  }

  lemma EndTurnStep(p: PR.System, t: nat)
    requires PR.Inv(p) && t !in p.ends && P.Current(p.c, p.c.generation)
    ensures var q := PR.Apply(p, PR.EndTurn(t));
      PR.Inv(q) && StandingOf(q) == Standing(p.c.generation, true, p.ends[t := PR.EndCall(p.c.generation, false)])
  {
    PP.StepKeepsInv(p, PR.EndTurn(t));
  }

  lemma EndTurnReturnStep(p: PR.System, t: nat)
    requires PR.Inv(p) && PR.Enabled(p, PR.EndTurnReturn(t))
    ensures var q := PR.Apply(p, PR.EndTurnReturn(t));
      && PR.Inv(q) && q.c.generation == p.c.generation
      && q.ends == p.ends[t := PR.EndCall(p.ends[t].generation, true)]
  {
    PP.StepKeepsInv(p, PR.EndTurnReturn(t));
  }

  // ---- every step keeps it ----------------------------------------------------------------------------

  lemma PromptKeepsInv(s: State)
    requires Inv(s) && Admits(s)
    ensures Inv(Apply(s, Prompt))
  {
    var q := BegunSystem(s.p);
    BegunBooks(StandingOf(s.p), StandingOf(q), s.b, s.ch);
  }

  lemma BegunBooks(p: Standing, q: Standing, b: Books, ch: Channel)
    requires ClientOk(p, b, ch) && b.current.None? && !ch.closing && q == Standing(p.generation + 1, true, p.ends)
    ensures ClientOk(q, Admit(b, p.generation + 1), ch)
  {
    AdmitKeeps(p, b, ch);
  }

  lemma BegunSystem(p: PR.System) returns (q: PR.System)
    requires PR.Inv(p)
    ensures q == PR.Apply(p, PR.BeginTurn) && PR.Inv(q) && StandingOf(q) == Standing(p.c.generation + 1, true, p.ends)
  {
    BeginTurnStep(p);
    q := PR.Apply(p, PR.BeginTurn);
  }

  lemma EndTurnKeepsInv(s: State, t: nat)
    requires Inv(s) && Enabled(s, EndTurn(t))
    ensures Inv(Apply(s, EndTurn(t)))
  {
    EndTurnBooks(StandingOf(s.p), s.b, s.ch, t);
    EndTurnStep(s.p, t);
  }

  lemma EndTurnReturnsKeepsInv(s: State, t: nat)
    requires Inv(s) && Enabled(s, EndTurnReturns(t))
    ensures Inv(Apply(s, EndTurnReturns(t)))
  {
    EndTurnReturnStep(s.p, t);
    EndTurnReturnsBooks(StandingOf(s.p), StandingOf(PR.Apply(s.p, PR.EndTurnReturn(t))), s.b, s.ch, t);
  }

  lemma StepKeepsInv(s: State, step: Step)
    requires Inv(s) && Enabled(s, step)
    ensures Inv(Apply(s, step))
  {
    match step
    case Permission(step) => CoordinatorStep(s.p, step);
    case Prompt => PromptKeepsInv(s);
    case EndTurn(t) => EndTurnKeepsInv(s, t);
    case EndTurnReturns(t) => EndTurnReturnsKeepsInv(s, t);
    case Clear(t) => ClearBooks(StandingOf(s.p), s.b, s.ch, t);
    case Report(t) => ReportBooks(StandingOf(s.p), s.b, s.ch, t);
    case WaitGroupDone(t) => WaitGroupBooks(StandingOf(s.p), s.b, s.ch, t);
    case Emit => EmitKeeps(StandingOf(s.p), s.b, s.ch);
    case CloseChannelOnce(k) => CloseKeeps(StandingOf(s.p), s.b, s.ch, k);
    case _ =>
  }

  lemma InvIsInductive()
    ensures Runs.Inductive(Init, Next, Inv)
  {
    forall s: State | Init(s) ensures Inv(s) {
    }
    forall s: State, t: State | Inv(s) && Next(s, t) ensures Inv(t) {
      var step :| Enabled(s, step) && t == Apply(s, step);
      StepKeepsInv(s, step);
    }
  }

  lemma InvAt(run: seq<State>, i: nat)
    requires Run(run) && i < |run|
    ensures Inv(run[i])
  {
    InvIsInductive();
    Runs.Holds(Init, Next, Inv, run, i);
  }

  // ---- turns and generations ------------------------------------------------------------------------

  /** Turn and generation are minted together, so they have the same number. */
  ghost predicate Minted(s: State) {
    && s.b.minted == s.p.c.generation
    && (forall t: nat :: t in s.b.turns <==> 1 <= t <= s.b.minted)
    && forall t :: t in s.b.turns ==> s.b.turns[t].generation == t
  }

  lemma GenerationAfter(s: State, step: Step)
    requires Inv(s) && Enabled(s, step)
    ensures Apply(s, step).p.c.generation == s.p.c.generation + if step.Prompt? then 1 else 0
  {
    match step
    case Permission(step) => CoordinatorStep(s.p, step);
    case Prompt => BeginTurnStep(s.p);
    case EndTurn(t) =>
      EndTurnBooks(StandingOf(s.p), s.b, s.ch, t);
      EndTurnStep(s.p, t);
    case EndTurnReturns(t) => EndTurnReturnStep(s.p, t);
    case _ =>
  }

  lemma BooksAfter(s: State, step: Step)
    requires Enabled(s, step) && Minted(s)
    ensures var b := Apply(s, step).b;
      && b.minted == s.b.minted + (if step.Prompt? then 1 else 0)
      && (forall t: nat :: t in b.turns <==> 1 <= t <= b.minted)
      && forall t :: t in b.turns ==> b.turns[t].generation == t
  {
  }

  lemma StepKeepsMinted(s: State, step: Step)
    requires Inv(s) && Minted(s) && Enabled(s, step)
    ensures Minted(Apply(s, step))
  {
    GenerationAfter(s, step);
    BooksAfter(s, step);
  }

  // ---- what the client promises ---------------------------------------------------------------------

  /** finishTurn's EndTurn acts on the generation its own Prompt opened, which is still
      the coordinator's current one. */
  lemma EndTurnIsItsOwn(run: seq<State>, i: nat, t: nat)
    requires Run(run) && i < |run| && Enabled(run[i], EndTurn(t))
    ensures var p := run[i].p;
      && run[i].b.turns[t].generation == p.c.generation && P.Current(p.c, p.c.generation)
      && PR.Apply(p, PR.EndTurn(t)).ends[t].generation == run[i].b.turns[t].generation
  {
    InvAt(run, i);
    EndTurnBooks(StandingOf(run[i].p), run[i].b, run[i].ch, t);
  }

  /** When a turn's terminal event is attempted, no permission request admitted to that
      turn is still running, and none ever will be. */
  lemma NoRequestOutlivesItsTurn(run: seq<State>, i: nat, t: nat)
    requires Run(run) && i < |run| && t in run[i].b.turns
    requires !run[i].b.turns[t].pc.Open? && !run[i].b.turns[t].pc.Ending?
    ensures PR.Bound(run[i].p.requests, run[i].b.turns[t].generation) == {}
  {
    InvAt(run, i);
    assert TurnOk(StandingOf(run[i].p), run[i].b.current, t, run[i].b.turns[t]);
  }

  /** Every admitted Prompt attempts its terminal event at most once, and exactly once by
      the time the Events channel closes; it never finds the channel closed. */
  lemma OneTerminalEach(run: seq<State>, i: nat, t: nat)
    requires Run(run) && i < |run|
    ensures Attempts(run[i].ch.log, t) <= 1
    ensures t !in run[i].b.turns ==> Attempts(run[i].ch.log, t) == 0
    ensures t in run[i].b.turns && run[i].ch.closed ==> run[i].b.turns[t].pc.Done? && Attempts(run[i].ch.log, t) == 1
    ensures forall j :: 0 <= j < |run[i].ch.log| ==> !run[i].ch.log[j].Skip?
  {
    InvAt(run, i);
    if t in run[i].b.turns && run[i].b.turns[t].pc != Done {
      StillInFlight(run[i].b.turns, t);
    }
  }

  /** The channel is closed at most once, and nothing is sent on it afterwards. */
  lemma NothingAfterTheClose(run: seq<State>, i: nat, j: nat)
    requires Run(run) && i < |run| && j < |run[i].ch.log| && run[i].ch.log[j].CloseChannel?
    ensures j == |run[i].ch.log| - 1 && run[i].ch.closed
  {
    InvAt(run, i);
  }

  /** Nothing is added to the wait group once the events are closing. */
  lemma NoAddAfterClosing(s: State, step: Step)
    requires Enabled(s, step) && s.ch.closing
    ensures Apply(s, step).ch.closing && Apply(s, step).b.turns.Keys == s.b.turns.Keys && Apply(s, step).b.wg <= s.b.wg
  {
  }

  /** The wait group counts the admitted turns that have not finished: one that is past its
      wait finds none, and never again will. */
  lemma TheWaitCounts(run: seq<State>, i: nat)
    requires Run(run) && i < |run|
    ensures run[i].b.wg == |InFlight(run[i].b.turns)|
    ensures (exists k :: k in run[i].ch.closers && !run[i].ch.closers[k].Waiting?) ==> InFlight(run[i].b.turns) == {} && run[i].ch.closing
  {
    InvAt(run, i);
  }

  /** One turn at a time is between its Prompt and the clearing of its id, and the
      coordinator's generation is that turn's. */
  lemma OneTurnAtATime(run: seq<State>, i: nat, t: nat, u: nat)
    requires Run(run) && i < |run| && t in run[i].b.turns && u in run[i].b.turns
    requires Begun(run[i].b.turns[t].pc) && Begun(run[i].b.turns[u].pc)
    ensures t == u && run[i].b.turns[t].generation == run[i].p.c.generation
  {
    InvAt(run, i);
    assert TurnOk(StandingOf(run[i].p), run[i].b.current, t, run[i].b.turns[t]);
    assert TurnOk(StandingOf(run[i].p), run[i].b.current, u, run[i].b.turns[u]);
  }

  /** A turn is admitted only to a client that has a session, is neither closed nor closing its
      events, and has no turn in flight; and then it is the one in flight. */
  lemma AdmissionOfARun(run: seq<State>, i: nat, t: nat)
    requires Run(run) && i + 1 < |run| && t !in run[i].b.turns && t in run[i + 1].b.turns
    ensures var (s, now) := (run[i], run[i + 1]);
      && s.session && !s.closed && !s.ch.closing && s.b.current.None?
      && now.b.current == Some(t) && now.b.turns[t].pc == Open && now.b.turns[t].generation == now.p.c.generation == s.p.c.generation + 1
  {
    Runs.StepAt(Init, Next, run, i + 1);
    var step :| Enabled(run[i], step) && run[i + 1] == Apply(run[i], step);
    OnlyPromptAdmits(run[i], step, t);
  }

  lemma OnlyPromptAdmits(s: State, step: Step, t: nat)
    requires Enabled(s, step) && t !in s.b.turns && t in Apply(s, step).b.turns
    ensures step.Prompt? && Apply(s, step).b.current == Some(t)
  {
  }

  /** A turn's terminal event is attempted only once its EndTurn has returned and its id no
      longer is the client's. */
  lemma TerminalComesLast(run: seq<State>, i: nat, t: nat)
    requires Run(run) && i < |run| && Attempts(run[i].ch.log, t) > 0
    ensures t in run[i].b.turns && run[i].b.current != Some(t) && t in run[i].p.ends && run[i].p.ends[t].returned
  {
    InvAt(run, i);
    assert TurnOk(StandingOf(run[i].p), run[i].b.current, t, run[i].b.turns[t]);
  }
}
