/**
 * What the turn-output reducer promises over every session: any sequence of events of
 * any feed, with ids minted fresh.
 */
module ReducerTheorems {
  import opened Bytes
  import opened Lists
  import opened Options
  import opened ReducerModel
  import opened TurnInvariants
  import opened TurnModel
  import opened Utf8
  import Runs

  /** The reducer, and every turn it has reported with how it ended. */
  datatype Session = Session(state: State, closed: seq<Closed>)

  ghost function Fold(session: Session, i: Input): Session
    requires Inv(session.state) && Mintable(session.state, i.mint)
  {
    var (now, closed) := Step(session.state, i);
    Session(now, if closed.Some? then session.closed + [closed.value] else session.closed)
  }

  ghost predicate Init(session: Session) {
    session == Session(NEW, [])
  }

  /** One event. Inv holds in every session (SessionAt), so asking for it excludes none. */
  ghost predicate Next(session: Session, now: Session) {
    Inv(session.state) && exists i: Input :: Mintable(session.state, i.mint) && now == Fold(session, i)
  }

  ghost predicate Run(run: seq<Session>) {
    Runs.IsRun(Init, Next, run)
  }

  /** The turn ids of the outputs: OutputOf gives each its turn's. */
  function IDs(closed: seq<Closed>): (ids: seq<string>)
    ensures |ids| == |closed|
  {
    seq(|closed|, j requires 0 <= j < |closed| => closed[j].turn.id)
  }

  // ---- what is remembered ---------------------------------------------------------------------------

  /** How the last turn reported ended, as a later terminal event is compared with it. */
  function LastSignature(closed: seq<Closed>): DoneSignature {
    if closed == [] || Last(closed).term.failed then NO_DONE
    else DoneSignature(EndingStop(Last(closed).turn, Last(closed).term), TrimSpace(Last(closed).term.text))
  }

  /** The error of the last turn that failed, however many completed since. */
  function LastFailure(closed: seq<Closed>): seq<Byte> {
    if closed == [] then []
    else if Last(closed).term.failed then TrimSpace(Last(closed).term.errText)
    else LastFailure(Front(closed))
  }

  ghost predicate FarApart(closed: seq<Closed>) {
    forall i, j :: 0 <= i < j < |closed| && closed[i].turn.id == closed[j].turn.id ==> j - i > FINISHED_MEMORY
  }

  /** What the reducer remembers of the turns it reported. */
  ghost predicate Remembers(s: State, closed: seq<Closed>) {
    && s.finished == Newest(IDs(closed), FINISHED_MEMORY)
    && s.lastDone == LastSignature(closed)
    && s.lastError == LastFailure(closed)
    && (s.settled ==> closed != [])
  }

  ghost predicate SessionOk(session: Session) {
    Inv(session.state) && Remembers(session.state, session.closed) && FarApart(session.closed)
  }

  lemma NewestOfNewest(list: seq<string>, x: string, n: nat)
    requires n > 0
    ensures Newest(Newest(list, n) + [x], n) == Newest(list + [x], n)
  {
  }

  lemma InNewest(list: seq<string>, n: nat, i: nat)
    requires i < |list| <= i + n
    ensures list[i] in Newest(list, n)
  {
    if |list| > n {
      assert Newest(list, n)[i - (|list| - n)] == list[i];
    }
  }

  /** One more turn reported, which was not among the last 64. */
  lemma OneMoreClosed(closed: seq<Closed>, c: Closed)
    requires FarApart(closed) && c.turn.id !in Newest(IDs(closed), FINISHED_MEMORY)
    ensures FarApart(closed + [c])
  {
    var ids := IDs(closed);
    forall i | 0 <= i < |closed| && closed[i].turn.id == c.turn.id ensures |closed| - i > FINISHED_MEMORY {
      if |closed| - i <= FINISHED_MEMORY {
        InNewest(ids, FINISHED_MEMORY, i);
      }
    }
  }

  /** Only the end of a turn writes what is remembered of turns that ended. */
  ghost predicate SameMemory(s: State, now: State) {
    && now.finished == s.finished && now.lastDone == s.lastDone && now.lastError == s.lastError
    && (now.settled ==> s.settled)
  }

  lemma StepRemembers(s: State, i: Input)
    requires Inv(s) && Mintable(s, i.mint)
    ensures Step(s, i).1.None? ==> SameMemory(s, Step(s, i).0)
    ensures Step(s, i).1.Some? ==>
      var (now, closed) := (Step(s, i).0, Step(s, i).1.value);
      && now.finished == Newest(s.finished + [closed.turn.id], FINISHED_MEMORY)
      && now.lastDone == LastSignature([closed])
      && now.lastError == if closed.term.failed then TrimSpace(closed.term.errText) else s.lastError
  {
    match i.event
    case Body(turn, op) =>
    case Usage(stop) => StopKeeps(s, stop);
    case _ =>
  }

  lemma ClosedIsRemembered(s: State, closed: seq<Closed>, now: State, c: Closed)
    requires Remembers(s, closed)
    requires now.finished == Newest(s.finished + [c.turn.id], FINISHED_MEMORY) && now.lastDone == LastSignature([c])
    requires now.lastError == if c.term.failed then TrimSpace(c.term.errText) else s.lastError
    ensures Remembers(now, closed + [c])
  {
    NewestOfNewest(IDs(closed), c.turn.id, FINISHED_MEMORY);
    assert IDs(closed + [c]) == IDs(closed) + [c.turn.id];
    assert Front(closed + [c]) == closed;
  }

  lemma FoldKeeps(session: Session, i: Input)
    requires SessionOk(session) && Mintable(session.state, i.mint)
    ensures SessionOk(Fold(session, i))
  {
    var (now, closed) := Step(session.state, i);
    StepKeeps(session.state, i);
    StepRemembers(session.state, i);
    if closed.Some? {
      ClosedIsRemembered(session.state, session.closed, now, closed.value);
      OneMoreClosed(session.closed, closed.value);
    }
  }

  lemma SessionAt(run: seq<Session>, k: nat)
    requires Run(run) && k < |run|
    ensures SessionOk(run[k])
  {
    forall session: Session, now: Session | SessionOk(session) && Next(session, now) ensures SessionOk(now) {
      var i: Input :| Mintable(session.state, i.mint) && now == Fold(session, i);
      FoldKeeps(session, i);
    }
    Runs.Holds(Init, Next, SessionOk, run, k);
  }

  // ---- turn ids -------------------------------------------------------------------------------------

  /** In every session the books are in order and the reducer remembers exactly the last 64
      turns it reported. */
  lemma FinishedAreTheLast(run: seq<Session>, k: nat)
    requires Run(run) && k < |run|
    ensures Inv(run[k].state)
    ensures run[k].state.finished == Newest(IDs(run[k].closed), FINISHED_MEMORY)
  {
    SessionAt(run, k);
  }

  /** Two outputs with the same turn id always have at least 64 others between them. */
  lemma RepeatsAreFarApart(run: seq<Session>, k: nat, i: nat, j: nat)
    requires Run(run) && k < |run| && i < j < |run[k].closed|
    requires run[k].closed[i].turn.id == run[k].closed[j].turn.id
    ensures j - i > 64
  {
    SessionAt(run, k);
  }

  /** A terminal event that names its turn is reported exactly when that turn is not one of
      the last 64 reported; what closes is the turn it names. */
  lemma NamedEnding(run: seq<Session>, k: nat, turn: string, term: Ending, mint: string)
    requires Run(run) && k < |run| && turn != "" && Mintable(run[k].state, mint)
    ensures Inv(run[k].state)
    ensures var closed := Step(run[k].state, Input(Ended(turn, term), mint)).1;
      && (closed.Some? <==> turn !in Newest(IDs(run[k].closed), FINISHED_MEMORY))
      && (closed.Some? ==> closed.value.turn.id == turn)
  {
    SessionAt(run, k);
    NamedStep(run[k].state, turn, term, mint);
  }

  lemma NamedStep(s: State, turn: string, term: Ending, mint: string)
    requires Inv(s) && Mintable(s, mint) && turn != ""
    ensures var closed := Step(s, Input(Ended(turn, term), mint)).1;
      && (closed.Some? <==> turn !in s.finished)
      && (closed.Some? ==> closed.value.turn.id == turn && closed.value.term == term)
  {
  }

  /** An event that comes late for a turn reported among the last 64 is dropped: it does not
      reopen the turn, start another, or change anything else. */
  lemma LateEventsAreDropped(run: seq<Session>, k: nat, turn: string, op: Option<Op>, term: Ending, mint: string)
    requires Run(run) && k < |run| && turn != "" && Mintable(run[k].state, mint)
    requires turn in Newest(IDs(run[k].closed), FINISHED_MEMORY)
    ensures Inv(run[k].state)
    ensures var s := run[k].state;
      && Step(s, Input(Started(turn), mint)) == (s, None)
      && Step(s, Input(Body(turn, op), mint)) == (s, None)
      && Step(s, Input(Ended(turn, term), mint)) == (s, None)
  {
    SessionAt(run, k);
    LateStep(run[k].state, turn, op, term, mint);
  }

  lemma LateStep(s: State, turn: string, op: Option<Op>, term: Ending, mint: string)
    requires Inv(s) && Mintable(s, mint) && turn != "" && turn in s.finished
    ensures Step(s, Input(Started(turn), mint)) == (s, None)
    ensures Step(s, Input(Body(turn, op), mint)) == (s, None)
    ensures Step(s, Input(Ended(turn, term), mint)) == (s, None)
  {
  }

  /** However long the session and whatever is lost of it: at most 64 turns are held, and of
      each at most 128 blocks with 4 MiB of text, 256 calls, 256 early facts, 64 signals and
      64 requests. */
  lemma MemoryIsBounded(run: seq<Session>, k: nat, id: string)
    requires Run(run) && k < |run|
    ensures var s := run[k].state;
      && |s.order| <= 64 && |s.finished| <= 64 && (id in s.open <==> id in s.order)
      && (id in s.open ==>
            var t := s.open[id];
            && |t.buffer.blocks| <= 128 && t.buffer.bytes == Size(t.buffer.blocks) <= 4194304
            && |t.calls.tools| <= 256 && |t.calls.earlyOrder| <= 256
            && |t.asks.signals| <= 64 && |t.asks.pending| <= 64)
  {
    SessionAt(run, k);
    if id in run[k].state.open {
      TextIsBounded(run[k].state.open[id]);
    }
  }

  // ---- terminal events that name no turn ------------------------------------------------------------

  /** The same error again. */
  predicate SameFailure(term: Ending, closed: seq<Closed>) {
    TrimSpace(term.errText) != [] && TrimSpace(term.errText) == LastFailure(closed)
  }

  /** Ending as the last turn did: after a failure, with no stop reason and no text. */
  predicate SameCompletion(term: Ending, stop: StopReason, last: Closed) {
    && stop != Cancelled
    && if last.term.failed then stop == NoStop && TrimSpace(term.text) == []
       else stop == EndingStop(last.turn, last.term) && TrimSpace(term.text) == TrimSpace(last.term.text)
  }

  /** It comes right after another turn ended, as the same failure or the same completion
      again. */
  predicate IsRepeat(session: Session, term: Ending) {
    var (s, closed) := (session.state, session.closed);
    var stop := if term.stopReason != NoStop then term.stopReason else s.heldStop;
    && s.settled && closed != []
    && if term.failed then SameFailure(term, closed) else SameCompletion(term, stop, Last(closed))
  }

  /** When a terminal event with no id and no turn open is dropped: only as a repeat. */
  lemma LoneEnding(run: seq<Session>, k: nat, term: Ending, mint: string)
    requires Run(run) && k < |run| && Mintable(run[k].state, mint) && run[k].state.order == []
    ensures Inv(run[k].state)
    ensures Step(run[k].state, Input(Ended("", term), mint)).1.None? <==> IsRepeat(run[k], term)
  {
    SessionAt(run, k);
  }

  /** A terminal event with no id closes the turn last begun that is still open. */
  lemma CurrentEnding(s: State, term: Ending, mint: string)
    requires Inv(s) && Mintable(s, mint) && s.order != []
    ensures var closed := Step(s, Input(Ended("", term), mint)).1;
      closed.Some? && closed.value.turn.id == Last(s.order) && Last(s.order) in s.open && closed.value.turn == s.open[Last(s.order)]
  {
  }

  /** An empty completion right after a failure is dropped, though no turn had completed. */
  lemma EmptyDoneAfterFailureIsDropped(failure: Ending, first: string, second: string)
    requires failure.failed && first != "" && second != "" && first != second
    ensures var done := Ending(false, [], false, NoReason, NoStop, []);
      var (s, closed) := (Step(NEW, Input(Ended("", failure), first)).0, Step(NEW, Input(Ended("", failure), first)).1);
      && closed.Some? && closed.value.term.failed
      && Inv(s) && Mintable(s, second) && Step(s, Input(Ended("", done), second)).1.None?
  {
    StepKeeps(NEW, Input(Ended("", failure), first));
    assert TrimSpace([]) == [];
  }

  // ---- stop reasons that come alone -----------------------------------------------------------------

  /** A turn among the last 64 reported. */
  predicate IsReported(session: Session, turn: string) {
    turn in Newest(IDs(session.closed), FINISHED_MEMORY)
  }

  /** What the reducer passes over between turns. */
  predicate IsIgnored(session: Session, event: Event) {
    match event
    case Started(turn) => turn == "" || IsReported(session, turn)
    case Body(turn, _) => turn != "" && IsReported(session, turn)
    case Usage(stop) => stop == NoStop
    case Ended(turn, term) => if turn == "" then IsRepeat(session, term) else IsReported(session, turn)
    case Exited(_) => true
    case Flush(_) => true
  }

  /** The one stop reason that waits for a turn. */
  function Waiting(s: State): StopReason {
    if s.heldStop != NoStop then s.heldStop else s.pendingStop
  }

  /** With no turn open, what becomes of a stop reason that came alone. An event that is
      ignored leaves it, another stop reason replaces it, and every other event ends the
      wait: a lone terminal event takes it, a terminal event that names its turn drops it,
      and an event that begins a turn gives the turn what came before the first turn and
      drops what came after one. */
  lemma StopBetweenTurns(run: seq<Session>, k: nat, i: Input)
    requires Run(run) && k < |run| && Mintable(run[k].state, i.mint) && run[k].state.order == []
    ensures Inv(run[k].state)
    ensures var (s, now, closed) := (run[k].state, Step(run[k].state, i).0, Step(run[k].state, i).1);
      if IsIgnored(run[k], i.event) then now == s && closed.None?
      else match i.event
        case Usage(stop) => Waiting(now) == stop && (now.heldStop == stop <==> s.settled) && closed.None?
        case Ended(turn, _) =>
          && Waiting(now) == NoStop && closed.Some?
          && closed.value.turn.usageStop == if turn == "" then Waiting(s) else NoStop
        case Started(turn) => Waiting(now) == NoStop && turn in now.open && now.open[turn].usageStop == s.pendingStop
        case Body(turn, op) =>
          var id := if turn == "" then i.mint else turn;
          && Waiting(now) == NoStop && id in now.open
          && (op.None? || !op.value.NoteStop? ==> now.open[id].usageStop == s.pendingStop)
  {
    SessionAt(run, k);
    match i.event
    case Usage(stop) => StopKeeps(run[k].state, stop);
    case Body(turn, op) => BodyBetweenTurns(run[k].state, turn, op, i.mint);
    case Ended(turn, term) => if turn == "" { LoneEnding(run, k, term, i.mint); }
    case _ =>
  }

  lemma BodyBetweenTurns(s: State, turn: string, op: Option<Op>, mint: string)
    requires Inv(s) && Mintable(s, mint) && s.order == []
    ensures var now := Operated(s, turn, op, mint);
      if turn != "" && turn in s.finished then now == s
      else
        var id := if turn == "" then mint else turn;
        && Waiting(now) == NoStop && id in now.open
        && (op.None? || !op.value.NoteStop? ==> now.open[id].usageStop == s.pendingStop)
  {
    BodyKeeps(s, turn, mint);
    var (now, id) := BodyTurn(s, turn, mint);
    if id.Some? && op.Some? { ApplyKeepsID(now.open[id.value], op.value); }
  }

  ghost predicate Follows(session: Session, event: Event, mint: string, now: Session) {
    Inv(session.state) && Mintable(session.state, mint) && now == Fold(session, Input(event, mint))
  }

  /** The run, with one more event. */
  lemma Then(run: seq<Session>, event: Event, mint: string) returns (now: Session)
    requires Run(run) && Mintable(Last(run).state, mint)
    ensures Run(run + [now]) && Follows(Last(run), event, mint, now)
  {
    SessionAt(run, |run| - 1);
    now := Fold(Last(run), Input(event, mint));
    Runs.Extended(Init, Next, run, now);
  }

  lemma FirstTurn(session: Session, turn: string, done: Ending, mint: string, now: Session)
    requires session == Session(NEW, []) && turn != "" && Follows(session, Ended(turn, done), mint, now)
    ensures now.state.finished == [turn] && now.state.open == map[] && now.state.order == [] && now.state.settled
  {
    assert NEW.finished + [turn] == [turn] && NEW.open - {turn} == map[];
  }

  lemma StopIsHeld(session: Session, stop: StopReason, mint: string, now: Session)
    requires Follows(session, Usage(stop), mint, now) && session.state.order == [] && session.state.settled && stop != NoStop
    ensures now == session.(state := session.state.(heldStop := stop))
  {
    StopKeeps(session.state, stop);
  }

  lemma LateIsDropped(session: Session, turn: string, op: Op, mint: string, now: Session)
    requires Follows(session, Body(turn, Some(op)), mint, now) && turn != "" && turn in session.state.finished
    ensures now == session
  {
    BodyKeeps(session.state, turn, mint);
  }

  lemma StopIsTaken(session: Session, last: Ending, mint: string, now: Session)
    requires Follows(session, Ended("", last), mint, now) && session.state.order == [] && !Repeats(session.state, last)
    ensures now.closed != [] && Last(now.closed).turn.usageStop == Waiting(session.state)
  {
  }

  /** Sessions in which a stop reason outlives the next event: a turn is reported, a stop
      reason follows alone, then an event late for that turn, and a lone terminal event
      still takes the stop reason. */
  lemma HeldStopOutlivesALateEvent(turn: string, done: Ending, stop: StopReason, late: Op, last: Ending, mint: string)
      returns (zero: Session, one: Session, two: Session, three: Session, four: Session)
    requires turn != "" && mint != "" && mint != turn && stop != NoStop
    requires last.stopReason == NoStop && if last.failed then TrimSpace(last.errText) == [] else stop.Cancelled?
    ensures Run([zero] + [one] + [two] + [three] + [four]) && zero == Session(NEW, [])
    ensures Follows(zero, Ended(turn, done), mint, one) && Follows(one, Usage(stop), mint, two)
    ensures Follows(two, Body(turn, Some(late)), mint, three) && three.state.heldStop == stop
    ensures Follows(three, Ended("", last), mint, four)
    ensures four.closed != [] && Last(four.closed).turn.usageStop == stop
  {
    zero := Session(NEW, []);
    one := Then([zero], Ended(turn, done), mint);
    FirstTurn(zero, turn, done, mint, one);
    two := Then([zero] + [one], Usage(stop), mint);
    StopIsHeld(one, stop, mint, two);
    three := Then([zero] + [one] + [two], Body(turn, Some(late)), mint);
    LateIsDropped(two, turn, late, mint, three);
    four := Then([zero] + [one] + [two] + [three], Ended("", last), mint);
    StopIsTaken(three, last, mint, four);
  }

  // ---- the order of the open turns --------------------------------------------------------------------

  predicate Precedes(order: seq<string>, x: string, y: string) {
    exists a: nat, b: nat :: a < b < |order| && order[a] == x && order[b] == y
  }

  lemma {:induction false} WithoutKeepsOrder(order: seq<string>, id: string, a: nat, b: nat) returns (c: nat, d: nat)
    requires a < b < |Without(order, id)|
    ensures c < d < |order| && order[c] == Without(order, id)[a] && order[d] == Without(order, id)[b]
  {
    if order[0] == id {
      c, d := a + 1, b + 1;
    } else if a == 0 {
      c := 0;
      d := WithoutKeeps(order[1..], id, b - 1);
      d := d + 1;
    } else {
      c, d := WithoutKeepsOrder(order[1..], id, a - 1, b - 1);
      c, d := c + 1, d + 1;
    }
  }

  lemma {:induction false} WithoutKeeps(order: seq<string>, id: string, a: nat) returns (c: nat)
    requires a < |Without(order, id)|
    ensures c < |order| && order[c] == Without(order, id)[a]
  {
    if order[0] == id { c := a + 1; }
    else if a == 0 { c := 0; }
    else {
      c := WithoutKeeps(order[1..], id, a - 1);
      c := c + 1;
    }
  }

  predicate Lost(order: seq<string>, now: seq<string>, id: string) {
    now == Without(order, id)
  }

  predicate Gained(s: State, now: seq<string>, id: string) {
    id !in s.open && now == Newest(s.order + [id], MAX_OPEN_TURNS)
  }

  ghost predicate OrderMoves(s: State, now: seq<string>) {
    now == s.order || (exists id: string :: Lost(s.order, now, id)) || exists id: string :: Gained(s, now, id)
  }

  lemma BodyOrder(s: State, turn: string, mint: string)
    requires Inv(s) && Mintable(s, mint)
    ensures OrderMoves(s, BodyTurn(s, turn, mint).0.order)
  {
    var now := BodyTurn(s, turn, mint).0.order;
    if now != s.order { assert Gained(s, now, if turn == "" then mint else turn); }
  }

  lemma CloseOrder(s: State, t: Option<Turn>, term: Ending)
    ensures OrderMoves(s, CloseOne(s, t, term).0.order)
  {
    if t.Some? { assert Lost(s.order, CloseOne(s, t, term).0.order, t.value.id); }
  }

  lemma OrderAfter(s: State, i: Input)
    requires Inv(s) && Mintable(s, i.mint)
    ensures OrderMoves(s, Step(s, i).0.order)
  {
    match i.event
    case Started(turn) => BodyOrder(s, turn, i.mint);
    case Body(turn, op) => BodyOrder(s, turn, i.mint);
    case Usage(stop) =>
    case Ended(turn, term) => CloseOrder(s, EndingTurn(s, turn, term, i.mint), term);
    case Exited(_) => GoneOrder(s, i);
    case Flush(_) => GoneOrder(s, i);
  }

  lemma GoneOrder(s: State, i: Input)
    requires Inv(s) && Mintable(s, i.mint) && (i.event.Exited? || i.event.Flush?)
    ensures OrderMoves(s, Step(s, i).0.order)
  {
    CloseOrder(s, CurrentTurn(s), if i.event.Exited? then ExitEnding(i.event.errText) else FlushEnding(i.event.reason));
  }

  lemma GainedKeeps(s: State, now: seq<string>, id: string, a: nat, b: nat)
    requires OrderIsOpen(s.open, s.order) && Gained(s, now, id) && a < b < |now|
    ensures now[a] in s.open && (now[b] !in s.open || Precedes(s.order, now[a], now[b]))
  {
    var off := |s.order| + 1 - |now|;
    assert now[a] == s.order[a + off] && now[a] in s.order;
    if b + off < |s.order| { assert now[b] == s.order[b + off]; }
  }

  lemma MovesKeep(s: State, now: seq<string>, x: string, y: string)
    requires OrderIsOpen(s.open, s.order) && OrderMoves(s, now) && Precedes(now, x, y)
    ensures x in s.open && (y !in s.open || Precedes(s.order, x, y))
  {
    var a: nat, b: nat :| a < b < |now| && now[a] == x && now[b] == y;
    if now == s.order {
      assert x in s.order;
    } else if id: string :| Lost(s.order, now, id) {
      var c, d := WithoutKeepsOrder(s.order, id, a, b);
      assert s.order[c] in s.order;
    } else {
      var id: string :| Gained(s, now, id);
      GainedKeeps(s, now, id, a, b);
    }
  }

  /** A step keeps the order, but for a new turn, which comes last. */
  lemma StepKeepsOrder(s: State, i: Input, x: string, y: string)
    requires Inv(s) && Mintable(s, i.mint) && Precedes(Step(s, i).0.order, x, y)
    ensures x in s.open && (y !in s.open || Precedes(s.order, x, y))
  {
    OrderAfter(s, i);
    MovesKeep(s, Step(s, i).0.order, x, y);
  }
  /** Open turns are in the order they were begun: of any two there was a time when the later
      was not open, and since then the earlier always was. */
  lemma {:induction false} OrderIsByBeginning(run: seq<Session>, k: nat, x: string, y: string) returns (m: nat)
    requires Run(run) && k < |run| && Precedes(run[k].state.order, x, y)
    ensures m <= k && y !in run[m].state.open && forall n :: m <= n <= k ==> x in run[n].state.open
    decreases k
  {
    SessionAt(run, k);
    assert OrderIsOpen(run[k].state.open, run[k].state.order);
    if k == 0 {
      Runs.StartsAt(Init, Next, run);
      assert false;
    } else {
      OneStepKeepsOrder(run, k, x, y);
      if y in run[k - 1].state.open { m := OrderIsByBeginning(run, k - 1, x, y); } else { m := k - 1; }
    }
  }

  lemma OneStepKeepsOrder(run: seq<Session>, k: nat, x: string, y: string)
    requires Run(run) && 0 < k < |run| && Precedes(run[k].state.order, x, y)
    ensures x in run[k - 1].state.open && (y !in run[k - 1].state.open || Precedes(run[k - 1].state.order, x, y))
  {
    SessionAt(run, k - 1);
    Runs.StepAt(Init, Next, run, k);
    var i: Input :| Mintable(run[k - 1].state, i.mint) && run[k] == Fold(run[k - 1], i);
    StepKeepsOrder(run[k - 1].state, i, x, y);
  }
}
