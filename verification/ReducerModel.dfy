/**
 * The turn-output reducer of turnoutput/reducer.go, on values: which turn an event
 * belongs to, which terminal events are repeats, and what is remembered of turns that
 * ended. Events are as the feeds of turnoutput/feed.go decode them; each comes with the
 * id the reducer would mint for it.
 */
module ReducerModel {
  import opened Bytes
  import opened Lists
  import opened Options
  import opened TurnInvariants
  import opened TurnModel
  import opened Utf8

  const FINISHED_MEMORY := 64
  const MAX_OPEN_TURNS := 64

  /** How the last completed turn ended. */
  datatype DoneSignature = DoneSignature(stop: StopReason, text: seq<Byte>)

  const NO_DONE := DoneSignature(NoStop, [])

  datatype State = State(
    open: map<string, Turn>, order: seq<string>, finished: seq<string>,
    settled: bool, lastDone: DoneSignature, lastError: seq<Byte>,
    heldStop: StopReason, pendingStop: StopReason)

  const NEW := State(map[], [], [], false, NO_DONE, [], NoStop, NoStop)

  datatype Event =
    | Started(turn: string)
    | Body(turn: string, op: Option<Op>)  // no operation: thinking, or a payload that cannot be read
    | Usage(stop: StopReason)
    | Ended(turn: string, term: Ending)
    | Exited(errText: seq<Byte>)
    | Flush(reason: seq<Byte>)

  /** An event, and the id a turn it starts would get. */
  datatype Input = Input(event: Event, mint: string)

  // ---- the reducer's steps ----------------------------------------------------------------------

  function Current(s: State): Option<string> {
    if s.order == [] then None else Some(Last(s.order))
  }

  /** The oldest turn goes when there are too many. */
  function Evicted(open: map<string, Turn>, order: seq<string>): map<string, Turn> {
    if |order| > MAX_OPEN_TURNS then open - {order[0]} else open
  }

  /** begin: a new turn, which takes a stop reason that led it. */
  function Begun(s: State, id: string): State {
    var t := NewTurn(id).(usageStop := s.pendingStop);
    s.(open := Evicted(s.open[id := t], s.order + [id]), order := Newest(s.order + [id], MAX_OPEN_TURNS),
       settled := false, pendingStop := NoStop, heldStop := NoStop)
  }

  /** body: the turn an event belongs to, begun if need be; none for a turn already reported. */
  function BodyTurn(s: State, id: string, mint: string): (r: (State, Option<string>)) {
    if id == "" then
      if Current(s).Some? then (s, Current(s)) else (Begun(s, mint), Some(mint))
    else if id in s.open then (s, Some(id))
    else if id in s.finished then (s, None)
    else (Begun(s, id), Some(id))
  }

  function NotedStop(s: State, stop: StopReason): State
    requires s.order != [] ==> Last(s.order) in s.open
  {
    if stop == NoStop then s
    else if s.order != [] then s.(open := s.open[Last(s.order) := s.open[Last(s.order)].(usageStop := stop)])
    else if s.settled then s.(heldStop := stop)
    else s.(pendingStop := stop)
  }

  /** A terminal event with no turn open and no id that only repeats the last one. */
  predicate Repeats(s: State, term: Ending) {
    s.settled &&
    if term.failed then TrimSpace(term.errText) != [] && TrimSpace(term.errText) == s.lastError
    else
      var stop := if term.stopReason != NoStop then term.stopReason else s.heldStop;
      !stop.Cancelled? && s.lastDone == DoneSignature(stop, TrimSpace(term.text))
  }

  /** ending: the turn a terminal event closes, if it is not a repeat. */
  function EndingTurn(s: State, id: string, term: Ending, mint: string): Option<Turn>
    requires s.order != [] ==> Last(s.order) in s.open
  {
    if id != "" then
      if id in s.open then Some(s.open[id]) else if id in s.finished then None else Some(NewTurn(id))
    else if s.order != [] then Some(s.open[Last(s.order)])
    else if Repeats(s, term) then None
    else Some(NewTurn(mint).(usageStop := if s.heldStop != NoStop then s.heldStop else s.pendingStop))
  }

  /** finish: the turn is closed, reported and remembered. */
  function Finished(s: State, t: Turn, term: Ending): State {
    var order := Without(s.order, t.id);
    State(s.open - {t.id}, order, Newest(s.finished + [t.id], FINISHED_MEMORY), order == [],
          if term.failed then NO_DONE else DoneSignature(EndingStop(t, term), TrimSpace(term.text)),
          if term.failed then TrimSpace(term.errText) else s.lastError,
          NoStop, NoStop)
  }

  function FlushEnding(reason: seq<Byte>): Ending {
    Ending(true, [], true, ReasonOf(if TrimSpace(reason) == [] then ReasonText(ProcessExited) else reason), NoStop, [])
  }

  function ReasonOf(text: seq<Byte>): Reason {
    if text == [] then NoReason
    else if text == ReasonText(Interrupted) then Interrupted
    else if text == ReasonText(ProcessExited) then ProcessExited
    else OtherReason(text)
  }

  function ExitEnding(errText: seq<Byte>): Ending {
    Ending(true, errText, false, ProcessExited, NoStop, [])
  }

  /** The order lists the open turns, each once and 64 at most. */
  ghost predicate OrderIsOpen(open: map<string, Turn>, order: seq<string>) {
    && Distinct(order) && |order| <= MAX_OPEN_TURNS
    && forall id :: id in open <==> id in order
  }

  ghost predicate TurnsAreTheirs(open: map<string, Turn>) {
    forall id :: id in open ==> id != "" && open[id].id == id && Reachable(open[id])
  }

  /** No turn is both open and remembered as finished. */
  ghost predicate FinishedIsApart(finished: seq<string>, open: map<string, Turn>) {
    && Distinct(finished) && |finished| <= FINISHED_MEMORY
    && forall id :: id in finished ==> id !in open
  }

  /** A stop reason is held only between turns, and waits only before the first event. */
  ghost predicate StopsAreBetweenTurns(s: State) {
    && (s.settled ==> s.order == [])
    && (s.heldStop != NoStop ==> s.settled)
    && (s.pendingStop != NoStop ==> s.order == [] && !s.settled)
  }

  ghost predicate Inv(s: State) {
    OrderIsOpen(s.open, s.order) && TurnsAreTheirs(s.open) && FinishedIsApart(s.finished, s.open) && StopsAreBetweenTurns(s)
  }

  /** A minted id is new to the reducer. */
  predicate Mintable(s: State, mint: string) {
    mint != "" && mint !in s.open && mint !in s.finished
  }

  // ---- what every step keeps ----------------------------------------------------------------------

  lemma DistinctNewest(list: seq<string>, n: nat)
    requires Distinct(list)
    ensures Distinct(Newest(list, n)) && |Newest(list, n)| <= n
    ensures |list| <= n ==> Newest(list, n) == list
    ensures |list| == n + 1 ==> forall y :: y in Newest(list, n) <==> y in list && y != list[0]
  {
  }

  lemma OrderGrows(open: map<string, Turn>, order: seq<string>, id: string, t: Turn)
    requires OrderIsOpen(open, order) && id !in open
    ensures var now := Evicted(open[id := t], order + [id]);
      OrderIsOpen(now, Newest(order + [id], MAX_OPEN_TURNS)) && id in now
  {
    DistinctNewest(order + [id], MAX_OPEN_TURNS);
    if |order| == MAX_OPEN_TURNS { assert order[0] in order; }
  }

  lemma BegunKeeps(s: State, id: string)
    requires Inv(s) && Mintable(s, id)
    ensures Inv(Begun(s, id)) && id in Begun(s, id).open
    ensures Begun(s, id).finished == s.finished
  {
    var t := NewTurn(id).(usageStop := s.pendingStop);
    OrderGrows(s.open, s.order, id, t);
    OneMoreTurn(s.open, id, t);
    assert FinishedIsApart(s.finished, Evicted(s.open[id := t], s.order + [id]));
  }

  lemma OneMoreTurn(open: map<string, Turn>, id: string, t: Turn)
    requires TurnsAreTheirs(open) && id != "" && t.id == id && Reachable(t)
    ensures TurnsAreTheirs(open[id := t])
  {
  }

  lemma BodyKeeps(s: State, id: string, mint: string)
    requires Inv(s) && Mintable(s, mint)
    ensures var (now, turn) := BodyTurn(s, id, mint);
      Inv(now) && now.finished == s.finished && (turn.Some? ==> turn.value in now.open)
  {
    if id == "" && s.order == [] {
      BegunKeeps(s, mint);
    } else if id == "" {
      assert Last(s.order) in s.order;
    } else if id !in s.open && id !in s.finished {
      BegunKeeps(s, id);
    }
  }

  lemma OpKeeps(s: State, id: string, op: Op)
    requires Inv(s) && id in s.open
    ensures Inv(s.(open := s.open[id := Apply(s.open[id], op)]))
  {
    ApplyIsReachable(s.open[id], op);
    ApplyKeepsID(s.open[id], op);
  }

  lemma {:induction false} TrimKeepsID(t: Turn)
    requires WellFormed(t)
    ensures Trim(t).id == t.id && Trim(t).usageStop == t.usageStop
    decreases |t.buffer.blocks|
  {
    if TooMuch(|t.buffer.blocks|, t.buffer.bytes) {
      TrimKeepsID(DropOldest(t));
    }
  }

  lemma ApplyKeepsID(t: Turn, op: Op)
    requires WellFormed(t)
    ensures Apply(t, op).id == t.id && (!op.NoteStop? ==> Apply(t, op).usageStop == t.usageStop)
  {
    if op.Delta? {
      AppendCounts(t.buffer, op.text, op.blockID, op.final);
      TrimKeepsID(t.(buffer := Append(t.buffer, op.text, op.blockID, op.final)));
    }
  }

  lemma StopKeeps(s: State, stop: StopReason)
    requires Inv(s)
    ensures s.order != [] ==> Last(s.order) in s.open
    ensures Inv(NotedStop(s, stop)) && NotedStop(s, stop).finished == s.finished
  {
  }

  lemma FinishKeeps(s: State, t: Turn, term: Ending)
    requires Inv(s) && t.id !in s.finished
    ensures Inv(Finished(s, t, term))
  {
    WithoutOne(s.order, t.id);
    DistinctNewest(s.finished + [t.id], FINISHED_MEMORY);
  }

  // ---- one step -------------------------------------------------------------------------------------

  /** A turn that ended, and how; its output is OutputOf. */
  datatype Closed = Closed(turn: Turn, term: Ending)

  ghost function CloseOne(s: State, t: Option<Turn>, term: Ending): (State, Option<Closed>) {
    if t.None? then (s, None) else (Finished(s, t.value, term), Some(Closed(t.value, term)))
  }

  ghost function CurrentTurn(s: State): (t: Option<Turn>)
    requires Inv(s)
    ensures t.Some? ==> t.value.id != "" && t.value.id !in s.finished
  {
    if s.order == [] then None
    else
      assert Last(s.order) in s.order;
      Some(s.open[Last(s.order)])
  }

  ghost function Operated(s: State, turn: string, op: Option<Op>, mint: string): State
    requires Inv(s) && Mintable(s, mint)
  {
    BodyKeeps(s, turn, mint);
    var (now, id) := BodyTurn(s, turn, mint);
    if id.None? || op.None? then now else now.(open := now.open[id.value := Apply(now.open[id.value], op.value)])
  }

  ghost function Step(s: State, i: Input): (State, Option<Closed>)
    requires Inv(s) && Mintable(s, i.mint)
  {
    match i.event
    case Started(turn) => (if turn == "" then s else BodyTurn(s, turn, i.mint).0, None)
    case Body(turn, op) => (Operated(s, turn, op, i.mint), None)
    case Usage(stop) => StopKeeps(s, stop); (NotedStop(s, stop), None)
    case Ended(turn, term) => CloseOne(s, EndingTurn(s, turn, term, i.mint), term)
    case Exited(errText) => CloseOne(s, CurrentTurn(s), ExitEnding(errText))
    case Flush(reason) => CloseOne(s, CurrentTurn(s), FlushEnding(reason))
  }

  lemma OperatedKeeps(s: State, turn: string, op: Option<Op>, mint: string)
    requires Inv(s) && Mintable(s, mint)
    ensures Inv(Operated(s, turn, op, mint)) && Operated(s, turn, op, mint).finished == s.finished
  {
    BodyKeeps(s, turn, mint);
    var (now, id) := BodyTurn(s, turn, mint);
    if id.Some? && op.Some? { OpKeeps(now, id.value, op.value); }
  }

  lemma CloseOneKeeps(s: State, t: Option<Turn>, term: Ending)
    requires Inv(s) && (t.Some? ==> t.value.id !in s.finished)
    ensures Inv(CloseOne(s, t, term).0)
  {
    if t.Some? { FinishKeeps(s, t.value, term); }
  }

  lemma EndedKeeps(s: State, turn: string, term: Ending, mint: string)
    requires Inv(s) && Mintable(s, mint)
    ensures var (now, closed) := Step(s, Input(Ended(turn, term), mint));
      Inv(now) && (closed.Some? ==> closed.value.turn.id !in s.finished)
  {
    CloseOneKeeps(s, EndingTurn(s, turn, term, mint), term);
  }

  lemma StartedKeeps(s: State, turn: string, mint: string)
    requires Inv(s) && Mintable(s, mint)
    ensures Inv(Step(s, Input(Started(turn), mint)).0)
  {
    if turn != "" { BodyKeeps(s, turn, mint); }
  }

  lemma CurrentKeeps(s: State, term: Ending)
    requires Inv(s)
    ensures Inv(CloseOne(s, CurrentTurn(s), term).0)
  {
    CloseOneKeeps(s, CurrentTurn(s), term);
  }

  lemma BodyStepKeeps(s: State, i: Input)
    requires Inv(s) && Mintable(s, i.mint) && i.event.Body?
    ensures Inv(Step(s, i).0)
  {
    OperatedKeeps(s, i.event.turn, i.event.op, i.mint);
    assert Step(s, i).0 == Operated(s, i.event.turn, i.event.op, i.mint);
  }

  lemma UsageKeeps(s: State, i: Input)
    requires Inv(s) && Mintable(s, i.mint) && i.event.Usage?
    ensures Inv(Step(s, i).0)
  {
    StopKeeps(s, i.event.stop);
    assert Step(s, i).0 == NotedStop(s, i.event.stop);
  }

  lemma GoneKeeps(s: State, i: Input)
    requires Inv(s) && Mintable(s, i.mint) && (i.event.Exited? || i.event.Flush?)
    ensures Inv(Step(s, i).0)
  {
    CurrentKeeps(s, if i.event.Exited? then ExitEnding(i.event.errText) else FlushEnding(i.event.reason));
  }

  lemma StepKeepsInv(s: State, i: Input)
    requires Inv(s) && Mintable(s, i.mint)
    ensures Inv(Step(s, i).0)
  {
    match i.event
    case Started(turn) => StartedKeeps(s, turn, i.mint);
    case Body(_, _) => BodyStepKeeps(s, i);
    case Usage(_) => UsageKeeps(s, i);
    case Ended(turn, term) => EndedKeeps(s, turn, term, i.mint);
    case _ => GoneKeeps(s, i);
  }

  lemma ClosedIsNew(s: State, i: Input)
    requires Inv(s) && Mintable(s, i.mint)
    ensures var closed := Step(s, i).1; closed.Some? ==> closed.value.turn.id !in s.finished
  {
  }

  /** Every step keeps the books, and closes only a turn not among those remembered. */
  lemma StepKeeps(s: State, i: Input)
    requires Inv(s) && Mintable(s, i.mint)
    ensures Inv(Step(s, i).0)
    ensures var closed := Step(s, i).1; closed.Some? ==> closed.value.turn.id !in s.finished
  {
    StepKeepsInv(s, i);
    ClosedIsNew(s, i);
  }
}
