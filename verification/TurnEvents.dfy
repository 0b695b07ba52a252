/**
 * The turns a native run emits: the closures over currentTurnID and turnUsage in
 * Run of wrapper/wrapper.go. The translator calls them one at a time, so a run is a
 * list of inputs followed by the flush at process exit.
 */
module TurnEvents {
  import opened Lists
  import opened Options

  datatype Report = Report(input: int, output: int, cacheCreation: int, cacheRead: int, cost: real, stop: string)

  datatype Kind =
    | TurnStarted | SessionProcessing | SessionIdle | TurnCompleted | TurnFailed
    | AgentDelta | AgentToolUse | AgentToolResult | AgentSubagentSpawn
    | PermissionRequested | PermissionResolved | PermissionDenied
    | SessionLost | PolicyFinding | AuthFailed | Heartbeat | ProcessExited

  /** The stop_reason of a terminal payload. */
  datatype Stop = NoStop | StopError | Reported(reason: string)

  /** An emitted event; a run on the heap carries its usage by reference. */
  datatype Event<+U> = Event(kind: Kind, turn: Option<nat>, usage: Option<U>, stop: Stop)

  datatype StreamEvent = Delta | Thinking | ToolUse | Error | Done | SessionId | OtherStream

  datatype ProviderEvent = ToolResult | SubagentSpawn | Lost | AuthFailure | Denied | Beat | OtherProvider

  datatype Input =
    | Usage(report: Option<Report>)
    | Stream(event: StreamEvent, finding: bool)  // finding: the policy observer has something to say
    | Provider(typed: ProviderEvent)
    | Permission

  datatype State = State(open: Option<nat>, minted: nat, usage: Option<Report>, events: seq<Event<Report>>)

  const FRESH := State(None, 0, None, [])

  // ---- kinds --------------------------------------------------------------------------------

  predicate IsTurnInternal(kind: Kind) {
    kind.AgentDelta? || kind.AgentToolUse? || kind.AgentToolResult? || kind.AgentSubagentSpawn?
    || kind.PermissionRequested? || kind.PermissionResolved? || kind.PermissionDenied?
  }

  predicate IsTurnTerminal(kind: Kind) {
    kind.TurnCompleted? || kind.TurnFailed?
  }

  predicate IsTurnScoped(kind: Kind) {
    IsTurnInternal(kind) || IsTurnTerminal(kind) || kind.SessionLost?
  }

  function StreamKind(ev: StreamEvent): Option<Kind> {
    match ev
    case Delta | Thinking => Some(AgentDelta)
    case ToolUse => Some(AgentToolUse)
    case Error => Some(TurnFailed)
    case Done => Some(TurnCompleted)
    case SessionId | OtherStream => None
  }

  function ProviderKind(ev: ProviderEvent): Option<Kind> {
    match ev
    case ToolResult => Some(AgentToolResult)
    case SubagentSpawn => Some(AgentSubagentSpawn)
    case Lost => Some(SessionLost)
    case AuthFailure => Some(AuthFailed)
    case Denied => Some(PermissionDenied)
    case Beat => Some(Heartbeat)
    case OtherProvider => None
  }

  // ---- usage --------------------------------------------------------------------------------

  /** mergeTurnUsage, on values. */
  function Merge(total: Option<Report>, u: Option<Report>): Option<Report> {
    if u.None? then total
    else if total.None? then u
    else
      var (t, r) := (total.value, u.value);
      Some(Report(t.input + r.input, t.output + r.output, t.cacheCreation + r.cacheCreation,
                  t.cacheRead + r.cacheRead, t.cost + r.cost, if r.stop != "" then r.stop else t.stop))
  }

  /** What translateStreamEvent, withStopReason and flushOpenTurn put under stop_reason. */
  function TerminalStop(kind: Kind, usage: Option<Report>): Stop {
    if kind.TurnFailed? then StopError
    else if usage.Some? && usage.value.stop != "" then Reported(usage.value.stop)
    else NoStop
  }

  // ---- the closures -------------------------------------------------------------------------

  function Emit(s: State, kind: Kind, turn: Option<nat>): State {
    s.(events := s.events + [Event(kind, turn, None, NoStop)])
  }

  function Opened(s: State): State {
    if s.open.Some? then s
    else
      Emit(Emit(s.(open := Some(s.minted), minted := s.minted + 1), TurnStarted, Some(s.minted)),
           SessionProcessing, Some(s.minted))
  }

  function Closed(s: State, kind: Kind): State
    requires s.open.Some?
  {
    var ended := s.(events := s.events + [Event(kind, s.open, s.usage, TerminalStop(kind, s.usage))]);
    Emit(ended, SessionIdle, s.open).(open := None, usage := None)
  }

  function Scope(s: State, kind: Kind): Option<nat> {
    if IsTurnScoped(kind) then s.open else None
  }

  function Observed(s: State, kind: Kind, finding: bool): State {
    if IsTurnTerminal(kind) then Closed(Opened(s), kind)
    else
      var begun := if IsTurnInternal(kind) then Opened(s) else s;
      var emitted := Emit(begun, kind, Scope(begun, kind));
      if kind.AgentToolUse? && finding then Emit(emitted, PolicyFinding, begun.open) else emitted
  }

  function ProviderObserved(s: State, kind: Kind): State {
    var begun := if IsTurnInternal(kind) then Opened(s) else s;
    Emit(begun, kind, Scope(begun, kind))
  }

  function Asked(s: State): State {
    var begun := Opened(s);
    Emit(Emit(begun, PermissionRequested, begun.open), PermissionResolved, begun.open)
  }

  function Step(s: State, i: Input): State {
    match i
    case Usage(report) => s.(usage := Merge(s.usage, report))
    case Stream(ev, finding) =>
      (match StreamKind(ev)
       case None => s
       case Some(kind) => Observed(s, kind, finding))
    case Provider(ev) =>
      (match ProviderKind(ev)
       case None => s
       case Some(kind) => ProviderObserved(s, kind))
    case Permission => Asked(s)
  }

  function Run(inputs: seq<Input>): State {
    if inputs == [] then FRESH else Step(Run(Front(inputs)), Last(inputs))
  }

  function Flushed(s: State): State {
    if s.open.None? then s.(usage := None) else Closed(s, TurnFailed)
  }

  /** Everything a run emits, process.exited last. */
  function WholeRun(inputs: seq<Input>): seq<Event<Report>> {
    Emit(Flushed(Run(inputs)), ProcessExited, None).events
  }

  // ---- the shape of a run ---------------------------------------------------------------------

  /** What a run is made of: whole turns, and events of no turn between them. */
  datatype Piece =
    | Outside(event: Event<Report>)
    | Turn(id: nat, body: seq<Event<Report>>, terminal: Event<Report>)

  function Plain(kind: Kind, turn: Option<nat>): Event<Report> {
    Event(kind, turn, None, NoStop)
  }

  function Opening(id: nat): seq<Event<Report>> {
    [Plain(TurnStarted, Some(id)), Plain(SessionProcessing, Some(id))]
  }

  function Written(piece: Piece): seq<Event<Report>> {
    match piece
    case Outside(e) => [e]
    case Turn(id, body, terminal) => Opening(id) + body + [terminal, Plain(SessionIdle, Some(id))]
  }

  function Flat(pieces: seq<Piece>): seq<Event<Report>> {
    if pieces == [] then [] else Flat(Front(pieces)) + Written(Last(pieces))
  }

  predicate NoTurn(e: Event<Report>) {
    e.turn.None? && (e.kind.SessionLost? || e.kind.AuthFailed? || e.kind.Heartbeat?)
  }

  predicate InBody(e: Event<Report>, id: nat) {
    || (e.turn == Some(id) && (IsTurnInternal(e.kind) || e.kind.SessionLost? || e.kind.PolicyFinding?))
    || (e.turn.None? && (e.kind.AuthFailed? || e.kind.Heartbeat?))
  }

  predicate Whole(piece: Piece) {
    match piece
    case Outside(e) => NoTurn(e)
    case Turn(id, body, terminal) =>
      && IsTurnTerminal(terminal.kind) && terminal.turn == Some(id)
      && forall e :: e in body ==> InBody(e, id)
  }

  /** Turns are whole and their ids increase, below the next id to be minted. */
  predicate WholeTurns(pieces: seq<Piece>, minted: nat) {
    && (forall piece :: piece in pieces ==> Whole(piece) && (piece.Turn? ==> piece.id < minted))
    && forall i, j :: 0 <= i < j < |pieces| && pieces[i].Turn? && pieces[j].Turn? ==> pieces[i].id < pieces[j].id
  }

  function OpenPart(open: Option<nat>, body: seq<Event<Report>>): seq<Event<Report>> {
    if open.None? then [] else Opening(open.value) + body
  }

  predicate Shaped(s: State, pieces: seq<Piece>, body: seq<Event<Report>>) {
    && s.events == Flat(pieces) + OpenPart(s.open, body)
    && (s.open.None? ==> body == [])
    && (s.open.Some? ==> s.minted == s.open.value + 1 && forall e :: e in body ==> InBody(e, s.open.value))
    && WholeTurns(pieces, if s.open.Some? then s.open.value else s.minted)
  }

  lemma OpenedIsShaped(s: State, pieces: seq<Piece>, body: seq<Event<Report>>)
    requires Shaped(s, pieces, body)
    ensures Shaped(Opened(s), pieces, body) && Opened(s).open.Some? && Opened(s).usage == s.usage
  {
  }

  lemma EmitInBody(s: State, kind: Kind, turn: Option<nat>, pieces: seq<Piece>, body: seq<Event<Report>>)
    requires Shaped(s, pieces, body) && s.open.Some? && InBody(Plain(kind, turn), s.open.value)
    ensures Shaped(Emit(s, kind, turn), pieces, body + [Plain(kind, turn)])
  {
  }

  lemma EmitOutside(s: State, kind: Kind, pieces: seq<Piece>)
    requires Shaped(s, pieces, []) && s.open.None? && NoTurn(Plain(kind, None))
    ensures Shaped(Emit(s, kind, None), pieces + [Outside(Plain(kind, None))], [])
  {
  }

  lemma ClosedIsShaped(s: State, kind: Kind, pieces: seq<Piece>, body: seq<Event<Report>>)
    requires Shaped(s, pieces, body) && s.open.Some? && IsTurnTerminal(kind)
    ensures var terminal := Event(kind, s.open, s.usage, TerminalStop(kind, s.usage));
      Shaped(Closed(s, kind), pieces + [Turn(s.open.value, body, terminal)], [])
  {
  }

  lemma EmitIsShaped(s: State, kind: Kind, pieces: seq<Piece>, body: seq<Event<Report>>)
    returns (pieces': seq<Piece>, body': seq<Event<Report>>)
    requires Shaped(s, pieces, body) && (IsTurnInternal(kind) ==> s.open.Some?)
    requires IsTurnInternal(kind) || kind.SessionLost? || kind.AuthFailed? || kind.Heartbeat?
    ensures Shaped(Emit(s, kind, Scope(s, kind)), pieces', body')
  {
    if s.open.Some? {
      EmitInBody(s, kind, Scope(s, kind), pieces, body);
      return pieces, body + [Plain(kind, Scope(s, kind))];
    } else {
      EmitOutside(s, kind, pieces);
      return pieces + [Outside(Plain(kind, None))], [];
    }
  }

  lemma StepIsShaped(s: State, i: Input, pieces: seq<Piece>, body: seq<Event<Report>>)
    returns (pieces': seq<Piece>, body': seq<Event<Report>>)
    requires Shaped(s, pieces, body)
    ensures Shaped(Step(s, i), pieces', body')
  {
    OpenedIsShaped(s, pieces, body);
    var begun := Opened(s);
    match i
    case Usage(_) => return pieces, body;
    case Stream(ev, finding) =>
      match StreamKind(ev) {
        case None => return pieces, body;
        case Some(kind) =>
          if IsTurnTerminal(kind) {
            ClosedIsShaped(begun, kind, pieces, body);
            return pieces + [Turn(begun.open.value, body,
                             Event(kind, begun.open, begun.usage, TerminalStop(kind, begun.usage)))], [];
          }
          EmitInBody(begun, kind, begun.open, pieces, body);
          pieces', body' := pieces, body + [Plain(kind, begun.open)];
          if kind.AgentToolUse? && finding {
            EmitInBody(Emit(begun, kind, begun.open), PolicyFinding, begun.open, pieces', body');
            body' := body' + [Plain(PolicyFinding, begun.open)];
          }
      }
    case Provider(ev) =>
      match ProviderKind(ev) {
        case None => return pieces, body;
        case Some(kind) =>
          pieces', body' := EmitIsShaped(if IsTurnInternal(kind) then begun else s, kind, pieces, body);
      }
    case Permission =>
      EmitInBody(begun, PermissionRequested, begun.open, pieces, body);
      body' := body + [Plain(PermissionRequested, begun.open)];
      EmitInBody(Emit(begun, PermissionRequested, begun.open), PermissionResolved, begun.open, pieces, body');
      return pieces, body' + [Plain(PermissionResolved, begun.open)];
  }

  lemma {:induction false} RunIsShaped(inputs: seq<Input>) returns (pieces: seq<Piece>, body: seq<Event<Report>>)
    ensures Shaped(Run(inputs), pieces, body)
  {
    if inputs == [] {
      return [], [];
    }
    pieces, body := RunIsShaped(Front(inputs));
    pieces, body := StepIsShaped(Run(Front(inputs)), Last(inputs), pieces, body);
  }

  /** Every run is whole turns (started, processing, body, one terminal, idle, all under one
      id, which no other turn has), events of no turn between them, and process.exited. */
  lemma RunsAreWholeTurns(inputs: seq<Input>) returns (pieces: seq<Piece>)
    ensures WholeRun(inputs) == Flat(pieces) + [Plain(ProcessExited, None)]
    ensures WholeTurns(pieces, Run(inputs).minted)
  {
    var body;
    pieces, body := RunIsShaped(inputs);
    var s := Run(inputs);
    if s.open.Some? {
      ClosedIsShaped(s, TurnFailed, pieces, body);
      pieces := pieces + [Turn(s.open.value, body, Event(TurnFailed, s.open, s.usage, StopError))];
    }
    assert Flat(pieces) + [] == Flat(pieces);
  }

  // ---- where usage goes -----------------------------------------------------------------------

  function Total(reports: seq<Option<Report>>): Option<Report> {
    if reports == [] then None else Merge(Total(Front(reports)), Last(reports))
  }

  predicate EndsTurn(i: Input) {
    i.Stream? && (i.event.Error? || i.event.Done?)
  }

  function ReportsOf(i: Input): seq<Option<Report>> {
    if i.Usage? then [i.report] else []
  }

  /** Everything reported, in order. */
  function Reports(inputs: seq<Input>): seq<Option<Report>> {
    if inputs == [] then [] else Reports(Front(inputs)) + ReportsOf(Last(inputs))
  }

  /** What was reported since the last terminal. */
  function Since(inputs: seq<Input>): seq<Option<Report>> {
    if inputs == [] || EndsTurn(Last(inputs)) then [] else Since(Front(inputs)) + ReportsOf(Last(inputs))
  }

  /** What was reported up to each terminal since the one before it. */
  function Shares(inputs: seq<Input>): seq<seq<Option<Report>>> {
    if inputs == [] then []
    else if EndsTurn(Last(inputs)) then Shares(Front(inputs)) + [Since(Front(inputs))]
    else Shares(Front(inputs))
  }

  function Joined(shares: seq<seq<Option<Report>>>): seq<Option<Report>> {
    if shares == [] then [] else Joined(Front(shares)) + Last(shares)
  }

  function Totals(shares: seq<seq<Option<Report>>>): seq<Option<Report>> {
    if shares == [] then [] else Totals(Front(shares)) + [Total(Last(shares))]
  }

  /** The usage on each terminal event. */
  function Riding(events: seq<Event<Report>>): seq<Option<Report>> {
    if events == [] then []
    else if IsTurnTerminal(Last(events).kind) then Riding(Front(events)) + [Last(events).usage]
    else Riding(Front(events))
  }

  lemma AppendOne<T>(s: seq<T>, x: T)
    ensures Front(s + [x]) == s && Last(s + [x]) == x
  {
  }

  lemma AppendAssoc<T>(a: seq<T>, b: seq<T>, c: seq<T>)
    ensures a + b + c == a + (b + c)
  {
  }

  lemma EmitRides(s: State, kind: Kind, turn: Option<nat>)
    requires !IsTurnTerminal(kind)
    ensures Riding(Emit(s, kind, turn).events) == Riding(s.events) && Emit(s, kind, turn).usage == s.usage
  {
  }

  lemma OpenedRides(s: State)
    ensures Riding(Opened(s).events) == Riding(s.events) && Opened(s).usage == s.usage
  {
  }

  lemma ClosedRides(s: State, kind: Kind)
    requires s.open.Some? && IsTurnTerminal(kind)
    ensures Riding(Closed(s, kind).events) == Riding(s.events) + [s.usage] && Closed(s, kind).usage.None?
  {
  }

  lemma ObservedRides(s: State, kind: Kind, finding: bool)
    ensures IsTurnTerminal(kind) ==>
      Riding(Observed(s, kind, finding).events) == Riding(s.events) + [s.usage] && Observed(s, kind, finding).usage.None?
    ensures !IsTurnTerminal(kind) ==>
      Riding(Observed(s, kind, finding).events) == Riding(s.events) && Observed(s, kind, finding).usage == s.usage
  {
    OpenedRides(s);
    if IsTurnTerminal(kind) {
      ClosedRides(Opened(s), kind);
    } else {
      var begun := if IsTurnInternal(kind) then Opened(s) else s;
      EmitRides(begun, kind, Scope(begun, kind));
      EmitRides(Emit(begun, kind, Scope(begun, kind)), PolicyFinding, begun.open);
    }
  }

  lemma ProviderRides(s: State, kind: Kind)
    requires !IsTurnTerminal(kind)
    ensures Riding(ProviderObserved(s, kind).events) == Riding(s.events) && ProviderObserved(s, kind).usage == s.usage
  {
    OpenedRides(s);
    var begun := if IsTurnInternal(kind) then Opened(s) else s;
    EmitRides(begun, kind, Scope(begun, kind));
  }

  lemma AskedRides(s: State)
    ensures Riding(Asked(s).events) == Riding(s.events) && Asked(s).usage == s.usage
  {
    OpenedRides(s);
    var begun := Opened(s);
    EmitRides(begun, PermissionRequested, begun.open);
    EmitRides(Emit(begun, PermissionRequested, begun.open), PermissionResolved, begun.open);
  }

  /** What one input does to the usage: it ends a turn with it, adds to it, or leaves it. */
  lemma StepRides(s: State, i: Input)
    ensures EndsTurn(i) ==>
      Riding(Step(s, i).events) == Riding(s.events) + [s.usage] && Step(s, i).usage.None?
    ensures !EndsTurn(i) ==>
      Riding(Step(s, i).events) == Riding(s.events) && Step(s, i).usage == (if i.Usage? then Merge(s.usage, i.report) else s.usage)
  {
    match i
    case Usage(_) =>
    case Stream(ev, finding) =>
      if StreamKind(ev).Some? { ObservedRides(s, StreamKind(ev).value, finding); }
    case Provider(ev) =>
      if ProviderKind(ev).Some? { ProviderRides(s, ProviderKind(ev).value); }
    case Permission =>
      AskedRides(s);
  }

  /** Each terminal event carries the total of exactly what was reported since the one
      before it; what is left is still being totalled. */
  lemma {:induction false} UsageRidesOnItsTerminal(inputs: seq<Input>)
    ensures Riding(Run(inputs).events) == Totals(Shares(inputs))
    ensures Run(inputs).usage == Total(Since(inputs))
  {
    if inputs != [] {
      UsageRidesOnItsTerminal(Front(inputs));
      StepRides(Run(Front(inputs)), Last(inputs));
      if EndsTurn(Last(inputs)) {
        AppendOne(Shares(Front(inputs)), Since(Front(inputs)));
      } else if Last(inputs).Usage? {
        AppendOne(Since(Front(inputs)), Last(inputs).report);
      } else {
        assert Since(Front(inputs)) + [] == Since(Front(inputs));
      }
    }
  }

  /** The shares and the rest are the reports, each once and in order. */
  lemma {:induction false} SharesPartition(inputs: seq<Input>)
    ensures Joined(Shares(inputs)) + Since(inputs) == Reports(inputs)
  {
    if inputs != [] {
      SharesPartition(Front(inputs));
      if EndsTurn(Last(inputs)) {
        AppendOne(Shares(Front(inputs)), Since(Front(inputs)));
      } else {
        AppendAssoc(Joined(Shares(Front(inputs))), Since(Front(inputs)), ReportsOf(Last(inputs)));
      }
    }
  }

  /** What the flush puts on one more terminal, and what it drops. */
  function FlushedUsage(open: bool, since: seq<Option<Report>>): seq<Option<Report>> {
    if open then [Total(since)] else []
  }

  function Dropped(open: bool, since: seq<Option<Report>>): seq<Option<Report>> {
    if open then [] else since
  }

  /** Over a whole run the flush adds the rest to one more terminal, if a turn was open, and
      drops it otherwise. */
  lemma UsageOfAWholeRun(inputs: seq<Input>)
    ensures Riding(WholeRun(inputs)) == Totals(Shares(inputs)) + FlushedUsage(Run(inputs).open.Some?, Since(inputs))
  {
    UsageRidesOnItsTerminal(inputs);
    var s := Run(inputs);
    if s.open.Some? { ClosedRides(s, TurnFailed); }
    EmitRides(Flushed(s), ProcessExited, None);
  }

  // ---- conservation ---------------------------------------------------------------------------

  /** Counts that add up: a report without its stop reason. */
  datatype Counts = Counts(input: int, output: int, cacheCreation: int, cacheRead: int, cost: real)

  const NOTHING := Counts(0, 0, 0, 0, 0.0)

  function CountsOf(r: Option<Report>): Counts {
    if r.None? then NOTHING
    else Counts(r.value.input, r.value.output, r.value.cacheCreation, r.value.cacheRead, r.value.cost)
  }

  function Plus(a: Counts, b: Counts): Counts {
    Counts(a.input + b.input, a.output + b.output, a.cacheCreation + b.cacheCreation,
           a.cacheRead + b.cacheRead, a.cost + b.cost)
  }

  function Sum(reports: seq<Option<Report>>): Counts {
    if reports == [] then NOTHING else Plus(Sum(Front(reports)), CountsOf(Last(reports)))
  }

  function StopOf(r: Option<Report>): string {
    if r.Some? then r.value.stop else ""
  }

  /** The last stop reason that is not empty. */
  function LatestStop(reports: seq<Option<Report>>): string {
    if reports == [] then ""
    else if StopOf(Last(reports)) != "" then StopOf(Last(reports))
    else LatestStop(Front(reports))
  }

  lemma MergeAdds(total: Option<Report>, u: Option<Report>)
    ensures CountsOf(Merge(total, u)) == Plus(CountsOf(total), CountsOf(u))
  {
  }

  /** Merging report by report adds the counts. */
  lemma {:induction false} TotalIsTheSum(reports: seq<Option<Report>>)
    ensures CountsOf(Total(reports)) == Sum(reports)
  {
    if reports != [] {
      TotalIsTheSum(Front(reports));
      MergeAdds(Total(Front(reports)), Last(reports));
    }
  }

  /** The total keeps the last stop reason. */
  lemma {:induction false} TotalKeepsTheStop(reports: seq<Option<Report>>)
    ensures StopOf(Total(reports)) == LatestStop(reports)
  {
    if reports != [] {
      TotalKeepsTheStop(Front(reports));
    }
  }

  /** There is a total exactly when something was reported. */
  lemma {:induction false} TotalOfSomething(reports: seq<Option<Report>>)
    ensures Total(reports).Some? <==> exists i :: 0 <= i < |reports| && reports[i].Some?
  {
    if reports != [] {
      TotalOfSomething(Front(reports));
      assert forall i :: 0 <= i < |reports| - 1 ==> Front(reports)[i] == reports[i];
    }
  }

  lemma {:induction false} SumOfJoined(a: seq<Option<Report>>, b: seq<Option<Report>>)
    ensures Sum(a + b) == Plus(Sum(a), Sum(b))
  {
    if b == [] {
      assert a + b == a;
    } else {
      assert Front(a + b) == a + Front(b) && Last(a + b) == Last(b);
      SumOfJoined(a, Front(b));
    }
  }

  lemma {:induction false} SumOfTotals(shares: seq<seq<Option<Report>>>)
    ensures Sum(Totals(shares)) == Sum(Joined(shares))
  {
    if shares != [] {
      SumOfTotals(Front(shares));
      SumOfJoined(Joined(Front(shares)), Last(shares));
      TotalIsTheSum(Last(shares));
      AppendOne(Totals(Front(shares)), Total(Last(shares)));
    }
  }

  lemma SumOfOne(r: Option<Report>)
    ensures Sum([r]) == CountsOf(r)
  {
  }

  lemma SumOfNone()
    ensures Sum([]) == NOTHING
  {
  }

  lemma SumOfReports(inputs: seq<Input>)
    ensures Sum(Reports(inputs)) == Plus(Sum(Totals(Shares(inputs))), Sum(Since(inputs)))
  {
    SharesPartition(inputs);
    SumOfJoined(Joined(Shares(inputs)), Since(inputs));
    SumOfTotals(Shares(inputs));
  }

  lemma SumOfRiding(inputs: seq<Input>)
    ensures Sum(Riding(WholeRun(inputs))) == Plus(Sum(Totals(Shares(inputs))), Sum(FlushedUsage(Run(inputs).open.Some?, Since(inputs))))
  {
    UsageOfAWholeRun(inputs);
    SumOfJoined(Totals(Shares(inputs)), FlushedUsage(Run(inputs).open.Some?, Since(inputs)));
  }

  lemma FlushedOrDropped(open: bool, since: seq<Option<Report>>, a: Counts)
    ensures Plus(Plus(a, Sum(FlushedUsage(open, since))), Sum(Dropped(open, since))) == Plus(a, Sum(since))
  {
    SumOfNone();
    if open {
      SumOfOne(Total(since));
      TotalIsTheSum(since);
    }
  }

  /** What the terminal events carry and what the flush drops is everything reported. */
  lemma UsageIsConserved(inputs: seq<Input>)
    ensures Plus(Sum(Riding(WholeRun(inputs))), Sum(Dropped(Run(inputs).open.Some?, Since(inputs)))) == Sum(Reports(inputs))
  {
    SumOfReports(inputs);
    SumOfRiding(inputs);
    FlushedOrDropped(Run(inputs).open.Some?, Since(inputs), Sum(Totals(Shares(inputs))));
  }
}
