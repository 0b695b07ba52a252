/**
 * The turn closures of Run as they are written: a turn id, a pointer to the usage of the
 * open turn, and the activity bridge. A terminal event carries that pointer, so what was
 * emitted stays as it was only because nothing writes through it afterwards.
 */
module TurnEmitter {
  import opened Options
  import opened TurnEvents

  /** llmtypes.Usage. */
  class UsageReport {
    var input: int
    var output: int
    var cacheCreation: int
    var cacheRead: int
    var cost: real
    var stop: string

    constructor (r: Report)
      ensures Value() == r
    {
      input, output, cacheCreation, cacheRead, cost, stop :=
        r.input, r.output, r.cacheCreation, r.cacheRead, r.cost, r.stop;
    }

    function Value(): Report
      reads this
    {
      Report(input, output, cacheCreation, cacheRead, cost, stop)
    }
  }

  function ValueOf(u: UsageReport?): Option<Report>
    reads u
  {
    if u == null then None else Some(u.Value())
  }

  /** mergeTurnUsage: the total is written in place, and never is the report itself. */
  method MergeTurnUsage(total: UsageReport?, u: UsageReport?) returns (merged: UsageReport?)
    requires total != null ==> total != u
    modifies total
    ensures ValueOf(merged) == Merge(old(ValueOf(total)), old(ValueOf(u)))
    ensures merged == total || (total == null && merged != null && fresh(merged))
  {
    if u == null {
      return total;
    }
    if total == null {
      merged := new UsageReport(u.Value());
      return;
    }
    total.input := total.input + u.input;
    total.output := total.output + u.output;
    total.cacheCreation := total.cacheCreation + u.cacheCreation;
    total.cacheRead := total.cacheRead + u.cacheRead;
    total.cost := total.cost + u.cost;
    if u.stop != "" {
      total.stop := u.stop;
    }
    return total;
  }

  /** The usage objects events carry. */
  ghost function UsagesOf(events: seq<Event<UsageReport>>): set<UsageReport> {
    set i | 0 <= i < |events| && events[i].usage.Some? :: events[i].usage.value
  }

  /** Events, with each usage as it now reads. */
  ghost function Reading(events: seq<Event<UsageReport>>): (r: seq<Event<Report>>)
    reads UsagesOf(events)
    ensures |r| == |events|
  {
    seq(|events|, i requires 0 <= i < |events| reads UsagesOf(events) =>
      Event(events[i].kind, events[i].turn,
            if events[i].usage.None? then None else Some(UsageAt(events, i)), events[i].stop))
  }

  ghost function UsageAt(events: seq<Event<UsageReport>>, i: nat): Report
    requires i < |events| && events[i].usage.Some?
    reads UsagesOf(events)
  {
    var u := events[i].usage.value;
    assert u in UsagesOf(events);
    u.Value()
  }

  lemma OneMoreEvent(events: seq<Event<UsageReport>>, ev: Event<UsageReport>)
    ensures UsagesOf(events + [ev]) == UsagesOf(events) + (if ev.usage.None? then {} else {ev.usage.value})
    ensures Reading(events + [ev])
      == Reading(events) + [Event(ev.kind, ev.turn, if ev.usage.None? then None else Some(ev.usage.value.Value()), ev.stop)]
  {
    forall u | u in UsagesOf(events) ensures u in UsagesOf(events + [ev]) {
      var i :| 0 <= i < |events| && events[i].usage == Some(u);
      assert (events + [ev])[i].usage == Some(u);
    }
    assert ev.usage.Some? ==> (events + [ev])[|events|].usage.value in UsagesOf(events + [ev]);
  }

  class Turns {
    var currentTurnID: Option<nat>
    var minted: nat
    var turnUsage: UsageReport?
    var events: seq<Event<UsageReport>>

    /** The usage objects the sink has been given. */
    ghost function Given(): set<UsageReport>
      reads `events
    {
      UsagesOf(events)
    }

    /** The running total is not one of them. */
    ghost predicate Valid()
      reads this
    {
      turnUsage != null ==> turnUsage !in Given()
    }

    /** What the sink was given, with each usage as it now reads. */
    ghost function Emitted(): seq<Event<Report>>
      reads `events, Given()
    {
      Reading(events)
    }

    ghost function View(): State
      reads this, Given(), turnUsage
    {
      State(currentTurnID, minted, ValueOf(turnUsage), Emitted())
    }

    constructor ()
      ensures Valid() && View() == FRESH
    {
      currentTurnID, minted, turnUsage, events := None, 0, null, [];
    }

    method AddTurnUsage(u: UsageReport?)
      requires Valid() && (turnUsage != null ==> u != turnUsage)
      modifies `turnUsage, turnUsage
      ensures Valid() && View() == old(Step(View(), Usage(ValueOf(u))))
      ensures forall g :: g in old(Given()) ==> g.Value() == old(g.Value())
      ensures turnUsage == old(turnUsage) || (turnUsage != null && fresh(turnUsage))
    {
      turnUsage := MergeTurnUsage(turnUsage, u);
    }

    method EmitEvent(kind: Kind, turn: Option<nat>)
      requires Valid()
      modifies `events
      ensures Valid() && Given() == old(Given())
      ensures View() == Emit(old(View()), kind, turn)
    {
      OneMoreEvent(events, Event(kind, turn, None, NoStop));
      events := events + [Event(kind, turn, None, NoStop)];
    }

    method OpenTurn()
      requires Valid()
      modifies `events, `currentTurnID, `minted
      ensures Valid() && Given() == old(Given())
      ensures View() == old(Opened(View()))
    {
      if currentTurnID == None {
        currentTurnID := Some(minted);
        minted := minted + 1;
        EmitEvent(TurnStarted, currentTurnID);
        EmitEvent(SessionProcessing, currentTurnID);
      }
    }

    method EmitTerminal(kind: Kind)
      requires currentTurnID.Some?
      modifies `events
      ensures Given() == old(Given()) + (if turnUsage == null then {} else {turnUsage})
      ensures Emitted() == old(Emitted() + [Event(kind, currentTurnID, ValueOf(turnUsage), TerminalStop(kind, ValueOf(turnUsage)))])
    {
      var stop := if kind.TurnFailed? then StopError
                  else if turnUsage != null && turnUsage.stop != "" then Reported(turnUsage.stop)
                  else NoStop;
      var terminal := Event(kind, currentTurnID, if turnUsage == null then None else Some(turnUsage), stop);
      OneMoreEvent(events, terminal);
      events := events + [terminal];
    }

    /** The terminal event takes the usage; the turn lets go of it. */
    method CloseTurn(kind: Kind)
      requires Valid() && currentTurnID.Some?
      modifies `events, `currentTurnID, `turnUsage
      ensures Valid() && turnUsage == null
      ensures View() == old(Closed(View(), kind))
    {
      var closed := currentTurnID;
      EmitTerminal(kind);
      turnUsage := null;
      currentTurnID := None;
      EmitEvent(SessionIdle, closed);
    }

    /** An event that ends no turn, and the finding of a tool call it is about. */
    method EmitInside(kind: Kind, finding: bool)
      requires Valid()
      modifies `events
      ensures Valid()
      ensures View() == var emitted := Emit(old(View()), kind, Scope(old(View()), kind));
        if kind.AgentToolUse? && finding then Emit(emitted, PolicyFinding, old(currentTurnID)) else emitted
    {
      EmitEvent(kind, if currentTurnID != None && IsTurnScoped(kind) then currentTurnID else None);
      if kind == AgentToolUse && finding {
        EmitEvent(PolicyFinding, currentTurnID);
      }
    }

    /** emitObserved. */
    method EmitObserved(kind: Kind, finding: bool)
      requires Valid()
      modifies `events, `currentTurnID, `minted, `turnUsage
      ensures Valid() && View() == old(Observed(View(), kind, finding))
      ensures turnUsage == if IsTurnTerminal(kind) then null else old(turnUsage)
    {
      var terminal := IsTurnTerminal(kind);
      if currentTurnID == None && (IsTurnInternal(kind) || terminal) {
        OpenTurn();
      }
      assert View() == if IsTurnInternal(kind) || terminal then Opened(old(View())) else old(View());
      if terminal {
        CloseTurn(kind);
      } else {
        EmitInside(kind, finding);
      }
    }

    /** emitProviderObserved. */
    method EmitProviderObserved(kind: Kind)
      requires Valid()
      modifies `events, `currentTurnID, `minted
      ensures Valid() && View() == old(ProviderObserved(View(), kind))
    {
      if currentTurnID == None && IsTurnInternal(kind) {
        OpenTurn();
      }
      EmitEvent(kind, if currentTurnID != None && IsTurnScoped(kind) then currentTurnID else None);
    }

    /** The emit function of a JSON-RPC permission request. */
    method EmitPermission()
      requires Valid()
      modifies `events, `currentTurnID, `minted
      ensures Valid() && View() == old(Asked(View()))
    {
      OpenTurn();
      var turn := currentTurnID;
      EmitEvent(PermissionRequested, turn);
      EmitEvent(PermissionResolved, turn);
    }

    /** One turn of the translator loop over a stream event. */
    method Translate(ev: StreamEvent, finding: bool)
      requires Valid()
      modifies `events, `currentTurnID, `minted, `turnUsage
      ensures Valid() && View() == old(Step(View(), Stream(ev, finding)))
      ensures turnUsage == null || turnUsage == old(turnUsage)
    {
      var kind := StreamKind(ev);
      if kind.Some? {
        EmitObserved(kind.value, finding);
      }
    }

    method FlushOpenTurn()
      requires Valid()
      modifies `events, `currentTurnID, `turnUsage
      ensures Valid() && View() == old(Flushed(View())) && turnUsage == null
    {
      if currentTurnID == None {
        turnUsage := null;
        return;
      }
      CloseTurn(TurnFailed);
    }
  }
}
