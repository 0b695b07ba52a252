/**
 * The permission coordinator of acp/permission.go as values: every section the
 * code runs under its mutex is one function from the coordinator before it to the
 * coordinator after it.
 *
 * A turn object is named by its generation: BeginTurn makes exactly one object per
 * generation, so two pointers are equal exactly when their generations are.
 * `turns` holds every turn object ever made and `registered` the generations the
 * coordinator's own map still holds.
 */
module PermissionModel {
  import opened Options

  const MAX_CONCURRENT: int := 64

  datatype PermissionOption = PermissionOption(optionID: string, name: string, kind: string)

  /** A decoded session/request_permission; absent fields stay visible. */
  datatype Wire = Malformed | Wire(sessionID: string, toolCallID: Option<string>, options: Option<seq<PermissionOption>>)

  datatype Request = Request(sessionID: string, toolCallID: string, options: seq<PermissionOption>)

  predicate Complete(o: PermissionOption) {
    o.optionID != "" && o.name != "" && o.kind != ""
  }

  predicate DistinctIds(options: seq<PermissionOption>) {
    forall i, j :: 0 <= i < j < |options| ==> options[i].optionID != options[j].optionID
  }

  predicate ValidWire(w: Wire) {
    && w.Wire?
    && w.sessionID != ""
    && w.toolCallID.Some? && w.toolCallID.value != ""
    && w.options.Some?
    && (forall o :: o in w.options.value ==> Complete(o))
    && DistinctIds(w.options.value)
  }

  function Parsed(w: Wire): Request
    requires ValidWire(w)
  {
    Request(w.sessionID, w.toolCallID.value, w.options.value)
  }

  /** parsePermissionRequest: the duplicate scan keeps the set of ids seen so far. */
  method ParsePermissionRequest(w: Wire) returns (request: Option<Request>)
    ensures request.Some? <==> ValidWire(w)
    ensures request.Some? ==> request.value == Parsed(w)
  {
    if w.Malformed? || w.sessionID == "" || w.toolCallID.None? || w.toolCallID.value == "" || w.options.None? {
      return None;
    }
    var options := w.options.value;
    var seen: set<string> := {};
    for i := 0 to |options|
      invariant seen == set j | 0 <= j < i :: options[j].optionID
      invariant forall j :: 0 <= j < i ==> Complete(options[j])
      invariant DistinctIds(options[..i])
    {
      var option := options[i];
      if option.optionID == "" || option.name == "" || option.kind == "" {
        assert !Complete(options[i]);
        return None;
      }
      if option.optionID in seen {
        var j :| 0 <= j < i && options[j].optionID == option.optionID;
        return None;
      }
      seen := seen + {option.optionID};
      assert options[..i + 1] == options[..i] + [option];
    }
    assert options[..] == options;
    return Some(Request(w.sessionID, w.toolCallID.value, options));
  }

  /** The fixed texts of PermissionResolution.Reason. */
  datatype Reason =
    | InvalidRequest | SessionMismatch | NoResponder | TurnNotActive | CapacityReached
    | RequestCancelled | ResponderError | ResponderDeclined | SelectedOffered | InvalidSelection

  datatype Outcome = Cancelled | Selected

  datatype Resolution = Resolution(outcome: Outcome, option: Option<PermissionOption>, reason: Reason,
                                   diagnostic: bool, deliveryFailed: bool)

  function Decline(reason: Reason): Resolution {
    Resolution(Cancelled, None, reason, false, false)
  }

  function Failure(reason: Reason): Resolution {
    Resolution(Cancelled, None, reason, true, false)
  }

  /** deliverPermissionResponse: a failed write is recorded, never a new outcome. */
  function Delivered(r: Resolution, ok: bool): Resolution {
    if ok then r else r.(deliveryFailed := true, diagnostic := true)
  }

  /** What the responder goroutine reports: an option id ("" declines), the
      request's own context error, or any other error, a panic included. */
  datatype Answer = Chose(optionID: string) | ContextEnded | ResponderFailed

  function FindOption(options: seq<PermissionOption>, id: string): (r: Option<PermissionOption>)
    ensures r.Some? <==> exists o :: o in options && o.optionID == id
    ensures r.Some? ==> r.value in options && r.value.optionID == id
  {
    if options == [] then None
    else if options[0].optionID == id then Some(options[0])
    else FindOption(options[1..], id)
  }

  function Decide(canceled: bool, answer: Answer, options: seq<PermissionOption>): Resolution {
    if canceled || answer.ContextEnded? then Decline(RequestCancelled)
    else if answer.ResponderFailed? then Failure(ResponderError)
    else if answer.optionID == "" then Decline(ResponderDeclined)
    else match FindOption(options, answer.optionID)
      case Some(o) => Resolution(Selected, Some(o), SelectedOffered, false, false)
      case None => Failure(InvalidSelection)
  }

  datatype Turn = Turn(active: bool, canceled: bool, ending: bool, dispatches: int,
                       doneClosed: bool, doneCloses: nat)

  datatype Entry = Entry(canceled: bool, committed: bool, generation: nat)

  datatype Admission = Admission(generation: nat, activeTurn: bool, counted: bool, async: bool, atCapacity: bool)

  datatype Coordinator = Coordinator(
    closed: bool, generation: nat, turns: map<nat, Turn>, registered: set<nat>,
    pending: map<nat, Entry>, nextID: nat, callbacks: int, asyncDispatches: int,
    sessionID: string, responder: bool)

  function New(responder: bool): Coordinator {
    Coordinator(false, 0, map[], {}, map[], 0, 0, 0, "", responder)
  }

  /** The current generation's turn while the coordinator's map holds it. */
  predicate Current(c: Coordinator, g: nat) {
    g in c.registered && g in c.turns
  }

  /** closePermissionTurnDoneLocked */
  function SettleDone(t: Turn): Turn {
    if !t.ending || t.dispatches != 0 || t.doneClosed then t
    else t.(doneClosed := true, doneCloses := t.doneCloses + 1)
  }

  function Admit(c: Coordinator, forDispatch: bool): (Coordinator, Admission) {
    var g := c.generation;
    if c.closed || !Current(c, g) || !c.turns[g].active then
      (c, Admission(g, false, false, false, false))
    else if !forDispatch then
      (c, Admission(g, true, false, false, false))
    else
      var counted := c.(turns := c.turns[g := c.turns[g].(dispatches := c.turns[g].dispatches + 1)]);
      if c.asyncDispatches >= MAX_CONCURRENT then
        (counted, Admission(g, true, true, false, true))
      else
        (counted.(asyncDispatches := c.asyncDispatches + 1), Admission(g, true, true, true, false))
  }

  /** completePermissionAdmission */
  function CompleteAdmission(c: Coordinator, a: Admission): Coordinator {
    if !a.counted || a.generation !in c.turns then c
    else
      var t := c.turns[a.generation];
      c.(asyncDispatches := if a.async then c.asyncDispatches - 1 else c.asyncDispatches,
         turns := c.turns[a.generation := SettleDone(t.(dispatches := t.dispatches - 1))])
  }

  predicate TurnOpen(c: Coordinator, g: nat) {
    !c.closed && Current(c, g) && c.turns[g].active && !c.turns[g].canceled
  }

  datatype Registration = NotActive | NoCapacity | Registered(id: nat)

  /** The section of respondAdmitted that takes a responder slot. */
  function Register(c: Coordinator, a: Admission): (Coordinator, Registration) {
    if !TurnOpen(c, a.generation) then (c, NotActive)
    else if c.callbacks >= MAX_CONCURRENT then (c, NoCapacity)
    else
      (c.(nextID := c.nextID + 1,
          pending := c.pending[c.nextID + 1 := Entry(false, false, a.generation)],
          callbacks := c.callbacks + 1),
       Registered(c.nextID + 1))
  }

  function CallbackReturned(c: Coordinator): Coordinator {
    c.(callbacks := c.callbacks - 1)
  }

  /** The linearization point of respondAdmitted: decide, then mark committed. */
  function Commit(c: Coordinator, id: nat, answer: Answer, options: seq<PermissionOption>): (Coordinator, Resolution)
    requires id in c.pending
  {
    var e := c.pending[id];
    (c.(pending := c.pending[id := e.(committed := true)]),
     Decide(e.canceled || !TurnOpen(c, e.generation), answer, options))
  }

  function Forget(c: Coordinator, id: nat): Coordinator {
    c.(pending := c.pending - {id})
  }

  /** The cancellation loop over pending: `all` for every generation, else one. */
  function CancelEntry(e: Entry, all: bool, g: nat): Entry {
    if !e.committed && (all || e.generation == g) then e.(canceled := true) else e
  }

  function CancelPending(pending: map<nat, Entry>, all: bool, g: nat): map<nat, Entry> {
    map id | id in pending :: CancelEntry(pending[id], all, g)
  }

  function Superseded(t: Turn): Turn {
    SettleDone(t.(active := false, canceled := true, ending := true))
  }

  /** The turns once the current one, if still active, has been superseded. */
  function CurrentSuperseded(c: Coordinator): map<nat, Turn> {
    var g := c.generation;
    if Current(c, g) && c.turns[g].active then c.turns[g := Superseded(c.turns[g])] else c.turns
  }

  const BEGUN := Turn(true, false, false, 0, false, 0)

  function BeginTurn(c: Coordinator): Coordinator {
    var g := c.generation + 1;
    c.(turns := CurrentSuperseded(c)[g := BEGUN], registered := c.registered + {g},
       pending := CancelPending(c.pending, true, 0), generation := g)
  }

  /** closeTurnAdmissionLocked on the current generation. */
  function CloseTurnAdmission(c: Coordinator): Coordinator {
    var g := c.generation;
    if !Current(c, g) then c
    else c.(turns := c.turns[g := SettleDone(c.turns[g].(active := false, ending := true))],
            pending := CancelPending(c.pending, false, g))
  }

  /** EndTurn's last section: drop the turn it waited for. */
  function DropTurn(c: Coordinator, g: nat): Coordinator {
    c.(registered := c.registered - {g})
  }

  function CancelTurn(c: Coordinator): Coordinator {
    var g := c.generation;
    c.(turns := if Current(c, g) then c.turns[g := c.turns[g].(canceled := true)] else c.turns,
       pending := CancelPending(c.pending, false, g))
  }

  /** The turns once every one still in the map has been superseded. */
  function AllSuperseded(c: Coordinator): map<nat, Turn> {
    map g | g in c.turns :: if g in c.registered then Superseded(c.turns[g]) else c.turns[g]
  }

  function Close(c: Coordinator): Coordinator {
    c.(closed := true, turns := AllSuperseded(c), pending := CancelPending(c.pending, true, 0))
  }

  function SetSessionID(c: Coordinator, id: string): Coordinator {
    c.(sessionID := id)
  }
}
