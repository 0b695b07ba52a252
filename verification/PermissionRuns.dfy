/**
 * Every interleaving of permission requests with the turn lifecycle
 * (acp/permission.go). A request carries the program counter of its goroutine, a
 * responder callback runs on its own, and an EndTurn call is a waiter. One step is
 * one section the code runs under the coordinator's mutex, or one move of a
 * goroutine between two of them.
 */
module PermissionRuns {
  import opened Options
  import opened PermissionModel
  import Runs

  datatype Pc =
    | Admitted
    | Checked
    | Waiting(entry: nat)
    | Answered(entry: nat, answer: Answer)
    | Committed(entry: nat, resolution: Resolution)
    | Written(entry: nat, resolution: Resolution)
    | Declining(resolution: Resolution)
    | Responded(resolution: Resolution)
    | Completed(resolution: Resolution)

  predicate Resolved(pc: Pc) {
    pc.Committed? || pc.Written? || pc.Declining? || pc.Responded? || pc.Completed?
  }

  predicate HoldsEntry(pc: Pc) {
    pc.Waiting? || pc.Answered? || pc.Committed? || pc.Written?
  }

  datatype Dispatch = Dispatch(admission: Admission, wire: Wire, pc: Pc, committedWith: Option<nat>)

  /** The responder callback of one request: running, its answer sent, or its slot
      given back. */
  datatype Callback =
    | Running(owner: nat)
    | Sent(owner: nat, answer: Answer)
    | Exited(owner: nat, answer: Answer)

  datatype EndCall = EndCall(generation: nat, returned: bool)

  datatype System = System(c: Coordinator, requests: map<nat, Dispatch>, callbacks: map<nat, Callback>,
                           ends: map<nat, EndCall>)

  datatype Step =
    | Admit(r: nat, wire: Wire, forDispatch: bool)
    | Check(r: nat)
    | Register(r: nat)
    | CallbackSend(e: nat, answer: Answer)
    | CallbackExit(e: nat)
    | TakeAnswer(r: nat)
    | SeeCancel(r: nat)
    | Commit(r: nat)
    | Deliver(r: nat, ok: bool)
    | Forget(r: nat)
    | Complete(r: nat)
    | BeginTurn
    | CloseTurnAdmission
    | EndTurn(w: nat)
    | EndTurnReturn(w: nat)
    | CancelTurn
    | Close
    | SetSessionID(id: string)

  predicate At(s: System, r: nat) {
    r in s.requests
  }

  ghost predicate Enabled(s: System, step: Step) {
    match step
    case Admit(r, _, _) => !At(s, r)
    case Check(r) => At(s, r) && s.requests[r].pc.Admitted?
    case Register(r) => At(s, r) && s.requests[r].pc.Checked?
    case CallbackSend(e, _) => e in s.callbacks && s.callbacks[e].Running?
    case CallbackExit(e) => e in s.callbacks && s.callbacks[e].Sent?
    case TakeAnswer(r) =>
      At(s, r) && s.requests[r].pc.Waiting? && s.requests[r].pc.entry in s.callbacks
      && !s.callbacks[s.requests[r].pc.entry].Running?
    case SeeCancel(r) =>
      At(s, r) && s.requests[r].pc.Waiting? && s.requests[r].pc.entry in s.c.pending
      && s.c.pending[s.requests[r].pc.entry].canceled
    case Commit(r) => At(s, r) && s.requests[r].pc.Answered? && s.requests[r].pc.entry in s.c.pending
    case Deliver(r, _) => At(s, r) && (s.requests[r].pc.Committed? || s.requests[r].pc.Declining?)
    case Forget(r) => At(s, r) && s.requests[r].pc.Written?
    case Complete(r) => At(s, r) && s.requests[r].pc.Responded?
    case EndTurn(w) => w !in s.ends
    case EndTurnReturn(w) =>
      w in s.ends && !s.ends[w].returned && s.ends[w].generation in s.c.turns
      && s.c.turns[s.ends[w].generation].doneClosed
    case _ => true
  }

  ghost function Move(s: System, r: nat, pc: Pc): System
    requires At(s, r)
  {
    s.(requests := s.requests[r := s.requests[r].(pc := pc)])
  }

  /** The checks respondAdmitted makes before it asks for a responder slot, in its
      order: parse, session, responder, turn, dispatch capacity. */
  ghost function Precheck(c: Coordinator, d: Dispatch): Pc {
    if !ValidWire(d.wire) then Declining(Failure(InvalidRequest))
    else if c.sessionID != "" && d.wire.sessionID != c.sessionID then Declining(Failure(SessionMismatch))
    else if !c.responder then Declining(Decline(NoResponder))
    else if !d.admission.activeTurn then Declining(Decline(TurnNotActive))
    else if d.admission.atCapacity then Declining(Failure(CapacityReached))
    else Checked
  }

  ghost function Offered(d: Dispatch): seq<PermissionOption> {
    if ValidWire(d.wire) then Parsed(d.wire).options else []
  }

  ghost function AdmitStep(s: System, r: nat, wire: Wire, forDispatch: bool): System {
    var (c, a) := PermissionModel.Admit(s.c, forDispatch);
    s.(c := c, requests := s.requests[r := Dispatch(a, wire, Admitted, None)])
  }

  ghost function RegisterStep(s: System, r: nat): System
    requires At(s, r)
  {
    var d := s.requests[r];
    var (c, got) := PermissionModel.Register(s.c, d.admission);
    match got
    case NotActive => Move(s, r, Declining(Decline(TurnNotActive)))
    case NoCapacity => Move(s, r, Declining(Failure(CapacityReached)))
    case Registered(e) =>
      s.(c := c, callbacks := s.callbacks[e := Running(r)], requests := s.requests[r := d.(pc := Waiting(e))])
  }

  ghost function CommitStep(s: System, r: nat): System
    requires At(s, r) && s.requests[r].pc.Answered? && s.requests[r].pc.entry in s.c.pending
  {
    var d := s.requests[r];
    var (c, resolution) := PermissionModel.Commit(s.c, d.pc.entry, d.pc.answer, Offered(d));
    s.(c := c, requests := s.requests[r := d.(pc := Committed(d.pc.entry, resolution), committedWith := Some(d.pc.entry))])
  }

  ghost function ForgetStep(s: System, r: nat): System
    requires At(s, r) && s.requests[r].pc.Written?
  {
    var pc := s.requests[r].pc;
    Move(s.(c := PermissionModel.Forget(s.c, pc.entry)), r, Responded(pc.resolution))
  }

  ghost function CompleteStep(s: System, r: nat): System
    requires At(s, r) && s.requests[r].pc.Responded?
  {
    var d := s.requests[r];
    Move(s.(c := CompleteAdmission(s.c, d.admission)), r, Completed(d.pc.resolution))
  }

  /** deliverPermissionResponse outside every lock. */
  ghost function AfterWrite(pc: Pc, ok: bool): Pc
    requires pc.Committed? || pc.Declining?
  {
    if pc.Committed? then Written(pc.entry, Delivered(pc.resolution, ok))
    else Responded(Delivered(pc.resolution, ok))
  }

  ghost function Apply(s: System, step: Step): System
    requires Enabled(s, step)
  {
    match step
    case Admit(r, wire, forDispatch) => AdmitStep(s, r, wire, forDispatch)
    case Check(r) => Move(s, r, Precheck(s.c, s.requests[r]))
    case Register(r) => RegisterStep(s, r)
    case CallbackSend(e, answer) => s.(callbacks := s.callbacks[e := Sent(s.callbacks[e].owner, answer)])
    case CallbackExit(e) =>
      s.(c := CallbackReturned(s.c), callbacks := s.callbacks[e := Exited(s.callbacks[e].owner, s.callbacks[e].answer)])
    case TakeAnswer(r) =>
      Move(s, r, Answered(s.requests[r].pc.entry, s.callbacks[s.requests[r].pc.entry].answer))
    case SeeCancel(r) => Move(s, r, Answered(s.requests[r].pc.entry, ContextEnded))
    case Commit(r) => CommitStep(s, r)
    case Deliver(r, ok) => Move(s, r, AfterWrite(s.requests[r].pc, ok))
    case Forget(r) => ForgetStep(s, r)
    case Complete(r) => CompleteStep(s, r)
    case BeginTurn => s.(c := PermissionModel.BeginTurn(s.c))
    case CloseTurnAdmission => s.(c := PermissionModel.CloseTurnAdmission(s.c))
    case EndTurn(w) =>
      s.(c := PermissionModel.CloseTurnAdmission(s.c),
         ends := s.ends[w := EndCall(s.c.generation, !Current(s.c, s.c.generation))])
    case EndTurnReturn(w) =>
      s.(c := DropTurn(s.c, s.ends[w].generation),
         ends := s.ends[w := EndCall(s.ends[w].generation, true)])
    case CancelTurn => s.(c := PermissionModel.CancelTurn(s.c))
    case Close => s.(c := PermissionModel.Close(s.c))
    case SetSessionID(id) => s.(c := PermissionModel.SetSessionID(s.c, id))
  }

  ghost predicate Init(s: System) {
    s.c == New(s.c.responder) && s.requests == map[] && s.callbacks == map[] && s.ends == map[]
  }

  ghost predicate Next(s: System, t: System) {
    exists step :: Enabled(s, step) && t == Apply(s, step)
  }

  ghost predicate Run(run: seq<System>) {
    Runs.IsRun(Init, Next, run)
  }

  // ---- what is in flight -------------------------------------------------------

  ghost predicate InFlight(d: Dispatch, g: nat) {
    d.admission.counted && d.admission.generation == g && !d.pc.Completed?
  }

  ghost predicate IsWorker(d: Dispatch) {
    d.admission.async && !d.pc.Completed?
  }

  /** The dispatches admitted to generation g that have not completed. */
  ghost function Bound(requests: map<nat, Dispatch>, g: nat): set<nat> {
    set r | r in requests && InFlight(requests[r], g)
  }

  /** The dispatch goroutines that exist. */
  ghost function Workers(requests: map<nat, Dispatch>): set<nat> {
    set r | r in requests && IsWorker(requests[r])
  }

  /** The responder callbacks that have started and not returned their slot. */
  ghost function Callbacks(callbacks: map<nat, Callback>): set<nat> {
    set e | e in callbacks && !callbacks[e].Exited?
  }

  // ---- the invariant -----------------------------------------------------------

  /** One turn: only the current generation's can be active, and its done channel has
      been closed, once, exactly when it is ending with nothing dispatched. */
  ghost predicate TurnOk(c: Coordinator, g: nat)
    requires g in c.turns
  {
    var t := c.turns[g];
    && (t.active ==> g == c.generation && g in c.registered)
    && (t.active <==> !t.ending)
    && 0 <= t.dispatches
    && (t.doneClosed <==> t.ending && t.dispatches == 0)
    && t.doneCloses == (if t.doneClosed then 1 else 0)
    && (g !in c.registered ==> t.doneClosed)
  }

  ghost predicate TurnsOk(c: Coordinator) {
    && (forall g :: g in c.turns <==> 1 <= g <= c.generation)
    && c.registered <= c.turns.Keys
    && (forall g :: g in c.turns ==> TurnOk(c, g))
  }

  ghost predicate CountsOk(c: Coordinator, requests: map<nat, Dispatch>, callbacks: map<nat, Callback>) {
    && (forall g :: g in c.turns ==> c.turns[g].dispatches == |Bound(requests, g)|)
    && c.asyncDispatches == |Workers(requests)| <= MAX_CONCURRENT
    && c.callbacks == |Callbacks(callbacks)| <= MAX_CONCURRENT
  }

  /** A Selected resolution is an option the request offered, and the answer the
      responder callback of its own entry returned; the entry was not cancelled when
      it committed, nor since. */
  ghost predicate SelectedOk(c: Coordinator, callbacks: map<nat, Callback>, d: Dispatch) {
    Resolved(d.pc) && d.pc.resolution.outcome.Selected? ==>
      && d.admission.activeTurn && d.committedWith.Some? && d.pc.resolution.option.Some?
      && (var e := d.committedWith.value; var o := d.pc.resolution.option.value;
          && o in Offered(d)
          && e in callbacks && !callbacks[e].Running? && callbacks[e].answer == Chose(o.optionID)
          && (HoldsEntry(d.pc) ==> d.pc.entry == e && e in c.pending && !c.pending[e].canceled))
  }

  ghost predicate EntryOk(c: Coordinator, callbacks: map<nat, Callback>, r: nat, d: Dispatch)
    requires HoldsEntry(d.pc)
  {
    var e := d.pc.entry;
    && d.admission.activeTurn && ValidWire(d.wire)
    && e in callbacks && callbacks[e].owner == r
    && e in c.pending
    && c.pending[e].generation == d.admission.generation
    && (c.pending[e].committed <==> d.pc.Committed? || d.pc.Written?)
    && (d.pc.Answered? && !d.pc.answer.ContextEnded? ==>
          !callbacks[e].Running? && callbacks[e].answer == d.pc.answer)
  }

  ghost predicate RequestOk(c: Coordinator, callbacks: map<nat, Callback>, r: nat, d: Dispatch) {
    && d.admission.generation <= c.generation
    && (d.admission.activeTurn ==> d.admission.generation in c.turns)
    && (d.admission.counted ==> d.admission.activeTurn)
    && (d.admission.async ==> d.admission.counted)
    && (d.pc.Checked? ==> d.admission.activeTurn && ValidWire(d.wire))
    && (HoldsEntry(d.pc) ==> EntryOk(c, callbacks, r, d))
    && SelectedOk(c, callbacks, d)
  }

  ghost predicate RequestsOk(c: Coordinator, requests: map<nat, Dispatch>, callbacks: map<nat, Callback>) {
    forall r :: r in requests ==> RequestOk(c, callbacks, r, requests[r])
  }

  /** Every entry id in use has been handed out. */
  ghost predicate IdsOk(c: Coordinator, callbacks: map<nat, Callback>) {
    && (forall e :: e in callbacks ==> e <= c.nextID)
    && (forall e :: e in c.pending ==> e <= c.nextID)
  }

  /** An EndTurn waits on a turn that is ending; it returns once that turn's done
      channel is closed, or at once when it had no turn to wait for. */
  ghost predicate EndOk(c: Coordinator, end: EndCall) {
    var g := end.generation;
    && g <= c.generation
    && (g in c.turns ==> c.turns[g].ending && (end.returned ==> c.turns[g].doneClosed))
    && (!end.returned ==> g in c.turns)
  }

  ghost predicate EndsOk(c: Coordinator, ends: map<nat, EndCall>) {
    forall w :: w in ends ==> EndOk(c, ends[w])
  }

  ghost predicate Inv(s: System) {
    && TurnsOk(s.c)
    && CountsOk(s.c, s.requests, s.callbacks)
    && IdsOk(s.c, s.callbacks)
    && RequestsOk(s.c, s.requests, s.callbacks)
    && EndsOk(s.c, s.ends)
  }
}
