/**
 * BestEffortPermissionRequests of acp/permission.go: the coordinator as the object
 * the code keeps. Turns and entries are objects reached through pointers; each
 * method is one section under the mutex and does to View() exactly what the
 * function of the same name in PermissionModel does.
 */
module PermissionCoordinator {
  import opened Options
  import M = PermissionModel

  class PermissionTurn {
    ghost const generation: nat
    var active: bool
    var canceled: bool
    var ending: bool
    var dispatches: int
    var doneClosed: bool
    /** How often the done channel has been closed. */
    ghost var doneCloses: nat

    constructor (ghost generation: nat)
      ensures this.generation == generation
      ensures View() == M.Turn(true, false, false, 0, false, 0)
    {
      this.generation := generation;
      active, canceled, ending, dispatches, doneClosed, doneCloses := true, false, false, 0, false, 0;
    }

    ghost function View(): M.Turn
      reads this
    {
      M.Turn(active, canceled, ending, dispatches, doneClosed, doneCloses)
    }

    /** closePermissionTurnDoneLocked */
    method SettleDone()
      modifies this
      ensures View() == M.SettleDone(old(View()))
    {
      if !ending || dispatches != 0 || doneClosed {
        return;
      }
      doneCloses := doneCloses + 1;
      doneClosed := true;
    }
  }

  class PendingPermission {
    ghost const id: nat
    const generation: nat
    var canceled: bool
    var committed: bool

    constructor (ghost id: nat, generation: nat)
      ensures this.id == id && this.generation == generation
      ensures View() == M.Entry(false, false, generation)
    {
      this.id, this.generation := id, generation;
      canceled, committed := false, false;
    }

    ghost function View(): M.Entry
      reads this
    {
      M.Entry(canceled, committed, generation)
    }
  }

  datatype Admission = Admission(info: M.Admission, turn: PermissionTurn?)

  class BestEffortPermissionRequests {
    var closed: bool
    var generation: nat
    var turns: map<nat, PermissionTurn>
    var pending: map<nat, PendingPermission>
    var nextID: nat
    var callbacks: int
    var asyncDispatches: int
    var sessionID: string
    const responder: bool
    /** Every turn ever made, those no longer in the map included. */
    ghost var made: map<nat, PermissionTurn>

    ghost predicate Valid()
      reads this
    {
      && (forall g :: g in turns ==> g in made && turns[g] == made[g])
      && (forall g :: g in made ==> g <= generation && made[g].generation == g)
      && (forall id :: id in pending ==> id <= nextID && pending[id].id == id)
    }

    ghost function TurnsView(): map<nat, M.Turn>
      reads this, made.Values
    {
      map g | g in made :: made[g].View()
    }

    ghost function PendingView(): map<nat, M.Entry>
      reads this, pending.Values
    {
      map id | id in pending :: pending[id].View()
    }

    ghost function View(): M.Coordinator
      reads this, made.Values, pending.Values
    {
      M.Coordinator(closed, generation, TurnsView(), turns.Keys, PendingView(), nextID, callbacks,
                    asyncDispatches, sessionID, responder)
    }

    /** Only the turn of generation g changed. */
    twostate lemma OneTurn(g: nat)
      requires old(Valid()) && made == old(made) && g in made
      requires forall h :: h in made && h != g ==> unchanged(made[h])
      ensures TurnsView() == old(TurnsView())[g := made[g].View()]
    {
    }

    twostate lemma SameTurns()
      requires made == old(made)
      requires forall h :: h in made ==> unchanged(made[h])
      ensures TurnsView() == old(TurnsView())
    {
    }

    twostate lemma SamePending()
      requires pending == old(pending)
      requires forall h :: h in pending ==> unchanged(pending[h])
      ensures PendingView() == old(PendingView())
    {
    }

    /** Nothing of the coordinator changed. */
    twostate lemma SameView()
      requires old(Valid()) && unchanged(this)
      requires forall g :: g in made ==> unchanged(made[g])
      requires forall id :: id in pending ==> unchanged(pending[id])
      ensures Valid() && View() == old(View())
    {
      SameTurns();
      SamePending();
    }

    constructor (responder: bool)
      ensures Valid() && View() == M.New(responder) && made == map[] && pending == map[]
    {
      this.responder := responder;
      closed, generation, turns, pending, nextID := false, 0, map[], map[], 0;
      callbacks, asyncDispatches, sessionID, made := 0, 0, "", map[];
    }

    method SetSessionID(id: string)
      requires Valid()
      modifies this`sessionID
      ensures Valid() && View() == M.SetSessionID(old(View()), id)
    {
      sessionID := id;
    }

    method AdmitPermission(forDispatch: bool) returns (admission: Admission)
      requires Valid()
      modifies this`asyncDispatches, made.Values
      ensures Valid()
      ensures (View(), admission.info) == M.Admit(old(View()), forDispatch)
      ensures admission.turn != null <==> admission.info.activeTurn
      ensures admission.turn != null ==> admission.info.generation in made && admission.turn == made[admission.info.generation]
    {
      var info := M.Admission(generation, false, false, false, false);
      if closed || generation !in turns || !turns[generation].active {
        return Admission(info, null);
      }
      var turn := turns[generation];
      info := info.(activeTurn := true);
      if !forDispatch {
        return Admission(info, turn);
      }
      info := info.(counted := true);
      turn.dispatches := turn.dispatches + 1;
      if asyncDispatches >= M.MAX_CONCURRENT {
        OneTurn(generation);
        SamePending();
        return Admission(info.(atCapacity := true), turn);
      }
      asyncDispatches := asyncDispatches + 1;
      OneTurn(generation);
      SamePending();
      return Admission(info.(async := true), turn);
    }

    /** An admission this coordinator handed out: its pointer is its generation's turn. */
    ghost predicate Mine(admission: Admission)
      reads this
    {
      && (admission.info.counted ==> admission.turn != null)
      && (admission.turn != null ==>
            admission.info.generation in made && admission.turn == made[admission.info.generation])
    }

    method CompletePermissionAdmission(admission: Admission)
      requires Valid() && Mine(admission)
      modifies this`asyncDispatches, made.Values
      ensures Valid() && View() == M.CompleteAdmission(old(View()), admission.info)
    {
      if !admission.info.counted || admission.turn == null {
        return;
      }
      if admission.info.async {
        asyncDispatches := asyncDispatches - 1;
      }
      admission.turn.dispatches := admission.turn.dispatches - 1;
      admission.turn.SettleDone();
      OneTurn(admission.info.generation);
      SamePending();
    }

    /** The section of respondAdmitted that takes a responder slot. */
    method TakeSlot(admission: Admission) returns (got: M.Registration, entry: PendingPermission?)
      requires Valid() && Mine(admission) && admission.turn != null
      modifies this`nextID, this`pending, this`callbacks
      ensures Valid()
      ensures (View(), got) == M.Register(old(View()), admission.info)
      ensures got.Registered? <==> entry != null
      ensures got.Registered? ==> fresh(entry) && pending == old(pending)[got.id := entry]
      ensures !got.Registered? ==> pending == old(pending)
    {
      var g := admission.info.generation;
      if TurnIsOver(admission) {
        return M.NotActive, null;
      }
      if callbacks >= M.MAX_CONCURRENT {
        return M.NoCapacity, null;
      }
      nextID := nextID + 1;
      entry := new PendingPermission(nextID, g);
      pending := pending[nextID := entry];
      callbacks := callbacks + 1;
      SameTurns();
      assert PendingView() == old(PendingView())[nextID := entry.View()];
      return M.Registered(nextID), entry;
    }

    method CallbackReturned()
      requires Valid()
      modifies this`callbacks
      ensures Valid() && View() == M.CallbackReturned(old(View()))
    {
      callbacks := callbacks - 1;
    }

    /** Only the entry with the id changed. */
    twostate lemma OneEntry(id: nat)
      requires old(Valid()) && pending == old(pending) && id in pending
      requires forall h :: h in pending && h != id ==> unchanged(pending[h])
      ensures PendingView() == old(PendingView())[id := pending[id].View()]
    {
    }

    /** The admitted turn is no longer the current, active one, or it was cancelled. */
    predicate TurnIsOver(admission: Admission)
      requires Valid() && Mine(admission) && admission.turn != null
      reads this, made.Values
      ensures TurnIsOver(admission) <==> !M.TurnOpen(View(), admission.info.generation)
    {
      var g := admission.info.generation;
      closed || g !in turns || turns[g] != admission.turn || !turns[g].active || turns[g].canceled
    }

    /** The linearization point of respondAdmitted. */
    method Commit(id: nat, admission: Admission, answer: M.Answer, options: seq<M.PermissionOption>)
      returns (resolution: M.Resolution)
      requires Valid() && Mine(admission) && admission.turn != null
      requires id in pending && pending[id].generation == admission.info.generation
      modifies pending[id]
      ensures Valid() && (View(), resolution) == M.Commit(old(View()), id, answer, options)
    {
      var entry := pending[id];
      var canceled := entry.canceled || TurnIsOver(admission);
      if canceled || answer.ContextEnded? {
        resolution := M.Decline(M.RequestCancelled);
      } else if answer.ResponderFailed? {
        resolution := M.Failure(M.ResponderError);
      } else if answer.optionID == "" {
        resolution := M.Decline(M.ResponderDeclined);
      } else {
        resolution := Selection(answer.optionID, options);
      }
      entry.committed := true;
      SameTurns();
      OneEntry(id);
    }

    /** The loop over the options offered. */
    method Selection(optionID: string, options: seq<M.PermissionOption>) returns (resolution: M.Resolution)
      ensures resolution == match M.FindOption(options, optionID)
        case Some(o) => M.Resolution(M.Selected, Some(o), M.SelectedOffered, false, false)
        case None => M.Failure(M.InvalidSelection)
    {
      var i := 0;
      while i < |options|
        invariant i <= |options|
        invariant M.FindOption(options, optionID) == M.FindOption(options[i..], optionID)
      {
        if options[i].optionID == optionID {
          return M.Resolution(M.Selected, Some(options[i]), M.SelectedOffered, false, false);
        }
        i := i + 1;
      }
      return M.Failure(M.InvalidSelection);
    }

    method Forget(id: nat)
      requires Valid()
      modifies this`pending
      ensures Valid() && View() == M.Forget(old(View()), id) && pending == old(pending) - {id}
    {
      pending := pending - {id};
    }

    /** The loop the lifecycle calls share: cancel what has not committed, of every
        generation or of one. */
    method CancelPending(all: bool, g: nat)
      requires Valid()
      modifies pending.Values
      ensures Valid()
      ensures PendingView() == M.CancelPending(old(PendingView()), all, g)
      ensures TurnsView() == old(TurnsView())
    {
      var ids := pending.Keys;
      while ids != {}
        invariant ids <= pending.Keys
        invariant forall id :: id in pending ==>
          pending[id].View() == if id in ids then old(pending[id].View()) else M.CancelEntry(old(pending[id].View()), all, g)
        decreases ids
      {
        var id :| id in ids;
        var entry := pending[id];
        if !entry.committed && (all || entry.generation == g) {
          entry.canceled := true;
        }
        ids := ids - {id};
      }
      SameTurns();
    }

    /** What BeginTurn and Close do to a turn they end. */
    method Supersede(turn: PermissionTurn)
      modifies turn
      ensures turn.View() == M.Superseded(old(turn.View()))
    {
      turn.active := false;
      turn.canceled := true;
      turn.ending := true;
      turn.SettleDone();
    }

    method SupersedeCurrent()
      requires Valid()
      modifies made.Values
      ensures Valid() && PendingView() == old(PendingView())
      ensures TurnsView() == M.CurrentSuperseded(old(View()))
    {
      if generation in turns && turns[generation].active {
        Supersede(turns[generation]);
        OneTurn(generation);
      }
      SamePending();
    }

    /** One turn was made, and every other is still the object it was. */
    twostate predicate Added()
      reads this
    {
      && generation in made && fresh(made[generation])
      && made == old(made)[generation := made[generation]]
      && turns == old(turns)[generation := made[generation]]
    }

    method AddTurn()
      requires Valid()
      modifies this`generation, this`turns, this`made
      ensures Valid() && generation == old(generation) + 1
      ensures turns.Keys == old(turns.Keys) + {generation}
      ensures TurnsView() == old(TurnsView())[generation := M.BEGUN]
      ensures PendingView() == old(PendingView())
      ensures Added()
    {
      generation := generation + 1;
      var turn := new PermissionTurn(generation);
      turns := turns[generation := turn];
      made := made[generation := turn];
      SamePending();
    }

    method BeginTurn()
      requires Valid()
      modifies this`generation, this`turns, this`made, made.Values, pending.Values
      ensures Valid() && View() == M.BeginTurn(old(View()))
      ensures Added()
    {
      SupersedeCurrent();
      CancelPending(true, 0);
      AddTurn();
    }

    method CloseTurnAdmission() returns (turn: PermissionTurn?)
      requires Valid()
      modifies made.Values, pending.Values
      ensures Valid() && View() == M.CloseTurnAdmission(old(View()))
      ensures turn == if generation in turns then turns[generation] else null
    {
      if generation !in turns {
        return null;
      }
      turn := turns[generation];
      turn.active := false;
      turn.ending := true;
      SamePending();
      CancelPending(false, generation);
      label Cancelled:
      turn.SettleDone();
      SamePending@Cancelled();
      OneTurn(generation);
    }

    /** EndTurn after its wait: forget the turn it waited for. */
    method DropTurn(g: nat, turn: PermissionTurn)
      requires Valid() && g in made && turn == made[g]
      modifies this`turns
      ensures Valid() && View() == M.DropTurn(old(View()), g)
    {
      if g in turns && turns[g] == turn {
        turns := turns - {g};
      }
    }

    method CancelTurn()
      requires Valid()
      modifies made.Values, pending.Values
      ensures Valid() && View() == M.CancelTurn(old(View()))
    {
      if generation in turns {
        turns[generation].canceled := true;
        OneTurn(generation);
      }
      SamePending();
      CancelPending(false, generation);
    }

    method SupersedeAll()
      requires Valid()
      modifies made.Values
      ensures Valid()
      ensures TurnsView() == M.AllSuperseded(old(View()))
      ensures PendingView() == old(PendingView())
    {
      var generations := turns.Keys;
      while generations != {}
        invariant generations <= turns.Keys
        invariant forall g :: g in made ==>
          made[g].View() == if g in turns && g !in generations then M.Superseded(old(made[g].View())) else old(made[g].View())
        decreases generations
      {
        var g :| g in generations;
        Supersede(turns[g]);
        generations := generations - {g};
      }
      SamePending();
    }

    method Close()
      requires Valid()
      modifies this`closed, made.Values, pending.Values
      ensures Valid() && View() == M.Close(old(View()))
    {
      MarkClosed();
      SupersedeAll();
      CancelPending(true, 0);
    }

    method MarkClosed()
      requires Valid()
      modifies `closed
      ensures Valid() && closed && TurnsView() == old(TurnsView()) && PendingView() == old(PendingView())
    {
      closed := true;
      SameTurns();
      SamePending();
    }
  }
}
