/**
 * The turn fields of NDJSONBridgeClient (acp/ndjsonclient.go) as the object the code
 * keeps: each method is one section under the client's locks, one step of ClientTurns.
 */
module BridgeClient {
  import opened Options
  import opened PermissionCoordinator
  import CT = ClientTurns

  class NDJSONBridgeClient {
    var closed: bool
    var sessionID: string
    var currentTurnID: Option<nat>
    /** How many turn ids were minted: NewTurnID never gives one twice. */
    var minted: nat
    var turnWG: int
    var eventsClosing: bool
    var eventsClosed: bool
    /** What was done to the Events channel, in order. */
    var events: seq<CT.Act>
    const permissions: BestEffortPermissionRequests

    constructor (permissions: BestEffortPermissionRequests)
      ensures this.permissions == permissions && currentTurnID.None? && minted == 0 && turnWG == 0
      ensures Channel(map[]) == CT.Channel(false, false, map[], []) && !closed && sessionID == ""
    {
      this.permissions := permissions;
      closed, sessionID, currentTurnID, minted, turnWG := false, "", None, 0, 0;
      eventsClosing, eventsClosed, events := false, false, [];
    }

    ghost function Channel(closers: map<nat, CT.Closer>): CT.Channel
      reads this
    {
      CT.Channel(eventsClosing, eventsClosed, closers, events)
    }

    /** The admission of Prompt: a turn of its own in the client and in the coordinator, or
        no change at all. */
    method AdmitPrompt() returns (turn: Option<nat>)
      requires permissions.Valid()
      modifies `currentTurnID, `minted, `turnWG
      modifies permissions`generation, permissions`turns, permissions`made, permissions.made.Values, permissions.pending.Values
      ensures permissions.Valid()
      ensures turn.Some? <==> old(currentTurnID.None? && !closed && !eventsClosing && sessionID != "")
      ensures turn.Some? ==>
        turn == currentTurnID == Some(minted) && minted == old(minted) + 1 && turnWG == old(turnWG) + 1
      ensures turn.None? ==> currentTurnID == old(currentTurnID) && minted == old(minted) && turnWG == old(turnWG)
      ensures permissions.View() == if turn.Some? then M.BeginTurn(old(permissions.View())) else old(permissions.View())
      ensures if turn.Some? then permissions.Added()
              else permissions.made == old(permissions.made) && permissions.turns == old(permissions.turns)
    {
      if currentTurnID.Some? || closed || eventsClosing || sessionID == "" {
        return None;
      }
      permissions.BeginTurn();
      label Begun:
      turn := MintTurn();
      permissions.SameView@Begun();
    }

    method MintTurn() returns (turn: Option<nat>)
      modifies `currentTurnID, `minted, `turnWG
      ensures turn == currentTurnID == Some(minted) && minted == old(minted) + 1 && turnWG == old(turnWG) + 1
    {
      minted := minted + 1;
      currentTurnID := Some(minted);
      turnWG := turnWG + 1;
      return currentTurnID;
    }

    /** finishTurn, once EndTurn has returned: the id is cleared if it is still this turn's. */
    method ClearTurn(turn: nat)
      modifies `currentTurnID
      ensures currentTurnID == if old(currentTurnID) == Some(turn) then None else old(currentTurnID)
    {
      if currentTurnID == Some(turn) {
        currentTurnID := None;
      }
    }

    /** emit: nothing is sent once the channel is closed. A full channel drops the event. */
    method Emit(ev: CT.Act)
      requires ev.Attempt? || ev.Other?
      modifies `events
      ensures forall closers :: Channel(closers) == CT.Emitted(old(Channel(closers)), ev, [])
    {
      if eventsClosed {
        assert events + [] == events;
        return;
      }
      events := events + [ev];
    }

    /** closeEvents, before its wait. */
    method StartClosing()
      modifies `eventsClosing
      ensures forall closers :: Channel(closers) == old(Channel(closers)).(closing := true)
    {
      eventsClosing := true;
    }

    /** closeEvents, after its wait: the first call closes the channel. */
    method CloseChannel(k: nat)
      modifies `events, `eventsClosed
      ensures forall closers :: Channel(closers[k := CT.Returned]) == CT.ClosedOnce(old(Channel(closers)), k)
    {
      if eventsClosed {
        assert events + [] == events;
        return;
      }
      eventsClosed := true;
      events := events + [CT.CloseChannel];
    }
  }
}
