/**
 * Session and Manager of acp/lifecycle.go as the objects the code keeps. Each method
 * is one locked section, and does to View() what the function of LifecycleModel of
 * the same name does.
 */
module ManagedSession {
  import M = LifecycleModel

  /** A Go channel the session owns: what was sent on it, and its closes. */
  class Chan {
    var sent: seq<M.Event>
    var closes: nat
    var badSends: nat

    constructor ()
      ensures View() == M.OPEN && sent == []
    {
      sent, closes, badSends := [], 0, 0;
    }

    ghost function View(): M.Channel
      reads this
    {
      M.Channel(closes, badSends)
    }

    method Send(ev: M.Event)
      modifies this
      ensures View() == M.Sent(old(View())) && sent == old(sent) + [ev]
    {
      if closes > 0 {
        badSends := badSends + 1;
      }
      sent := sent + [ev];
    }

    method Close()
      modifies this
      ensures View() == M.Shut(old(View())) && sent == old(sent)
    {
      closes := closes + 1;
    }
  }

  class Session {
    const id: string
    var state: M.State
    var lastTurnOutcome: M.Outcome
    var terminalOutcome: M.Outcome
    var err: M.Outcome
    var closeRequested: bool
    var sawProcessExit: bool
    var sawMalformed: bool
    var launchCommitted: bool
    var pendingReady: bool
    var finished: bool
    const events: Chan
    var eventsClosed: bool
    const diagnostics: Chan
    var diagnosticsClosed: bool
    var diagnosticWG: int
    const done: Chan
    const launchDone: Chan
    /** The two sync.Once values, and how often the client was closed. */
    var closeOnce: bool
    var finishOnce: bool
    var clientCloses: nat
    /** The channels finish has closed, in order. */
    ghost var closings: seq<Chan>

    ghost predicate Valid() {
      && events != diagnostics && events != done && events != launchDone
      && diagnostics != done && diagnostics != launchDone && done != launchDone
    }

    ghost function View(): M.Session
      reads this, events, diagnostics, done, launchDone
    {
      M.Session(
        M.Verdict(state, terminalOutcome, lastTurnOutcome, err),
        M.Flags(closeRequested, sawProcessExit, sawMalformed, launchCommitted, pendingReady, finished),
        M.Channels(events.View(), eventsClosed, events.sent, diagnostics.View(), diagnosticsClosed, diagnosticWG,
                   done.View(), launchDone.View()))
    }

    constructor (id: string)
      ensures Valid() && View() == M.NEW && this.id == id
      ensures fresh({events, diagnostics, done, launchDone})
      ensures !closeOnce && !finishOnce && clientCloses == 0 && closings == []
    {
      this.id := id;
      closeOnce, finishOnce, clientCloses, closings := false, false, 0, [];
      state, lastTurnOutcome, terminalOutcome, err := M.Launching, M.NoOutcome, M.NoOutcome, M.NoOutcome;
      closeRequested, sawProcessExit, sawMalformed := false, false, false;
      launchCommitted, pendingReady, finished := false, false, false;
      eventsClosed, diagnosticsClosed, diagnosticWG := false, false, 0;
      var e := new Chan();
      var d := new Chan();
      var n := new Chan();
      var l := new Chan();
      events, diagnostics, done, launchDone := e, d, n, l;
    }

    method AdmitPrompt() returns (ok: bool)
      modifies this`state
      ensures (View(), ok) == M.AdmitPrompt(old(View()))
    {
      if state != M.Ready {
        return false;
      }
      state := M.Processing;
      return true;
    }

    method FailPrompt()
      modifies this`state
      ensures View() == M.FailPrompt(old(View()))
    {
      if state == M.Processing {
        state := M.Ready;
      }
    }

    method RequestClose()
      modifies this`state, this`closeRequested
      ensures View() == M.RequestClose(old(View()))
    {
      if state != M.Closed && state != M.Failed {
        state := M.Closing;
      }
      closeRequested := true;
    }

    method ObserveEvent(kind: M.Kind)
      modifies this`state, this`lastTurnOutcome, this`terminalOutcome, this`err, this`sawProcessExit, this`pendingReady
      ensures View() == M.ObserveEvent(old(View()), kind)
    {
      if finished {
        return;
      }
      match kind
      case SessionReady =>
        if state == M.Launching && launchCommitted {
          state := M.Ready;
        } else if state == M.Launching {
          pendingReady := true;
        }
      case TurnCompleted(canceled) =>
        if state != M.Closing {
          state := M.Ready;
        }
        lastTurnOutcome := if canceled then M.Canceled else M.NoOutcome;
      case TurnFailed(canceled) =>
        if state != M.Closing {
          state := M.Ready;
        }
        lastTurnOutcome := if canceled then M.Canceled else M.NoOutcome;
      case TurnStarted =>
        if state != M.Closing {
          state := M.Processing;
        }
      case ProcessExited(error) =>
        sawProcessExit := true;
        if error {
          err := M.ChildExit;
          terminalOutcome := M.ChildExit;
        }
      case OtherKind =>
    }

    /** `room` is whether the buffered channel can take the event now. */
    method Publish(ev: M.Event, room: bool)
      requires Valid()
      modifies events
      ensures View() == M.Publish(old(View()), ev, room)
    {
      if eventsClosed {
        return;
      }
      if room {
        events.Send(ev);
      }
    }

    method EnterDiagnostic() returns (ok: bool)
      modifies this`diagnosticWG
      ensures (View(), ok) == M.EnterDiagnostic(old(View()))
    {
      if diagnosticsClosed {
        return false;
      }
      diagnosticWG := diagnosticWG + 1;
      return true;
    }

    method MarkMalformed()
      modifies this`sawMalformed
      ensures View() == M.MarkMalformed(old(View()))
    {
      sawMalformed := true;
    }

    method LeaveDiagnostic()
      modifies this`diagnosticWG
      ensures View() == M.LeaveDiagnostic(old(View()))
    {
      diagnosticWG := diagnosticWG - 1;
    }

    method FixOutcome()
      modifies this`finished, this`state, this`terminalOutcome, this`err
      ensures View() == M.FixOutcome(old(View()))
    {
      finished := true;
      if closeRequested {
        state := M.Closed;
        terminalOutcome := M.OutcomeClosed;
      } else if sawMalformed {
        state := M.Failed;
        terminalOutcome := M.MalformedStream;
        err := M.MalformedStream;
      } else if err != M.NoOutcome {
        state := M.Failed;
      } else if sawProcessExit {
        state := M.Closed;
        terminalOutcome := M.ChildExit;
      } else {
        state := M.Failed;
        terminalOutcome := M.Disconnected;
        err := M.Disconnected;
      }
    }

    method CloseEvents()
      requires Valid()
      modifies this`eventsClosed, this`closings, events
      ensures View() == M.CloseEvents(old(View())) && closings == old(closings) + [events]
    {
      eventsClosed := true;
      events.Close();
      closings := closings + [events];
    }

    method RefuseDiagnostics()
      modifies this`diagnosticsClosed
      ensures View() == M.RefuseDiagnostics(old(View()))
    {
      diagnosticsClosed := true;
    }

    method CloseDiagnostics()
      requires Valid()
      modifies this`closings, diagnostics
      ensures View() == M.CloseDiagnostics(old(View())) && closings == old(closings) + [diagnostics]
    {
      diagnostics.Close();
      closings := closings + [diagnostics];
    }

    method CloseDone()
      requires Valid()
      modifies this`closings, done
      ensures View() == M.CloseDone(old(View())) && closings == old(closings) + [done]
    {
      done.Close();
      closings := closings + [done];
    }

    /** closeOnce.Do, of Close and of finish. */
    method CloseClient()
      modifies this`closeOnce, this`clientCloses
      ensures closeOnce && clientCloses == if old(closeOnce) then old(clientCloses) else old(clientCloses) + 1
    {
      if !closeOnce {
        closeOnce := true;
        clientCloses := clientCloses + 1;
      }
    }

    /** The end of finish, once no callback is running: done closes last. */
    method CloseChannels()
      requires Valid() && diagnosticWG == 0
      modifies this`eventsClosed, this`diagnosticsClosed, this`closings, events, diagnostics, done
      ensures View() == M.CloseDone(M.CloseDiagnostics(M.RefuseDiagnostics(M.CloseEvents(old(View())))))
      ensures closings == old(closings) + [events, diagnostics, done]
    {
      CloseEvents();
      RefuseDiagnostics();
      CloseDiagnostics();
      CloseDone();
    }

    /** What finish does once: it closes the client if Close has not, fixes the outcome,
        leaves the manager and closes the channels, done last. */
    method Teardown(manager: Manager)
      requires Valid() && diagnosticWG == 0
      modifies this`closeOnce, this`clientCloses, this`finished, this`state, this`terminalOutcome, this`err
      modifies this`eventsClosed, this`diagnosticsClosed, this`closings, events, diagnostics, done, manager
      ensures closeOnce && clientCloses == if old(closeOnce) then old(clientCloses) else old(clientCloses) + 1
      ensures View() == M.CloseDone(M.CloseDiagnostics(M.RefuseDiagnostics(M.CloseEvents(M.FixOutcome(old(View()))))))
      ensures closings == old(closings) + [events, diagnostics, done]
      ensures manager.sessions == if id in old(manager.sessions) && old(manager.sessions)[id] == this
                                  then old(manager.sessions) - {id} else old(manager.sessions)
    {
      CloseClient();
      assert View() == old(View());
      FixOutcome();
      ghost var fixed := View();
      manager.Unregister(id, this);
      assert View() == fixed;
      CloseChannels();
    }

    /** finish, with no diagnostic callback to wait for: the first call tears the session
        down, a later one does nothing. */
    method Finish(manager: Manager)
      requires Valid() && diagnosticWG == 0
      modifies this, events, diagnostics, done, manager
      ensures finishOnce
      ensures View() == if old(finishOnce) then old(View())
                        else M.CloseDone(M.CloseDiagnostics(M.RefuseDiagnostics(M.CloseEvents(M.FixOutcome(old(View()))))))
      ensures closings == if old(finishOnce) then old(closings) else old(closings) + [events, diagnostics, done]
      ensures clientCloses == if old(finishOnce || closeOnce) then old(clientCloses) else old(clientCloses) + 1
      ensures manager.sessions == if !old(finishOnce) && id in old(manager.sessions) && old(manager.sessions)[id] == this
                                  then old(manager.sessions) - {id} else old(manager.sessions)
    {
      if finishOnce {
        return;
      }
      finishOnce := true;
      assert View() == old(View());
      Teardown(manager);
    }

    method AbortLaunch()
      modifies this`closeRequested, this`state
      ensures View() == M.AbortLaunch(old(View()))
    {
      closeRequested := true;
      state := M.Closing;
    }

    method CommitLaunch()
      modifies this`launchCommitted, this`state
      ensures View() == M.CommitLaunch(old(View()))
    {
      launchCommitted := true;
      if state == M.Launching {
        state := M.Ready;
      }
    }

    method CloseLaunchDone()
      requires Valid()
      modifies launchDone
      ensures View() == M.CloseLaunchDone(old(View()))
    {
      launchDone.Close();
    }
  }

  class Manager {
    var sessions: map<string, Session>

    constructor ()
      ensures sessions == map[]
    {
      sessions := map[];
    }

    /** The reservation Launch makes before it starts the client; null is a duplicate. */
    method Reserve(id: string) returns (s: Session?)
      modifies this
      ensures id in old(sessions) <==> s == null
      ensures s == null ==> sessions == old(sessions)
      ensures s != null ==> fresh(s) && s.Valid() && s.View() == M.NEW && s.id == id && sessions == old(sessions)[id := s]
    {
      if id in sessions {
        return null;
      }
      s := new Session(id);
      sessions := sessions[id := s];
    }

    /** Remove id only while it still names the expected session. */
    method Unregister(id: string, expected: Session)
      modifies this
      ensures sessions == if id in old(sessions) && old(sessions)[id] == expected then old(sessions) - {id} else old(sessions)
    {
      if id in sessions && sessions[id] == expected {
        sessions := sessions - {id};
      }
    }

    method Lookup(id: string) returns (s: Session?)
      ensures s != null <==> id in sessions
      ensures s != null ==> s == sessions[id]
    {
      if id in sessions {
        return sessions[id];
      }
      return null;
    }
  }
}
