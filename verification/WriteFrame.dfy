/**
 * WriteFrameCtx and lockCtx of acp/writeframe.go: any number of callers write frames
 * on one transport under one mutex, each bounded by its own context. A caller, the
 * helper goroutine lockCtx starts for it and the interrupt its context fires are three
 * threads; one step is one thing one of them does.
 */
module WriteFrame {
  import opened Bytes
  import opened Options
  import Runs

  datatype WriteError = NoError | DeadlineExceeded | TransportClosed | OtherError

  datatype Result = Sent | ContextError | Failed

  datatype Pc =
    | Start
    | Queueing                                 // ctx was live; about to take the lock
    | Selecting                                // a helper is taking the lock for it
    | Holding                                  // has the lock; ctx is checked again
    | Writing(n: nat)                          // in Write, n bytes on the wire
    | Wrote(n: nat, err: WriteError)           // Write returned
    | AwaitFired(n: nat, err: WriteError)      // the interrupt had begun: wait for it
    | Clearing(n: nat, err: WriteError)        // reset the write deadline
    | Judging(n: nat, err: WriteError)
    | Unlocking(result: Result)
    | Done(result: Result)

  /** The goroutine lockCtx leaves behind: blocked in Lock, or holding the lock. */
  datatype Helper = NoHelper | Locking | Locked | HelperDone

  /** context.AfterFunc's function. */
  datatype Interrupt = Unset | Registered | Running | Checking | ClosingNow | Fired | Stopped

  datatype Caller = Caller(
    frame: seq<Byte>, canEnd: bool, ended: bool, pc: Pc, helper: Helper, interrupt: Interrupt,
    writeDone: bool, closedByUs: bool, acquires: nat, releases: nat)

  /** `armed` is a write deadline in the past; `order` the callers whose whole frame is
      on the wire, oldest first. */
  datatype Transport = Transport(
    deadlines: bool, closed: bool, armed: bool, wire: seq<Byte>, order: seq<nat>)

  datatype System = System(callers: map<nat, Caller>, owner: Option<nat>, tr: Transport)

  datatype Step =
    | Arrive(i: nat, frame: seq<Byte>, canEnd: bool)
    | EndContext(i: nat)
    | CheckFirst(i: nat)
    | TryLock(i: nat)
    | StartHelper(i: nat)
    | HelperLock(i: nat)
    | TakeFromHelper(i: nat)
    | LeaveQueue(i: nat)
    | HelperUnlock(i: nat)
    | CheckAgain(i: nat)
    | PutByte(i: nat)
    | WriteReturns(i: nat, err: WriteError)
    | InterruptStarts(i: nat)
    | InterruptSetsDeadline(i: nat)
    | InterruptHasNoDeadline(i: nat)
    | InterruptChecks(i: nat)
    | InterruptCloses(i: nat)
    | StopInterrupt(i: nat)
    | SeeFired(i: nat)
    | ClearDeadline(i: nat)
    | Judge(i: nat)
    | Unlock(i: nat)
    | OtherCloses(i: nat)  // anybody else closes the transport, whatever i does

  /** When caller i, as it stands, can take the step. */
  predicate CanStep(c: Caller, step: Step, owner: Option<nat>, tr: Transport) {
    match step
    case Arrive(_, _, _) => false
    case EndContext(_) => c.canEnd
    case CheckFirst(_) => c.pc.Start?
    case TryLock(_) => c.pc.Queueing? && owner.None?
    case StartHelper(_) => c.pc.Queueing? && c.canEnd && owner.Some?
    case HelperLock(_) => c.helper.Locking? && owner.None?
    case TakeFromHelper(_) => c.pc.Selecting? && c.helper.Locked?
    case LeaveQueue(_) => c.pc.Selecting? && c.ended
    case HelperUnlock(_) => c.helper.Locked? && c.pc.Done?
    case CheckAgain(_) => c.pc.Holding?
    case PutByte(_) => c.pc.Writing? && c.pc.n < |c.frame| && !tr.closed
    case WriteReturns(_, err) =>
      && c.pc.Writing?
      && (err.NoError? ==> c.pc.n == |c.frame|)
      && (err.DeadlineExceeded? ==> tr.armed && !tr.closed)
      && (err.TransportClosed? ==> tr.closed)
    case InterruptStarts(_) => c.interrupt.Registered? && c.ended
    case InterruptSetsDeadline(_) => c.interrupt.Running? && tr.deadlines && !tr.closed
    case InterruptHasNoDeadline(_) => c.interrupt.Running?
    case InterruptChecks(_) => c.interrupt.Checking?
    case InterruptCloses(_) => c.interrupt.ClosingNow?
    case StopInterrupt(_) => c.pc.Wrote?
    case SeeFired(_) => c.pc.AwaitFired? && c.interrupt.Fired?
    case ClearDeadline(_) => c.pc.Clearing?
    case Judge(_) => c.pc.Judging?
    case Unlock(_) => c.pc.Unlocking?
    case OtherCloses(_) => true
  }

  predicate Enabled(s: System, step: Step) {
    if step.Arrive? then step.i !in s.callers
    else step.i in s.callers && CanStep(s.callers[step.i], step, s.owner, s.tr)
  }

  /** The error WriteFrameCtx returns. */
  function Verdict(c: Caller, err: WriteError): Result {
    if err.NoError? then Sent
    else if c.ended && (err.DeadlineExceeded? || (c.closedByUs && err.TransportClosed?)) then ContextError
    else Failed
  }

  function Take(c: Caller): Caller {
    c.(acquires := c.acquires + 1)
  }

  function GiveBack(c: Caller): Caller {
    c.(releases := c.releases + 1)
  }

  function CallerAfter(c: Caller, step: Step, owner: Option<nat>, tr: Transport): Caller
    requires CanStep(c, step, owner, tr)
  {
    match step
    case EndContext(_) => c.(ended := true)
    case CheckFirst(_) => c.(pc := if c.ended then Done(ContextError) else Queueing)
    case TryLock(_) => Take(c.(pc := Holding))
    case StartHelper(_) => c.(pc := Selecting, helper := Locking)
    case HelperLock(_) => Take(c.(helper := Locked))
    case TakeFromHelper(_) => c.(pc := Holding, helper := HelperDone)
    case LeaveQueue(_) => c.(pc := Done(ContextError))
    case HelperUnlock(_) => GiveBack(c.(helper := HelperDone))
    case CheckAgain(_) =>
      if c.ended then c.(pc := Unlocking(ContextError)) else c.(pc := Writing(0), interrupt := Registered)
    case PutByte(_) => c.(pc := Writing(c.pc.n + 1))
    case WriteReturns(_, err) => c.(pc := Wrote(c.pc.n, err), writeDone := true)
    case InterruptStarts(_) => c.(interrupt := Running)
    case InterruptSetsDeadline(_) => c.(interrupt := Fired)
    case InterruptHasNoDeadline(_) => c.(interrupt := Checking)
    case InterruptChecks(_) =>
      if c.writeDone then c.(interrupt := Fired) else c.(interrupt := ClosingNow, closedByUs := true)
    case InterruptCloses(_) => c.(interrupt := Fired)
    case StopInterrupt(_) =>
      if c.interrupt.Registered? then c.(pc := Judging(c.pc.n, c.pc.err), interrupt := Stopped)
      else c.(pc := AwaitFired(c.pc.n, c.pc.err))
    case SeeFired(_) => c.(pc := if tr.deadlines then Clearing(c.pc.n, c.pc.err) else Judging(c.pc.n, c.pc.err))
    case ClearDeadline(_) => c.(pc := Judging(c.pc.n, c.pc.err))
    case Judge(_) => c.(pc := Unlocking(Verdict(c, c.pc.err)))
    case Unlock(_) => GiveBack(c.(pc := Done(c.pc.result)))
    case OtherCloses(_) => c
  }

  function OwnerAfter(owner: Option<nat>, step: Step): Option<nat> {
    if step.TryLock? || step.HelperLock? then Some(step.i)
    else if step.HelperUnlock? || step.Unlock? then None
    else owner
  }

  function TransportAfter(c: Caller, step: Step, owner: Option<nat>, tr: Transport): Transport
    requires CanStep(c, step, owner, tr)
  {
    match step
    case PutByte(_) => tr.(wire := tr.wire + [c.frame[c.pc.n]])
    case WriteReturns(i, _) => if c.pc.n == |c.frame| then tr.(order := tr.order + [i]) else tr
    case InterruptSetsDeadline(_) => tr.(armed := true)
    case InterruptCloses(_) => tr.(closed := true)
    case ClearDeadline(_) => if tr.closed then tr else tr.(armed := false)
    case Judge(_) => if !c.pc.err.NoError? && c.pc.n > 0 then tr.(closed := true) else tr
    case OtherCloses(_) => tr.(closed := true)
    case _ => tr
  }

  function Arrived(frame: seq<Byte>, canEnd: bool): Caller {
    Caller(frame, canEnd, false, Start, NoHelper, Unset, false, false, 0, 0)
  }

  function Apply(s: System, step: Step): System
    requires Enabled(s, step)
  {
    if step.Arrive? then s.(callers := s.callers[step.i := Arrived(step.frame, step.canEnd)])
    else
      var c := s.callers[step.i];
      System(s.callers[step.i := CallerAfter(c, step, s.owner, s.tr)], OwnerAfter(s.owner, step),
             TransportAfter(c, step, s.owner, s.tr))
  }

  ghost predicate Next(s: System, t: System) {
    exists step :: Enabled(s, step) && t == Apply(s, step)
  }

  /** The transport may have been closed before the first caller came. */
  ghost predicate Init(s: System) {
    s == System(map[], None, Transport(s.tr.deadlines, s.tr.closed, false, [], []))
  }

  ghost predicate Run(run: seq<System>) {
    Runs.IsRun(Init, Next, run)
  }

  // ---- the invariant -------------------------------------------------------------------

  /** Caller i's acquisition holds the mutex: itself, or its helper for it. */
  predicate Holds(c: Caller) {
    c.helper.Locked? || !(c.pc.Start? || c.pc.Queueing? || c.pc.Selecting? || c.pc.Done?)
  }

  predicate InWrite(pc: Pc) {
    pc.Writing? || pc.Wrote? || pc.AwaitFired? || pc.Clearing? || pc.Judging?
  }

  /** The interrupt has yet to act. */
  predicate Live(i: Interrupt) {
    i.Registered? || i.Running? || i.Checking? || i.ClosingNow?
  }

  /** The mutex: a caller's one acquisition, taken by it or its helper, and its release. */
  ghost predicate LockOk(c: Caller, i: nat, owner: Option<nat>) {
    && (Holds(c) <==> owner == Some(i))
    && c.acquires == c.releases + (if Holds(c) then 1 else 0) <= 1
    && (c.pc.Start? || c.pc.Queueing? ==> c.helper.NoHelper? && c.acquires == 0)
    && (c.pc.Selecting? ==> c.helper.Locking? || c.helper.Locked?)
    && (c.helper.Locking? ==> c.acquires == 0 && (c.pc.Selecting? || c.pc == Done(ContextError)))
    && (c.helper.Locked? ==> c.pc.Selecting? || c.pc == Done(ContextError))
  }

  ghost predicate BeforeWrite(pc: Pc) {
    pc.Start? || pc.Queueing? || pc.Selecting? || pc.Holding?
  }

  /** The interrupt acts only on its own caller's write, and only for an ended context. */
  ghost predicate InterruptOk(c: Caller) {
    && (Live(c.interrupt) ==> c.pc.Writing? || c.pc.Wrote? || c.pc.AwaitFired?)
    && (c.interrupt.Registered? ==> !c.pc.AwaitFired?)
    && (BeforeWrite(c.pc) ==> c.interrupt.Unset?)
    && (BeforeWrite(c.pc) || c.pc.Writing? ==> !c.writeDone)
    && (c.pc.Wrote? || c.pc.AwaitFired? ==> c.writeDone)
    && (c.pc.Writing? || c.pc.Wrote? || c.pc.AwaitFired? || c.pc.Clearing? ==> !c.interrupt.Unset? && !c.interrupt.Stopped?)
    && (c.interrupt.Running? || c.interrupt.Checking? || c.interrupt.ClosingNow? || c.interrupt.Fired? ==> c.ended)
    && (c.closedByUs ==> c.ended)
  }

  ghost predicate WriteOk(c: Caller, i: nat, order: seq<nat>) {
    && (BeforeWrite(c.pc) || c.pc.Writing? ==> i !in order)
    && (InWrite(c.pc) ==> c.pc.n <= |c.frame|)
    && (InWrite(c.pc) && !c.pc.Writing? ==>
          && (i in order <==> c.pc.n == |c.frame|)
          && (c.pc.err.NoError? ==> c.pc.n == |c.frame|)
          && (c.pc.err.DeadlineExceeded? ==> c.ended))
    && (c.pc == Unlocking(Sent) || c.pc == Done(Sent) ==> i in order)
  }

  ghost predicate CallerOk(c: Caller, i: nat, owner: Option<nat>, tr: Transport) {
    LockOk(c, i, owner) && InterruptOk(c) && WriteOk(c, i, tr.order)
  }

  /** An expired deadline is the current writer's own, until it clears it. */
  ghost predicate ArmedOk(s: System) {
    s.tr.armed && !s.tr.closed ==>
      && s.owner.Some? && s.owner.value in s.callers
      && (var c := s.callers[s.owner.value];
          (c.pc.Writing? || c.pc.Wrote? || c.pc.AwaitFired? || c.pc.Clearing?) && c.interrupt.Fired? && s.tr.deadlines)
  }

  ghost predicate CallersOk(s: System) {
    && (forall i :: i in s.callers ==> CallerOk(s.callers[i], i, s.owner, s.tr))
    && (s.owner.Some? ==> s.owner.value in s.callers)
  }

  // ---- the wire ---------------------------------------------------------------------------

  function FrameOf(callers: map<nat, Caller>, i: nat): seq<Byte> {
    if i in callers then callers[i].frame else []
  }

  /** The frames of the callers in order, one after another. */
  function Concat(callers: map<nat, Caller>, order: seq<nat>): seq<Byte> {
    if order == [] then [] else Concat(callers, order[..|order| - 1]) + FrameOf(callers, order[|order| - 1])
  }

  /** The unfinished part of caller c's frame on the wire. */
  function PartOf(c: Caller): seq<Byte> {
    if InWrite(c.pc) && c.pc.n <= |c.frame| && (c.pc.Writing? || c.pc.n < |c.frame|) then c.frame[..c.pc.n] else []
  }

  /** What the current writer has put on the wire of a frame it has not finished. */
  function Partial(s: System): seq<Byte> {
    if s.owner.Some? && s.owner.value in s.callers then PartOf(s.callers[s.owner.value]) else []
  }

  /** The wire begins with the whole frames and the unfinished one, and while the transport
      is open that is all of it. */
  ghost predicate WireIs(s: System) {
    var frames := Concat(s.callers, s.tr.order) + Partial(s);
    frames <= s.tr.wire && (!s.tr.closed ==> s.tr.wire == frames)
  }

  ghost predicate WireOk(s: System) {
    && WireIs(s)
    && (forall i :: i in s.tr.order ==> i in s.callers)
    && (forall a, b :: 0 <= a < b < |s.tr.order| ==> s.tr.order[a] != s.tr.order[b])
  }

  ghost predicate Inv(s: System) {
    CallersOk(s) && ArmedOk(s) && WireOk(s)
  }

  // ---- preservation -----------------------------------------------------------------------

  /** What one step does to everyone but its own caller. */
  ghost predicate Frame(s: System, t: System, i: nat) {
    && i in t.callers
    && (forall j :: j in s.callers ==> j in t.callers)
    && (forall j :: j in t.callers && j != i ==> j in s.callers && t.callers[j] == s.callers[j])
    && (t.owner == s.owner || t.owner == Some(i) || (s.owner == Some(i) && t.owner.None?))
    && (s.owner.Some? && t.owner != s.owner ==> s.owner == Some(i))
    && (t.tr.order == s.tr.order || t.tr.order == s.tr.order + [i])
  }

  lemma ArriveFrame(s: System, step: Step)
    requires Enabled(s, step) && step.Arrive?
    ensures Frame(s, Apply(s, step), step.i)
  {
  }

  lemma CallerFrame(s: System, step: Step)
    requires Enabled(s, step) && !step.Arrive? && step.i in s.callers && CallerOk(s.callers[step.i], step.i, s.owner, s.tr)
    ensures Frame(s, Apply(s, step), step.i)
  {
  }

  lemma StepFrame(s: System, step: Step)
    requires CallersOk(s) && Enabled(s, step)
    ensures Frame(s, Apply(s, step), step.i)
  {
    if step.Arrive? {
      ArriveFrame(s, step);
    } else {
      assert CallerOk(s.callers[step.i], step.i, s.owner, s.tr);
      CallerFrame(s, step);
    }
  }

  lemma StepLock(c: Caller, step: Step, owner: Option<nat>, tr: Transport)
    requires CanStep(c, step, owner, tr) && LockOk(c, step.i, owner)
    ensures LockOk(CallerAfter(c, step, owner, tr), step.i, OwnerAfter(owner, step))
  {
  }

  predicate OfInterrupt(step: Step) {
    || step.InterruptStarts? || step.InterruptSetsDeadline? || step.InterruptHasNoDeadline? || step.InterruptChecks?
    || step.InterruptCloses?
  }

  predicate OfWrite(step: Step) {
    step.PutByte? || step.WriteReturns? || step.StopInterrupt? || step.SeeFired? || step.ClearDeadline? || step.Judge?
  }

  lemma InterruptMoves(c: Caller, step: Step, owner: Option<nat>, tr: Transport)
    requires CanStep(c, step, owner, tr) && InterruptOk(c) && OfInterrupt(step)
    ensures InterruptOk(CallerAfter(c, step, owner, tr))
  {
  }

  lemma WriteMoves(c: Caller, step: Step, owner: Option<nat>, tr: Transport)
    requires CanStep(c, step, owner, tr) && InterruptOk(c) && OfWrite(step)
    ensures InterruptOk(CallerAfter(c, step, owner, tr))
  {
  }

  lemma LockMoves(c: Caller, step: Step, owner: Option<nat>, tr: Transport)
    requires CanStep(c, step, owner, tr) && InterruptOk(c) && !OfInterrupt(step) && !OfWrite(step)
    ensures InterruptOk(CallerAfter(c, step, owner, tr))
  {
  }

  lemma StepInterrupt(c: Caller, step: Step, owner: Option<nat>, tr: Transport)
    requires CanStep(c, step, owner, tr) && InterruptOk(c)
    ensures InterruptOk(CallerAfter(c, step, owner, tr))
  {
    if OfInterrupt(step) { InterruptMoves(c, step, owner, tr); }
    else if OfWrite(step) { WriteMoves(c, step, owner, tr); }
    else { LockMoves(c, step, owner, tr); }
  }

  lemma StepWrite(c: Caller, step: Step, owner: Option<nat>, tr: Transport)
    requires CanStep(c, step, owner, tr) && CallerOk(c, step.i, owner, tr)
    requires c.pc.Writing? && tr.armed && !tr.closed ==> c.ended
    ensures WriteOk(CallerAfter(c, step, owner, tr), step.i, TransportAfter(c, step, owner, tr).order)
  {
  }

  lemma StepCaller(s: System, step: Step)
    requires Inv(s) && Enabled(s, step)
    ensures var t := Apply(s, step); CallerOk(t.callers[step.i], step.i, t.owner, t.tr)
  {
    if !step.Arrive? {
      var c := s.callers[step.i];
      assert CallerOk(c, step.i, s.owner, s.tr);
      StepLock(c, step, s.owner, s.tr);
      StepInterrupt(c, step, s.owner, s.tr);
      StepWrite(c, step, s.owner, s.tr);
    }
  }

  lemma StepKeepsCallers(s: System, step: Step)
    requires Inv(s) && Enabled(s, step)
    ensures CallersOk(Apply(s, step))
  {
    var t := Apply(s, step);
    StepFrame(s, step);
    StepCaller(s, step);
    forall j | j in t.callers && j != step.i ensures CallerOk(t.callers[j], j, t.owner, t.tr) {
      assert CallerOk(s.callers[j], j, s.owner, s.tr);
    }
  }

  lemma StepKeepsArmed(s: System, step: Step)
    requires CallersOk(s) && ArmedOk(s) && Enabled(s, step)
    ensures ArmedOk(Apply(s, step))
  {
    if !step.Arrive? { assert CallerOk(s.callers[step.i], step.i, s.owner, s.tr); }
  }

  lemma {:induction false} ConcatSame(callers: map<nat, Caller>, callers': map<nat, Caller>, order: seq<nat>)
    requires forall i :: i in order ==> i in callers && i in callers' && callers'[i].frame == callers[i].frame
    ensures Concat(callers', order) == Concat(callers, order)
  {
    if order != [] {
      ConcatSame(callers, callers', order[..|order| - 1]);
    }
  }

  /** A step other than Arrive keeps every frame. */
  lemma StepKeepsFrames(s: System, step: Step)
    requires Enabled(s, step) && !step.Arrive?
    ensures Apply(s, step).callers[step.i].frame == s.callers[step.i].frame
  {
  }

  /** The byte a step puts on the wire. */
  function Added(c: Caller, step: Step): seq<Byte> {
    if step.PutByte? && c.pc.Writing? && c.pc.n < |c.frame| then [c.frame[c.pc.n]] else []
  }

  predicate Finishes(c: Caller, step: Step) {
    step.WriteReturns? && c.pc.Writing? && c.pc.n == |c.frame|
  }

  /** A step adds to the wire what it adds to the unfinished frame, or finishes that frame;
      one that gives the frame up closes the transport. */
  ghost predicate PartMoves(c: Caller, step: Step, owner: Option<nat>, tr: Transport)
    requires CanStep(c, step, owner, tr)
  {
    var (c', tr') := (CallerAfter(c, step, owner, tr), TransportAfter(c, step, owner, tr));
    && tr'.wire == tr.wire + Added(c, step) && (tr.closed ==> tr'.closed && Added(c, step) == [])
    && (if Finishes(c, step) then
          tr'.order == tr.order + [step.i] && PartOf(c) == c.frame && PartOf(c') == [] && Added(c, step) == []
        else
          && tr'.order == tr.order
          && (OwnerAfter(owner, step) == Some(step.i) ==>
                if tr'.closed then PartOf(c') <= PartOf(c) + Added(c, step) else PartOf(c') == PartOf(c) + Added(c, step)))
    && (!Holds(c) ==> PartOf(c) == [] && Added(c, step) == [])
    && (OwnerAfter(owner, step) != owner ==> PartOf(c') == [] && PartOf(c) == [] && Added(c, step) == [])
  }

  lemma PutPart(c: Caller, step: Step, owner: Option<nat>, tr: Transport)
    requires CanStep(c, step, owner, tr) && CallerOk(c, step.i, owner, tr) && step.PutByte?
    ensures PartMoves(c, step, owner, tr)
  {
    assert c.frame[..c.pc.n + 1] == c.frame[..c.pc.n] + [c.frame[c.pc.n]];
  }

  lemma ReturnPart(c: Caller, step: Step, owner: Option<nat>, tr: Transport)
    requires CanStep(c, step, owner, tr) && CallerOk(c, step.i, owner, tr) && step.WriteReturns?
    ensures PartMoves(c, step, owner, tr)
  {
    assert c.frame[..|c.frame|] == c.frame;
  }

  lemma JudgePart(c: Caller, step: Step, owner: Option<nat>, tr: Transport)
    requires CanStep(c, step, owner, tr) && CallerOk(c, step.i, owner, tr) && step.Judge?
    ensures PartMoves(c, step, owner, tr)
  {
  }

  lemma WaitPart(c: Caller, step: Step, owner: Option<nat>, tr: Transport)
    requires CanStep(c, step, owner, tr) && CallerOk(c, step.i, owner, tr) && (step.StopInterrupt? || step.SeeFired? || step.ClearDeadline?)
    ensures PartMoves(c, step, owner, tr)
  {
  }

  lemma InterruptPart(c: Caller, step: Step, owner: Option<nat>, tr: Transport)
    requires CanStep(c, step, owner, tr) && CallerOk(c, step.i, owner, tr) && OfInterrupt(step)
    ensures PartMoves(c, step, owner, tr)
  {
  }

  lemma OutsidePart(c: Caller, step: Step, owner: Option<nat>, tr: Transport)
    requires CanStep(c, step, owner, tr) && CallerOk(c, step.i, owner, tr) && (step.OtherCloses? || step.EndContext?)
    ensures PartMoves(c, step, owner, tr)
  {
  }

  lemma LockPart(c: Caller, step: Step, owner: Option<nat>, tr: Transport)
    requires CanStep(c, step, owner, tr) && CallerOk(c, step.i, owner, tr) && !OfWrite(step) && !OfInterrupt(step) && !step.OtherCloses? && !step.EndContext?
    ensures PartMoves(c, step, owner, tr)
  {
  }

  lemma StepPart(c: Caller, step: Step, owner: Option<nat>, tr: Transport)
    requires CanStep(c, step, owner, tr) && CallerOk(c, step.i, owner, tr)
    ensures PartMoves(c, step, owner, tr)
  {
    if step.PutByte? { PutPart(c, step, owner, tr); }
    else if step.WriteReturns? { ReturnPart(c, step, owner, tr); }
    else if step.Judge? { JudgePart(c, step, owner, tr); }
    else if OfWrite(step) { WaitPart(c, step, owner, tr); }
    else if OfInterrupt(step) { InterruptPart(c, step, owner, tr); }
    else if step.OtherCloses? || step.EndContext? { OutsidePart(c, step, owner, tr); }
    else { LockPart(c, step, owner, tr); }
  }

  lemma OrderConcat(s: System, step: Step)
    requires WireOk(s) && Enabled(s, step) && !step.Arrive?
    ensures Concat(Apply(s, step).callers, s.tr.order) == Concat(s.callers, s.tr.order)
    ensures Concat(Apply(s, step).callers, s.tr.order + [step.i]) == Concat(s.callers, s.tr.order) + s.callers[step.i].frame
  {
    var t := Apply(s, step);
    StepKeepsFrames(s, step);
    ConcatSame(s.callers, t.callers, s.tr.order);
    assert (s.tr.order + [step.i])[..|s.tr.order|] == s.tr.order;
  }

  /** The unfinished part of a frame grows with the wire, or is given up. */
  lemma GrowsTogether(frames: seq<Byte>, part: seq<Byte>, added: seq<Byte>, now: seq<Byte>, wire: seq<Byte>)
    requires frames + part <= wire && (added != [] ==> wire == frames + part)
    requires now <= part + added
    ensures frames + now <= wire + added
    ensures now == part + added && wire == frames + part ==> wire + added == frames + now
  {
    if added != [] {
      assert wire + added == frames + (part + added);
    } else {
      assert part + added == part && wire + added == wire;
    }
  }

  /** The writer's own step, on the frames before its own. */
  lemma WriterGrows(c: Caller, step: Step, owner: Option<nat>, tr: Transport, frames: seq<Byte>)
    requires CanStep(c, step, owner, tr) && owner == Some(step.i) && PartMoves(c, step, owner, tr)
    requires frames + PartOf(c) <= tr.wire && (!tr.closed ==> tr.wire == frames + PartOf(c))
    ensures var now := if Finishes(c, step) then frames + c.frame else frames;
      var part := if OwnerAfter(owner, step) == owner then PartOf(CallerAfter(c, step, owner, tr)) else [];
      var tr' := TransportAfter(c, step, owner, tr);
      now + part <= tr'.wire && (!tr'.closed ==> tr'.wire == now + part)
  {
    var part := if OwnerAfter(owner, step) == owner then PartOf(CallerAfter(c, step, owner, tr)) else [];
    if Finishes(c, step) {
      assert frames + c.frame + [] == frames + c.frame && tr.wire + [] == tr.wire;
    } else {
      GrowsTogether(frames, PartOf(c), Added(c, step), part, tr.wire);
    }
  }

  lemma WriterWire(s: System, step: Step)
    requires CallersOk(s) && WireOk(s) && Enabled(s, step) && !step.Arrive? && s.owner == Some(step.i)
    ensures WireIs(Apply(s, step))
  {
    var c := s.callers[step.i];
    assert CallerOk(c, step.i, s.owner, s.tr);
    StepPart(c, step, s.owner, s.tr);
    OrderConcat(s, step);
    WriterGrows(c, step, s.owner, s.tr, Concat(s.callers, s.tr.order));
  }

  lemma QueuedWire(s: System, step: Step)
    requires CallersOk(s) && WireOk(s) && Enabled(s, step) && !step.Arrive? && s.owner != Some(step.i)
    ensures WireIs(Apply(s, step))
  {
    assert CallerOk(s.callers[step.i], step.i, s.owner, s.tr);
    StepPart(s.callers[step.i], step, s.owner, s.tr);
    OrderConcat(s, step);
  }

  lemma StepWire(s: System, step: Step)
    requires CallersOk(s) && WireOk(s) && Enabled(s, step)
    ensures WireIs(Apply(s, step))
  {
    if step.Arrive? {
      ConcatSame(s.callers, Apply(s, step).callers, s.tr.order);
    } else if s.owner == Some(step.i) {
      WriterWire(s, step);
    } else {
      QueuedWire(s, step);
    }
  }

  lemma StepKeepsWire(s: System, step: Step)
    requires Inv(s) && Enabled(s, step)
    ensures WireOk(Apply(s, step))
  {
    var t := Apply(s, step);
    StepFrame(s, step);
    StepWire(s, step);
    if step.WriteReturns? { assert CallerOk(s.callers[step.i], step.i, s.owner, s.tr); }
  }

  lemma NextKeepsInv(s: System, t: System)
    requires Inv(s) && Next(s, t)
    ensures Inv(t)
  {
    var step :| Enabled(s, step) && t == Apply(s, step);
    StepKeepsCallers(s, step);
    StepKeepsArmed(s, step);
    StepKeepsWire(s, step);
  }

  lemma InvIsInductive()
    ensures Runs.Inductive(Init, Next, Inv)
  {
    forall s, t | Inv(s) && Next(s, t) ensures Inv(t) { NextKeepsInv(s, t); }
  }

  lemma InvAt(run: seq<System>, i: nat)
    requires Run(run) && i < |run|
    ensures Inv(run[i])
  {
    InvIsInductive();
    Runs.Holds(Init, Next, Inv, run, i);
  }

  // ---- what WriteFrameCtx promises --------------------------------------------------------

  /** Whenever the lock is free, the transport was closed or the wire is whole frames,
      each of a different caller. A closed one still begins with them. */
  lemma WholeFrames(run: seq<System>, i: nat)
    requires Run(run) && i < |run| && run[i].owner.None?
    ensures var s := run[i];
      && Concat(s.callers, s.tr.order) <= s.tr.wire
      && (s.tr.closed || s.tr.wire == Concat(s.callers, s.tr.order))
      && (forall j :: j in s.tr.order ==> j in s.callers)
      && (forall a, b :: 0 <= a < b < |s.tr.order| ==> s.tr.order[a] != s.tr.order[b])
  {
    InvAt(run, i);
  }

  lemma {:induction false} ConcatPrefix(callers: map<nat, Caller>, order: seq<nat>, k: nat)
    requires k < |order|
    ensures Concat(callers, order[..k]) + FrameOf(callers, order[k]) <= Concat(callers, order)
  {
    var last := |order| - 1;
    if k < last {
      ConcatPrefix(callers, order[..last], k);
      assert order[..last][..k] == order[..k];
    }
  }

  /** A caller told its frame was sent has its whole frame on the wire, right after those of
      the callers before it, whether the transport was closed since or not. */
  lemma SentIsOnTheWire(run: seq<System>, i: nat, j: nat) returns (k: nat)
    requires Run(run) && i < |run| && j in run[i].callers && run[i].callers[j].pc == Done(Sent)
    ensures var s := run[i];
      && k < |s.tr.order| && s.tr.order[k] == j
      && Concat(s.callers, s.tr.order[..k]) + s.callers[j].frame <= s.tr.wire
  {
    InvAt(run, i);
    var s := run[i];
    assert CallerOk(s.callers[j], j, s.owner, s.tr);
    k :| 0 <= k < |s.tr.order| && s.tr.order[k] == j;
    ConcatPrefix(s.callers, s.tr.order, k);
    assert Concat(s.callers, s.tr.order) <= Concat(s.callers, s.tr.order) + Partial(s) <= s.tr.wire;
  }

  /** Every acquisition, the helper's included, is released once, and all of them have
      been when the lock is free. */
  lemma ReleasedOnce(run: seq<System>, i: nat, j: nat)
    requires Run(run) && i < |run| && j in run[i].callers
    ensures var c := run[i].callers[j];
      && c.releases <= c.acquires <= 1
      && (c.acquires != c.releases <==> run[i].owner == Some(j))
  {
    InvAt(run, i);
    assert CallerOk(run[i].callers[j], j, run[i].owner, run[i].tr);
  }

  /** A caller that has not begun to write when its context ends never writes. */
  ghost predicate Silent(c: Caller) {
    c.ended && (BeforeWrite(c.pc) || c.pc == Unlocking(ContextError) || c.pc == Done(ContextError))
  }

  ghost predicate SilentAt(s: System, j: nat) {
    j in s.callers && Silent(s.callers[j]) && j !in s.tr.order
  }

  lemma SilentMoves(c: Caller, step: Step, owner: Option<nat>, tr: Transport)
    requires CanStep(c, step, owner, tr) && InterruptOk(c) && Silent(c)
    ensures Silent(CallerAfter(c, step, owner, tr))
    ensures TransportAfter(c, step, owner, tr).wire == tr.wire && TransportAfter(c, step, owner, tr).order == tr.order
  {
  }

  lemma StepKeepsSilent(s: System, step: Step, j: nat)
    requires CallersOk(s) && Enabled(s, step) && SilentAt(s, j)
    ensures SilentAt(Apply(s, step), j)
    ensures step.i == j ==> Apply(s, step).tr.wire == s.tr.wire
  {
    assert CallerOk(s.callers[j], j, s.owner, s.tr);
    if step.i == j {
      SilentMoves(s.callers[j], step, s.owner, s.tr);
    } else {
      StepFrame(s, step);
    }
  }

  lemma EndedWhileQueuedWritesNothing(run: seq<System>, i: nat, k: nat, j: nat)
    requires Run(run) && i <= k < |run| && j in run[i].callers
    requires run[i].callers[j].ended && BeforeWrite(run[i].callers[j].pc)
    ensures j in run[k].callers && Silent(run[k].callers[j]) && j !in run[k].tr.order
  {
    InvIsInductive();
    forall s: System, t: System | Inv(s) && Next(s, t) && SilentAt(s, j) ensures SilentAt(t, j) {
      var step :| Enabled(s, step) && t == Apply(s, step);
      StepKeepsSilent(s, step, j);
    }
    InvAt(run, i);
    assert CallerOk(run[i].callers[j], j, run[i].owner, run[i].tr);
    Runs.Stays(Init, Next, Inv, (s: System) => SilentAt(s, j), run, i, k);
  }

  /** No write starts under a deadline an earlier interrupt left behind, unless the
      transport is closed; and one cut short by a deadline reports its context. */
  lemma NoInheritedDeadline(run: seq<System>, i: nat, j: nat)
    requires Run(run) && i < |run| && j in run[i].callers && !run[i].tr.closed
    ensures run[i].owner.None? || (BeforeWrite(run[i].callers[j].pc) && run[i].owner == Some(j)) ==> !run[i].tr.armed
    ensures run[i].tr.armed && InWrite(run[i].callers[j].pc) ==> run[i].callers[j].ended
  {
    InvAt(run, i);
    assert CallerOk(run[i].callers[j], j, run[i].owner, run[i].tr);
  }

  lemma DeadlineMeansContextEnded(run: seq<System>, i: nat, j: nat)
    requires Run(run) && i < |run| && j in run[i].callers
    requires run[i].callers[j].pc.Judging? && run[i].callers[j].pc.err.DeadlineExceeded?
    ensures Verdict(run[i].callers[j], run[i].callers[j].pc.err) == ContextError
  {
    InvAt(run, i);
    assert CallerOk(run[i].callers[j], j, run[i].owner, run[i].tr);
  }

  /** What a caller is told of its write, and what becomes of the transport: success exactly if
      the write gave no error; its context's error if that ended and either the deadline or its
      own closing cut the write; and after a write that failed midway the transport is closed. */
  lemma ResultOfAWrite(run: seq<System>, i: nat, j: nat)
    requires Run(run) && i + 1 < |run| && j in run[i].callers && j in run[i + 1].callers
    requires run[i].callers[j].pc.Judging? && run[i + 1].callers[j].pc.Unlocking?
    ensures var (c, result, closed) := (run[i].callers[j], run[i + 1].callers[j].pc.result, run[i + 1].tr.closed);
      && (result == Sent <==> c.pc.err == NoError)
      && (result == ContextError <==>
            c.ended && (c.pc.err == DeadlineExceeded || (c.pc.err == TransportClosed && c.closedByUs)))
      && (closed <==> run[i].tr.closed || (c.pc.err != NoError && c.pc.n > 0))
  {
    Runs.StepAt(Init, Next, run, i + 1);
    var step :| Enabled(run[i], step) && run[i + 1] == Apply(run[i], step);
    OnlyJudgeJudges(run[i], step, j);
  }

  lemma OnlyJudgeJudges(s: System, step: Step, j: nat)
    requires Enabled(s, step) && j in s.callers && j in Apply(s, step).callers
    requires s.callers[j].pc.Judging? && Apply(s, step).callers[j].pc.Unlocking?
    ensures step == Judge(j)
  {
  }

  /** A caller's interrupt sets the deadline or closes the transport only for a context that
      ended, and closes it only while the caller's own write is not known to have returned. */
  lemma InterruptsItsOwnWrite(run: seq<System>, i: nat, j: nat)
    requires Run(run) && i + 1 < |run| && j in run[i].callers && j in run[i + 1].callers
    requires !run[i].callers[j].closedByUs && run[i + 1].callers[j].closedByUs
    ensures run[i].callers[j].ended && run[i].callers[j].pc.Writing? && !run[i].callers[j].writeDone
  {
    InvAt(run, i);
    Runs.StepAt(Init, Next, run, i + 1);
    var step :| Enabled(run[i], step) && run[i + 1] == Apply(run[i], step);
    OnlyChecksClose(run[i], step, j);
  }

  lemma OnlyChecksClose(s: System, step: Step, j: nat)
    requires CallersOk(s) && Enabled(s, step) && j in s.callers && j in Apply(s, step).callers
    requires !s.callers[j].closedByUs && Apply(s, step).callers[j].closedByUs
    ensures step == InterruptChecks(j) && s.callers[j].ended && s.callers[j].pc.Writing? && !s.callers[j].writeDone
  {
    assert CallerOk(s.callers[j], j, s.owner, s.tr);
  }
}
