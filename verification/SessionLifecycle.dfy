/**
 One session's operations (Session.cc): asynchronous update and delete on a background thread, synchronous
 shutdown on its caller's thread, any number of callers, interleaved lock section by lock section.
 Making the operation thread and storing it is one step.
 */
module SessionLifecycle {
  import opened Common

  datatype SessionState = Free | Busy | Defunct

  /** How far `deleteProc` has come: computations stopped, client kicked, router told to drop the routing data. */
  datatype DeletePhase = Stopping | Kicked | Released

  /** The operation thread.  A body has `Ended` when the state is set again; the thread is joinable until `Exited`. */
  datatype Thread = NoThread | Updating | Deleting(phase: DeletePhase) | Ended | Exited

  /** Callers inside an operation; a caller not in the map is in none. */
  datatype Caller =
    | JoinToUpdate
    | JoinToDelete
    | ShutdownWaits
    | ShutdownJoins
    | ShutdownDeletes(phase: DeletePhase)

  /** `started` logs computations; `kicked`, `released` and `down` record that a step has happened. */
  datatype Session = Session(
    state: SessionState, shuttingDown: bool, thread: Thread, callers: map<nat, Caller>,
    started: seq<Id>, kicked: bool, released: bool, down: bool)

  const NEW_SESSION: Session := Session(Free, false, NoThread, map[], [], false, false, false)

  /** `deleteProc` runs on the operation thread, or inline in a caller of `syncShutdown`. */
  datatype Runner = OnThread | Inline(caller: nat)

  datatype Step =
    | BeginUpdate(t: nat)
    | SpawnUpdate(t: nat)
    | BeginDelete(t: nat)
    | SpawnDelete(t: nat)
    | BeginShutdown(t: nat)
    | ShutdownTimesOut(t: nat)
    | ShutdownProceeds(t: nat)
    | ShutdownJoined(t: nat)
    | Start(computation: Id)
    | FinishUpdate
    | Kick(runner: Runner)
    | Release(runner: Runner)
    | FinishDelete(runner: Runner)
    | ExitThread

  predicate Accepts(s: Session) {
    !s.shuttingDown && s.state == Free
  }

  predicate Joinable(s: Session) {
    s.thread == NoThread || s.thread == Exited
  }

  predicate At(s: Session, t: nat, pc: Caller) {
    t in s.callers && s.callers[t] == pc
  }

  function Move(s: Session, t: nat, pc: Caller): Session {
    s.(callers := s.callers[t := pc])
  }

  function Leave(s: Session, t: nat): Session {
    s.(callers := s.callers - {t})
  }

  predicate DeletingAt(s: Session, runner: Runner, phase: DeletePhase) {
    match runner
    case OnThread => s.thread == Deleting(phase)
    case Inline(t) => At(s, t, ShutdownDeletes(phase))
  }

  function DeleteMoves(s: Session, runner: Runner, phase: DeletePhase): Session {
    match runner
    case OnThread => s.(thread := Deleting(phase))
    case Inline(t) => Move(s, t, ShutdownDeletes(phase))
  }

  predicate InShutdown(pc: Caller) {
    pc.ShutdownWaits? || pc.ShutdownJoins? || pc.ShutdownDeletes?
  }

  /** A caller enters an operation, moves on in it or leaves it. */
  ghost predicate CallerNext(s: Session, s': Session, step: Step) {
    match step
    case BeginUpdate(t) => t !in s.callers && Accepts(s) && s' == Move(s, t, JoinToUpdate).(state := Busy)
    case SpawnUpdate(t) => At(s, t, JoinToUpdate) && Joinable(s) && s' == Leave(s, t).(thread := Updating)
    case BeginDelete(t) => t !in s.callers && Accepts(s) && s' == Move(s, t, JoinToDelete).(state := Busy)
    case SpawnDelete(t) => At(s, t, JoinToDelete) && Joinable(s) && s' == Leave(s, t).(thread := Deleting(Stopping))
    case BeginShutdown(t) =>
      // shutdowns are serialised by the session table's lock
      && t !in s.callers && (forall u :: u in s.callers ==> !InShutdown(s.callers[u]))
      && s' == Move(s, t, ShutdownWaits).(shuttingDown := true)
    // the wait may time out just as the state leaves Busy: it is not looked at again
    case ShutdownTimesOut(t) => At(s, t, ShutdownWaits) && s' == Leave(s, t)
    case ShutdownProceeds(t) => At(s, t, ShutdownWaits) && s.state != Busy && s' == Move(s, t, ShutdownJoins)
    case ShutdownJoined(t) =>
      At(s, t, ShutdownJoins) && Joinable(s) && s' == Move(s, t, ShutdownDeletes(Stopping)).(thread := NoThread)
    case _ => false
  }

  /** A body, on the thread or inline, takes a step. */
  predicate BodyNext(s: Session, s': Session, step: Step) {
    match step
    case Start(computation) => s.thread == Updating && s' == s.(started := s.started + [computation])
    case FinishUpdate =>
      s.thread == Updating && s' == s.(state := if s.state == Busy then Free else s.state, thread := Ended)
    case Kick(runner) => DeletingAt(s, runner, Stopping) && s' == DeleteMoves(s, runner, Kicked).(kicked := true)
    case Release(runner) => DeletingAt(s, runner, Kicked) && s' == DeleteMoves(s, runner, Released).(released := true)
    case FinishDelete(OnThread) => s.thread == Deleting(Released) && s' == s.(state := Defunct, thread := Ended)
    case FinishDelete(Inline(t)) =>
      At(s, t, ShutdownDeletes(Released)) && s' == Leave(s, t).(state := Defunct, down := true)
    case ExitThread => s.thread == Ended && s' == s.(thread := Exited)
    case _ => false
  }

  ghost predicate Next(s: Session, s': Session, step: Step) {
    CallerNext(s, s', step) || BodyNext(s, s', step)
  }

  /** The two bodies an operation thread can run. */
  predicate ThreadBody(s: Session) {
    s.thread == Updating || s.thread.Deleting?
  }

  /** Past the state check of an asynchronous operation, about to join the old thread and start the new one. */
  predicate Joins(s: Session, t: nat) {
    t in s.callers && (s.callers[t].JoinToUpdate? || s.callers[t].JoinToDelete?)
  }

  predicate ShutsDown(s: Session, t: nat) {
    t in s.callers && InShutdown(s.callers[t])
  }

  predicate InlineBody(s: Session, t: nat) {
    t in s.callers && s.callers[t].ShutdownDeletes?
  }

  /** A caller that may touch the operation thread object. */
  predicate HandlesThread(s: Session, t: nat) {
    Joins(s, t) || At(s, t, ShutdownJoins)
  }

  ghost predicate Exclusive(s: Session) {
    // Busy is held by exactly one: the caller that set it, then the body it started
    && (ThreadBody(s) ==> s.state == Busy)
    && (forall t :: Joins(s, t) ==> s.state == Busy && !ThreadBody(s))
    && (forall t, u :: Joins(s, t) && Joins(s, u) ==> t == u)
    // a shutdown past its wait excludes every other operation
    && (forall t :: ShutsDown(s, t) ==> s.shuttingDown)
    && (forall t, u :: ShutsDown(s, t) && ShutsDown(s, u) ==> t == u)
    && (forall t :: At(s, t, ShutdownJoins) ==> s.state != Busy)
    && (forall t :: InlineBody(s, t) ==> s.state != Busy && s.thread == NoThread)
  }

  /** What the delete body has sent to the router, and what that rules out. */
  ghost predicate Ordered(s: Session) {
    && (forall runner :: DeletingAt(s, runner, Kicked) || DeletingAt(s, runner, Released) ==> s.kicked)
    && (s.released ==> s.state == Defunct || s.shuttingDown || s.thread.Deleting?)
    && (s.released ==> s.thread != Updating && forall t :: !At(s, t, JoinToUpdate))
    && (s.down ==> s.state == Defunct)
  }

  predicate Progressed(s: Session, runner: Runner) {
    DeletingAt(s, runner, Kicked) || DeletingAt(s, runner, Released)
  }

  /** Busy, the kick and the Delete each have something under way, or done, to show for it. */
  ghost predicate Accountable(s: Session) {
    && (s.state == Busy ==> ThreadBody(s) || exists t :: Joins(s, t))
    && (forall runner :: DeletingAt(s, runner, Released) ==> s.released)
    && (s.state == Defunct ==> s.released)
    && (s.kicked ==> s.state == Defunct || exists runner :: Progressed(s, runner))
  }

  ghost predicate Inv(s: Session) {
    Exclusive(s) && Ordered(s) && Accountable(s)
  }

  /** The caller whose position a step changes. */
  function Mover(step: Step): Option<nat> {
    match step
    case Start(_) | FinishUpdate | ExitThread | Kick(OnThread) | Release(OnThread) | FinishDelete(OnThread) => None
    case Kick(Inline(t)) => Some(t)
    case Release(Inline(t)) => Some(t)
    case FinishDelete(Inline(t)) => Some(t)
    case _ => Some(step.t)
  }

  /** A step leaves the callers alone, or changes where its mover is. */
  predicate CallersChange(callers: map<nat, Caller>, callers': map<nat, Caller>, mover: Option<nat>) {
    || callers' == callers
    || (mover.Some? && (callers' == callers - {mover.value}
                        || (mover.value in callers' && callers' == callers[mover.value := callers'[mover.value]])))
  }

  lemma CallerChanges(s: Session, s': Session, step: Step)
    requires CallerNext(s, s', step)
    ensures CallersChange(s.callers, s'.callers, Mover(step))
    ensures s'.kicked == s.kicked && s'.released == s.released && s'.down == s.down && s'.started == s.started
    ensures s'.state == s.state || (s.state == Free && s'.state == Busy)
  {
  }

  lemma BodyChanges(s: Session, s': Session, step: Step)
    requires BodyNext(s, s', step)
    ensures CallersChange(s.callers, s'.callers, Mover(step))
    ensures s.kicked ==> s'.kicked
    ensures step.FinishDelete? ==> s'.state == Defunct
    ensures !step.FinishDelete? ==> s'.down == s.down && (s'.state == s.state || s.thread == Updating)
    ensures s'.started == s.started || s.thread == Updating
  {
  }

  lemma OthersStay(s: Session, s': Session, step: Step, t: nat)
    requires Next(s, s', step) && Mover(step) != Some(t)
    ensures t in s'.callers <==> t in s.callers
    ensures t in s.callers ==> s'.callers[t] == s.callers[t]
  {
    if CallerNext(s, s', step) { CallerChanges(s, s', step); } else { BodyChanges(s, s', step); }
  }

  /** A step moves its own caller only. */
  lemma CallersMove(s: Session, s': Session, step: Step, t: nat)
    requires Next(s, s', step)
    ensures Joins(s', t) ==> Joins(s, t) || step == BeginUpdate(t) || step == BeginDelete(t)
    ensures ShutsDown(s', t) ==> ShutsDown(s, t) || step == BeginShutdown(t)
    ensures At(s', t, ShutdownJoins) ==> At(s, t, ShutdownJoins) || step == ShutdownProceeds(t)
    ensures InlineBody(s', t) ==> InlineBody(s, t) || step == ShutdownJoined(t)
    ensures At(s', t, JoinToUpdate) ==> At(s, t, JoinToUpdate) || step == BeginUpdate(t)
  {
    if Mover(step) != Some(t) {
      OthersStay(s, s', step, t);
    }
  }

  /** A caller that was joining already still holds Busy, with no body running. */
  lemma JoiningStays(s: Session, s': Session, step: Step, t: nat)
    requires Exclusive(s) && Next(s, s', step) && Joins(s, t) && Joins(s', t)
    ensures s'.state == Busy && !ThreadBody(s')
  {
    if CallerNext(s, s', step) {
      CallerChanges(s, s', step);
      if step.SpawnUpdate? || step.SpawnDelete? { assert Joins(s, step.t); }
    } else if Mover(step).Some? {
      assert InlineBody(s, Mover(step).value);
    }
  }

  lemma JoinsKept(s: Session, s': Session, step: Step, t: nat, u: nat)
    requires Exclusive(s) && Next(s, s', step) && Joins(s', t)
    ensures s'.state == Busy && !ThreadBody(s')
    ensures Joins(s', u) ==> t == u
  {
    CallersMove(s, s', step, t);
    CallersMove(s, s', step, u);
    if Joins(s, t) { JoiningStays(s, s', step, t); }
  }

  lemma ShutdownKept(s: Session, s': Session, step: Step, t: nat, u: nat)
    requires Exclusive(s) && Next(s, s', step) && ShutsDown(s', t)
    ensures s'.shuttingDown
    ensures ShutsDown(s', u) ==> t == u
    ensures At(s', t, ShutdownJoins) ==> s'.state != Busy
    ensures InlineBody(s', t) ==> s'.state != Busy && s'.thread == NoThread
  {
    CallersMove(s, s', step, t);
    CallersMove(s, s', step, u);
    match step
    case SpawnUpdate(v) => assert Joins(s, v);
    case SpawnDelete(v) => assert Joins(s, v);
    case _ =>
  }

  lemma BodyIsBusy(s: Session, s': Session, step: Step)
    requires Exclusive(s) && Next(s, s', step) && ThreadBody(s')
    ensures s'.state == Busy
  {
    if CallerNext(s, s', step) {
      if step.SpawnUpdate? || step.SpawnDelete? { assert Joins(s, step.t); }
    } else if step.FinishDelete? && step.runner.Inline? {
      assert InlineBody(s, step.runner.caller);
    }
  }

  lemma ExclusiveKept(s: Session, s': Session, step: Step)
    requires Exclusive(s) && Next(s, s', step)
    ensures Exclusive(s')
  {
    forall t, u | Joins(s', t) ensures s'.state == Busy && !ThreadBody(s') && (Joins(s', u) ==> t == u) {
      JoinsKept(s, s', step, t, u);
    }
    forall t, u | ShutsDown(s', t)
      ensures && s'.shuttingDown && (ShutsDown(s', u) ==> t == u)
              && (At(s', t, ShutdownJoins) ==> s'.state != Busy)
              && (InlineBody(s', t) ==> s'.state != Busy && s'.thread == NoThread)
    {
      ShutdownKept(s, s', step, t, u);
    }
    forall t ensures InlineBody(s', t) || At(s', t, ShutdownJoins) ==> ShutsDown(s', t) {
    }
    if ThreadBody(s') { BodyIsBusy(s, s', step); }
  }

  lemma KickedKept(s: Session, s': Session, step: Step, runner: Runner)
    requires Ordered(s) && Next(s, s', step) && (DeletingAt(s', runner, Kicked) || DeletingAt(s', runner, Released))
    ensures s'.kicked
  {
    if step == Release(runner) {
      assert DeletingAt(s, runner, Kicked);
      BodyChanges(s, s', step);
    } else if step != Kick(runner) {
      WhereDeleteWas(s, s', step, runner);
      if CallerNext(s, s', step) { CallerChanges(s, s', step); } else { BodyChanges(s, s', step); }
    }
  }

  lemma WhereDeleteWas(s: Session, s': Session, step: Step, runner: Runner)
    requires Next(s, s', step) && step != Kick(runner) && step != Release(runner)
    requires DeletingAt(s', runner, Kicked) || DeletingAt(s', runner, Released)
    ensures DeletingAt(s, runner, Kicked) || DeletingAt(s, runner, Released)
  {
    if runner.Inline? && Mover(step) != Some(runner.caller) {
      OthersStay(s, s', step, runner.caller);
    } else if CallerNext(s, s', step) {
      CallerIsNotDeleting(s, s', step, runner);
    }
  }

  /** A caller's step starts a delete body at most, before its kick. */
  lemma CallerIsNotDeleting(s: Session, s': Session, step: Step, runner: Runner)
    requires CallerNext(s, s', step) && (runner == OnThread || Mover(step) == Some(runner.caller))
    requires DeletingAt(s', runner, Kicked) || DeletingAt(s', runner, Released)
    ensures runner == OnThread && s.thread == s'.thread
  {
  }

  /** The Delete leaves no update running or about to run, and none can begin after it. */
  lemma ReleaseEndsUpdates(s: Session, runner: Runner)
    requires Exclusive(s) && DeletingAt(s, runner, Kicked)
    ensures s.thread != Updating && (runner.Inline? ==> s.shuttingDown)
    ensures forall t :: !At(s, t, JoinToUpdate)
  {
    forall t ensures !At(s, t, JoinToUpdate) {
      assert Joins(s, t) ==> !ThreadBody(s) && s.state == Busy;
      if runner.Inline? { assert InlineBody(s, runner.caller); }
    }
    if runner.Inline? { assert InlineBody(s, runner.caller) && ShutsDown(s, runner.caller); }
  }

  lemma ReleasedKept(s: Session, s': Session, step: Step)
    requires Inv(s) && Next(s, s', step) && s'.released
    ensures s'.state == Defunct || s'.shuttingDown || s'.thread.Deleting?
    ensures s'.thread != Updating && forall t :: !At(s', t, JoinToUpdate)
  {
    forall t ensures At(s', t, JoinToUpdate) ==> At(s, t, JoinToUpdate) || step == BeginUpdate(t) {
      CallersMove(s, s', step, t);
    }
    if step.Release? {
      ReleaseEndsUpdates(s, step.runner);
    } else {
      assert s.released;
    }
  }

  lemma OrderedKept(s: Session, s': Session, step: Step)
    requires Inv(s) && Next(s, s', step)
    ensures Ordered(s')
  {
    forall runner | DeletingAt(s', runner, Kicked) || DeletingAt(s', runner, Released) ensures s'.kicked {
      KickedKept(s, s', step, runner);
    }
    if s'.released { ReleasedKept(s, s', step); }
    DownKept(s, s', step);
  }

  lemma DownKept(s: Session, s': Session, step: Step)
    requires (s.down ==> s.state == Defunct) && Exclusive(s) && Next(s, s', step)
    ensures s'.down ==> s'.state == Defunct
  {
    if CallerNext(s, s', step) { CallerChanges(s, s', step); } else { BodyChanges(s, s', step); }
  }

  lemma BusyCallerKept(s: Session, s': Session, step: Step)
    requires Exclusive(s) && (s.state == Busy ==> ThreadBody(s) || exists t :: Joins(s, t))
    requires CallerNext(s, s', step) && s'.state == Busy
    ensures ThreadBody(s') || exists t :: Joins(s', t)
  {
    CallerChanges(s, s', step);
    if step.BeginUpdate? || step.BeginDelete? {
      assert Joins(s', step.t);
    } else if !step.SpawnUpdate? && !step.SpawnDelete? {
      if t: nat :| Joins(s, t) {
        assert t != step.t;
        assert Joins(s', t);
      }
    }
  }

  lemma BusyBodyKept(s: Session, s': Session, step: Step)
    requires Exclusive(s) && (s.state == Busy ==> ThreadBody(s) || exists t :: Joins(s, t))
    requires BodyNext(s, s', step) && s'.state == Busy
    ensures ThreadBody(s') || exists t :: Joins(s', t)
  {
    BodyChanges(s, s', step);
    if t: nat :| Joins(s, t) {
      if Mover(step) != Some(t) {
        OthersStay(s, s', step, t);
        assert Joins(s', t);
      }
    }
  }

  lemma BusyKept(s: Session, s': Session, step: Step)
    requires Exclusive(s) && (s.state == Busy ==> ThreadBody(s) || exists t :: Joins(s, t))
    requires Next(s, s', step) && s'.state == Busy
    ensures ThreadBody(s') || exists t :: Joins(s', t)
  {
    if CallerNext(s, s', step) { BusyCallerKept(s, s', step); } else { BusyBodyKept(s, s', step); }
  }

  lemma ReleasedIsRemembered(s: Session, s': Session, step: Step, runner: Runner)
    requires (DeletingAt(s, runner, Released) ==> s.released) && Next(s, s', step)
    requires DeletingAt(s', runner, Released)
    ensures s'.released
  {
    if step != Release(runner) && runner.Inline? && Mover(step) != Some(runner.caller) {
      OthersStay(s, s', step, runner.caller);
    }
  }

  lemma ProgressedStays(s: Session, s': Session, step: Step, runner: Runner)
    requires Next(s, s', step) && Progressed(s, runner)
    ensures Progressed(s', runner) || s'.state == Defunct
  {
    if runner.Inline? && Mover(step) != Some(runner.caller) { OthersStay(s, s', step, runner.caller); }
  }

  lemma AccountableKept(s: Session, s': Session, step: Step)
    requires Inv(s) && Next(s, s', step)
    ensures Accountable(s')
  {
    if s'.state == Busy { BusyKept(s, s', step); }
    forall runner | DeletingAt(s', runner, Released) ensures s'.released {
      ReleasedIsRemembered(s, s', step, runner);
    }
    if s'.kicked && s'.state != Defunct {
      if step.Kick? {
        assert Progressed(s', step.runner);
      } else {
        if !s.kicked { BeforeKick(s, s', step); }
        if s.state == Defunct { DefunctIsFinal(s, s', step); }
        var runner :| Progressed(s, runner);
        ProgressedStays(s, s', step, runner);
      }
    }
    if s'.state == Defunct { DefunctHasReleased(s, s', step); }
  }

  lemma DefunctHasReleased(s: Session, s': Session, step: Step)
    requires Accountable(s) && Next(s, s', step) && s'.state == Defunct
    ensures s'.released
  {
    if CallerNext(s, s', step) {
      CallerChanges(s, s', step);
    } else if step.FinishDelete? {
      assert DeletingAt(s, step.runner, Released);
    }
  }

  lemma InvKept(s: Session, s': Session, step: Step)
    requires Inv(s) && Next(s, s', step)
    ensures Inv(s')
  {
    ExclusiveKept(s, s', step);
    OrderedKept(s, s', step);
    AccountableKept(s, s', step);
  }

  /** Only the kick's own step ends the time before it. */
  lemma BeforeKick(s: Session, s': Session, step: Step)
    requires Inv(s) && Next(s, s', step) && !s.kicked && s.state != Defunct && !step.Kick?
    ensures !s'.kicked && s'.state != Defunct
  {
    if CallerNext(s, s', step) {
      CallerChanges(s, s', step);
    } else if step.FinishDelete? {
      assert DeletingAt(s, step.runner, Released);
    }
  }

  ghost predicate Run(run: seq<Session>, steps: seq<Step>) {
    && |run| == |steps| + 1 && run[0] == NEW_SESSION
    && forall i :: 0 <= i < |steps| ==> Next(run[i], run[i + 1], steps[i])
  }

  lemma {:induction false} RunKeeps(run: seq<Session>, steps: seq<Step>, k: nat)
    requires Run(run, steps) && k < |run|
    ensures Inv(run[k])
  {
    if k > 0 {
      RunKeeps(run, steps, k - 1);
      InvKept(run[k - 1], run[k], steps[k - 1]);
    }
  }

  /** At most one body runs: the operation thread's, or one inline delete; and one caller at most handles the thread. */
  lemma OneBodyAtATime(run: seq<Session>, steps: seq<Step>, k: nat, t: nat, u: nat)
    requires Run(run, steps) && k < |run|
    ensures !(ThreadBody(run[k]) && InlineBody(run[k], t))
    ensures InlineBody(run[k], t) && InlineBody(run[k], u) ==> t == u
    ensures HandlesThread(run[k], t) && HandlesThread(run[k], u) ==> t == u
    ensures HandlesThread(run[k], t) ==> !ThreadBody(run[k])
  {
    RunKeeps(run, steps, k);
    assert forall v :: InlineBody(run[k], v) || At(run[k], v, ShutdownJoins) ==> ShutsDown(run[k], v);
  }

  lemma DefunctIsFinal(s: Session, s': Session, step: Step)
    requires Inv(s) && Next(s, s', step) && s.state == Defunct
    ensures s'.state == Defunct && s'.started == s.started
  {
    if CallerNext(s, s', step) { CallerChanges(s, s', step); } else { BodyChanges(s, s', step); }
  }

  lemma {:induction false} DefunctForever(run: seq<Session>, steps: seq<Step>, i: nat, j: nat)
    requires Run(run, steps) && i <= j < |run| && run[i].state == Defunct
    ensures run[j].state == Defunct && run[j].started == run[i].started
    decreases j
  {
    if i < j {
      var before := j - 1;
      DefunctForever(run, steps, i, before);
      RunKeeps(run, steps, before);
      assert Next(run[before], run[j], steps[before]);
      DefunctIsFinal(run[before], run[j], steps[before]);
    }
  }

  /** Once `syncShutdown` has returned normally the session is Defunct, and no computation is started ever after. */
  lemma ShutdownIsFinal(run: seq<Session>, steps: seq<Step>, i: nat, j: nat)
    requires Run(run, steps) && i <= j < |run| && run[i].down
    ensures run[i].state == Defunct
    ensures run[j].state == Defunct && run[j].started == run[i].started
  {
    RunKeeps(run, steps, i);
    DefunctForever(run, steps, i, j);
  }

  // ---------------------------------------------------------------------------------------------
  // What an operation already accepted may still do.

  /** An update was accepted and may still start computations. */
  ghost predicate MayUpdate(s: Session) {
    s.thread == Updating || exists t :: At(s, t, JoinToUpdate)
  }

  predicate PendingAt(s: Session, t: nat) {
    t in s.callers && !s.callers[t].JoinToUpdate? && s.callers[t] != ShutdownDeletes(Released)
  }

  /** A delete or a shutdown was accepted and may still send the Delete. */
  ghost predicate DeletePending(s: Session) {
    s.thread == Deleting(Stopping) || s.thread == Deleting(Kicked) || exists t :: PendingAt(s, t)
  }

  lemma MayUpdateMoves(s: Session, s': Session, step: Step)
    requires Next(s, s', step) && MayUpdate(s')
    ensures MayUpdate(s) || step.BeginUpdate?
  {
    if t: nat :| At(s', t, JoinToUpdate) {
      CallersMove(s, s', step, t);
    }
    if step.SpawnUpdate? { assert At(s, step.t, JoinToUpdate); }
  }

  lemma DeletePendingMoves(s: Session, s': Session, step: Step)
    requires Next(s, s', step)
    ensures DeletePending(s') ==> DeletePending(s) || step.BeginDelete? || step.BeginShutdown?
    ensures step.Release? ==> DeletePending(s)
  {
    if t: nat :| PendingAt(s', t) {
      PendingMoves(s, s', step, t);
    }
    if step.SpawnDelete? { assert PendingAt(s, step.t); }
    if step.Release? && step.runner.Inline? { assert PendingAt(s, step.runner.caller); }
  }

  lemma PendingMoves(s: Session, s': Session, step: Step, t: nat)
    requires Next(s, s', step) && PendingAt(s', t)
    ensures PendingAt(s, t) || step.BeginDelete? || step.BeginShutdown?
  {
    if Mover(step) != Some(t) { OthersStay(s, s', step, t); }
  }

  lemma ReleasedMoves(s: Session, s': Session, step: Step)
    requires Next(s, s', step)
    ensures s'.released <==> s.released || step.Release?
  {
    if CallerNext(s, s', step) { CallerChanges(s, s', step); }
  }

  /** The Delete is not sent while an update may still start computations. */
  lemma ReleaseRulesOutUpdates(s: Session, s': Session, step: Step)
    requires Inv(s) && Next(s, s', step) && step.Release?
    ensures !MayUpdate(s) && !MayUpdate(s')
  {
    ReleaseEndsUpdates(s, step.runner);
    if MayUpdate(s') { MayUpdateMoves(s, s', step); }
  }

  ghost function ThreadLeft(s: Session): nat {
    match s.thread
    case Updating => 2
    case Deleting(Stopping) => 2
    case Deleting(Kicked) => 1
    case Ended => 1
    case _ => 0
  }

  ghost function JoinLeft(s: Session): nat {
    if exists t :: Joins(s, t) then 3 else 0
  }

  ghost function ShutdownLeft(s: Session): nat {
    if exists t :: At(s, t, ShutdownWaits) then 4
    else if exists t :: At(s, t, ShutdownJoins) then 3
    else if exists t :: At(s, t, ShutdownDeletes(Stopping)) then 2
    else if exists t :: At(s, t, ShutdownDeletes(Kicked)) then 1
    else 0
  }

  /** Steps of accepted operations that are left until one of them sends the Delete. */
  ghost function ToRelease(s: Session): nat {
    ThreadLeft(s) + JoinLeft(s) + ShutdownLeft(s)
  }

  /** A step of an operation accepted before. */
  predicate Continues(step: Step) {
    !step.BeginUpdate? && !step.BeginDelete? && !step.BeginShutdown? && !step.Start? && !step.ShutdownTimesOut?
  }

  /** One step nearer to the Delete, or the Delete itself. */
  ghost predicate Nearer(s: Session, s': Session, step: Step) {
    && Next(s, s', step) && Continues(step)
    && s'.released == step.Release?
    && (!s'.released ==> DeletePending(s') && ToRelease(s') < ToRelease(s))
  }

  lemma SameCallersLeft(s: Session, s': Session)
    requires s'.callers == s.callers
    ensures JoinLeft(s') == JoinLeft(s) && ShutdownLeft(s') == ShutdownLeft(s)
    ensures forall t :: PendingAt(s, t) ==> PendingAt(s', t)
  {
    assert forall t: nat, pc :: At(s', t, pc) == At(s, t, pc);
    assert forall t: nat :: Joins(s', t) == Joins(s, t);
  }

  lemma ThreadGoesOn(s: Session) returns (s': Session, step: Step)
    requires Inv(s) && DeletePending(s) && !s.released && !Joinable(s) && s.thread != Deleting(Released)
    ensures Nearer(s, s', step)
  {
    match s.thread {
      case Deleting(Stopping) =>
        step := Kick(OnThread);
        s' := s.(thread := Deleting(Kicked), kicked := true);
      case Deleting(Kicked) =>
        step := Release(OnThread);
        s' := s.(thread := Deleting(Released), released := true);
      case Updating =>
        step := FinishUpdate;
        s' := s.(state := Free, thread := Ended);
      case Ended =>
        step := ExitThread;
        s' := s.(thread := Exited);
    }
    SameCallersLeft(s, s');
  }

  lemma JoinerGoesOn(s: Session, t: nat) returns (s': Session, step: Step)
    requires Inv(s) && DeletePending(s) && !s.released && Joinable(s) && Joins(s, t)
    ensures Nearer(s, s', step)
  {
    step := if s.callers[t].JoinToUpdate? then SpawnUpdate(t) else SpawnDelete(t);
    s' := Leave(s, t).(thread := if s.callers[t].JoinToUpdate? then Updating else Deleting(Stopping));
    forall u: nat ensures !Joins(s', u) {
      if Joins(s, u) { assert u == t; }
    }
    forall u: nat, pc ensures pc != s.callers[t] ==> At(s', u, pc) == At(s, u, pc) {
      if u == t { assert !At(s', u, pc); }
    }
    if s.callers[t].JoinToUpdate? {
      var u: nat :| PendingAt(s, u);
      assert PendingAt(s', u);
    }
  }

  lemma ShutdownGoesOn(s: Session, t: nat) returns (s': Session, step: Step)
    requires Inv(s) && !s.released && Joinable(s) && PendingAt(s, t) && forall u :: !Joins(s, u)
    ensures Nearer(s, s', step)
  {
    assert !Joins(s, t) && ShutsDown(s, t);
    match s.callers[t] {
      case ShutdownWaits =>
        step, s' := ShutdownProceeds(t), Move(s, t, ShutdownJoins);
      case ShutdownJoins =>
        step, s' := ShutdownJoined(t), Move(s, t, ShutdownDeletes(Stopping)).(thread := NoThread);
      case ShutdownDeletes(Stopping) =>
        step, s' := Kick(Inline(t)), Move(s, t, ShutdownDeletes(Kicked)).(kicked := true);
      case ShutdownDeletes(Kicked) =>
        step, s' := Release(Inline(t)), Move(s, t, ShutdownDeletes(Released)).(released := true);
    }
    assert At(s, t, s.callers[t]) && At(s', t, s'.callers[t]);
    forall u: nat, pc ensures u != t && InShutdown(pc) ==> !At(s, u, pc) && !At(s', u, pc) {
      assert ShutsDown(s, u) ==> u == t;
    }
    forall u: nat ensures !Joins(s', u) {
      assert u != t ==> Joins(s', u) == Joins(s, u);
    }
    assert !s'.released ==> PendingAt(s', t);
  }

  /** An accepted delete or shutdown can always go on towards its Delete, with no further call accepted. */
  lemma GoesOn(s: Session) returns (s': Session, step: Step)
    requires Inv(s) && DeletePending(s) && !s.released
    ensures Nearer(s, s', step) && Inv(s')
  {
    assert !DeletingAt(s, OnThread, Released);
    if !Joinable(s) {
      s', step := ThreadGoesOn(s);
    } else if t: nat :| Joins(s, t) {
      s', step := JoinerGoesOn(s, t);
    } else {
      var t: nat :| PendingAt(s, t);
      s', step := ShutdownGoesOn(s, t);
    }
    InvKept(s, s', step);
  }

  /** A session that never sent its Delete and has none pending can accept a shutdown, and still send it. */
  lemma ShutdownIsAccepted(s: Session, t: nat)
    requires Inv(s) && !DeletePending(s) && !s.released && t !in s.callers
    ensures Next(s, Move(s, t, ShutdownWaits).(shuttingDown := true), BeginShutdown(t))
    ensures DeletePending(Move(s, t, ShutdownWaits).(shuttingDown := true))
  {
    forall u | u in s.callers ensures !InShutdown(s.callers[u]) {
      assert !PendingAt(s, u);
      if s.callers[u] == ShutdownDeletes(Released) { assert DeletingAt(s, Inline(u), Released); }
    }
    assert PendingAt(Move(s, t, ShutdownWaits).(shuttingDown := true), t);
  }

  // ---------------------------------------------------------------------------------------------
  // What is recorded, read off the steps taken.

  function Starts(steps: seq<Step>): seq<Id> {
    if steps == [] then []
    else
      var last := steps[|steps| - 1];
      Starts(steps[..|steps| - 1]) + if last.Start? then [last.computation] else []
  }

  predicate Happened(steps: seq<Step>, what: Step -> bool) {
    exists i :: 0 <= i < |steps| && what(steps[i])
  }

  lemma RecordsKept(s: Session, s': Session, step: Step)
    requires Next(s, s', step)
    ensures s'.started == s.started + if step.Start? then [step.computation] else []
    ensures s'.kicked <==> s.kicked || step.Kick?
    ensures s'.released <==> s.released || step.Release?
    ensures s'.down <==> s.down || (step.FinishDelete? && step.runner.Inline?)
  {
    if CallerNext(s, s', step) { CallerChanges(s, s', step); }
  }

  lemma HappenedMore(steps: seq<Step>, what: Step -> bool)
    requires steps != []
    ensures Happened(steps, what) <==> Happened(steps[..|steps| - 1], what) || what(steps[|steps| - 1])
  {
    var init := steps[..|steps| - 1];
    if Happened(init, what) {
      var i :| 0 <= i < |init| && what(init[i]);
      assert what(steps[i]);
    }
    if Happened(steps, what) && !what(steps[|steps| - 1]) {
      var i :| 0 <= i < |steps| && what(steps[i]);
      assert what(init[i]);
    }
  }

  /** The log of started computations and the three marks are what the steps of the run say. */
  lemma {:induction false} RecordsAreHistory(run: seq<Session>, steps: seq<Step>)
    requires Run(run, steps)
    ensures var s := run[|steps|];
            && s.started == Starts(steps)
            && (s.kicked <==> Happened(steps, (step: Step) => step.Kick?))
            && (s.released <==> Happened(steps, (step: Step) => step.Release?))
            && (s.down <==> Happened(steps, (step: Step) => step.FinishDelete? && step.runner.Inline?))
  {
    if steps != [] {
      var n := |steps| - 1;
      RecordsAreHistory(run[..n + 1], steps[..n]);
      assert Next(run[n], run[n + 1], steps[n]);
      RecordsKept(run[n], run[n + 1], steps[n]);
      HappenedMore(steps, (step: Step) => step.Kick?);
      HappenedMore(steps, (step: Step) => step.Release?);
      HappenedMore(steps, (step: Step) => step.FinishDelete? && step.runner.Inline?);
    }
  }

  /** A call ends when its operation thread is made, when it times out, or with the inline delete; only its own does. */
  lemma CallsEnd(s: Session, s': Session, step: Step, t: nat)
    requires Next(s, s', step) && t in s.callers
    ensures t !in s'.callers <==>
            || step == SpawnUpdate(t) || step == SpawnDelete(t) || step == ShutdownTimesOut(t)
            || step == FinishDelete(Inline(t))
  {
    if Mover(step) != Some(t) { OthersStay(s, s', step, t); }
  }
}
