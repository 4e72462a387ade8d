/**
 The expiry timer of a session (Session.cc): the thread `expirationProc`, and a single caller of
 `setExpirationTime` and `stopExpiration`, interleaved instruction by instruction.
 */
module ExpiryTimer {

  /** What an observer sees: a timer armed, its time reached, its event raised, and `stopExpiration` returning. */
  datatype Event = Armed(n: nat) | Elapsed(n: nat) | Raised(n: nat) | Stopped

  /** Where the caller is; `rearm` when `stopExpiration` was called by `setExpirationTime`. */
  datatype Caller =
    | Idle
    | StopLock(rearm: bool)
    | StopClear(rearm: bool)
    | StopUnlock(rearm: bool)
    | StopNotify(rearm: bool)
    | StopJoin(rearm: bool)
    | SetLock
    | SetFlag
    | SetUnlock
    | Spawn

  datatype TimerPc = Starting | Testing | Waiting | Woken(timeout: bool) | Deciding | Unlocking | Exited

  /** `mExpirationThread`: not joinable, or the thread of the `n`th arming, exited or not. */
  datatype Timer = NoThread | Thread(n: nat, pc: TimerPc)

  datatype Holder = Nobody | ByCaller | ByTimer

  datatype State = State(caller: Caller, timer: Timer, lock: Holder, flag: bool, armings: nat, log: seq<Event>)

  datatype Step = CallStop | CallSet | CallerStep | TimerStep | TimeOut | Spurious

  const START: State := State(Idle, NoThread, Nobody, false, 0, [])

  /** The state after a step; the same state when the step is not enabled. */
  function Do(s: State, step: Step): State {
    match step
    case CallStop => if s.caller.Idle? then s.(caller := StopLock(false)) else s
    case CallSet => if s.caller.Idle? then s.(caller := StopLock(true)) else s
    case CallerStep => CallerDo(s)
    case TimerStep => TimerDo(s)
    // the wait ends with the mutex still to be taken again
    case TimeOut =>
      if s.timer.Thread? && s.timer.pc.Waiting? then
        s.(timer := s.timer.(pc := Woken(true)), log := s.log + [Elapsed(s.timer.n)])
      else s
    case Spurious =>
      if s.timer.Thread? && s.timer.pc.Waiting? then s.(timer := s.timer.(pc := Woken(false))) else s
  }

  function CallerDo(s: State): State {
    match s.caller
    case Idle => s
    case StopLock(rearm) => if s.lock.Nobody? then s.(caller := StopClear(rearm), lock := ByCaller) else s
    case StopClear(rearm) => s.(caller := StopUnlock(rearm), flag := false)
    case StopUnlock(rearm) => s.(caller := StopNotify(rearm), lock := Nobody)
    case StopNotify(rearm) =>
      if s.timer.NoThread? then StopReturns(s)
      else if s.timer.pc.Waiting? then s.(caller := StopJoin(rearm), timer := s.timer.(pc := Woken(false)))
      else s.(caller := StopJoin(rearm))
    case StopJoin(_) =>
      if s.timer.Thread? && s.timer.pc.Exited? then StopReturns(s.(timer := NoThread)) else s
    case SetLock => if s.lock.Nobody? then s.(caller := SetFlag, lock := ByCaller) else s
    case SetFlag => s.(caller := SetUnlock, flag := true, armings := s.armings + 1, log := s.log + [Armed(s.armings)])
    case SetUnlock => s.(caller := Spawn, lock := Nobody)
    case Spawn => if s.armings > 0 then s.(caller := Idle, timer := Thread(s.armings - 1, Starting)) else s
  }

  function StopReturns(s: State): State
    requires s.caller.StopNotify? || s.caller.StopJoin?
  {
    s.(caller := if s.caller.rearm then SetLock else Idle, log := s.log + [Stopped])
  }

  function TimerDo(s: State): State {
    if s.timer.NoThread? then s else
    match s.timer.pc
    case Starting => if s.lock.Nobody? then s.(timer := s.timer.(pc := Testing), lock := ByTimer) else s
    case Testing =>
      if s.flag then s.(timer := s.timer.(pc := Waiting), lock := Nobody)
      else s.(timer := s.timer.(pc := Deciding))
    case Waiting => s
    case Woken(timeout) =>
      if s.lock.Nobody? then s.(timer := s.timer.(pc := if timeout then Deciding else Testing), lock := ByTimer) else s
    case Deciding =>
      if s.flag then s.(timer := s.timer.(pc := Unlocking), log := s.log + [Raised(s.timer.n)])
      else s.(timer := s.timer.(pc := Unlocking))
    case Unlocking => s.(timer := s.timer.(pc := Exited), lock := Nobody)
    case Exited => s
  }

  function Run(steps: seq<Step>): State {
    if steps == [] then START else Do(Run(steps[..|steps| - 1]), steps[|steps| - 1])
  }

  /** The timer as its users see it: armed or not, its time reached or not, its event raised or not. */
  datatype Alarm = Alarm(armings: nat, armed: bool, elapsed: bool, raised: bool)

  /** An alarm raises only while armed, only after its time, and only once. */
  function Ring(a: Alarm, e: Event): (r: Alarm)
    requires MayHappen(a, e)
  {
    match e
    case Armed(_) => Alarm(a.armings + 1, true, false, false)
    case Elapsed(_) => a.(elapsed := true)
    case Raised(_) => a.(raised := true)
    case Stopped => a.(armed := false)
  }

  predicate MayHappen(a: Alarm, e: Event) {
    match e
    case Armed(n) => !a.armed && n == a.armings
    case Elapsed(n) => a.armed && n + 1 == a.armings && !a.elapsed
    case Raised(n) => a.armed && n + 1 == a.armings && a.elapsed && !a.raised
    case Stopped => true
  }

  predicate Legal(log: seq<Event>)
    decreases |log|, 0
  {
    log == [] || (Legal(log[..|log| - 1]) && MayHappen(AlarmAfter(log[..|log| - 1]), log[|log| - 1]))
  }

  function AlarmAfter(log: seq<Event>): Alarm
    requires Legal(log)
    decreases |log|, 1
  {
    if log == [] then Alarm(0, false, false, false)
    else Ring(AlarmAfter(log[..|log| - 1]), log[|log| - 1])
  }

  lemma LegalMore(log: seq<Event>, e: Event)
    requires Legal(log) && MayHappen(AlarmAfter(log), e)
    ensures Legal(log + [e]) && AlarmAfter(log + [e]) == Ring(AlarmAfter(log), e)
  {
    assert (log + [e])[..|log|] == log;
  }

  /** What every step keeps. */
  ghost predicate Inv(s: State) {
    && Legal(s.log)
    && LockHeld(s)
    && CallerKnows(s, AlarmAfter(s.log))
    && (s.timer.Thread? ==> TimerKnows(s, s.timer, AlarmAfter(s.log)))
  }

  predicate LockHeld(s: State) {
    && (s.lock.ByCaller? <==> s.caller.StopClear? || s.caller.StopUnlock? || s.caller.SetFlag? || s.caller.SetUnlock?)
    && (s.lock.ByTimer? <==> s.timer.Thread? && (s.timer.pc.Testing? || s.timer.pc.Deciding? || s.timer.pc.Unlocking?))
  }

  predicate CallerKnows(s: State, a: Alarm) {
    && a.armings == s.armings
    && match s.caller
       case Idle | StopLock(_) | StopClear(_) => s.flag == a.armed == s.timer.Thread?
       case StopUnlock(_) | StopNotify(_) => !s.flag && a.armed == s.timer.Thread?
       case StopJoin(_) => !s.flag && a.armed && s.timer.Thread? && !s.timer.pc.Waiting?
       case SetLock | SetFlag => !s.flag && !a.armed && s.timer.NoThread?
       case SetUnlock | Spawn =>
         s.flag && s.armings > 0 && a == Alarm(s.armings, true, false, false) && s.timer.NoThread?
  }

  predicate TimerKnows(s: State, t: Timer, a: Alarm)
    requires t.Thread?
  {
    && a.armed && t.n + 1 == a.armings
    && match t.pc
       case Starting | Testing | Waiting => !a.elapsed && !a.raised
       case Woken(timeout) => a.elapsed == timeout && !a.raised
       case Deciding => !a.raised && (s.flag ==> a.elapsed)
       case Unlocking | Exited => s.flag ==> a.raised
  }

  lemma NotifyKeeps(s: State)
    requires Inv(s) && s.caller.StopNotify?
    ensures Inv(CallerDo(s))
  {
    var s' := CallerDo(s);
    if s.timer.NoThread? {
      LegalMore(s.log, Stopped);
    } else {
      assert s'.log == s.log && s'.flag == s.flag && s'.armings == s.armings;
    }
  }

  lemma JoinKeeps(s: State)
    requires Inv(s) && s.caller.StopJoin?
    ensures Inv(CallerDo(s))
  {
    if s.timer.pc.Exited? {
      LegalMore(s.log, Stopped);
      assert CallerDo(s).timer == NoThread;
    } else {
      assert CallerDo(s) == s;
    }
  }

  lemma SettingKeeps(s: State)
    requires Inv(s) && s.caller.SetFlag?
    ensures Inv(CallerDo(s))
  {
    LegalMore(s.log, Armed(s.armings));
  }

  lemma LockingKeeps(s: State)
    requires Inv(s) && !s.caller.StopNotify? && !s.caller.StopJoin? && !s.caller.SetFlag?
    ensures Inv(CallerDo(s))
  {
    assert CallerDo(s).log == s.log;
  }

  lemma CallerKeeps(s: State)
    requires Inv(s)
    ensures Inv(CallerDo(s))
  {
    if s.caller.StopNotify? {
      NotifyKeeps(s);
    } else if s.caller.StopJoin? {
      JoinKeeps(s);
    } else if s.caller.SetFlag? {
      SettingKeeps(s);
    } else {
      LockingKeeps(s);
    }
  }

  lemma TimerKeeps(s: State)
    requires Inv(s)
    ensures Inv(TimerDo(s))
  {
    if s.timer.Thread? && s.timer.pc.Deciding? && s.flag {
      LegalMore(s.log, Raised(s.timer.n));
    }
  }

  lemma StepKeeps(s: State, step: Step)
    requires Inv(s)
    ensures Inv(Do(s, step))
  {
    match step
    case CallerStep => CallerKeeps(s);
    case TimerStep => TimerKeeps(s);
    case TimeOut =>
      if s.timer.Thread? && s.timer.pc.Waiting? { LegalMore(s.log, Elapsed(s.timer.n)); }
    case _ =>
  }

  /** Every interleaving looks like the alarm to an observer. */
  lemma {:induction false} EveryRunLegal(steps: seq<Step>)
    ensures Inv(Run(steps)) && Legal(Run(steps).log)
  {
    if steps != [] {
      EveryRunLegal(steps[..|steps| - 1]);
      StepKeeps(Run(steps[..|steps| - 1]), steps[|steps| - 1]);
    }
  }

  lemma {:induction false} LegalPrefix(log: seq<Event>, k: nat)
    requires Legal(log) && k <= |log|
    ensures Legal(log[..k])
  {
    if k < |log| {
      LegalPrefix(log[..|log| - 1], k);
      assert log[..|log| - 1][..k] == log[..k];
    } else {
      assert log[..k] == log;
    }
  }

  /** A legal log counts its armings, and remembers the last event that armed or stopped the alarm. */
  lemma {:induction false} ArmedSince(log: seq<Event>) returns (at: nat)
    requires Legal(log) && AlarmAfter(log).armed
    ensures at < |log| && log[at] == Armed(AlarmAfter(log).armings - 1)
    ensures forall k :: at < k < |log| ==> !log[k].Armed? && !log[k].Stopped?
  {
    var last := |log| - 1;
    if log[last].Armed? {
      at := last;
    } else {
      at := ArmedSince(log[..last]);
    }
  }

  lemma {:induction false} RaisedIsKnown(log: seq<Event>, n: nat)
    requires Legal(log) && Raised(n) in log
    ensures n < AlarmAfter(log).armings
    ensures n + 1 == AlarmAfter(log).armings ==> AlarmAfter(log).raised
  {
    var last := |log| - 1;
    if log[last] != Raised(n) {
      assert Raised(n) in log[..last];
      RaisedIsKnown(log[..last], n);
    }
  }

  lemma {:induction false} RaisedWasLogged(log: seq<Event>)
    requires Legal(log) && AlarmAfter(log).raised
    ensures AlarmAfter(log).armings > 0 && Raised(AlarmAfter(log).armings - 1) in log
  {
    var last := |log| - 1;
    if !log[last].Raised? {
      RaisedWasLogged(log[..last]);
      assert forall e :: e in log[..last] ==> e in log;
    }
  }

  lemma {:induction false} ElapsedWasLogged(log: seq<Event>)
    requires Legal(log) && AlarmAfter(log).elapsed
    ensures AlarmAfter(log).armings > 0 && Elapsed(AlarmAfter(log).armings - 1) in log
  {
    var last := |log| - 1;
    if !log[last].Elapsed? {
      ElapsedWasLogged(log[..last]);
      assert forall e :: e in log[..last] ==> e in log;
    }
  }

  lemma RaisedOnce(log: seq<Event>, e: Event, i: nat)
    requires e.Raised? && Legal(log) && MayHappen(AlarmAfter(log), e) && i < |log|
    ensures log[i] != e
  {
    if log[i] == e { RaisedIsKnown(log, e.n); }
  }

  lemma LegalRaisesOnce(log: seq<Event>, i: nat, j: nat)
    requires Legal(log) && i < j < |log| && log[i].Raised? && log[j].Raised?
    ensures log[i] != log[j]
  {
    var upTo := log[..j + 1];
    LegalPrefix(log, j + 1);
    assert upTo[..j] == log[..j] && upTo[j] == log[j];
    RaisedOnce(log[..j], log[j], i);
  }

  /** In every interleaving an arming raises its event at most once. */
  lemma RaisedAtMostOnce(steps: seq<Step>, i: nat, j: nat)
    requires i < j < |Run(steps).log| && Run(steps).log[i].Raised? && Run(steps).log[j].Raised?
    ensures Run(steps).log[i] != Run(steps).log[j]
  {
    EveryRunLegal(steps);
    LegalRaisesOnce(Run(steps).log, i, j);
  }

  /** Every event raised comes after its time, inside its arming: no `stopExpiration` has returned since. */
  lemma RaisedOnlyWhileArmed(steps: seq<Step>, i: nat) returns (at: nat)
    requires i < |Run(steps).log| && Run(steps).log[i].Raised?
    ensures at < i && Run(steps).log[at] == Armed(Run(steps).log[i].n)
    ensures forall k :: at < k < i ==> !Run(steps).log[k].Armed? && !Run(steps).log[k].Stopped?
    ensures Elapsed(Run(steps).log[i].n) in Run(steps).log[..i]
  {
    var log := Run(steps).log;
    EveryRunLegal(steps);
    LegalPrefix(log, i + 1);
    LegalPrefix(log, i);
    assert log[..i + 1][..i] == log[..i];
    at := ArmedSince(log[..i]);
    ElapsedWasLogged(log[..i]);
  }

  /** The converse: an expiry thread that has ended and was not being stopped has raised its event. */
  lemma UnstoppedTimerRaises(steps: seq<Step>)
    requires var s := Run(steps); s.timer.Thread? && s.timer.pc.Exited? && s.flag
    ensures Raised(Run(steps).timer.n) in Run(steps).log
  {
    EveryRunLegal(steps);
    RaisedWasLogged(Run(steps).log);
  }

  /** Steps of its own the timer needs to end once the flag is clear, when it is not waiting. */
  function Left(pc: TimerPc): nat {
    match pc
    case Starting => 4
    case Woken(_) => 4
    case Testing => 3
    case Deciding => 2
    case Unlocking => 1
    case Waiting => 0
    case Exited => 0
  }

  predicate Joined(s: State) {
    s.timer.NoThread? && !s.caller.StopJoin?
  }

  /** The caller still joins, and the timer is a step nearer to its end. */
  predicate Ending(s: State, t: State)
    requires s.timer.Thread?
  {
    t.caller.StopJoin? && t.timer.Thread? && Left(t.timer.pc) < Left(s.timer.pc)
  }

  /** No wake-up is lost: a caller that joins never waits for the expiry time, only for a bounded number of steps. */
  lemma StopIsPrompt(steps: seq<Step>)
    requires Run(steps).caller.StopJoin?
    ensures Run(steps).timer.Thread?
    ensures Run(steps).timer.pc.Exited? ==> Joined(CallerDo(Run(steps)))
    ensures !Run(steps).timer.pc.Exited? ==> Ending(Run(steps), TimerDo(Run(steps)))
    ensures Do(Run(steps), TimeOut) == Do(Run(steps), Spurious) == Run(steps)
  {
    EveryRunLegal(steps);
  }

  /** No deadlock: a caller inside either function can always move, or the timer can. */
  lemma CallsNeverStick(steps: seq<Step>)
    requires !Run(steps).caller.Idle?
    ensures CallerDo(Run(steps)) != Run(steps) || TimerDo(Run(steps)) != Run(steps)
  {
    EveryRunLegal(steps);
    var s := Run(steps);
    if s.caller.StopNotify? {
      assert CallerDo(s).caller != s.caller;
    } else if s.caller.StopJoin? {
      if s.timer.pc.Exited? { assert CallerDo(s).caller != s.caller; }
      else { assert TimerDo(s).timer != s.timer; }
    } else if s.caller.StopLock? || s.caller.SetLock? {
      if s.lock.Nobody? { assert CallerDo(s).lock != s.lock; }
      else { assert TimerDo(s).timer != s.timer; }
    } else {
      assert CallerDo(s).caller != s.caller;
    }
  }

  // ---------------------------------------------------------------------------------------------
  // What the calls made come to.

  datatype Call = NoCall | StopCall | SetCall

  /** The last call made; a call takes effect only when the caller is in none. */
  function LastCall(steps: seq<Step>): Call {
    if steps == [] then NoCall
    else
      var (init, last) := (steps[..|steps| - 1], steps[|steps| - 1]);
      if last == CallSet && Run(init).caller.Idle? then SetCall
      else if last == CallStop && Run(init).caller.Idle? then StopCall
      else LastCall(init)
  }

  /** How many calls of `setExpirationTime` were made. */
  function Sets(steps: seq<Step>): nat {
    if steps == [] then 0
    else
      var (init, last) := (steps[..|steps| - 1], steps[|steps| - 1]);
      Sets(init) + if last == CallSet && Run(init).caller.Idle? then 1 else 0
  }

  /** Inside `setExpirationTime`, and the flag not set yet. */
  predicate ToBeSet(caller: Caller) {
    match caller
    case StopLock(rearm) => rearm
    case StopClear(rearm) => rearm
    case StopUnlock(rearm) => rearm
    case StopNotify(rearm) => rearm
    case StopJoin(rearm) => rearm
    case SetLock | SetFlag => true
    case Idle | SetUnlock | Spawn => false
  }

  /** The caller is where its last call has brought it. */
  predicate DoesAsCalled(s: State, last: Call, sets: nat) {
    && sets == s.armings + (if ToBeSet(s.caller) then 1 else 0)
    && match s.caller
       case Idle => s.timer.Thread? == (last == SetCall)
       case SetLock | SetFlag | SetUnlock | Spawn => last == SetCall
       case _ => last == if ToBeSet(s.caller) then SetCall else StopCall
  }

  lemma {:induction false} DoesAsItIsCalled(steps: seq<Step>)
    ensures DoesAsCalled(Run(steps), LastCall(steps), Sets(steps))
  {
    if steps != [] {
      var (init, last) := (steps[..|steps| - 1], steps[|steps| - 1]);
      DoesAsItIsCalled(init);
      EveryRunLegal(init);
    }
  }

  /**
   Whenever the caller is out of both functions: if its last call was `setExpirationTime` the alarm is armed,
   for the as-manieth time as that was called; after `stopExpiration`, or no call at all, it is not.
   */
  lemma ArmedIffSet(steps: seq<Step>)
    requires Run(steps).caller.Idle?
    ensures Legal(Run(steps).log)
    ensures AlarmAfter(Run(steps).log).armed <==> LastCall(steps) == SetCall
    ensures AlarmAfter(Run(steps).log).armings == Run(steps).armings == Sets(steps)
    ensures Run(steps).flag <==> LastCall(steps) == SetCall
  {
    EveryRunLegal(steps);
    DoesAsItIsCalled(steps);
  }

  // ---------------------------------------------------------------------------------------------
  // An armed timer raises when its time comes.

  function Then(s: State, more: seq<Step>): State {
    if more == [] then s else Do(Then(s, more[..|more| - 1]), more[|more| - 1])
  }

  lemma {:induction false} RunThen(steps: seq<Step>, more: seq<Step>)
    ensures Run(steps + more) == Then(Run(steps), more)
  {
    if more == [] {
      assert steps + more == steps;
    } else {
      assert (steps + more)[..|steps + more| - 1] == steps + more[..|more| - 1];
      RunThen(steps, more[..|more| - 1]);
    }
  }

  /** Steps the timer needs to raise its event, its time being reached as soon as it waits. */
  function ToRaise(pc: TimerPc): nat {
    match pc
    case Starting => 5
    case Woken(timeout) => if timeout then 2 else 5
    case Testing => 4
    case Waiting => 3
    case Deciding => 1
    case Unlocking => 0
    case Exited => 0
  }

  predicate OnItsOwn(steps: seq<Step>) {
    forall i :: 0 <= i < |steps| ==> steps[i] == TimerStep || steps[i] == TimeOut
  }

  /** The timer alone goes on to raise its event. */
  lemma {:induction false} RaisesAlone(s: State) returns (more: seq<Step>)
    requires Inv(s) && s.caller.Idle? && s.timer.Thread?
    ensures OnItsOwn(more) && |more| <= ToRaise(s.timer.pc) && Raised(s.timer.n) in Then(s, more).log
    decreases ToRaise(s.timer.pc)
  {
    if s.timer.pc.Unlocking? || s.timer.pc.Exited? {
      RaisedWasLogged(s.log);
      more := [];
    } else {
      var step := if s.timer.pc.Waiting? then TimeOut else TimerStep;
      StepKeeps(s, step);
      var later := RaisesAlone(Do(s, step));
      more := [step] + later;
      FirstThen(s, step, later);
    }
  }

  lemma {:induction false} FirstThen(s: State, step: Step, later: seq<Step>)
    ensures Then(s, [step] + later) == Then(Do(s, step), later)
  {
    if later == [] {
      assert [step] + later == [step] && [step][..0] == [];
      assert Then(s, [step]) == Do(Then(s, []), step);
    } else {
      assert ([step] + later)[..|later|] == [step] + later[..|later| - 1];
      FirstThen(s, step, later[..|later| - 1]);
    }
  }

  /** After `setExpirationTime` the event is raised in at most five steps once nothing but the clock is waited for. */
  lemma SetTimerRaises(steps: seq<Step>) returns (more: seq<Step>)
    requires Run(steps).caller.Idle? && LastCall(steps) == SetCall
    ensures OnItsOwn(more) && |more| <= 5
    ensures Sets(steps) > 0 && Raised(Sets(steps) - 1) in Run(steps + more).log
  {
    EveryRunLegal(steps);
    ArmedIffSet(steps);
    more := RaisesAlone(Run(steps));
    RunThen(steps, more);
  }

  /** A wait ends with the time reached or without, and only the first is the alarm's business. */
  lemma WaitsEnd(s: State)
    requires s.timer.Thread? && s.timer.pc.Waiting?
    ensures Do(s, TimeOut) == s.(timer := Thread(s.timer.n, Woken(true)), log := s.log + [Elapsed(s.timer.n)])
    ensures Do(s, Spurious) == s.(timer := Thread(s.timer.n, Woken(false)))
    ensures s.lock.Nobody? && s.flag ==> Then(s, [Spurious, TimerStep, TimerStep]) == s
  {
    var more := [Spurious, TimerStep, TimerStep];
    assert more[..2][..1] == [Spurious] && more[..1][..0] == [] && more[..2] == [Spurious, TimerStep];
    assert Then(s, [Spurious]) == Do(Then(s, []), Spurious);
    assert Then(s, more[..2]) == Do(Then(s, [Spurious]), TimerStep);
  }
}
