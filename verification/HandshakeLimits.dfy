/**
 How far the rules of `Handshake` can be relaxed: each is broken by a step exactly when some continuation
 that keeps the rules runs into what it guards against.
 */
module HandshakeLimits {
  import opened Common
  import L = SessionLifecycle
  import opened Handshake

  ghost predicate Reaches(rules: Rules, s: State, s': State) {
    exists run, steps :: Segment(rules, run, steps) && run[0] == s && run[|steps|] == s'
  }

  lemma ReachNothing(rules: Rules, s: State)
    ensures Reaches(rules, s, s)
  {
    assert Segment(rules, [s], []);
  }

  lemma SegmentMore(rules: Rules, run: seq<State>, steps: seq<Step>, s': State, step: Step)
    requires Segment(rules, run, steps) && Next(run[|steps|], s', step) && Keeps(rules, run[|steps|], step)
    ensures Segment(rules, run + [s'], steps + [step])
  {
    var (run', steps') := (run + [s'], steps + [step]);
    forall i | 0 <= i < |steps'| ensures Next(run'[i], run'[i + 1], steps'[i]) && Keeps(rules, run'[i], steps'[i]) {
      if i < |steps| {
        assert run'[i] == run[i] && run'[i + 1] == run[i + 1] && steps'[i] == steps[i];
      } else {
        assert run'[i] == run[|steps|] && run'[i + 1] == s' && steps'[i] == step;
      }
    }
  }

  lemma Reach(rules: Rules, s: State, mid: State, s': State, step: Step)
    requires s == mid || Reaches(rules, s, mid)
    requires Next(mid, s', step) && Keeps(rules, mid, step)
    ensures Reaches(rules, s, s')
  {
    ReachNothing(rules, s);
    var run, steps :| Segment(rules, run, steps) && run[0] == s && run[|steps|] == mid;
    SegmentMore(rules, run, steps, s', step);
    assert (run + [s'])[0] == s && (run + [s'])[|steps + [step]|] == s';
  }

  /** A step of session object `n`; only without `LateModify` may it accept an update. */
  lemma ReachOperated(rules: Rules, s: State, mid: State, n: nat, step: L.Step, session: L.Session)
    requires (s == mid || Reaches(rules, s, mid)) && n < |mid.entries| && L.Next(mid.entries[n].session, session, step)
    requires step.BeginDelete? || step.BeginShutdown? ==> InTable(mid, n)
    requires step.BeginUpdate? ==> rules == NoLateModify
    ensures Reaches(rules, s, Operated(mid, n, step, session))
  {
    Reach(rules, s, mid, Operated(mid, n, step, session), Operate(n, step));
  }

  function Begun(session: L.Session, t: nat): L.Session {
    L.Move(session, t, L.JoinToUpdate).(state := L.Busy)
  }

  function Running(session: L.Session, t: nat): L.Session {
    L.Leave(session, t).(thread := L.Updating)
  }

  // ---------------------------------------------------------------------------------------------
  // Spawning while the router is not ready.

  /** Object `n` may start a computation now, and the router is not ready for it. */
  ghost predicate StartsUnready(s: State, n: nat) {
    n < |s.entries| && !RouterReady(s, s.entries[n].id)
    && exists s', computation :: Next(s, s', Operate(n, L.Start(computation)))
  }

  ghost predicate SpawnsUnready(rules: Rules, s: State, n: nat) {
    exists z :: Reaches(rules, s, z) && StartsUnready(z, n)
  }

  lemma ReadyNeverStartsUnready(rules: Rules, s: State, n: nat)
    requires SpawnSafe(rules) && Service(s) && SoleDeleters(s) && Channels(s) && Ready(s, n)
    ensures !SpawnsUnready(rules, s, n)
  {
    if z :| Reaches(rules, s, z) && StartsUnready(z, n) {
      var run, steps :| Segment(rules, run, steps) && run[0] == s && run[|steps|] == z;
      SegmentKeeps(rules, run, steps, |steps|, n);
      ReadyStartsReady(z, n);
    }
  }

  lemma ReadyStartsReady(s: State, n: nat)
    requires Ready(s, n)
    ensures !StartsUnready(s, n)
  {
  }

  lemma ReachStart(rules: Rules, s0: State, s: State, n: nat)
    requires Reaches(rules, s0, s) && n < |s.entries| && s.entries[n].session.thread == L.Updating
    requires !RouterReady(s, s.entries[n].id)
    ensures SpawnsUnready(rules, s0, n)
  {
    var session := s.entries[n].session;
    var spawned := session.(started := session.started + [NULL_ID]);
    assert L.Next(session, spawned, L.Start(NULL_ID));
    assert Next(s, Operated(s, n, L.Start(NULL_ID), spawned), Operate(n, L.Start(NULL_ID)));
  }

  /** An update under way can go on to its first start. */
  lemma ReachUnready(rules: Rules, s0: State, s: State, n: nat)
    requires Reaches(rules, s0, s) && n < |s.entries| && L.Inv(s.entries[n].session)
    requires L.MayUpdate(s.entries[n].session) && !RouterReady(s, s.entries[n].id)
    ensures SpawnsUnready(rules, s0, n)
  {
    var session := s.entries[n].session;
    if session.thread == L.Updating {
      ReachStart(rules, s0, s, n);
    } else {
      var t: nat :| L.At(session, t, L.JoinToUpdate);
      assert L.Joins(session, t);
      if session.thread == L.Ended {
        var exited := session.(thread := L.Exited);
        ReachOperated(rules, s0, s, n, L.ExitThread, exited);
        ReachSpawn(rules, s0, Operated(s, n, L.ExitThread, exited), n, t);
      } else {
        ReachSpawn(rules, s0, s, n, t);
      }
    }
  }

  lemma ReachSpawn(rules: Rules, s0: State, s: State, n: nat, t: nat)
    requires Reaches(rules, s0, s) && n < |s.entries| && !RouterReady(s, s.entries[n].id)
    requires L.At(s.entries[n].session, t, L.JoinToUpdate) && L.Joinable(s.entries[n].session)
    ensures SpawnsUnready(rules, s0, n)
  {
    var running := Running(s.entries[n].session, t);
    ReachOperated(rules, s0, s, n, L.SpawnUpdate(t), running);
    ReachStart(rules, s0, Operated(s, n, L.SpawnUpdate(t), running), n);
  }

  /** Only object `m`, its messages to the router and the record of Deletes sent have changed. */
  ghost predicate OnlyMoved(s: State, z: State, m: nat) {
    && m < |s.entries| && |z.entries| == |s.entries| && z.entries[m].id == s.entries[m].id
    && z.entries == s.entries[m := z.entries[m]] && s.deleteSent <= z.deleteSent
    && z.sessions == s.sessions && z.creators == s.creators && z.acknowledged == s.acknowledged
    && z.routing == s.routing && z.clients == s.clients && z.tracked == s.tracked && z.kicking == s.kicking
  }

  /** A pending delete or shutdown can go on to its Delete. */
  lemma {:induction false} ReachRelease(rules: Rules, s0: State, s: State, m: nat) returns (z: State)
    requires Reaches(rules, s0, s) && m < |s.entries| && L.Inv(s.entries[m].session)
    requires L.DeletePending(s.entries[m].session) && !s.entries[m].session.released
    ensures Reaches(rules, s0, z) && OnlyMoved(s, z, m) && s.entries[m].id in z.deleteSent
    decreases L.ToRelease(s.entries[m].session)
  {
    var session, step := L.GoesOn(s.entries[m].session);
    var mid := Operated(s, m, step, session);
    ReachOperated(rules, s0, s, m, step, session);
    z := mid;
    if !step.Release? { z := ReachRelease(rules, s0, mid, m); }
  }

  lemma {:induction false} FreshCaller(callers: set<nat>) returns (t: nat)
    ensures forall u :: u in callers ==> u < t
  {
    t := 0;
    if callers != {} {
      var u :| u in callers;
      var above := FreshCaller(callers - {u});
      t := if above <= u then u + 1 else above;
      assert callers == (callers - {u}) + {u};
    }
  }

  /** An object that may send a Delete and has not can go on to send it. */
  lemma ReachDelete(rules: Rules, s0: State, s: State, m: nat) returns (z: State)
    requires Reaches(rules, s0, s) && m < |s.entries| && L.Inv(s.entries[m].session)
    requires MayDelete(s, m) && !s.entries[m].session.released
    ensures Reaches(rules, s0, z) && OnlyMoved(s, z, m) && s.entries[m].id in z.deleteSent
  {
    var session := s.entries[m].session;
    if L.DeletePending(session) {
      z := ReachRelease(rules, s0, s, m);
    } else {
      var t := FreshCaller(session.callers.Keys);
      var waits := L.Move(session, t, L.ShutdownWaits).(shuttingDown := true);
      L.ShutdownIsAccepted(session, t);
      L.InvKept(session, waits, L.BeginShutdown(t));
      ReachOperated(rules, s0, s, m, L.BeginShutdown(t), waits);
      z := ReachRelease(rules, s0, Operated(s, m, L.BeginShutdown(t), waits), m);
    }
  }

  /** What accepting an update leaves as it was. */
  lemma AcceptedUpdate(s: State, s': State, n: nat, t: nat)
    requires Service(s) && Next(s, s', Operate(n, L.BeginUpdate(t)))
    ensures EntryMoves(s, s', n, L.BeginUpdate(t)) && s'.toRouter == s.toRouter && s'.toService == s.toService
    ensures s'.tracked == s.tracked && s'.clients == s.clients && s'.kicking == s.kicking
    ensures L.MayUpdate(s'.entries[n].session) && !L.DeletePending(s.entries[n].session)
  {
    var m, inner := EntrySteps(s, s', Operate(n, L.BeginUpdate(t)));
    assert L.At(s'.entries[n].session, t, L.JoinToUpdate);
    assert EntryOk(s, n);
    AcceptingHasNothingPending(s.entries[n].session);
  }

  lemma AcceptingHasNothingPending(session: L.Session)
    requires L.Inv(session) && L.Accepts(session)
    ensures !L.DeletePending(session)
  {
    forall t: nat ensures !L.PendingAt(session, t) {
      assert !L.Joins(session, t) && !L.ShutsDown(session, t);
    }
  }

  /** An update accepted while the router is not ready, or while another object may send a Delete, can spawn unready. */
  lemma DisturbedSpawnsUnready(s: State, s': State, n: nat, t: nat)
    requires Service(s) && Next(s, s', Operate(n, L.BeginUpdate(t))) && !Undisturbed(s, n)
    ensures SpawnsUnready(OneUpdate(n), s', n)
  {
    AcceptedUpdate(s, s', n, t);
    ServiceKept(s, s', Operate(n, L.BeginUpdate(t)));
    assert EntryOk(s', n);
    ReachNothing(OneUpdate(n), s');
    if !RouterReady(s, s.entries[n].id) {
      ReachUnready(OneUpdate(n), s', s', n);
    } else {
      var m: nat :| EntryAt(s, m, s.entries[n].id) && m != n && MayDelete(s, m);
      assert EntryOk(s', m) && MayDelete(s', m);
      var z := ReachDelete(OneUpdate(n), s', s', m);
      ReachUnready(OneUpdate(n), s', z, n);
    }
  }

  /**
   An update accepted in a state of a disciplined run may start a computation with the router not ready if
   and only if, when it is accepted, the router is not ready or another object of its id can still send a
   Delete.  Otherwise no object ever starts unready.
   */
  lemma ModifySpawnsUnreadyIff(run: seq<State>, steps: seq<Step>, k: nat, s': State, n: nat, t: nat)
    requires DisciplinedRun(run, steps) && k < |run| && Next(run[k], s', Operate(n, L.BeginUpdate(t)))
    ensures SpawnsUnready(OneUpdate(n), s', n) <==> !Undisturbed(run[k], n)
    ensures Undisturbed(run[k], n) ==> forall m :: !SpawnsUnready(SpawnRules, s', m)
  {
    var (s, step) := (run[k], Operate(n, L.BeginUpdate(t)));
    RunKeeps(SpawnRules, run, steps, k, n);
    if Undisturbed(s, n) {
      ServiceKept(s, s', step);
      SoleDeletersKept(s, s', step);
      ChannelsKept(s, s', step);
      forall m: nat ensures Ready(s', m) {
        RunKeeps(SpawnRules, run, steps, k, m);
        ReadyKept(s, s', step, m);
      }
      ReadyNeverStartsUnready(OneUpdate(n), s', n);
      forall m: nat ensures !SpawnsUnready(SpawnRules, s', m) { ReadyNeverStartsUnready(SpawnRules, s', m); }
    } else {
      DisturbedSpawnsUnready(s, s', n, t);
    }
  }

  /** For the object in the table it comes down to the router, and the acknowledgement heard is enough. */
  lemma TableModifySpawnsUnreadyIff(run: seq<State>, steps: seq<Step>, k: nat, s': State, n: nat, t: nat)
    requires DisciplinedRun(run, steps) && k < |run| && Next(run[k], s', Operate(n, L.BeginUpdate(t)))
    requires InTable(run[k], n)
    ensures SpawnsUnready(OneUpdate(n), s', n) <==> !RouterReady(run[k], run[k].entries[n].id)
    ensures run[k].entries[n].id in run[k].acknowledged ==> RouterReady(run[k], run[k].entries[n].id)
  {
    RunKeeps(SpawnRules, run, steps, k, n);
    AcceptingIsNotReleased(run[k], n);
    ModifySpawnsUnreadyIff(run, steps, k, s', n, t);
  }

  // ---------------------------------------------------------------------------------------------
  // Creating an id again.

  ghost predicate SameService(s: State, z: State) {
    && z.entries == s.entries && z.sessions == s.sessions && z.creators == s.creators && z.deleteSent == s.deleteSent
    && s.acknowledged <= z.acknowledged
  }

  /** The router works off its channel. */
  lemma {:induction false} ReachRouterDone(s0: State, s: State) returns (z: State)
    requires Reaches(SpawnRules, s0, s) && Channels(s)
    ensures Reaches(SpawnRules, s0, z) && Channels(z) && SameService(s, z)
    ensures forall id :: Initialize(id) in s.toRouter ==> Acknowledge(id) in z.toService
    ensures forall id :: Acknowledge(id) in s.toService ==> Acknowledge(id) in z.toService
    decreases |s.toRouter|, if s.kicking.Some? then 1 else 0
  {
    z := s;
    if s.kicking.Some? {
      var c := s.kicking.value;
      var mid := s.(clients := s.clients[c := s.clients[c].(flagged := true)], kicking := None);
      Reach(SpawnRules, s0, s, mid, RouterKicks);
      ChannelsKept(s, mid, RouterKicks);
      z := ReachRouterDone(s0, mid);
    } else if s.toRouter != [] {
      var mid := RouterHandled(s);
      Reach(SpawnRules, s0, s, mid, RouterHandles);
      ChannelsKept(s, mid, RouterHandles);
      HandledAcknowledges(s);
      z := ReachRouterDone(s0, mid);
    }
  }

  lemma HandledAcknowledges(s: State)
    requires s.toRouter != []
    ensures var t := RouterHandled(s);
            && SameService(s, t) && |t.toRouter| < |s.toRouter|
            && (forall id :: Initialize(id) in s.toRouter ==>
                  Initialize(id) in t.toRouter || Acknowledge(id) in t.toService)
            && (forall id :: Acknowledge(id) in s.toService ==> Acknowledge(id) in t.toService)
  {
    assert s.toRouter == [s.toRouter[0]] + s.toRouter[1..];
  }

  /** The service works off its channel. */
  lemma {:induction false} ReachServiceDone(s0: State, s: State) returns (z: State)
    requires Reaches(SpawnRules, s0, s)
    ensures Reaches(SpawnRules, s0, z) && SameService(s, z)
    ensures forall id :: Acknowledge(id) in s.toService ==> id in z.acknowledged
    decreases |s.toService|
  {
    z := s;
    if s.toService != [] {
      var mid := ServiceHandled(s);
      Reach(SpawnRules, s0, s, mid, ServiceHandles);
      assert s.toService == [s.toService[0]] + mid.toService;
      z := ReachServiceDone(s0, mid);
    }
  }

  /** A creation just begun goes through, and its update is accepted, although the Delete was sent. */
  lemma ReachCreatedUnready(s0: State, s: State, n: nat, t: nat)
    requires Reaches(SpawnRules, s0, s) && Channels(s) && t in s.creators && s.creators[t] == Inserted(n)
    requires n < |s.entries| && s.entries[n].session == L.NEW_SESSION && s.entries[n].id in s.deleteSent
    ensures SpawnsUnready(SpawnRules, s0, n)
  {
    var id := s.entries[n].id;
    var s1 := s.(toRouter := s.toRouter + [Initialize(id)], creators := s.creators[t := Awaiting(n)]);
    Reach(SpawnRules, s0, s, s1, CreateSendInitialize(t));
    ChannelsKept(s, s1, CreateSendInitialize(t));
    assert s1.toRouter[|s.toRouter|] == Initialize(id);
    var s2 := ReachRouterDone(s0, s1);
    var s3 := ReachServiceDone(s0, s2);
    var s4 := s3.(creators := s3.creators[t := Cleared(n)]);
    Reach(SpawnRules, s0, s3, s4, CreateHearsAcknowledge(t));
    var begun := Begun(L.NEW_SESSION, t);
    var s5 := s4.(entries := s4.entries[n := Entry(id, begun, true)], creators := s4.creators - {t});
    Reach(SpawnRules, s0, s4, s5, CreateUpdates(t));
    NewSessionOk();
    L.InvKept(L.NEW_SESSION, begun, L.BeginUpdate(t));
    assert L.At(begun, t, L.JoinToUpdate);
    ReachUnready(SpawnRules, s0, s5, n);
  }

  /** The new object of an id whose Delete was sent, or is under way, can spawn unready. */
  lemma DeleteSpawnsUnready(s: State, s': State, t: nat, id: Id)
    requires Service(s) && Channels(s) && Next(s, s', CreateInsert(t, id)) && !NoDelete(s, id)
    ensures SpawnsUnready(SpawnRules, s', |s.entries|)
  {
    ChannelsKept(s, s', CreateInsert(t, id));
    ReachNothing(SpawnRules, s');
    if id in s.deleteSent {
      ReachCreatedUnready(s', s', |s.entries|, t);
    } else {
      var m: nat :| EntryAt(s, m, id) && L.DeletePending(s.entries[m].session);
      assert EntryOk(s, m);
      var z := ReachRelease(SpawnRules, s', s', m);
      ReachedChannels(s', z);
      ReachCreatedUnready(s', z, |s.entries|, t);
    }
  }

  lemma {:induction false} SegmentKeepsChannels(rules: Rules, run: seq<State>, steps: seq<Step>, k: nat)
    requires Segment(rules, run, steps) && Channels(run[0]) && k < |run|
    ensures Channels(run[k])
  {
    if k > 0 {
      SegmentKeepsChannels(rules, run, steps, k - 1);
      assert Next(run[k - 1], run[k - 1 + 1], steps[k - 1]);
      ChannelsKept(run[k - 1], run[k], steps[k - 1]);
    }
  }

  lemma ReachedChannels(s: State, z: State)
    requires Reaches(SpawnRules, s, z) && Channels(s)
    ensures Channels(z)
  {
    var run, steps :| Segment(SpawnRules, run, steps) && run[0] == s && run[|steps|] == z;
    SegmentKeepsChannels(SpawnRules, run, steps, |steps|);
  }

  /** An update of an earlier object that is under way can spawn after the new object's Delete. */
  lemma UpdateSpawnsUnready(s: State, s': State, t: nat, id: Id, m: nat)
    requires Service(s) && Next(s, s', CreateInsert(t, id)) && EntryAt(s, m, id) && L.MayUpdate(s.entries[m].session)
    ensures SpawnsUnready(SpawnRules, s', m)
  {
    ReachNothing(SpawnRules, s');
    NewSessionOk();
    assert EntryOk(s, m);
    var z := ReachDelete(SpawnRules, s', s', |s.entries|);
    ReachUnready(SpawnRules, s', z, m);
  }

  /**
   In a state of a disciplined run, creating an id makes the new object able to spawn unready if and only
   if a Delete for the id was sent or is under way; and any object if and only if that is so, or an earlier
   object's update is under way.
   */
  lemma CreateSpawnsUnreadyIff(run: seq<State>, steps: seq<Step>, k: nat, s': State, t: nat, id: Id)
    requires DisciplinedRun(run, steps) && k < |run| && Next(run[k], s', CreateInsert(t, id))
    ensures SpawnsUnready(SpawnRules, s', |run[k].entries|) <==> !NoDelete(run[k], id)
    ensures (exists m :: SpawnsUnready(SpawnRules, s', m)) <==> !NothingUnderWay(run[k], id)
  {
    var (s, step) := (run[k], CreateInsert(t, id));
    RunKeeps(SpawnRules, run, steps, k, 0);
    ChannelsKept(s, s', step);
    if NoDelete(s, id) {
      ServiceKept(s, s', step);
      SoleDeletersKept(s, s', step);
      NewSessionOk();
      ReadyNeverStartsUnready(SpawnRules, s', |s.entries|);
      if m: nat :| EntryAt(s, m, id) && L.MayUpdate(s.entries[m].session) {
        UpdateSpawnsUnready(s, s', t, id, m);
      } else {
        forall m: nat ensures !SpawnsUnready(SpawnRules, s', m) {
          RunKeeps(SpawnRules, run, steps, k, m);
          ReadyKept(s, s', step, m);
          ReadyNeverStartsUnready(SpawnRules, s', m);
        }
      }
    } else {
      DeleteSpawnsUnready(s, s', t, id);
    }
  }

  // ---------------------------------------------------------------------------------------------
  // Losing a client.

  /** The session is deleted or unknown, its client is connected, and no kick is on its way. */
  ghost predicate Lost(s: State, id: Id) {
    Connects(s, id) && !PassesForActive(s, id) && !KickPending(s, id, s.tracked[id])
  }

  ghost predicate MayLose(rules: Rules, s: State, id: Id) {
    exists z :: Reaches(rules, s, z) && Lost(z, id)
  }

  /** Nothing about clients, and no kick in the channel, differs. */
  ghost predicate SameClients(s: State, z: State) {
    && z.clients == s.clients && z.tracked == s.tracked && z.kicking == s.kicking && z.notifying == s.notifying
    && z.toService == s.toService && forall id :: KickClient(id) in z.toRouter ==> KickClient(id) in s.toRouter
  }

  /** From the kick on, the delete body goes on to the Defunct mark. */
  lemma ReachDefunct(rules: Rules, s0: State, s: State, n: nat, runner: L.Runner) returns (z: State)
    requires Reaches(rules, s0, s) && n < |s.entries| && L.Progressed(s.entries[n].session, runner)
    ensures Reaches(rules, s0, z) && SameClients(s, z) && z.sessions == s.sessions
    ensures n < |z.entries| && z.entries[n].session.state == L.Defunct
  {
    var session := s.entries[n].session;
    if L.DeletingAt(session, runner, L.Kicked) {
      var released := L.DeleteMoves(session, runner, L.Released).(released := true);
      ReachOperated(rules, s0, s, n, L.Release(runner), released);
      z := ReachMark(rules, s0, Operated(s, n, L.Release(runner), released), n, runner);
    } else {
      z := ReachMark(rules, s0, s, n, runner);
    }
  }

  lemma ReachMark(rules: Rules, s0: State, s: State, n: nat, runner: L.Runner) returns (z: State)
    requires Reaches(rules, s0, s) && n < |s.entries| && L.DeletingAt(s.entries[n].session, runner, L.Released)
    ensures Reaches(rules, s0, z) && SameClients(s, z) && z.sessions == s.sessions
    ensures n < |z.entries| && z.entries[n].session.state == L.Defunct
  {
    var session := s.entries[n].session;
    var marked := match runner
      case OnThread => session.(state := L.Defunct, thread := L.Ended)
      case Inline(t) => L.Leave(session, t).(state := L.Defunct, down := true);
    ReachOperated(rules, s0, s, n, L.FinishDelete(runner), marked);
    z := Operated(s, n, L.FinishDelete(runner), marked);
  }

  /** A creation that has not gone through can still fail and take its object out of the table. */
  lemma ReachFailedCreate(rules: Rules, s0: State, s: State, t: nat) returns (z: State)
    requires Reaches(rules, s0, s) && Service(s) && t in s.creators
    ensures Reaches(rules, s0, z) && SameClients(s, z)
    ensures s.creators[t].n < |s.entries| && s.entries[s.creators[t].n].id !in z.sessions
  {
    assert CreatorOk(s, t);
    var n := s.creators[t].n;
    match s.creators[t] {
      case Inserted(_) =>
        var s1 := s.(toRouter := s.toRouter + [Initialize(s.entries[n].id)], creators := s.creators[t := Awaiting(n)]);
        Reach(rules, s0, s, s1, CreateSendInitialize(t));
        z := ReachTimeOut(rules, s0, s1, t);
      case Awaiting(_) =>
        z := ReachTimeOut(rules, s0, s, t);
      case Cleared(_) =>
        z := ReachRefusal(rules, s0, s, t);
    }
  }

  lemma ReachTimeOut(rules: Rules, s0: State, s: State, t: nat) returns (z: State)
    requires Reaches(rules, s0, s) && t in s.creators && s.creators[t].Awaiting? && s.creators[t].n < |s.entries|
    ensures Reaches(rules, s0, z) && SameClients(s, z) && s.entries[s.creators[t].n].id !in z.sessions
  {
    z := s.(sessions := s.sessions - {s.entries[s.creators[t].n].id}, creators := s.creators - {t});
    Reach(rules, s0, s, z, CreateTimesOut(t));
  }

  /** A delete accepted first has the creator's update refused. */
  lemma ReachRefusal(rules: Rules, s0: State, s: State, t: nat) returns (z: State)
    requires Reaches(rules, s0, s) && t in s.creators && s.creators[t].Cleared? && InTable(s, s.creators[t].n)
    ensures Reaches(rules, s0, z) && SameClients(s, z) && s.entries[s.creators[t].n].id !in z.sessions
  {
    var n := s.creators[t].n;
    var session := s.entries[n].session;
    var mid := s;
    if L.Accepts(session) {
      var u := FreshCaller(session.callers.Keys);
      var begun := L.Move(session, u, L.JoinToDelete).(state := L.Busy);
      ReachOperated(rules, s0, s, n, L.BeginDelete(u), begun);
      mid := Operated(s, n, L.BeginDelete(u), begun);
    }
    z := mid.(sessions := mid.sessions - {mid.entries[n].id}, creators := mid.creators - {t});
    Reach(rules, s0, mid, z, CreateRefused(t));
  }

  lemma LosesClientLoses(rules: Rules, s: State, s': State, id: Id)
    requires Service(s) && Next(s, s', ServiceHandles) && s.toService[0] == Connected(id) && LosesClient(s, id)
    ensures MayLose(rules, s', id)
  {
    assert TableOk(s, id);
    var n := s.sessions[id];
    assert EntryOk(s, n);
    OthersLeaveSessionsAlone(s, s', ServiceHandles);
    ServiceKept(s, s', ServiceHandles);
    ReachNothing(rules, s');
    var z;
    if s.entries[n].created {
      var runner :| L.Progressed(s'.entries[n].session, runner);
      z := ReachDefunct(rules, s', s', n, runner);
    } else {
      var t: nat :| CreatedBy(s', t, n);
      z := ReachFailedCreate(rules, s', s', t);
    }
    assert Lost(z, id);
  }

  lemma CoveredNeverLost(rules: Rules, s: State, id: Id)
    requires ConnectSafe(rules) && Service(s) && Channels(s) && AllCovered(s)
    ensures !MayLose(rules, s, id)
  {
    if z :| Reaches(rules, s, z) && Lost(z, id) {
      var run, steps :| Segment(rules, run, steps) && run[0] == s && run[|steps|] == z;
      SegmentKeepsCovered(rules, run, steps, |steps|);
      assert Covered(z, id);
    }
  }

  /**
   Handling the connected message of a client not yet flagged, in a state of a timely run, can lose the
   client if and only if its session passes for active, is not live, and no other kick is on its way:
   whether what follows keeps to this rule alone, or to those about spawning too.
   */
  lemma ConnectLosesClientIff(run: seq<State>, steps: seq<Step>, k: nat, s': State, id: Id)
    requires TimelyRun(run, steps) && k < |run| && Next(run[k], s', ServiceHandles)
    requires run[k].toService[0] == Connected(id) && Connects(run[k], id)
    ensures MayLose(ConnectRule, s', id) <==> LosesClient(run[k], id)
    ensures MayLose(AllRules, s', id) <==> LosesClient(run[k], id)
  {
    var s := run[k];
    RunKeeps(ConnectRule, run, steps, k, 0);
    EmptyIsReady(run[0], 0);
    SegmentKeepsCovered(ConnectRule, run, steps, k);
    if LosesClient(s, id) {
      LosesClientLoses(ConnectRule, s, s', id);
      LosesClientLoses(AllRules, s, s', id);
    } else {
      ServiceKept(s, s', ServiceHandles);
      ChannelsKept(s, s', ServiceHandles);
      forall other | other in s'.tracked ensures Covered(s', other) {
        CoveredKept(s, s', ServiceHandles, other);
      }
      CoveredNeverLost(ConnectRule, s', id);
      CoveredNeverLost(AllRules, s', id);
    }
  }

  // ---------------------------------------------------------------------------------------------
  // Runs that break one rule, and keep the others, from the start.

  function Nothing(): State {
    State([], map[], map[], {}, [], [], {}, [], map[], None, None, {})
  }

  function Inserting(id: Id): State {
    Nothing().(entries := [Entry(id, L.NEW_SESSION, false)], sessions := map[id := 0],
               creators := map[0 := Inserted(0)])
  }

  lemma ReachInserting(rules: Rules, id: Id)
    ensures Empty(Nothing()) && Reaches(rules, Nothing(), Inserting(id))
  {
    Reach(rules, Nothing(), Nothing(), Inserting(id), CreateInsert(0, id));
  }

  /** From the insertion of object `n` by caller `t` until its creator has heard the acknowledgement. */
  lemma ReachCleared(rules: Rules, s0: State, s: State, n: nat, t: nat, id: Id)
    requires Reaches(rules, s0, s) && s.toRouter == [] && s.toService == [] && s.kicking == None
    requires EntryAt(s, n, id) && t in s.creators && s.creators[t] == Inserted(n)
    ensures Reaches(rules, s0, s.(routing := s.routing + {id}, acknowledged := s.acknowledged + {id},
                                  creators := s.creators[t := Cleared(n)]))
  {
    var s1 := s.(toRouter := [Initialize(id)], creators := s.creators[t := Awaiting(n)]);
    var s2 := s1.(toRouter := [], toService := [Acknowledge(id)], routing := s.routing + {id});
    var s3 := s2.(toService := [], acknowledged := s.acknowledged + {id});
    var s4 := s3.(creators := s.creators[t := Cleared(n)]);
    Reach(rules, s0, s, s1, CreateSendInitialize(t));
    Reach(rules, s0, s1, s2, RouterHandles);
    Reach(rules, s0, s2, s3, ServiceHandles);
    assert s3.creators[t := Cleared(n)] == s4.creators;
    Reach(rules, s0, s3, s4, CreateHearsAcknowledge(t));
  }

  /** A modify of a session just inserted, up to its running body. */
  lemma ReachModify(s0: State, s: State, n: nat, t: nat) returns (s': State)
    requires Reaches(NoLateModify, s0, s) && n < |s.entries| && s.entries[n].session == L.NEW_SESSION
    ensures Reaches(NoLateModify, s0, s') && s'.routing == s.routing
    ensures n < |s'.entries| && s'.entries[n].id == s.entries[n].id
    ensures s'.entries[n].session == Running(Begun(L.NEW_SESSION, t), t)
  {
    var begun := Begun(L.NEW_SESSION, t);
    ReachOperated(NoLateModify, s0, s, n, L.BeginUpdate(t), begun);
    var mid := Operated(s, n, L.BeginUpdate(t), begun);
    assert L.At(begun, t, L.JoinToUpdate);
    ReachOperated(NoLateModify, s0, mid, n, L.SpawnUpdate(t), Running(begun, t));
    s' := Operated(mid, n, L.SpawnUpdate(t), Running(begun, t));
  }

  /** A modify that overtakes its session's creation spawns a computation the router knows nothing of. */
  lemma EarlyModifySpawnsUnready(id: Id, computation: Id) returns (s: State, s': State)
    ensures Empty(Nothing()) && Reaches(NoLateModify, Nothing(), s)
    ensures Next(s, s', Operate(0, L.Start(computation))) && EntryAt(s, 0, id) && id !in s.routing
  {
    ReachInserting(NoLateModify, id);
    s := ReachModify(Nothing(), Inserting(id), 0, 1);
    var running := s.entries[0].session;
    var spawned := running.(started := [computation]);
    assert L.Next(running, spawned, L.Start(computation));
    s' := Operated(s, 0, L.Start(computation), spawned);
  }

  function WithClient(s: State, id: Id): State {
    s.(clients := [Client(id, false)], tracked := map[id := 0])
  }

  /** A client connects and its connected message is handled while the session passes for active. */
  lemma ReachPassesForActive(s0: State, s: State, id: Id)
    requires Reaches(SpawnRules, s0, s)
    requires s.clients == [] && s.tracked == map[] && s.notifying == None && s.toService == []
    requires id in s.sessions && !Defunct(s, id)
    ensures Reaches(SpawnRules, s0, WithClient(s, id))
  {
    var s1 := WithClient(s, id).(notifying := Some(id));
    var s2 := s1.(notifying := None, toService := [Connected(id)]);
    Reach(SpawnRules, s0, s, s1, RouterAccepts(id));
    Reach(SpawnRules, s0, s1, s2, RouterNotifies);
    Reach(SpawnRules, s0, s2, WithClient(s, id), ServiceHandles);
  }

  /** Nothing in flight, the session deleted or unknown, and its client not flagged. */
  ghost predicate LeftBehind(s: State, id: Id) {
    && Drained(s) && (id !in s.sessions || Defunct(s, id))
    && id in s.tracked && s.tracked[id] < |s.clients| && !s.clients[s.tracked[id]].flagged
  }

  /** A creation that times out after its client has connected leaves the client of an unknown session behind. */
  lemma TimedOutCreateLeavesClient(id: Id) returns (s: State)
    ensures Empty(Nothing()) && Reaches(SpawnRules, Nothing(), s) && LeftBehind(s, id)
  {
    ReachInserting(SpawnRules, id);
    ReachPassesForActive(Nothing(), Inserting(id), id);
    var s1 := WithClient(Inserting(id), id);
    var s2 := s1.(toRouter := [Initialize(id)], creators := map[0 := Awaiting(0)]);
    var s3 := s2.(sessions := map[], creators := map[]);
    var s4 := s3.(toRouter := [], toService := [Acknowledge(id)], routing := {id});
    s := s4.(toService := [], acknowledged := {id});
    Reach(SpawnRules, Nothing(), s1, s2, CreateSendInitialize(0));
    Reach(SpawnRules, Nothing(), s2, s3, CreateTimesOut(0));
    Reach(SpawnRules, Nothing(), s3, s4, RouterHandles);
    Reach(SpawnRules, Nothing(), s4, s, ServiceHandles);
  }

  /** One fully created session, no operation running, no client. */
  function Established(id: Id): State {
    Nothing().(entries := [Entry(id, L.NEW_SESSION.(thread := L.Exited), true)], sessions := map[id := 0],
               acknowledged := {id}, routing := {id})
  }

  lemma ReachEstablished(rules: Rules, id: Id)
    requires !rules.OneUpdate?
    ensures Empty(Nothing()) && Reaches(rules, Nothing(), Established(id))
  {
    ReachInserting(rules, id);
    ReachCleared(rules, Nothing(), Inserting(id), 0, 0, id);
    var cleared := Inserting(id).(routing := {} + {id}, acknowledged := {} + {id},
                                  creators := Inserting(id).creators[0 := Cleared(0)]);
    var begun := Begun(L.NEW_SESSION, 0);
    var created := cleared.(entries := [Entry(id, begun, true)], creators := map[]);
    assert cleared.creators - {0} == map[];
    Reach(rules, Nothing(), cleared, created, CreateUpdates(0));
    ReachUpdateEnds(rules, Nothing(), created, id);
    assert begun.callers - {0} == map[];
  }

  /** An update that starts nothing, up to the end of its thread. */
  lemma ReachUpdateEnds(rules: Rules, s0: State, s: State, id: Id)
    requires Reaches(rules, s0, s) && s.entries == [Entry(id, Begun(L.NEW_SESSION, 0), true)]
    ensures var ended := Running(Begun(L.NEW_SESSION, 0), 0).(state := L.Free, thread := L.Exited);
            Reaches(rules, s0, s.(entries := [Entry(id, ended, true)]))
  {
    var running := Running(Begun(L.NEW_SESSION, 0), 0);
    var ended := running.(state := L.Free, thread := L.Ended);
    var s1 := ReachAlone(rules, s0, s, id, L.SpawnUpdate(0), running);
    var s2 := ReachAlone(rules, s0, s1, id, L.FinishUpdate, ended);
    var s3 := ReachAlone(rules, s0, s2, id, L.ExitThread, ended.(thread := L.Exited));
  }

  /** A step of the only object that sends nothing. */
  lemma ReachAlone(rules: Rules, s0: State, s: State, id: Id, step: L.Step, session: L.Session) returns (s': State)
    requires Reaches(rules, s0, s) && |s.entries| == 1 && s.entries[0].id == id && s.entries[0].created
    requires L.Next(s.entries[0].session, session, step) && !step.Kick? && !step.Release?
    requires !step.BeginUpdate? && !step.BeginDelete? && !step.BeginShutdown?
    ensures s' == s.(entries := [Entry(id, session, true)]) && Reaches(rules, s0, s')
  {
    ReachOperated(rules, s0, s, 0, step, session);
    s' := Operated(s, 0, step, session);
  }

  function DeleteBegun(session: L.Session): L.Session {
    L.Move(session, 1, L.JoinToDelete).(state := L.Busy)
  }

  function DeleteAt(session: L.Session, phase: L.DeletePhase): L.Session {
    L.Leave(session, 1).(thread := L.Deleting(phase), kicked := phase != L.Stopping, released := phase == L.Released)
  }

  /** The delete body of object `n`, as far as its kick. */
  lemma ReachKick(rules: Rules, s0: State, s: State, n: nat, idle: L.Session)
    requires Reaches(rules, s0, s) && n < |s.entries| && s.entries[n].session == DeleteBegun(idle)
    requires L.Joinable(idle) && idle.callers == map[] && !idle.kicked && !idle.released
    ensures var kicked := s.entries[n].(session := DeleteAt(DeleteBegun(idle), L.Kicked));
            Reaches(rules, s0, s.(entries := s.entries[n := kicked],
                                  toRouter := s.toRouter + [KickClient(s.entries[n].id)]))
  {
    var begun := DeleteBegun(idle);
    assert L.At(begun, 1, L.JoinToDelete);
    var s1 := Operated(s, n, L.SpawnDelete(1), DeleteAt(begun, L.Stopping));
    ReachOperated(rules, s0, s, n, L.SpawnDelete(1), DeleteAt(begun, L.Stopping));
    ReachOperated(rules, s0, s1, n, L.Kick(L.OnThread), DeleteAt(begun, L.Kicked));
    assert Operated(s1, n, L.Kick(L.OnThread), DeleteAt(begun, L.Kicked))
        == s.(entries := s.entries[n := s.entries[n].(session := DeleteAt(begun, L.Kicked))],
              toRouter := s.toRouter + [KickClient(s.entries[n].id)]);
  }

  /** One session being deleted: its kick found no client, its Delete is not sent, it is not Defunct. */
  function InWindow(id: Id): State {
    Established(id).(entries := [Entry(id, DeleteAt(DeleteBegun(L.NEW_SESSION.(thread := L.Exited)), L.Kicked), true)])
  }

  lemma ReachWindow(id: Id)
    ensures Empty(Nothing()) && Reaches(SpawnRules, Nothing(), InWindow(id))
  {
    ReachEstablished(SpawnRules, id);
    var idle := L.NEW_SESSION.(thread := L.Exited);
    var s1 := Operated(Established(id), 0, L.BeginDelete(1), DeleteBegun(idle));
    ReachOperated(SpawnRules, Nothing(), Established(id), 0, L.BeginDelete(1), DeleteBegun(idle));
    ReachKick(SpawnRules, Nothing(), s1, 0, idle);
    var s2 := InWindow(id).(toRouter := [KickClient(id)]);
    assert s1.(entries := s1.entries[0 := s1.entries[0].(session := DeleteAt(DeleteBegun(idle), L.Kicked))],
               toRouter := s1.toRouter + [KickClient(id)]) == s2;
    Reach(SpawnRules, Nothing(), s2, InWindow(id), RouterHandles);
  }

  /** A client whose connected message is handled between the kick and the mark is left behind by a Defunct session. */
  lemma WindowLeavesClient(id: Id) returns (s: State)
    ensures Empty(Nothing()) && Reaches(SpawnRules, Nothing(), s) && LeftBehind(s, id)
  {
    ReachWindow(id);
    ReachPassesForActive(Nothing(), InWindow(id), id);
    var s0 := WithClient(InWindow(id), id);
    var released := s0.entries[0].session.(thread := L.Deleting(L.Released), released := true);
    var defunct := released.(state := L.Defunct, thread := L.Ended);
    var s1 := Operated(s0, 0, L.Release(L.OnThread), released);
    var s2 := Operated(s1, 0, L.FinishDelete(L.OnThread), defunct);
    ReachOperated(SpawnRules, Nothing(), s0, 0, L.Release(L.OnThread), released);
    ReachOperated(SpawnRules, Nothing(), s1, 0, L.FinishDelete(L.OnThread), defunct);
    Reach(SpawnRules, Nothing(), s2, RouterHandled(s2), RouterHandles);
    s := RouterHandled(s2);
  }

  /** Object 0 has a delete accepted, so its creator is refused and takes it out of the table. */
  function Refused(id: Id): State {
    Nothing().(entries := [Entry(id, DeleteBegun(L.NEW_SESSION), false)], acknowledged := {id}, routing := {id})
  }

  lemma ReachRefused(rules: Rules, id: Id)
    ensures Empty(Nothing()) && Reaches(rules, Nothing(), Refused(id))
  {
    ReachInserting(rules, id);
    var s1 := Operated(Inserting(id), 0, L.BeginDelete(1), DeleteBegun(L.NEW_SESSION));
    ReachOperated(rules, Nothing(), Inserting(id), 0, L.BeginDelete(1), DeleteBegun(L.NEW_SESSION));
    ReachCleared(rules, Nothing(), s1, 0, 0, id);
    var s2 := s1.(routing := {} + {id}, acknowledged := {} + {id}, creators := s1.creators[0 := Cleared(0)]);
    assert s2.sessions - {id} == map[] && s2.creators - {0} == map[];
    Reach(rules, Nothing(), s2, Refused(id), CreateRefused(0));
  }

  /** The same id created again, its update accepted, while object 0's delete has still sent nothing. */
  function Recreated(id: Id): State {
    Refused(id).(entries := Refused(id).entries + [Entry(id, Begun(L.NEW_SESSION, 2), true)], sessions := map[id := 1])
  }

  lemma ReachRecreated(id: Id)
    ensures Empty(Nothing()) && Reaches(CreateUntilDeleteSent, Nothing(), Recreated(id))
  {
    ReachRefused(CreateUntilDeleteSent, id);
    var s0 := Refused(id);
    var s1 := s0.(entries := s0.entries + [Entry(id, L.NEW_SESSION, false)], sessions := map[id := 1],
                  creators := map[2 := Inserted(1)]);
    Reach(CreateUntilDeleteSent, Nothing(), s0, s1, CreateInsert(2, id));
    ReachCleared(CreateUntilDeleteSent, Nothing(), s1, 1, 2, id);
    var s2 := s1.(routing := {id} + {id}, acknowledged := {id} + {id}, creators := s1.creators[2 := Cleared(1)]);
    assert s2.creators - {2} == map[];
    assert s2.entries[1 := Entry(id, Begun(L.NEW_SESSION, 2), true)] == Recreated(id).entries;
    Reach(CreateUntilDeleteSent, Nothing(), s2, Recreated(id), CreateUpdates(2));
  }

  function ReleasedSession(): L.Session {
    DeleteAt(DeleteBegun(L.NEW_SESSION), L.Released)
  }

  /** Object 0's delete has now sent its kick and its Delete; object 1's update is about to run. */
  function DeleteOvertook(id: Id): State {
    Recreated(id).(entries := [Entry(id, ReleasedSession(), false), Entry(id, Begun(L.NEW_SESSION, 2), true)],
                   toRouter := [KickClient(id), Delete(id)], deleteSent := {id})
  }

  lemma ReachDeleteOvertook(id: Id)
    ensures Empty(Nothing()) && Reaches(CreateUntilDeleteSent, Nothing(), DeleteOvertook(id))
  {
    ReachRecreated(id);
    ReachKick(CreateUntilDeleteSent, Nothing(), Recreated(id), 0, L.NEW_SESSION);
    var kicked := DeleteAt(DeleteBegun(L.NEW_SESSION), L.Kicked);
    var s1 := Recreated(id).(entries := Recreated(id).entries[0 := Entry(id, kicked, false)],
                             toRouter := Recreated(id).toRouter + [KickClient(id)]);
    ReachOperated(CreateUntilDeleteSent, Nothing(), s1, 0, L.Release(L.OnThread), ReleasedSession());
    var s2 := Operated(s1, 0, L.Release(L.OnThread), ReleasedSession());
    assert s2.entries == DeleteOvertook(id).entries;
    assert s2 == DeleteOvertook(id);
  }

  /** An id created again after its delete was accepted, though before its Delete was sent, spawns after that Delete. */
  lemma RecreateSpawnsUnready(id: Id, computation: Id) returns (s: State, s': State)
    ensures Empty(Nothing()) && Reaches(CreateUntilDeleteSent, Nothing(), s)
    ensures Next(s, s', Operate(1, L.Start(computation))) && EntryAt(s, 1, id) && id in s.deleteSent
  {
    ReachDeleteOvertook(id);
    var s0 := DeleteOvertook(id);
    var running := Running(Begun(L.NEW_SESSION, 2), 2);
    assert L.Next(s0.entries[1].session, running, L.SpawnUpdate(2));
    ReachOperated(CreateUntilDeleteSent, Nothing(), s0, 1, L.SpawnUpdate(2), running);
    s := Operated(s0, 1, L.SpawnUpdate(2), running);
    var spawned := running.(started := [computation]);
    assert L.Next(running, spawned, L.Start(computation));
    s' := Operated(s, 1, L.Start(computation), spawned);
  }

  /** Object 0 was acknowledged, and a modify has it before its creator's own update. */
  function Overtaken(id: Id): State {
    Nothing().(entries := [Entry(id, Begun(L.NEW_SESSION, 1), false)], acknowledged := {id}, routing := {id})
  }

  lemma ReachOvertaken(id: Id)
    ensures Empty(Nothing()) && Reaches(AllRules, Nothing(), Overtaken(id))
  {
    ReachInserting(AllRules, id);
    ReachCleared(AllRules, Nothing(), Inserting(id), 0, 0, id);
    var s1 := Inserting(id).(routing := {} + {id}, acknowledged := {} + {id},
                             creators := Inserting(id).creators[0 := Cleared(0)]);
    var begun := Begun(L.NEW_SESSION, 1);
    assert L.Next(s1.entries[0].session, begun, L.BeginUpdate(1));
    var s2 := Operated(s1, 0, L.BeginUpdate(1), begun);
    forall m: nat | EntryAt(s1, m, id) ensures m == 0 {}
    Reach(AllRules, Nothing(), s1, s2, Operate(0, L.BeginUpdate(1)));
    assert s2.sessions - {id} == map[] && s2.creators - {0} == map[];
    assert s2.entries == Overtaken(id).entries;
    Reach(AllRules, Nothing(), s2, Overtaken(id), CreateRefused(0));
  }

  /** An id of which an earlier object was used, and started computations, may still be created again safely. */
  lemma UsedMayBeCreatedAgain(id: Id, computation: Id) returns (s: State)
    ensures Empty(Nothing()) && Reaches(AllRules, Nothing(), s)
    ensures EntryAt(s, 0, id) && s.entries[0].session.started == [computation]
    ensures id !in s.sessions && NothingUnderWay(s, id)
  {
    ReachOvertaken(id);
    var running := Running(Begun(L.NEW_SESSION, 1), 1);
    ReachOperated(AllRules, Nothing(), Overtaken(id), 0, L.SpawnUpdate(1), running);
    var s1 := Operated(Overtaken(id), 0, L.SpawnUpdate(1), running);
    var started := running.(started := [computation]);
    assert L.Next(running, started, L.Start(computation));
    ReachOperated(AllRules, Nothing(), s1, 0, L.Start(computation), started);
    var s2 := Operated(s1, 0, L.Start(computation), started);
    var done := started.(state := L.Free, thread := L.Ended);
    ReachOperated(AllRules, Nothing(), s2, 0, L.FinishUpdate, done);
    s := Operated(s2, 0, L.FinishUpdate, done);
    assert done.callers == map[];
  }
}
