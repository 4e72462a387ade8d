/**
 The service and its router (ArrasSessions.cc, ArrasController.cc, NodeRouter.cc): sessions are created,
 modified, deleted and shut down while two FIFO channels carry Initialize, Delete and kick requests one way,
 acknowledgements and client connections the other.  Each session is a `SessionLifecycle.Session`.
 */
module Handshake {
  import opened Common
  import L = SessionLifecycle

  datatype ToRouter = Initialize(id: Id) | Delete(id: Id) | KickClient(id: Id)

  datatype ToService = Acknowledge(id: Id) | Connected(id: Id)

  /** A session object; `created` once its create call went through. */
  datatype Entry = Entry(id: Id, session: L.Session, created: bool)

  /** A thread inside `createSession`, by the object it inserted. */
  datatype Creator = Inserted(n: nat) | Awaiting(n: nat) | Cleared(n: nat)

  /** A client endpoint in the router, tracked under the session id the client gave. */
  datatype Client = Client(id: Id, flagged: bool)

  /**
   Service: `entries` (every object made), `sessions` (the table), `creators`, `acknowledged` (never reset).
   Router: `routing` (ids it holds routing data for), `clients`, `tracked`, `notifying` (client tracked, its
   connected message not queued yet), `kicking` (client found, being drained before it is flagged).
   `deleteSent` records the ids a Delete was ever sent for.
   */
  datatype State = State(
    entries: seq<Entry>, sessions: map<Id, nat>, creators: map<nat, Creator>, acknowledged: set<Id>,
    toRouter: seq<ToRouter>, toService: seq<ToService>,
    routing: set<Id>, clients: seq<Client>, tracked: map<Id, nat>,
    notifying: Option<Id>, kicking: Option<nat>, deleteSent: set<Id>)

  datatype Step =
    | CreateInsert(t: nat, id: Id)
    | CreateSendInitialize(t: nat)
    | CreateHearsAcknowledge(t: nat)
    | CreateTimesOut(t: nat)
    | CreateUpdates(t: nat)
    | CreateRefused(t: nat)
    | Operate(n: nat, step: L.Step)
    | RouterHandles
    | RouterKicks
    | RouterAccepts(id: Id)
    | RouterNotifies
    | ClientLeaves(c: nat)
    | RouterUntracks(id: Id)
    | ServiceHandles

  predicate Empty(s: State) {
    && s.entries == [] && s.sessions == map[] && s.creators == map[] && s.acknowledged == {}
    && s.toRouter == [] && s.toService == [] && s.routing == {} && s.clients == [] && s.tracked == map[]
    && s.notifying == None && s.kicking == None && s.deleteSent == {}
  }

  predicate CreatorAt(s: State, t: nat, pc: Creator) {
    t in s.creators && s.creators[t] == pc && pc.n < |s.entries|
  }

  predicate Defunct(s: State, id: Id) {
    id in s.sessions && s.sessions[id] < |s.entries| && s.entries[s.sessions[id]].session.state == L.Defunct
  }

  /** What a step of a session sends: the kick first, then the Delete. */
  function Sends(id: Id, step: L.Step): seq<ToRouter> {
    match step
    case Kick(_) => [KickClient(id)]
    case Release(_) => [Delete(id)]
    case _ => []
  }

  function Operated(s: State, n: nat, step: L.Step, session: L.Session): State
    requires n < |s.entries|
  {
    var id := s.entries[n].id;
    s.(entries := s.entries[n := s.entries[n].(session := session)],
       toRouter := s.toRouter + Sends(id, step),
       deleteSent := s.deleteSent + if step.Release? then {id} else {})
  }

  function RouterHandled(s: State): State
    requires s.toRouter != []
  {
    var rest := s.(toRouter := s.toRouter[1..]);
    match s.toRouter[0]
    case Initialize(id) => rest.(routing := s.routing + {id}, toService := s.toService + [Acknowledge(id)])
    case Delete(id) => rest.(routing := s.routing - {id})
    case KickClient(id) => if id in s.tracked then rest.(kicking := Some(s.tracked[id])) else rest
  }

  /** A connection to an active session is left alone; to a defunct or unknown one, kicked. */
  function ServiceHandled(s: State): State
    requires s.toService != []
  {
    var rest := s.(toService := s.toService[1..]);
    match s.toService[0]
    case Acknowledge(id) => rest.(acknowledged := s.acknowledged + {id})
    case Connected(id) =>
      if id in s.sessions && !Defunct(s, id) then rest
      else rest.(toRouter := s.toRouter + [KickClient(id)])
  }

  ghost predicate Next(s: State, s': State, step: Step) {
    match step
    case CreateInsert(t, id) =>
      && t !in s.creators && id !in s.sessions
      && s' == s.(entries := s.entries + [Entry(id, L.NEW_SESSION, false)],
                  sessions := s.sessions[id := |s.entries|], creators := s.creators[t := Inserted(|s.entries|)])
    case CreateSendInitialize(t) =>
      && t in s.creators && s.creators[t].Inserted? && CreatorAt(s, t, s.creators[t])
      && var n := s.creators[t].n;
         s' == s.(toRouter := s.toRouter + [Initialize(s.entries[n].id)], creators := s.creators[t := Awaiting(n)])
    case CreateHearsAcknowledge(t) =>
      && t in s.creators && s.creators[t].Awaiting? && CreatorAt(s, t, s.creators[t])
      && s.entries[s.creators[t].n].id in s.acknowledged
      && s' == s.(creators := s.creators[t := Cleared(s.creators[t].n)])
    case CreateTimesOut(t) =>
      && t in s.creators && s.creators[t].Awaiting? && CreatorAt(s, t, s.creators[t])
      && s' == s.(sessions := s.sessions - {s.entries[s.creators[t].n].id}, creators := s.creators - {t})
    case CreateUpdates(t) =>
      && t in s.creators && s.creators[t].Cleared? && CreatorAt(s, t, s.creators[t])
      && var n := s.creators[t].n;
         && L.Accepts(s.entries[n].session) && t !in s.entries[n].session.callers
         && var begun := L.Move(s.entries[n].session, t, L.JoinToUpdate).(state := L.Busy);
            s' == s.(entries := s.entries[n := Entry(s.entries[n].id, begun, true)], creators := s.creators - {t})
    case CreateRefused(t) =>
      && t in s.creators && s.creators[t].Cleared? && CreatorAt(s, t, s.creators[t])
      && !L.Accepts(s.entries[s.creators[t].n].session)
      && s' == s.(sessions := s.sessions - {s.entries[s.creators[t].n].id}, creators := s.creators - {t})
    case Operate(n, step) =>
      && n < |s.entries|
      // deletes and shutdowns hold the table's lock; a modify may have looked its session up before
      && (step.BeginDelete? || step.BeginShutdown? ==> InTable(s, n))
      && exists session :: L.Next(s.entries[n].session, session, step) && s' == Operated(s, n, step, session)
    case RouterHandles => s.toRouter != [] && s.kicking == None && s' == RouterHandled(s)
    case RouterKicks =>
      && s.kicking.Some? && s.kicking.value < |s.clients|
      && var c := s.kicking.value;
         s' == s.(clients := s.clients[c := s.clients[c].(flagged := true)], kicking := None)
    case RouterAccepts(id) =>
      && s.notifying == None && id !in s.tracked
      && s' == s.(clients := s.clients + [Client(id, false)], tracked := s.tracked[id := |s.clients|],
                  notifying := Some(id))
    case RouterNotifies =>
      s.notifying.Some? && s' == s.(toService := s.toService + [Connected(s.notifying.value)], notifying := None)
    case ClientLeaves(c) =>
      c < |s.clients| && s' == s.(clients := s.clients[c := s.clients[c].(flagged := true)])
    case RouterUntracks(id) =>
      && s.notifying == None && id in s.tracked && s.tracked[id] < |s.clients| && s.clients[s.tracked[id]].flagged
      && s' == s.(tracked := s.tracked - {id})
    case ServiceHandles => s.toService != [] && s' == ServiceHandled(s)
  }

  // ---------------------------------------------------------------------------------------------
  // What callers must keep to.

  predicate EntryAt(s: State, n: int, id: Id) {
    0 <= n < |s.entries| && s.entries[n].id == id
  }

  predicate InTable(s: State, n: nat) {
    n < |s.entries| && s.entries[n].id in s.sessions && s.sessions[s.entries[n].id] == n
  }

  /** The router holds the session's routing data and no Delete for it was ever sent. */
  predicate RouterReady(s: State, id: Id) {
    id in s.routing && id !in s.deleteSent
  }

  /** Deletes and shutdowns reach an object through the table, or were accepted before it left the table. */
  ghost predicate MayDelete(s: State, n: nat)
    requires n < |s.entries|
  {
    InTable(s, n) || L.DeletePending(s.entries[n].session)
  }

  /** No Delete was sent for the id, and none is under way. */
  ghost predicate NoDelete(s: State, id: Id) {
    id !in s.deleteSent && forall n :: EntryAt(s, n, id) ==> !L.DeletePending(s.entries[n].session)
  }

  /** No Delete was sent for the id, and no operation of an earlier object of that id is under way. */
  ghost predicate NothingUnderWay(s: State, id: Id) {
    NoDelete(s, id) && forall n :: EntryAt(s, n, id) ==> !L.MayUpdate(s.entries[n].session)
  }

  /** The router is ready for object `n`, and no other object of its id can send a Delete. */
  ghost predicate Undisturbed(s: State, n: nat)
    requires n < |s.entries|
  {
    && RouterReady(s, s.entries[n].id)
    && forall m :: EntryAt(s, m, s.entries[n].id) && m != n ==> !MayDelete(s, m)
  }

  /** An id is created again only when nothing is under way for it. */
  ghost predicate FreshCreate(s: State, step: Step) {
    step.CreateInsert? ==> NothingUnderWay(s, step.id)
  }

  /** An update is accepted only when the router is ready for it. */
  ghost predicate LateModify(s: State, step: Step) {
    step.Operate? && step.step.BeginUpdate? && step.n < |s.entries| ==> Undisturbed(s, step.n)
  }

  /** A connection to the session is left alone. */
  predicate PassesForActive(s: State, id: Id) {
    id in s.sessions && !Defunct(s, id)
  }

  /** A session whose creation has gone through and whose delete body has not sent its kick. */
  ghost predicate Live(s: State, id: Id) {
    && id in s.sessions && s.sessions[id] < |s.entries|
    && var e := s.entries[s.sessions[id]];
       e.created && e.session.state != L.Defunct && !e.session.kicked
  }

  /** A kick has reached the client, or will: its own or through its connected message. */
  ghost predicate KickPending(s: State, id: Id, c: nat) {
    || s.kicking == Some(c) || s.notifying == Some(id)
    || KickClient(id) in s.toRouter || Connected(id) in s.toService
  }

  predicate Connects(s: State, id: Id) {
    id in s.tracked && s.tracked[id] < |s.clients| && !s.clients[s.tracked[id]].flagged
  }

  /**
   The connected message about to be handled is the last thing that could have its client kicked, and it
   will not: the session passes for active, but is still being created, or is past its own kick.
   */
  ghost predicate LosesClient(s: State, id: Id)
    requires s.toService != []
  {
    && Connects(s, id) && PassesForActive(s, id) && !Live(s, id)
    && !KickPending(s.(toService := s.toService[1..]), id, s.tracked[id])
  }

  ghost predicate TimelyConnect(s: State, step: Step) {
    step.ServiceHandles? && s.toService != [] && s.toService[0].Connected? ==> !LosesClient(s, s.toService[0].id)
  }

  /** Which rules a run keeps to. */
  datatype Rules =
    | AllRules
    | SpawnRules
    | ConnectRule
    | OneUpdate(n: nat)
    | NoLateModify
    | CreateUntilDeleteSent

  ghost predicate Disciplined(s: State, step: Step) {
    FreshCreate(s, step) && LateModify(s, step)
  }

  ghost predicate Keeps(rules: Rules, s: State, step: Step) {
    match rules
    case AllRules => Disciplined(s, step) && TimelyConnect(s, step)
    case SpawnRules => Disciplined(s, step)
    case ConnectRule => TimelyConnect(s, step)
    // all rules, and no further update of one object
    case OneUpdate(n) => Disciplined(s, step) && TimelyConnect(s, step) && !AcceptsUpdate(s, step, n)
    case NoLateModify => FreshCreate(s, step) && TimelyConnect(s, step)
    case CreateUntilDeleteSent =>
      (step.CreateInsert? ==> step.id !in s.deleteSent) && LateModify(s, step) && TimelyConnect(s, step)
  }

  predicate AcceptsUpdate(s: State, step: Step, n: nat) {
    || (step.Operate? && step.n == n && step.step.BeginUpdate?)
    || (step.CreateUpdates? && step.t in s.creators && s.creators[step.t].n == n)
  }

  ghost predicate Segment(rules: Rules, run: seq<State>, steps: seq<Step>) {
    && |run| == |steps| + 1
    && forall i :: 0 <= i < |steps| ==> Next(run[i], run[i + 1], steps[i]) && Keeps(rules, run[i], steps[i])
  }

  ghost predicate Run(rules: Rules, run: seq<State>, steps: seq<Step>) {
    Segment(rules, run, steps) && Empty(run[0])
  }

  // ---------------------------------------------------------------------------------------------
  // Spawning finds the router ready.

  ghost predicate EntryOk(s: State, n: nat)
    requires n < |s.entries|
  {
    var e := s.entries[n];
    && L.Inv(e.session)
    && (e.created ==> InTable(s, n))
    && (e.session.released ==> e.id in s.deleteSent)
  }

  ghost predicate CreatedBy(s: State, t: nat, n: nat) {
    t in s.creators && s.creators[t].n == n
  }

  ghost predicate TableOk(s: State, id: Id)
    requires id in s.sessions
  {
    var n := s.sessions[id];
    && EntryAt(s, n, id)
    && (!s.entries[n].created ==> exists t :: CreatedBy(s, t, n))
  }

  ghost predicate CreatorOk(s: State, t: nat)
    requires t in s.creators
  {
    var n := s.creators[t].n;
    && n < |s.entries| && !s.entries[n].created && InTable(s, n)
    && (s.creators[t].Cleared? ==> s.entries[n].id in s.acknowledged)
  }

  ghost predicate OneCreator(s: State) {
    forall t, u :: t in s.creators && u in s.creators && s.creators[t].n == s.creators[u].n ==> t == u
  }

  /** What every step keeps. */
  ghost predicate Service(s: State) {
    && (forall n :: 0 <= n < |s.entries| ==> EntryOk(s, n))
    && (forall id :: id in s.sessions ==> TableOk(s, id))
    && (forall t :: t in s.creators ==> CreatorOk(s, t))
    && OneCreator(s)
  }

  /** No other object of the id can send a Delete, and `n` is the only one that has. */
  ghost predicate SoleDeleter(s: State, id: Id, n: nat)
    requires n < |s.entries|
  {
    && (forall m :: EntryAt(s, m, id) && m != n ==> !L.DeletePending(s.entries[m].session))
    && (id in s.deleteSent ==> s.entries[n].session.released)
  }

  /** In every table entry, as long as ids are not created while a Delete for them was sent or is under way. */
  ghost predicate SoleDeleters(s: State) {
    forall id :: id in s.sessions && EntryAt(s, s.sessions[id], id) ==> SoleDeleter(s, id, s.sessions[id])
  }

  /** An update under way finds the router ready for as long as it may start computations. */
  ghost predicate Ready(s: State, n: nat) {
    n < |s.entries| && L.MayUpdate(s.entries[n].session) ==> Undisturbed(s, n)
  }

  /**
   An acknowledged session is in the routing table until its Delete, which follows it down the same channel;
   a tracked client, and one being kicked, exists.
   */
  ghost predicate Channels(s: State) {
    && (forall id :: id in s.acknowledged || Acknowledge(id) in s.toService ==> id in s.routing || id in s.deleteSent)
    && (forall id :: Delete(id) in s.toRouter ==> id in s.deleteSent)
    && (forall id :: id in s.tracked ==> s.tracked[id] < |s.clients|)
    && (s.kicking.Some? ==> s.kicking.value < |s.clients|)
  }

  predicate OfService(step: Step) {
    || step.CreateInsert? || step.CreateSendInitialize? || step.CreateHearsAcknowledge? || step.CreateTimesOut?
    || step.CreateUpdates? || step.CreateRefused? || step.Operate?
  }

  lemma OthersLeaveSessionsAlone(s: State, s': State, step: Step)
    requires Next(s, s', step) && !OfService(step)
    ensures s'.entries == s.entries && s'.sessions == s.sessions && s'.creators == s.creators
    ensures s.acknowledged <= s'.acknowledged && s'.deleteSent == s.deleteSent
  {
  }

  /** A creator moves on, or gives up and takes its own object out of the table. */
  ghost predicate CreatorMoves(s: State, s': State, t: nat) {
    && t in s.creators && s.creators[t].n < |s.entries|
    && s'.entries == s.entries && s'.acknowledged == s.acknowledged && s'.deleteSent == s.deleteSent
    && s'.routing == s.routing
    && var n := s.creators[t].n;
       || (&& s'.sessions == s.sessions && t in s'.creators && s'.creators == s.creators[t := s'.creators[t]]
           && s'.creators[t].n == n && (s'.creators[t].Cleared? ==> s.entries[n].id in s.acknowledged))
       || (s'.sessions == s.sessions - {s.entries[n].id} && s'.creators == s.creators - {t})
  }

  /** Object `n` takes a step of its own. */
  ghost predicate EntryMoves(s: State, s': State, n: nat, step: L.Step) {
    && n < |s.entries| && |s'.entries| == |s.entries|
    && s'.entries == s.entries[n := s'.entries[n]] && s'.entries[n].id == s.entries[n].id
    && L.Next(s.entries[n].session, s'.entries[n].session, step)
    && (step.BeginDelete? || step.BeginShutdown? ==> InTable(s, n))
    && s'.sessions == s.sessions && s'.acknowledged == s.acknowledged && s'.routing == s.routing
    && s'.deleteSent == s.deleteSent + (if step.Release? then {s.entries[n].id} else {})
    && (|| (s'.creators == s.creators && s'.entries[n].created == s.entries[n].created)
        || (&& step.BeginUpdate? && CreatedBy(s, step.t, n) && s.creators[step.t].Cleared?
            && s'.entries[n].created && s'.creators == s.creators - {step.t}))
  }

  lemma CreatorSteps(s: State, s': State, step: Step)
    requires Next(s, s', step)
    requires step.CreateSendInitialize? || step.CreateHearsAcknowledge? || step.CreateTimesOut? || step.CreateRefused?
    ensures CreatorMoves(s, s', step.t)
  {
  }

  lemma EntrySteps(s: State, s': State, step: Step) returns (n: nat, inner: L.Step)
    requires Next(s, s', step) && (step.Operate? || step.CreateUpdates?)
    ensures EntryMoves(s, s', n, inner)
    ensures inner.BeginUpdate? ==> AcceptsUpdate(s, step, n)
    ensures step.Operate? ==> s'.creators == s.creators && n == step.n && inner == step.step
    ensures step.CreateUpdates? ==> s'.creators != s.creators && inner.BeginUpdate?
  {
    if step.Operate? {
      n, inner := step.n, step.step;
    } else {
      n, inner := s.creators[step.t].n, L.BeginUpdate(step.t);
    }
  }

  // Each part of the invariant, over the three kinds of step that touch the sessions and over the others.

  lemma NewSessionOk()
    ensures L.Inv(L.NEW_SESSION) && !L.MayUpdate(L.NEW_SESSION) && !L.DeletePending(L.NEW_SESSION)
  {
  }

  lemma EntryKept(s: State, s': State, step: Step, n: nat)
    requires Service(s) && Next(s, s', step) && n < |s'.entries|
    ensures EntryOk(s', n)
  {
    if n < |s.entries| { assert EntryOk(s, n); }
    if step.CreateInsert? {
      NewSessionOk();
    } else if step.Operate? || step.CreateUpdates? {
      var m, inner := EntrySteps(s, s', step);
      EntryMovesKeepsEntry(s, s', m, inner, n);
    } else if OfService(step) {
      CreatorSteps(s, s', step);
      assert CreatorOk(s, step.t);
    } else {
      OthersLeaveSessionsAlone(s, s', step);
    }
  }

  lemma EntryMovesKeepsEntry(s: State, s': State, m: nat, inner: L.Step, n: nat)
    requires Service(s) && EntryMoves(s, s', m, inner) && n < |s.entries|
    ensures EntryOk(s', n)
  {
    assert EntryOk(s, n);
    if m == n {
      L.InvKept(s.entries[n].session, s'.entries[n].session, inner);
      L.ReleasedMoves(s.entries[n].session, s'.entries[n].session, inner);
      if s'.creators != s.creators { assert CreatorOk(s, inner.t); }
    }
  }

  lemma TableKept(s: State, s': State, step: Step, id: Id)
    requires Service(s) && Next(s, s', step) && id in s'.sessions
    ensures TableOk(s', id)
  {
    if id in s.sessions { assert TableOk(s, id); }
    if step.CreateInsert? {
      InsertKeepsTable(s, s', step.t, step.id, id);
    } else if step.Operate? || step.CreateUpdates? {
      var m, inner := EntrySteps(s, s', step);
      EntryMovesKeepsTable(s, s', m, inner, id);
    } else if OfService(step) {
      CreatorSteps(s, s', step);
      CreatorMovesKeepsTable(s, s', step.t, id);
    } else {
      OthersLeaveSessionsAlone(s, s', step);
      SameSessionsKeepTable(s, s', id);
    }
  }

  lemma SameSessionsKeepTable(s: State, s': State, id: Id)
    requires id in s.sessions && TableOk(s, id)
    requires s'.entries == s.entries && s'.sessions == s.sessions && s'.creators == s.creators
    ensures TableOk(s', id)
  {
    if !s.entries[s.sessions[id]].created {
      var u: nat :| CreatedBy(s, u, s.sessions[id]);
      assert CreatedBy(s', u, s.sessions[id]);
    }
  }

  lemma InsertKeepsTable(s: State, s': State, t: nat, created: Id, id: Id)
    requires Service(s) && Next(s, s', CreateInsert(t, created)) && id in s'.sessions
    ensures TableOk(s', id)
  {
    if id == created {
      assert CreatedBy(s', t, |s.entries|);
    } else {
      assert TableOk(s, id);
      if !s.entries[s.sessions[id]].created {
        var u: nat :| CreatedBy(s, u, s.sessions[id]);
        assert CreatedBy(s', u, s.sessions[id]);
      }
    }
  }

  lemma CreatorMovesKeepsTable(s: State, s': State, t: nat, id: Id)
    requires Service(s) && CreatorMoves(s, s', t) && id in s'.sessions
    ensures TableOk(s', id)
  {
    assert TableOk(s, id);
    var n := s.sessions[id];
    if !s.entries[n].created {
      var u: nat :| CreatedBy(s, u, n);
      OtherCreatorsStay(s, s', t, u);
      assert CreatedBy(s', u, n);
    }
  }

  /** A creator that gives up takes the table's object of its id with it, so no other creator of that object is left. */
  lemma OtherCreatorsStay(s: State, s': State, t: nat, u: nat)
    requires Service(s) && CreatorMoves(s, s', t) && u in s.creators
    ensures u in s'.creators ==> s'.creators[u].n == s.creators[u].n
    ensures u in s'.creators ==> s'.creators[u] == s.creators[u] || (u == t && s'.sessions == s.sessions)
    ensures u !in s'.creators ==> u == t && s.entries[s.creators[t].n].id !in s'.sessions
    ensures CreatorOk(s, u) && CreatorOk(s, t)
  {
  }

  lemma EntryMovesKeepsTable(s: State, s': State, m: nat, inner: L.Step, id: Id)
    requires Service(s) && EntryMoves(s, s', m, inner) && id in s.sessions
    ensures TableOk(s', id)
  {
    assert TableOk(s, id);
    var n := s.sessions[id];
    if !s'.entries[n].created {
      var u: nat :| CreatedBy(s, u, n);
      assert CreatedBy(s', u, n);
    }
  }

  lemma CreatorKept(s: State, s': State, step: Step, t: nat)
    requires Service(s) && Next(s, s', step) && t in s'.creators
    ensures CreatorOk(s', t)
  {
    if step.CreateInsert? {
      if t in s.creators { assert CreatorOk(s, t); }
    } else if step.Operate? || step.CreateUpdates? {
      var m, inner := EntrySteps(s, s', step);
      EntryMovesKeepsCreator(s, s', m, inner, t);
    } else if OfService(step) {
      CreatorSteps(s, s', step);
      CreatorMovesKeepsCreator(s, s', step.t, t);
    } else {
      OthersLeaveSessionsAlone(s, s', step);
      assert CreatorOk(s, t);
    }
  }

  lemma EntryMovesKeepsCreator(s: State, s': State, m: nat, inner: L.Step, t: nat)
    requires Service(s) && EntryMoves(s, s', m, inner) && t in s'.creators
    ensures CreatorOk(s', t)
  {
    assert CreatorOk(s, t);
  }

  lemma CreatorMovesKeepsCreator(s: State, s': State, u: nat, t: nat)
    requires Service(s) && CreatorMoves(s, s', u) && t in s'.creators
    ensures CreatorOk(s', t)
  {
    OtherCreatorsStay(s, s', u, t);
    assert t == u || s.creators[t].n != s.creators[u].n;
  }

  lemma OneCreatorKept(s: State, s': State, step: Step)
    requires Service(s) && Next(s, s', step)
    ensures OneCreator(s')
  {
    if step.CreateInsert? {
      forall u | u in s.creators ensures s.creators[u].n < |s.entries| { assert CreatorOk(s, u); }
    } else if step.Operate? || step.CreateUpdates? {
      var m, inner := EntrySteps(s, s', step);
    } else if OfService(step) {
      CreatorSteps(s, s', step);
      CreatorMovesKeepsOne(s, s', step.t);
    } else {
      OthersLeaveSessionsAlone(s, s', step);
    }
  }

  lemma CreatorMovesKeepsOne(s: State, s': State, t: nat)
    requires Service(s) && CreatorMoves(s, s', t)
    ensures OneCreator(s')
  {
    forall u | u in s'.creators ensures u in s.creators && s'.creators[u].n == s.creators[u].n {
      OtherCreatorsStay(s, s', t, u);
    }
  }

  lemma ServiceKept(s: State, s': State, step: Step)
    requires Service(s) && Next(s, s', step)
    ensures Service(s')
  {
    forall n | 0 <= n < |s'.entries| ensures EntryOk(s', n) { EntryKept(s, s', step, n); }
    forall id | id in s'.sessions ensures TableOk(s', id) { TableKept(s, s', step, id); }
    forall t | t in s'.creators ensures CreatorOk(s', t) { CreatorKept(s, s', step, t); }
    OneCreatorKept(s, s', step);
  }

  lemma SameSoleDeleter(s: State, s': State, id: Id, n: nat)
    requires n < |s.entries| && SoleDeleter(s, id, n) && s'.entries == s.entries && s'.deleteSent == s.deleteSent
    ensures SoleDeleter(s', id, n)
  {
  }

  lemma EntryMovesKeepsSoleDeleter(s: State, s': State, m: nat, inner: L.Step, id: Id)
    requires Service(s) && EntryMoves(s, s', m, inner) && id in s.sessions && EntryAt(s, s.sessions[id], id)
    requires SoleDeleter(s, id, s.sessions[id])
    ensures SoleDeleter(s', id, s.sessions[id])
  {
    assert EntryOk(s, m);
    L.DeletePendingMoves(s.entries[m].session, s'.entries[m].session, inner);
    L.ReleasedMoves(s.entries[m].session, s'.entries[m].session, inner);
  }

  lemma SoleDeleterKept(s: State, s': State, step: Step, id: Id)
    requires Service(s) && SoleDeleters(s) && Next(s, s', step) && (step.CreateInsert? ==> NoDelete(s, step.id))
    requires id in s'.sessions && EntryAt(s', s'.sessions[id], id)
    ensures SoleDeleter(s', id, s'.sessions[id])
  {
    if id in s.sessions { assert TableOk(s, id) && SoleDeleter(s, id, s.sessions[id]); }
    if step.CreateInsert? {
    } else if step.Operate? || step.CreateUpdates? {
      var m, inner := EntrySteps(s, s', step);
      EntryMovesKeepsSoleDeleter(s, s', m, inner, id);
    } else if OfService(step) {
      CreatorSteps(s, s', step);
      SameSoleDeleter(s, s', id, s.sessions[id]);
    } else {
      OthersLeaveSessionsAlone(s, s', step);
      SameSoleDeleter(s, s', id, s.sessions[id]);
    }
  }

  lemma SoleDeletersKept(s: State, s': State, step: Step)
    requires Service(s) && SoleDeleters(s) && Next(s, s', step) && (step.CreateInsert? ==> NoDelete(s, step.id))
    ensures SoleDeleters(s')
  {
    forall id | id in s'.sessions && EntryAt(s', s'.sessions[id], id) ensures SoleDeleter(s', id, s'.sessions[id]) {
      SoleDeleterKept(s, s', step, id);
    }
  }

  /** The same router state, and fewer objects that may send a Delete. */
  lemma StaysUndisturbed(s: State, s': State, n: nat)
    requires n < |s.entries| <= |s'.entries| && Undisturbed(s, n) && s'.entries[n].id == s.entries[n].id
    requires RouterReady(s', s.entries[n].id)
    requires forall m :: EntryAt(s', m, s.entries[n].id) && m != n && MayDelete(s', m) ==>
               EntryAt(s, m, s.entries[n].id) && MayDelete(s, m)
    ensures Undisturbed(s', n)
  {
  }

  lemma ReadyKept(s: State, s': State, step: Step, n: nat)
    requires Service(s) && SoleDeleters(s) && Channels(s) && Ready(s, n)
    requires Next(s, s', step) && Disciplined(s, step)
    ensures Ready(s', n)
  {
    if step.CreateInsert? {
      InsertKeepsReady(s, s', step.t, step.id, n);
    } else if step.Operate? {
      var m, inner := EntrySteps(s, s', step);
      EntryMovesKeepsReady(s, s', m, inner, n);
    } else if step.CreateUpdates? {
      var m, inner := EntrySteps(s, s', step);
      CreatedIsUndisturbed(s, m, step.t);
      EntryMovesKeepsReady(s, s', m, inner, n);
    } else if OfService(step) {
      CreatorSteps(s, s', step);
      if n < |s.entries| && L.MayUpdate(s.entries[n].session) { StaysUndisturbed(s, s', n); }
    } else {
      OthersLeaveSessionsAlone(s, s', step);
      if n < |s.entries| && L.MayUpdate(s.entries[n].session) {
        RoutingStays(s, s', step, s.entries[n].id);
        StaysUndisturbed(s, s', n);
      }
    }
  }

  lemma RoutingStays(s: State, s': State, step: Step, id: Id)
    requires Channels(s) && Next(s, s', step) && !OfService(step) && RouterReady(s, id)
    ensures RouterReady(s', id)
  {
    if step.RouterHandles? { assert s.toRouter[0] in s.toRouter; }
  }

  lemma InsertKeepsReady(s: State, s': State, t: nat, id: Id, n: nat)
    requires Service(s) && Ready(s, n) && Next(s, s', CreateInsert(t, id)) && NothingUnderWay(s, id)
    ensures Ready(s', n)
  {
    NewSessionOk();
    if n < |s.entries| && L.MayUpdate(s.entries[n].session) {
      assert EntryAt(s, n, s.entries[n].id);
      StaysUndisturbed(s, s', n);
    }
  }

  lemma EntryMovesKeepsReady(s: State, s': State, m: nat, inner: L.Step, n: nat)
    requires Service(s) && Ready(s, n) && EntryMoves(s, s', m, inner) && (inner.BeginUpdate? ==> Undisturbed(s, m))
    ensures Ready(s', n)
  {
    var (a, b) := (s.entries[m].session, s'.entries[m].session);
    assert EntryOk(s, m);
    L.DeletePendingMoves(a, b, inner);
    if n < |s.entries| && L.MayUpdate(s'.entries[n].session) {
      if n == m { L.MayUpdateMoves(a, b, inner); }
      assert Undisturbed(s, n);
      if inner.Release? {
        if n == m { L.ReleaseRulesOutUpdates(a, b, inner); }
        assert EntryAt(s, m, s.entries[m].id);
      }
      StaysUndisturbed(s, s', n);
    }
  }

  /** The object a cleared creator is about to update. */
  lemma CreatedIsUndisturbed(s: State, n: nat, t: nat)
    requires Service(s) && SoleDeleters(s) && Channels(s) && CreatedBy(s, t, n) && s.creators[t].Cleared?
    requires n < |s.entries| && L.Accepts(s.entries[n].session)
    ensures Undisturbed(s, n)
  {
    assert CreatorOk(s, t) && EntryOk(s, n) && TableOk(s, s.entries[n].id);
    AcceptingIsNotReleased(s, n);
  }

  lemma AcceptingIsNotReleased(s: State, n: nat)
    requires Service(s) && SoleDeleters(s) && InTable(s, n) && L.Accepts(s.entries[n].session)
    ensures s.entries[n].id !in s.deleteSent
    ensures forall m :: EntryAt(s, m, s.entries[n].id) && m != n ==> !MayDelete(s, m)
  {
    assert EntryOk(s, n) && TableOk(s, s.entries[n].id);
  }

  lemma ChannelsRouter(s: State, s': State)
    requires Channels(s) && Next(s, s', RouterHandles)
    ensures Channels(s')
  {
    var m := s.toRouter[0];
    assert m in s.toRouter;
    forall id | Delete(id) in s'.toRouter ensures id in s'.deleteSent {
      assert Delete(id) in s.toRouter;
    }
    forall id | id in s'.acknowledged || Acknowledge(id) in s'.toService
      ensures id in s'.routing || id in s'.deleteSent
    {
      if m != Initialize(id) {
        assert id in s.acknowledged || Acknowledge(id) in s.toService;
      }
    }
  }

  lemma ChannelsService(s: State, s': State)
    requires Channels(s) && Next(s, s', ServiceHandles)
    ensures Channels(s')
  {
    assert s.toService[0] in s.toService;
    forall m | m in s'.toService ensures m in s.toService {
      assert m in s.toService[1..];
    }
  }

  lemma ChannelsKept(s: State, s': State, step: Step)
    requires Channels(s) && Next(s, s', step)
    ensures Channels(s')
  {
    if step.RouterHandles? {
      ChannelsRouter(s, s');
    } else if step.ServiceHandles? {
      ChannelsService(s, s');
    } else {
      assert s.routing == s'.routing && s.acknowledged == s'.acknowledged;
    }
  }

  ghost predicate DisciplinedRun(run: seq<State>, steps: seq<Step>) {
    Run(SpawnRules, run, steps)
  }

  predicate SpawnSafe(rules: Rules) {
    rules.AllRules? || rules.SpawnRules? || rules.OneUpdate?
  }

  lemma {:induction false} SegmentKeepsService(rules: Rules, run: seq<State>, steps: seq<Step>, k: nat)
    requires Segment(rules, run, steps) && k < |run| && Service(run[0]) && Channels(run[0])
    ensures Service(run[k]) && Channels(run[k])
  {
    if k > 0 {
      var before := k - 1;
      SegmentKeepsService(rules, run, steps, before);
      assert Next(run[before], run[before + 1], steps[before]);
      ServiceKept(run[before], run[k], steps[before]);
      ChannelsKept(run[before], run[k], steps[before]);
    }
  }

  lemma {:induction false} SegmentKeeps(rules: Rules, run: seq<State>, steps: seq<Step>, k: nat, n: nat)
    requires Segment(rules, run, steps) && SpawnSafe(rules) && k < |run|
    requires Service(run[0]) && SoleDeleters(run[0]) && Channels(run[0]) && Ready(run[0], n)
    ensures SoleDeleters(run[k]) && Ready(run[k], n)
  {
    if k > 0 {
      var before := k - 1;
      SegmentKeeps(rules, run, steps, before, n);
      SegmentKeepsService(rules, run, steps, before);
      assert Next(run[before], run[before + 1], steps[before]) && Keeps(rules, run[before], steps[before]);
      SoleDeletersKept(run[before], run[k], steps[before]);
      ReadyKept(run[before], run[k], steps[before], n);
    }
  }

  lemma EmptyIsReady(s: State, n: nat)
    requires Empty(s)
    ensures Service(s) && SoleDeleters(s) && Channels(s) && Ready(s, n)
  {
  }

  lemma RunKeeps(rules: Rules, run: seq<State>, steps: seq<Step>, k: nat, n: nat)
    requires Run(rules, run, steps) && k < |run|
    ensures Service(run[k]) && Channels(run[k])
    ensures SpawnSafe(rules) ==> SoleDeleters(run[k]) && Ready(run[k], n)
  {
    EmptyIsReady(run[0], n);
    SegmentKeepsService(rules, run, steps, k);
    if SpawnSafe(rules) { SegmentKeeps(rules, run, steps, k, n); }
  }

  /** Whenever a computation is spawned, the router is ready for its session. */
  lemma SpawnFindsRouterReady(run: seq<State>, steps: seq<Step>, k: nat)
    requires DisciplinedRun(run, steps) && k < |steps| && steps[k].Operate? && steps[k].step.Start?
    ensures steps[k].n < |run[k].entries| && RouterReady(run[k], run[k].entries[steps[k].n].id)
  {
    RunKeeps(SpawnRules, run, steps, k, steps[k].n);
    assert Next(run[k], run[k + 1], steps[k]);
  }

  // ---------------------------------------------------------------------------------------------
  // Clients of deleted or unknown sessions are kicked.

  ghost predicate Covered(s: State, id: Id)
    requires id in s.tracked
  {
    var c := s.tracked[id];
    c < |s.clients| && (s.clients[c].flagged || KickPending(s, id, c) || Live(s, id))
  }

  ghost predicate AllCovered(s: State) {
    forall id :: id in s.tracked ==> Covered(s, id)
  }

  lemma LiveKept(s: State, s': State, step: Step, id: Id)
    requires Service(s) && Next(s, s', step) && Live(s, id)
    ensures Live(s', id) || KickClient(id) in s'.toRouter
  {
    var n := s.sessions[id];
    assert TableOk(s, id) && EntryOk(s, n);
    if step.Operate? {
      if step.n == n { LiveOperated(s, s', n, step.step, id); }
    } else if step.CreateUpdates? {
      var m, inner := EntrySteps(s, s', step);
      assert CreatorOk(s, step.t);
    } else if OfService(step) && !step.CreateInsert? {
      CreatorSteps(s, s', step);
      assert CreatorOk(s, step.t);
    } else if !OfService(step) {
      OthersLeaveSessionsAlone(s, s', step);
    }
  }

  lemma LiveOperated(s: State, s': State, n: nat, step: L.Step, id: Id)
    requires Service(s) && Next(s, s', Operate(n, step)) && Live(s, id) && s.sessions[id] == n && s.entries[n].id == id
    ensures Live(s', id) || KickClient(id) in s'.toRouter
  {
    assert EntryOk(s, n);
    if step.Kick? {
      assert s'.toRouter[|s'.toRouter| - 1] == KickClient(id);
    } else {
      L.BeforeKick(s.entries[n].session, s'.entries[n].session, step);
    }
  }

  lemma RouterKeepsCovered(s: State, s': State, id: Id)
    requires Next(s, s', RouterHandles) && id in s.tracked && s.tracked[id] < |s.clients|
    requires KickPending(s, id, s.tracked[id])
    ensures s'.tracked == s.tracked && s'.clients == s.clients && KickPending(s', id, s.tracked[id])
  {
    assert s.toRouter == [s.toRouter[0]] + s.toRouter[1..];
    if Connected(id) in s.toService { assert Connected(id) in s'.toService; }
  }

  lemma ServiceKeepsCovered(s: State, s': State, id: Id)
    requires Next(s, s', ServiceHandles) && TimelyConnect(s, ServiceHandles)
    requires Connects(s, id) && KickPending(s, id, s.tracked[id]) && !Live(s, id)
    ensures s'.tracked == s.tracked && s'.clients == s.clients && KickPending(s', id, s.tracked[id])
  {
    assert s.toService == [s.toService[0]] + s.toService[1..];
    if s.toService[0] == Connected(id) && !PassesForActive(s, id) {
      assert s'.toRouter[|s'.toRouter| - 1] == KickClient(id);
    }
  }

  /** The other steps take nothing out of a channel. */
  lemma PendingKept(s: State, s': State, step: Step, id: Id)
    requires Next(s, s', step) && !step.RouterHandles? && !step.ServiceHandles?
    requires id in s.tracked && id in s'.tracked && s.tracked[id] < |s.clients|
    requires s.clients[s.tracked[id]].flagged || KickPending(s, id, s.tracked[id])
    ensures s'.tracked[id] == s.tracked[id] && s.tracked[id] < |s'.clients|
    ensures s'.clients[s.tracked[id]].flagged || KickPending(s', id, s.tracked[id])
  {
    if step.RouterNotifies? { assert s'.toService[|s'.toService| - 1] == Connected(s.notifying.value); }
  }

  lemma TrackedKept(s: State, s': State, step: Step, id: Id)
    requires Next(s, s', step) && id in s'.tracked && (id in s.tracked ==> s.tracked[id] < |s.clients|)
    ensures id in s.tracked ==> s'.tracked[id] == s.tracked[id] && s.tracked[id] < |s'.clients|
    ensures id in s.tracked && s.clients[s.tracked[id]].flagged ==> s'.clients[s.tracked[id]].flagged
    ensures id !in s.tracked ==> s'.tracked[id] < |s'.clients| && s'.notifying == Some(id)
  {
  }

  lemma CoveredKept(s: State, s': State, step: Step, id: Id)
    requires Service(s) && AllCovered(s) && Next(s, s', step) && TimelyConnect(s, step)
    requires id in s'.tracked
    ensures Covered(s', id)
  {
    if id in s.tracked { assert Covered(s, id); }
    TrackedKept(s, s', step, id);
    if id in s.tracked && !s.clients[s.tracked[id]].flagged {
      if Live(s, id) {
        LiveKept(s, s', step, id);
      } else if step.RouterHandles? {
        RouterKeepsCovered(s, s', id);
      } else if step.ServiceHandles? {
        ServiceKeepsCovered(s, s', id);
      } else {
        PendingKept(s, s', step, id);
      }
    }
  }

  ghost predicate TimelyRun(run: seq<State>, steps: seq<Step>) {
    Run(ConnectRule, run, steps)
  }

  /** The rules that have connected messages handled in time. */
  predicate ConnectSafe(rules: Rules) {
    !rules.SpawnRules?
  }

  lemma {:induction false} SegmentKeepsCovered(rules: Rules, run: seq<State>, steps: seq<Step>, k: nat)
    requires Segment(rules, run, steps) && ConnectSafe(rules) && k < |run|
    requires Service(run[0]) && Channels(run[0]) && AllCovered(run[0])
    ensures AllCovered(run[k])
  {
    if k > 0 {
      var before := k - 1;
      SegmentKeepsCovered(rules, run, steps, before);
      SegmentKeepsService(rules, run, steps, before);
      assert Next(run[before], run[before + 1], steps[before]) && Keeps(rules, run[before], steps[before]);
      forall id | id in run[k].tracked ensures Covered(run[k], id) {
        CoveredKept(run[before], run[k], steps[before], id);
      }
    }
  }

  ghost predicate Drained(s: State) {
    s.toRouter == [] && s.toService == [] && s.notifying == None && s.kicking == None
  }

  /**
   A client tracked for a deleted or unknown session is flagged for disconnection, or its kick is still on
   its way; so once the channels have drained none is left unkicked.
   */
  lemma DeadClientsAreKicked(run: seq<State>, steps: seq<Step>, k: nat, id: Id)
    requires TimelyRun(run, steps) && k < |run| && id in run[k].tracked
    requires id !in run[k].sessions || Defunct(run[k], id)
    ensures var (s, c) := (run[k], run[k].tracked[id]);
            && c < |s.clients| && (s.clients[c].flagged || KickPending(s, id, c))
            && (Drained(s) ==> s.clients[c].flagged)
  {
    EmptyIsReady(run[0], 0);
    SegmentKeepsCovered(ConnectRule, run, steps, k);
    assert Covered(run[k], id);
  }
}
