/** How negotiation (`Negotiation`) ends: quiet states, pairs that are stuck, and how many steps are left. */
module NegotiationProgress {
  import opened Common
  import opened Negotiation

  /** No dial pending and no registration in flight. */
  ghost predicate Quiet(s: State) {
    && (forall e :: 0 <= e < |s.eps| ==> s.eps[e].phase != Dialing && !s.eps[e].phase.Registered?)
    && (forall c :: 0 <= c < |s.conns| ==> s.conns[c].reg != InFlight)
  }

  /** No endpoints, or both, holding the two ends of one connection. */
  ghost predicate Resolved(s: State, l: Id, g: Id)
    requires Shape(s)
  {
    || ((l, g) !in s.table && (g, l) !in s.table)
    || exists c :: 0 <= c < |s.conns| && Holds(s, (l, g), c) && Holds(s, (g, l), c)
  }

  lemma QuietGreaterResolves(s: State, l: Id, g: Id)
    requires Clean(s) && Quiet(s) && l < g && (g, l) in s.table
    ensures Resolved(s, l, g)
  {
    var e := s.table[(g, l)];
    assert EndpointShape(s.eps[e], s.conns) && EndpointClean(s, e);
    var c := s.eps[e].peer.value;
    assert ConnClean(s, c);
    assert Holds(s, (l, g), c) && Holds(s, (g, l), c);
  }

  /** A connection from `l` to `g` that `g` refused. */
  ghost predicate WasRefused(s: State, l: Id, g: Id) {
    exists c :: RefusedAt(s, c, l, g)
  }

  lemma QuietLesserWasRefused(s: State, l: Id, g: Id)
    requires Clean(s) && Quiet(s) && l < g && (l, g) in s.table && (g, l) !in s.table
    ensures WasRefused(s, l, g)
  {
    var ep := s.eps[s.table[(l, g)]];
    assert EndpointShape(ep, s.conns) && EndpointClean(s, s.table[(l, g)]);
    var c := if ep.phase == Serving then ep.peer.value else ep.phase.conn;
    assert ConnClean(s, c);
    assert RefusedAt(s, c, l, g);
  }

  lemma RefusedIsTracked(s: State, l: Id, g: Id)
    requires Clean(s) && WasRefused(s, l, g)
    ensures (l, g) in s.table
  {
    var c :| RefusedAt(s, c, l, g);
    assert ConnClean(s, c);
  }

  /** In a quiet state two nodes are resolved unless the greater one refused the lesser and has not dialled it since. */
  lemma QuietResolves(s: State, l: Id, g: Id)
    requires Clean(s) && Quiet(s) && l < g
    ensures Resolved(s, l, g) <==> (g, l) in s.table || !WasRefused(s, l, g)
  {
    if WasRefused(s, l, g) { RefusedIsTracked(s, l, g); }
    if (g, l) in s.table {
      QuietGreaterResolves(s, l, g);
    } else if (l, g) in s.table {
      QuietLesserWasRefused(s, l, g);
    }
  }

  /** The greater node reads the lesser one's registration without an endpoint for it, and without its address. */
  ghost predicate ReadsUnknown(s: State, step: Step, l: Id, g: Id) {
    && step.Accept? && step.c < |s.conns| && s.conns[step.c].opener == l && s.conns[step.c].target == g
    && (g, l) !in s.table && (g, l) !in s.knows
  }

  predicate RefusedAt(s: State, c: int, l: Id, g: Id) {
    0 <= c < |s.conns| && s.conns[c].opener == l && s.conns[c].target == g && s.conns[c].reg == Refused
  }

  lemma RegistrationsKept(s: State, s': State, step: Step, c: nat)
    requires Shape(s) && Next(s, s', step) && !step.Accept? && c < |s'.conns|
    ensures c < |s.conns| ==> s'.conns[c].reg == s.conns[c].reg
    ensures c >= |s.conns| ==> s'.conns[c].reg != Refused
  {
  }

  lemma AcceptedRegistration(s: State, read: nat, c: nat)
    requires Shape(s) && read < |s.conns|
    ensures |Accepted(s, read).conns| == |s.conns|
    ensures c < |s.conns| && c != read ==> Accepted(s, read).conns[c] == s.conns[c]
    ensures var conn := s.conns[read];
            Accepted(s, read).conns[read].reg == Refused <==>
              && conn.opener < conn.target
              && (conn.target, conn.opener) !in s.table && (conn.target, conn.opener) !in s.knows
  {
  }

  /** A connection refused stays refused; only reading its registration refuses one. */
  lemma RefusedConn(s: State, s': State, step: Step, c: nat, l: Id, g: Id)
    requires Shape(s) && Next(s, s', step) && l < g
    ensures RefusedAt(s, c, l, g) ==> RefusedAt(s', c, l, g)
    ensures RefusedAt(s', c, l, g) && !RefusedAt(s, c, l, g) ==> step == Accept(c) && ReadsUnknown(s, step, l, g)
    ensures step == Accept(c) && ReadsUnknown(s, step, l, g) ==> RefusedAt(s', c, l, g)
  {
    if c < |s'.conns| {
      ConnsKept(s, s', step, c);
      if step.Accept? { AcceptedRegistration(s, step.c, c); } else { RegistrationsKept(s, s', step, c); }
    } else {
      ConnsOnlyGrow(s, s', step);
    }
  }

  lemma ConnsOnlyGrow(s: State, s': State, step: Step)
    requires Shape(s) && Next(s, s', step)
    ensures |s.conns| <= |s'.conns|
  {
  }

  lemma RefusedStep(s: State, s': State, step: Step, l: Id, g: Id)
    requires Shape(s) && Next(s, s', step) && l < g
    ensures WasRefused(s', l, g) <==> WasRefused(s, l, g) || ReadsUnknown(s, step, l, g)
  {
    forall c: nat
      ensures RefusedAt(s, c, l, g) ==> RefusedAt(s', c, l, g)
      ensures RefusedAt(s', c, l, g) && !RefusedAt(s, c, l, g) ==> ReadsUnknown(s, step, l, g)
      ensures step == Accept(c) && ReadsUnknown(s, step, l, g) ==> RefusedAt(s', c, l, g)
    {
      RefusedConn(s, s', step, c, l, g);
    }
    if ReadsUnknown(s, step, l, g) { assert RefusedAt(s', step.c, l, g); }
  }

  lemma {:induction false} RefusedHistory(run: seq<State>, steps: seq<Step>, k: nat, l: Id, g: Id)
    requires CleanRun(run, steps) && k < |run| && l < g
    ensures WasRefused(run[k], l, g) <==> exists i :: 0 <= i < k && ReadsUnknown(run[i], steps[i], l, g)
  {
    if k > 0 {
      var before := k - 1;
      RefusedHistory(run, steps, before, l, g);
      RunShape(run, steps, before);
      RefusedStep(run[before], run[k], steps[before], l, g);
    }
  }

  /**
   Whatever addresses are learnt and forgotten, a pair is stuck in a quiet state if and only if the greater
   node once read the lesser one's registration without knowing its address, and has not dialled it since.
   */
  lemma StuckIff(run: seq<State>, steps: seq<Step>, k: nat, l: Id, g: Id)
    requires CleanRun(run, steps) && k < |run| && Quiet(run[k]) && l < g
    ensures Shape(run[k])
    ensures !Resolved(run[k], l, g) <==>
            (g, l) !in run[k].table && exists i :: 0 <= i < k && ReadsUnknown(run[i], steps[i], l, g)
  {
    CleanRunIsClean(run, steps, k);
    QuietResolves(run[k], l, g);
    RefusedHistory(run, steps, k, l, g);
  }

  /** No address is learnt or forgotten. */
  ghost predicate Fixed(steps: seq<Step>) {
    forall i :: 0 <= i < |steps| ==> !steps[i].Learn? && !steps[i].Forget?
  }

  /** Nodes dial only nodes they know. */
  ghost predicate DialsKnown(s: State) {
    && (forall e :: 0 <= e < |s.eps| ==> (s.eps[e].at, s.eps[e].to) in s.knows || s.eps[e].phase == Serving)
    && (forall c :: 0 <= c < |s.conns| ==> (s.conns[c].opener, s.conns[c].target) in s.knows)
  }

  lemma AcceptedEnds(s: State, read: nat, c: nat)
    requires Shape(s) && read < |s.conns| && c < |s.conns|
    ensures |Accepted(s, read).conns| == |s.conns|
    ensures Accepted(s, read).conns[c].opener == s.conns[c].opener
    ensures Accepted(s, read).conns[c].target == s.conns[c].target
  {
  }

  /** Only a dial adds a connection, and it keeps its ends. */
  lemma ConnsKept(s: State, s': State, step: Step, c: nat)
    requires Shape(s) && Next(s, s', step) && c < |s'.conns|
    ensures |s.conns| <= |s'.conns|
    ensures c < |s.conns| ==> s'.conns[c].opener == s.conns[c].opener && s'.conns[c].target == s.conns[c].target
    ensures c >= |s.conns| ==>
              && (step.Connect? || step.DialFails?) && step.e < |s.eps| && s.eps[step.e].phase == Dialing
              && s'.conns[c].opener == s.eps[step.e].at && s'.conns[c].target == s.eps[step.e].to
  {
    if step.Accept? {
      ConnsOnlyGrow(s, s', step);
      if c < |s.conns| { AcceptedEnds(s, step.c, c); } else { AcceptedEnds(s, step.c, 0); }
    } else if !step.Connect? && !step.DialFails? && !step.Send? && !step.Deliver? {
      assert s'.conns == s.conns;
    }
  }

  lemma AcceptedEndpoints(s: State, read: nat, e: nat)
    requires Shape(s) && read < |s.conns| && e < |Accepted(s, read).eps|
    ensures |s.eps| <= |Accepted(s, read).eps|
    ensures var ep := Accepted(s, read).eps[e];
            && (e < |s.eps| ==> ep == s.eps[e].(peer := ep.peer))
            && (e >= |s.eps| ==> (ep.at, ep.to) in s.knows || ep.phase == Serving)
  {
  }

  /** An endpoint that is new, and not given its connection, is one for a node known. */
  lemma EndpointsKept(s: State, s': State, step: Step, e: nat)
    requires Shape(s) && Next(s, s', step) && e < |s'.eps|
    ensures |s.eps| <= |s'.eps|
    ensures e < |s.eps| ==>
              && s'.eps[e].at == s.eps[e].at && s'.eps[e].to == s.eps[e].to
              && (s.eps[e].phase == Serving ==> s'.eps[e].phase == Serving)
    ensures e >= |s.eps| ==> (s'.eps[e].at, s'.eps[e].to) in s.knows || s'.eps[e].phase == Serving
  {
    if step.Accept? { AcceptedEndpoints(s, step.c, e); }
  }

  lemma DialsKnownKept(s: State, s': State, step: Step)
    requires Shape(s) && DialsKnown(s) && Next(s, s', step) && !step.Learn? && !step.Forget?
    ensures DialsKnown(s')
  {
    ShapeKept(s, s', step);
    forall c | 0 <= c < |s'.conns| ensures (s'.conns[c].opener, s'.conns[c].target) in s'.knows {
      ConnsKept(s, s', step, c);
    }
    forall e | 0 <= e < |s'.eps| ensures (s'.eps[e].at, s'.eps[e].to) in s'.knows || s'.eps[e].phase == Serving {
      EndpointsKept(s, s', step, e);
    }
  }

  lemma {:induction false} FixedRunKeeps(run: seq<State>, steps: seq<Step>, k: nat)
    requires CleanRun(run, steps) && Fixed(steps) && k < |run|
    ensures run[k].knows == run[0].knows && DialsKnown(run[k])
  {
    if k > 0 {
      var before := k - 1;
      FixedRunKeeps(run, steps, before);
      RunShape(run, steps, before);
      ShapeKept(run[before], run[k], steps[before]);
      DialsKnownKept(run[before], run[k], steps[before]);
    }
  }

  /** The lesser node waits for a connection; its own was refused. */
  function Stranded(knows: set<Pair>, l: Id, g: Id): State {
    State([Endpoint(l, g, None, Waiting(0), [], false)], map[(l, g) := 0], [Conn(l, g, Refused, [], [])], knows,
          map[], map[])
  }

  lemma StrandedIsStuck(knows: set<Pair>, l: Id, g: Id)
    requires l < g && Shape(Stranded(knows, l, g))
    ensures Quiet(Stranded(knows, l, g)) && !Resolved(Stranded(knows, l, g), l, g)
  {
    var s := Stranded(knows, l, g);
    assert s.table[(l, g)] == 0 && s.eps[0].peer == None;
  }

  /** The lesser node dials, the greater one does not know it and drops the connection: nobody dials back. */
  lemma Strands(knows: set<Pair>, l: Id, g: Id) returns (run: seq<State>, steps: seq<Step>)
    requires l < g && (l, g) in knows && (g, l) !in knows
    ensures CleanRun(run, steps) && Fixed(steps) && run[0].knows == knows
    ensures var last := run[|run| - 1]; Shape(last) && Quiet(last) && !Resolved(last, l, g)
  {
    var s0 := State([], map[], [], knows, map[], map[]);
    var s1 := Track(s0, NewDial(l, g));
    var s2 := Dialled(s1, 0, InFlight);
    var s3 := Accepted(s2, 0);
    assert Next(s0, s1, Ensure(l, g));
    assert Next(s1, s2, Connect(0));
    assert Next(s2, s3, Accept(0));
    assert s3 == Stranded(knows, l, g);
    run, steps := [s0, s1, s2, s3], [Ensure(l, g), Connect(0), Accept(0)];
    assert forall i :: 0 <= i < |steps| ==> Next(run[i], run[i + 1], steps[i]);
    RunShape(run, steps, 3);
    StrandedIsStuck(knows, l, g);
  }

  /** A failure-free run in which no address is learnt or forgotten, and which ends in a quiet state. */
  ghost predicate QuietRun(knows: set<Pair>, run: seq<State>, steps: seq<Step>) {
    CleanRun(run, steps) && Fixed(steps) && run[0].knows == knows && Quiet(run[|run| - 1])
  }

  ghost predicate NeverStrands(knows: set<Pair>, l: Id, g: Id) {
    forall run: seq<State>, steps: seq<Step> :: QuietRun(knows, run, steps) ==>
      Shape(run[|run| - 1]) && Resolved(run[|run| - 1], l, g)
  }

  /** With fixed addresses a pair never gets stuck iff the greater node knows the lesser, or cannot be dialled. */
  lemma NeverStrandsIff(knows: set<Pair>, l: Id, g: Id)
    requires l < g
    ensures NeverStrands(knows, l, g) <==> (g, l) in knows || (l, g) !in knows
  {
    if (g, l) in knows || (l, g) !in knows {
      forall run: seq<State>, steps: seq<Step> | QuietRun(knows, run, steps)
        ensures Shape(run[|run| - 1]) && Resolved(run[|run| - 1], l, g)
      {
        var k := |run| - 1;
        StuckIff(run, steps, k, l, g);
        if i :| 0 <= i < k && ReadsUnknown(run[i], steps[i], l, g) {
          FixedRunKeeps(run, steps, i);
        }
      }
    } else {
      var run, steps := Strands(knows, l, g);
      assert QuietRun(knows, run, steps);
    }
  }

  lemma NotQuietCanMove(s: State)
    requires !Quiet(s)
    ensures exists s', step :: Next(s, s', step) && Negotiates(step) && FailureFree(step)
  {
    if e :| 0 <= e < |s.eps| && s.eps[e].phase == Dialing {
      assert Next(s, Dialled(s, e, InFlight), Connect(e));
    } else if e :| 0 <= e < |s.eps| && s.eps[e].phase.Registered? {
      assert Next(s, Put(s, e, s.eps[e].(peer := Some(s.eps[e].phase.conn), phase := Serving)), Install(e));
    } else {
      var c :| 0 <= c < |s.conns| && s.conns[c].reg == InFlight;
      assert Next(s, Accepted(s, c), Accept(c));
    }
  }

  /** The negotiation steps an endpoint can still cause. */
  function EndpointWork(ep: Endpoint): nat {
    match ep.phase
    case Dialing => if ep.to < ep.at then 3 else 6
    case Registered(_) => 1
    case Waiting(_) => 1
    case Serving => 0
  }

  /** A registration from the lesser node may still start a dial by the greater one. */
  function ConnWork(c: Conn): nat {
    if c.reg != InFlight then 0 else if c.opener < c.target then 4 else 1
  }

  function EndpointsWork(eps: seq<Endpoint>): nat {
    if eps == [] then 0 else EndpointsWork(eps[..|eps| - 1]) + EndpointWork(eps[|eps| - 1])
  }

  function ConnsWork(conns: seq<Conn>): nat {
    if conns == [] then 0 else ConnsWork(conns[..|conns| - 1]) + ConnWork(conns[|conns| - 1])
  }

  function Work(s: State): nat {
    EndpointsWork(s.eps) + ConnsWork(s.conns)
  }

  lemma {:induction false} EndpointsWorkPut(eps: seq<Endpoint>, e: nat, ep: Endpoint)
    requires e < |eps|
    ensures EndpointsWork(eps[e := ep]) == EndpointsWork(eps) - EndpointWork(eps[e]) + EndpointWork(ep)
  {
    var last := |eps| - 1;
    if e == last {
      assert eps[e := ep][..last] == eps[..last];
    } else {
      assert eps[e := ep][..last] == eps[..last][e := ep];
      EndpointsWorkPut(eps[..last], e, ep);
    }
  }

  lemma {:induction false} ConnsWorkPut(conns: seq<Conn>, c: nat, conn: Conn)
    requires c < |conns|
    ensures ConnsWork(conns[c := conn]) == ConnsWork(conns) - ConnWork(conns[c]) + ConnWork(conn)
  {
    var last := |conns| - 1;
    if c == last {
      assert conns[c := conn][..last] == conns[..last];
    } else {
      assert conns[c := conn][..last] == conns[..last][c := conn];
      ConnsWorkPut(conns[..last], c, conn);
    }
  }

  lemma WorkDialled(s: State, e: nat, reg: Registration)
    requires Shape(s) && e < |s.eps| && s.eps[e].phase == Dialing
    ensures Work(Dialled(s, e, reg)) < Work(s)
  {
    var s' := Dialled(s, e, reg);
    assert EndpointShape(s.eps[e], s.conns);
    EndpointsWorkPut(s.eps, e, s'.eps[e]);
    assert s'.conns[..|s.conns|] == s.conns;
  }

  lemma WorkPut(s: State, e: nat, ep: Endpoint)
    requires e < |s.eps|
    ensures Work(Put(s, e, ep)) == Work(s) - EndpointWork(s.eps[e]) + EndpointWork(ep)
  {
    EndpointsWorkPut(s.eps, e, ep);
  }

  lemma WorkTrack(s: State, ep: Endpoint)
    ensures Work(Track(s, ep)) == Work(s) + EndpointWork(ep)
  {
    assert Track(s, ep).eps[..|s.eps|] == s.eps;
  }

  lemma WorkSettle(s: State, c: nat, reg: Registration)
    requires c < |s.conns| && reg != InFlight
    ensures Work(Settle(s, c, reg)) == Work(s) - ConnWork(s.conns[c])
  {
    ConnsWorkPut(s.conns, c, s.conns[c].(reg := reg));
  }

  lemma WorkAccepted(s: State, c: nat)
    requires Shape(s) && c < |s.conns| && s.conns[c].reg == InFlight
    ensures Work(Accepted(s, c)) < Work(s)
  {
    var (self, other) := (s.conns[c].target, s.conns[c].opener);
    var (taken, dropped) := (Settle(s, c, Taken), Settle(s, c, Dropped));
    WorkSettle(s, c, Taken);
    WorkSettle(s, c, Dropped);
    WorkSettle(s, c, Refused);
    if (self, other) !in s.table {
      if other < self {
        WorkTrack(dropped, NewDial(self, other));
      } else {
        WorkTrack(taken, Endpoint(self, other, Some(c), Serving, [], false));
      }
    } else if self < other {
      var e := s.table[(self, other)];
      WorkPut(taken, e, s.eps[e].(peer := Some(c)));
    }
  }

  lemma WorkSent(s: State, e: nat)
    requires HasPeer(s, e) && s.eps[e].queue != []
    ensures Work(Sent(s, e)) == Work(s)
  {
    var (s', c) := (Sent(s, e), s.eps[e].peer.value);
    EndpointsWorkPut(s.eps, e, s'.eps[e]);
    ConnsWorkPut(s.conns, c, s'.conns[c]);
  }

  lemma WorkRead(s: State, e: nat)
    requires HasPeer(s, e) && Wire(s.conns[s.eps[e].peer.value], s.eps[e].to) != []
    ensures Work(Read(s, e)) == Work(s)
  {
    var (s', c) := (Read(s, e), s.eps[e].peer.value);
    ConnsWorkPut(s.conns, c, s'.conns[c]);
  }

  lemma WorkDialFails(s: State, e: nat)
    requires Shape(s) && e < |s.eps| && s.eps[e].phase == Dialing
    ensures Work(Dialled(Put(s, e, s.eps[e].(flagged := true)), e, NeverSent)) < Work(s)
  {
    var flagged := Put(s, e, s.eps[e].(flagged := true));
    ShapePut(s, e, flagged.eps[e]);
    WorkPut(s, e, flagged.eps[e]);
    WorkDialled(flagged, e, NeverSent);
  }

  /** Every negotiation step uses up work, a new endpoint brings at most six units, nothing else adds any. */
  lemma WorkKept(s: State, s': State, step: Step)
    requires Shape(s) && Next(s, s', step)
    ensures Negotiates(step) ==> Work(s') < Work(s)
    ensures step.Ensure? ==> Work(s') <= Work(s) + 6
    ensures !Negotiates(step) && !step.Ensure? ==> Work(s') == Work(s)
  {
    match step
    case Ensure(a, b) => WorkTrack(s, NewDial(a, b));
    case Enqueue(e, message) => WorkPut(s, e, s'.eps[e]);
    case Connect(e) => WorkDialled(s, e, InFlight);
    case Install(e) => WorkPut(s, e, s'.eps[e]);
    case Wake(e) => WorkPut(s, e, s'.eps[e]);
    case Accept(c) => WorkAccepted(s, c);
    case Send(e) => WorkSent(s, e);
    case Deliver(e) => WorkRead(s, e);
    case DialFails(e) => WorkDialFails(s, e);
    case Flag(e) => WorkPut(s, e, s'.eps[e]);
    case Destroy(e) =>
    case Learn(_) =>
    case Forget(_) =>
  }

  function Negotiations(steps: seq<Step>): nat {
    if steps == [] then 0
    else Negotiations(steps[..|steps| - 1]) + if Negotiates(steps[|steps| - 1]) then 1 else 0
  }

  function Creations(steps: seq<Step>): nat {
    if steps == [] then 0
    else Creations(steps[..|steps| - 1]) + if steps[|steps| - 1].Ensure? then 1 else 0
  }

  /** In every run, failures included, at most six negotiation steps are taken per endpoint that routing creates. */
  lemma {:induction false} NegotiationEnds(run: seq<State>, steps: seq<Step>)
    requires Run(run, steps)
    ensures Negotiations(steps) + Work(run[|steps|]) <= 6 * Creations(steps)
  {
    if steps != [] {
      var n := |steps| - 1;
      NegotiationEnds(run[..n + 1], steps[..n]);
      RunShape(run, steps, n);
      WorkKept(run[n], run[n + 1], steps[n]);
    }
  }
}
