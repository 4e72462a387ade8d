/**
 Node-to-node connection negotiation.  Two routers may dial each other at once; the ids break the tie, so
 that the connection both end up with was opened by the greater node (NodeRouter.cc, node connect filter;
 RemoteEndpoint.cc, sendThreadWithConnect and setPeer; RouteMessage.cc, endpoint creation).

 Endpoints and connections are numbered in the order they are made and are never forgotten, so that the
 threads of an endpoint already untracked can still take steps.
 */
module Negotiation {
  import opened Common

  /** Where an endpoint's send thread is.  Only the greater node installs the connection it dialled. */
  datatype Phase =
    | Dialing
    | Registered(conn: nat)   // greater node: registration sent, about to install the connection
    | Waiting(conn: nat)      // lesser node: registration sent, waiting for the other side to dial back
    | Serving

  datatype Endpoint = Endpoint(at: Id, to: Id, peer: Option<nat>, phase: Phase, queue: seq<nat>, flagged: bool)

  /**
   The registration a dialling node sends first, until the listening node's filter has read it.  A lesser
   node's connection is `Dropped` in favour of one dialled back, or `Refused` when its address is not known.
   */
  datatype Registration = InFlight | Taken | Dropped | Refused | NeverSent

  datatype Conn = Conn(opener: Id, target: Id, reg: Registration, toTarget: seq<nat>, toOpener: seq<nat>)

  type Pair = (Id, Id)

  /**
   `table[(a, b)]` is the endpoint node `a` tracks for node `b`; `knows` holds `(a, b)` when `a` has the
   address of `b`; `routed` and `received` log, per ordered pair, what was queued and what was read.
   */
  datatype State = State(
    eps: seq<Endpoint>, table: map<Pair, nat>, conns: seq<Conn>, knows: set<Pair>,
    routed: map<Pair, seq<nat>>, received: map<Pair, seq<nat>>)

  datatype Step =
    | Ensure(a: Id, b: Id)
    | Enqueue(e: nat, message: nat)
    | Connect(e: nat)
    | Install(e: nat)
    | Wake(e: nat)
    | Accept(c: nat)
    | Send(e: nat)
    | Deliver(e: nat)
    | Learn(p: Pair)
    | Forget(p: Pair)
    | DialFails(e: nat)
    | Flag(e: nat)
    | Destroy(e: nat)

  predicate FailureFree(step: Step) {
    !step.DialFails? && !step.Flag? && !step.Destroy?
  }

  /** The steps that move a connection towards its final state. */
  predicate Negotiates(step: Step) {
    step.Connect? || step.Install? || step.Wake? || step.Accept? || step.DialFails?
  }

  function Log(logs: map<Pair, seq<nat>>, p: Pair): seq<nat> {
    if p in logs then logs[p] else []
  }

  /** What node `from` has written on the connection and the other end has not read. */
  function Wire(c: Conn, from: Id): seq<nat> {
    if c.opener == from then c.toTarget else c.toOpener
  }

  function WithWire(c: Conn, from: Id, wire: seq<nat>): Conn {
    if c.opener == from then c.(toTarget := wire) else c.(toOpener := wire)
  }

  function NewDial(at: Id, to: Id): Endpoint {
    Endpoint(at, to, None, Dialing, [], false)
  }

  function Track(s: State, ep: Endpoint): State {
    s.(eps := s.eps + [ep], table := s.table[(ep.at, ep.to) := |s.eps|])
  }

  function Put(s: State, e: nat, ep: Endpoint): State
    requires e < |s.eps|
  {
    s.(eps := s.eps[e := ep])
  }

  function Dialled(s: State, e: nat, reg: Registration): State
    requires e < |s.eps|
  {
    var ep := s.eps[e];
    var phase := if ep.to < ep.at then Registered(|s.conns|) else Waiting(|s.conns|);
    Put(s, e, ep.(phase := phase)).(conns := s.conns + [Conn(ep.at, ep.to, reg, [], [])])
  }

  function Settle(s: State, c: nat, reg: Registration): State
    requires c < |s.conns|
  {
    s.(conns := s.conns[c := s.conns[c].(reg := reg)])
  }

  /** The node connect filter, run at the connection's target once the registration has been read. */
  function Accepted(s: State, c: nat): State
    requires c < |s.conns|
  {
    var conn := s.conns[c];
    var (self, other) := (conn.target, conn.opener);
    if (self, other) !in s.table then
      if other < self then
        if (self, other) in s.knows then Track(Settle(s, c, Dropped), NewDial(self, other))
        else Settle(s, c, Refused)
      else Track(Settle(s, c, Taken), Endpoint(self, other, Some(c), Serving, [], false))
    else
      if other < self then Settle(s, c, Dropped)
      else
        var e := s.table[(self, other)];
        if e < |s.eps| then Put(Settle(s, c, Taken), e, s.eps[e].(peer := Some(c))) else s
  }

  function Sent(s: State, e: nat): State
    requires HasPeer(s, e) && s.eps[e].queue != []
  {
    var (ep, c) := (s.eps[e], s.eps[e].peer.value);
    Put(s, e, ep.(queue := ep.queue[1..]))
      .(conns := s.conns[c := WithWire(s.conns[c], ep.at, Wire(s.conns[c], ep.at) + [ep.queue[0]])])
  }

  function Read(s: State, e: nat): State
    requires HasPeer(s, e)
    requires Wire(s.conns[s.eps[e].peer.value], s.eps[e].to) != []
  {
    var (ep, c) := (s.eps[e], s.eps[e].peer.value);
    var wire := Wire(s.conns[c], ep.to);
    s.(conns := s.conns[c := WithWire(s.conns[c], ep.to, wire[1..])],
       received := s.received[(ep.to, ep.at) := Log(s.received, (ep.to, ep.at)) + [wire[0]]])
  }

  function Queue(s: State, e: nat, message: nat): State
    requires e < |s.eps|
  {
    var ep := s.eps[e];
    Put(s, e, ep.(queue := ep.queue + [message]))
      .(routed := s.routed[(ep.at, ep.to) := Log(s.routed, (ep.at, ep.to)) + [message]])
  }

  ghost predicate Init(s: State) {
    s.eps == [] && s.table == map[] && s.conns == [] && s.routed == s.received == map[]
  }

  /** The index of an endpoint's peer is always a connection: `Shape` below is an invariant. */
  predicate HasPeer(s: State, e: nat) {
    e < |s.eps| && s.eps[e].peer.Some? && s.eps[e].peer.value < |s.conns|
  }

  ghost predicate Next(s: State, s': State, step: Step) {
    match step
    case Ensure(a, b) =>
      a != b && (a, b) !in s.table && (a, b) in s.knows && s' == Track(s, NewDial(a, b))
    case Enqueue(e, message) =>
      e < |s.eps| && s' == Queue(s, e, message)
    case Connect(e) =>
      e < |s.eps| && s.eps[e].phase == Dialing && s' == Dialled(s, e, InFlight)
    case Install(e) =>
      && e < |s.eps| && s.eps[e].phase.Registered?
      && s' == Put(s, e, s.eps[e].(peer := Some(s.eps[e].phase.conn), phase := Serving))
    case Wake(e) =>
      && e < |s.eps| && s.eps[e].phase.Waiting? && s.eps[e].peer.Some?
      && s' == Put(s, e, s.eps[e].(phase := Serving))
    case Accept(c) =>
      c < |s.conns| && s.conns[c].reg == InFlight && s' == Accepted(s, c)
    case Send(e) =>
      && HasPeer(s, e) && s.eps[e].phase == Serving && s.eps[e].queue != []
      && s' == Sent(s, e)
    case Deliver(e) =>
      && HasPeer(s, e) && Wire(s.conns[s.eps[e].peer.value], s.eps[e].to) != []
      && s' == Read(s, e)
    // sessions come to a node and leave it, and with them the addresses of their nodes
    case Learn(p) => s' == s.(knows := s.knows + {p})
    case Forget(p) => s' == s.(knows := s.knows - {p})
    case DialFails(e) =>
      // the failed connection is still installed by the greater node, after the endpoint is flagged
      && e < |s.eps| && s.eps[e].phase == Dialing
      && s' == Dialled(Put(s, e, s.eps[e].(flagged := true)), e, NeverSent)
    case Flag(e) =>
      e < |s.eps| && s' == Put(s, e, s.eps[e].(flagged := true))
    case Destroy(e) =>
      && e < |s.eps| && s.eps[e].flagged
      && var key := (s.eps[e].at, s.eps[e].to);
         s' == if key in s.table && s.table[key] == e then s.(table := s.table - {key}) else s
  }

  /** The connection between two nodes, seen from either end, was opened by the greater one. */
  predicate FromGreater(c: Conn, at: Id, to: Id) {
    if at < to then c.opener == to && c.target == at else c.opener == at && c.target == to
  }

  ghost predicate EndpointShape(ep: Endpoint, conns: seq<Conn>) {
    && ep.at != ep.to
    && (ep.peer.Some? ==> ep.peer.value < |conns| && FromGreater(conns[ep.peer.value], ep.at, ep.to))
    && (ep.phase.Registered? ==>
          && ep.to < ep.at && ep.phase.conn < |conns|
          && conns[ep.phase.conn].opener == ep.at && conns[ep.phase.conn].target == ep.to)
    && (ep.phase.Waiting? ==>
          && ep.at < ep.to && ep.phase.conn < |conns|
          && conns[ep.phase.conn].opener == ep.at && conns[ep.phase.conn].target == ep.to)
  }

  /** What every run keeps, dial failures and destruction included. */
  ghost predicate Shape(s: State) {
    && (forall p :: p in s.table ==> s.table[p] < |s.eps| && (s.eps[s.table[p]].at, s.eps[s.table[p]].to) == p)
    && (forall e :: 0 <= e < |s.eps| ==> EndpointShape(s.eps[e], s.conns))
    && (forall c :: 0 <= c < |s.conns| ==> s.conns[c].opener != s.conns[c].target)
  }

  lemma ShapeTrack(s: State, ep: Endpoint)
    requires Shape(s) && EndpointShape(ep, s.conns)
    ensures Shape(Track(s, ep))
  {
  }

  lemma ShapePut(s: State, e: nat, ep: Endpoint)
    requires Shape(s) && e < |s.eps| && EndpointShape(ep, s.conns)
    requires ep.at == s.eps[e].at && ep.to == s.eps[e].to
    ensures Shape(Put(s, e, ep))
  {
  }

  /** Connections may be added and may change their registration and their wires, never their ends. */
  ghost predicate SameEnds(conns: seq<Conn>, conns': seq<Conn>) {
    && |conns| <= |conns'|
    && (forall c :: 0 <= c < |conns| ==> conns'[c].opener == conns[c].opener && conns'[c].target == conns[c].target)
    && (forall c :: |conns| <= c < |conns'| ==> conns'[c].opener != conns'[c].target)
  }

  lemma ShapeConns(s: State, conns: seq<Conn>)
    requires Shape(s) && SameEnds(s.conns, conns)
    ensures Shape(s.(conns := conns))
  {
    var s' := s.(conns := conns);
    forall e | 0 <= e < |s'.eps| ensures EndpointShape(s'.eps[e], conns) {
      assert EndpointShape(s.eps[e], s.conns);
    }
    forall c | 0 <= c < |conns| ensures conns[c].opener != conns[c].target {
      if c < |s.conns| { assert s.conns[c].opener != s.conns[c].target; }
    }
  }

  lemma ShapeDialled(s: State, e: nat, reg: Registration)
    requires Shape(s) && e < |s.eps|
    ensures Shape(Dialled(s, e, reg))
  {
    var ep := s.eps[e];
    assert EndpointShape(ep, s.conns);
    var conns := s.conns + [Conn(ep.at, ep.to, reg, [], [])];
    ShapeConns(s, conns);
    ShapePut(s.(conns := conns), e, Dialled(s, e, reg).eps[e]);
  }

  lemma ShapeAccepted(s: State, c: nat)
    requires Shape(s) && c < |s.conns|
    ensures Shape(Accepted(s, c))
  {
    forall reg ensures Shape(Settle(s, c, reg)) { ShapeConns(s, Settle(s, c, reg).conns); }
    var (self, other) := (s.conns[c].target, s.conns[c].opener);
    var (taken, dropped) := (Settle(s, c, Taken), Settle(s, c, Dropped));
    if (self, other) !in s.table {
      if other < self {
        ShapeTrack(dropped, NewDial(self, other));
      } else {
        ShapeTrack(taken, Endpoint(self, other, Some(c), Serving, [], false));
      }
    } else if self < other {
      var e := s.table[(self, other)];
      ShapePut(taken, e, s.eps[e].(peer := Some(c)));
    }
  }

  lemma ShapeSent(s: State, e: nat)
    requires Shape(s) && HasPeer(s, e) && s.eps[e].queue != []
    ensures Shape(Sent(s, e))
  {
    var s' := Sent(s, e);
    assert EndpointShape(s.eps[e], s.conns);
    ShapePut(s, e, s'.eps[e]);
    ShapeConns(Put(s, e, s'.eps[e]), s'.conns);
  }

  lemma ShapeDialFails(s: State, e: nat)
    requires Shape(s) && e < |s.eps|
    ensures Shape(Dialled(Put(s, e, s.eps[e].(flagged := true)), e, NeverSent))
  {
    var flagged := Put(s, e, s.eps[e].(flagged := true));
    assert EndpointShape(s.eps[e], s.conns);
    ShapePut(s, e, flagged.eps[e]);
    ShapeDialled(flagged, e, NeverSent);
  }

  lemma ShapeKept(s: State, s': State, step: Step)
    requires Shape(s) && Next(s, s', step)
    ensures Shape(s') && (!step.Learn? && !step.Forget? ==> s'.knows == s.knows)
  {
    match step
    case Ensure(a, b) => ShapeTrack(s, NewDial(a, b));
    case Enqueue(e, message) => ShapePut(s, e, s'.eps[e]);
    case Connect(e) => ShapeDialled(s, e, InFlight);
    case Install(e) => ShapePut(s, e, s'.eps[e]);
    case Wake(e) => ShapePut(s, e, s'.eps[e]);
    case Accept(c) => ShapeAccepted(s, c);
    case Send(e) => ShapeSent(s, e);
    case Deliver(e) => ShapeConns(s, s'.conns);
    case DialFails(e) => ShapeDialFails(s, e);
    case Flag(e) => ShapePut(s, e, s'.eps[e]);
    case Destroy(e) =>
    case Learn(_) =>
    case Forget(_) =>
  }

  ghost predicate Run(run: seq<State>, steps: seq<Step>) {
    && |run| == |steps| + 1 && Init(run[0])
    && forall i :: 0 <= i < |steps| ==> Next(run[i], run[i + 1], steps[i])
  }

  lemma {:induction false} RunShape(run: seq<State>, steps: seq<Step>, k: nat)
    requires Run(run, steps) && k < |run|
    ensures Shape(run[k])
  {
    if k > 0 {
      RunShape(run, steps, k - 1);
      ShapeKept(run[k - 1], run[k], steps[k - 1]);
    }
  }

  /** In every run, failed dials and destroyed endpoints included, an installed peer was opened by the greater node. */
  lemma PeersComeFromGreater(run: seq<State>, steps: seq<Step>, k: nat, e: nat)
    requires Run(run, steps) && k < |run| && e < |run[k].eps| && run[k].eps[e].peer.Some?
    ensures var (ep, conns) := (run[k].eps[e], run[k].conns);
            && ep.peer.value < |conns|
            && conns[ep.peer.value].opener == (if ep.at < ep.to then ep.to else ep.at)
            && conns[ep.peer.value].target == (if ep.at < ep.to then ep.at else ep.to)
  {
    RunShape(run, steps, k);
    assert EndpointShape(run[k].eps[e], run[k].conns);
  }

  // ---------------------------------------------------------------------------------------------
  // Failure-free runs.

  ghost predicate EndpointClean(s: State, e: nat)
    requires Shape(s) && e < |s.eps|
  {
    var ep := s.eps[e];
    && (ep.at, ep.to) in s.table && s.table[(ep.at, ep.to)] == e
    && (ep.phase == Serving ==> ep.peer.Some?)
    && (ep.to < ep.at && ep.peer.Some? ==> ep.phase == Serving)
    && (ep.peer.Some? ==> ep.at < ep.to ==> s.conns[ep.peer.value].reg == Taken)
  }

  ghost predicate Holds(s: State, p: Pair, c: nat)
    requires Shape(s)
  {
    p in s.table && s.eps[s.table[p]].peer == Some(c)
  }

  ghost predicate ConnClean(s: State, c: nat)
    requires Shape(s) && c < |s.conns|
  {
    var conn := s.conns[c];
    var (there, back) := ((conn.opener, conn.target), (conn.target, conn.opener));
    && there in s.table
    && (conn.target < conn.opener ==>
          && (s.eps[s.table[there]].phase == Registered(c) || Holds(s, there, c))
          && (conn.reg == InFlight || (conn.reg == Taken && Holds(s, back, c))))
    && (conn.opener < conn.target ==>
          conn.reg == InFlight || (conn.reg == Dropped && back in s.table) || conn.reg == Refused)
    && (conn.toTarget != [] ==> Holds(s, there, c))
    && (conn.toOpener != [] ==> Holds(s, back, c))
  }

  ghost predicate Clean(s: State) {
    && Shape(s)
    && (forall e :: 0 <= e < |s.eps| ==> EndpointClean(s, e))
    && (forall c :: 0 <= c < |s.conns| ==> ConnClean(s, c))
  }

  /** The greater node dials a lesser one at most once. */
  lemma DialledOnce(s: State, c: nat, d: nat)
    requires Clean(s) && c < |s.conns| && d < |s.conns|
    requires s.conns[c].target < s.conns[c].opener
    requires s.conns[c].opener == s.conns[d].opener && s.conns[c].target == s.conns[d].target
    ensures c == d
  {
    assert ConnClean(s, c) && ConnClean(s, d);
    var e := s.table[(s.conns[c].opener, s.conns[c].target)];
    assert EndpointClean(s, e);
  }

  /** `setPeer` never finds a peer already set. */
  lemma SetPeerFindsNone(s: State, c: nat)
    requires Clean(s) && c < |s.conns| && s.conns[c].reg == InFlight && s.conns[c].target < s.conns[c].opener
    requires (s.conns[c].target, s.conns[c].opener) in s.table
    ensures s.eps[s.table[(s.conns[c].target, s.conns[c].opener)]].peer == None
  {
    var e := s.table[(s.conns[c].target, s.conns[c].opener)];
    assert EndpointShape(s.eps[e], s.conns) && EndpointClean(s, e);
    if s.eps[e].peer.Some? {
      DialledOnce(s, c, s.eps[e].peer.value);
    }
  }

  lemma CleanTrack(s: State, ep: Endpoint)
    requires Clean(s) && EndpointShape(ep, s.conns)
    requires (ep.at, ep.to) !in s.table && ep == NewDial(ep.at, ep.to)
    ensures Clean(Track(s, ep))
  {
    var s' := Track(s, ep);
    ShapeTrack(s, ep);
    forall e | 0 <= e < |s'.eps| ensures EndpointClean(s', e) {
      if e < |s.eps| { assert EndpointClean(s, e); }
    }
    forall c | 0 <= c < |s'.conns| ensures ConnClean(s', c) {
      assert ConnClean(s, c);
    }
  }

  lemma CleanConnect(s: State, e: nat)
    requires Clean(s) && e < |s.eps| && s.eps[e].phase == Dialing
    ensures Clean(Dialled(s, e, InFlight))
  {
    var s' := Dialled(s, e, InFlight);
    ShapeDialled(s, e, InFlight);
    assert EndpointShape(s.eps[e], s.conns) && EndpointClean(s, e);
    forall f | 0 <= f < |s'.eps| ensures EndpointClean(s', f) {
      assert EndpointShape(s.eps[f], s.conns) && EndpointClean(s, f);
    }
    forall c | 0 <= c < |s'.conns| ensures ConnClean(s', c) {
      if c < |s.conns| { assert ConnClean(s, c); }
    }
  }

  /** Steps that leave an endpoint's peer alone and touch no connection. */
  lemma CleanPut(s: State, e: nat, ep: Endpoint)
    requires Clean(s) && e < |s.eps|
    requires ep.at == s.eps[e].at && ep.to == s.eps[e].to && ep.peer == s.eps[e].peer
    requires ep.phase == s.eps[e].phase || (s.eps[e].phase.Waiting? && ep.phase == Serving && ep.peer.Some?)
    ensures Clean(Put(s, e, ep))
  {
    var s' := Put(s, e, ep);
    assert EndpointShape(s.eps[e], s.conns) && EndpointClean(s, e);
    ShapePut(s, e, ep);
    forall f | 0 <= f < |s'.eps| ensures EndpointClean(s', f) {
      assert EndpointClean(s, f);
    }
    forall c | 0 <= c < |s'.conns| ensures ConnClean(s', c) {
      assert ConnClean(s, c);
    }
  }

  lemma CleanInstall(s: State, e: nat)
    requires Clean(s) && e < |s.eps| && s.eps[e].phase.Registered?
    ensures Clean(Put(s, e, s.eps[e].(peer := Some(s.eps[e].phase.conn), phase := Serving)))
  {
    var ep := s.eps[e];
    var s' := Put(s, e, ep.(peer := Some(ep.phase.conn), phase := Serving));
    assert EndpointShape(ep, s.conns) && EndpointClean(s, e);
    ShapePut(s, e, s'.eps[e]);
    forall f | 0 <= f < |s'.eps| ensures EndpointClean(s', f) {
      assert EndpointClean(s, f);
    }
    forall c | 0 <= c < |s'.conns| ensures ConnClean(s', c) {
      assert ConnClean(s, c);
    }
  }

  lemma CleanDrop(s: State, c: nat, reg: Registration)
    requires Clean(s) && c < |s.conns| && s.conns[c].reg == InFlight && s.conns[c].opener < s.conns[c].target
    requires reg == Refused || (reg == Dropped && (s.conns[c].target, s.conns[c].opener) in s.table)
    ensures Clean(Settle(s, c, reg))
  {
    var s' := Settle(s, c, reg);
    ShapeConns(s, s'.conns);
    forall e | 0 <= e < |s'.eps| ensures EndpointClean(s', e) {
      assert EndpointShape(s.eps[e], s.conns) && EndpointClean(s, e);
    }
    forall d | 0 <= d < |s'.conns| ensures ConnClean(s', d) {
      assert ConnClean(s, d);
    }
  }

  lemma CleanTakeNew(s: State, c: nat)
    requires Clean(s) && c < |s.conns| && s.conns[c].reg == InFlight && s.conns[c].target < s.conns[c].opener
    requires (s.conns[c].target, s.conns[c].opener) !in s.table
    ensures Clean(Accepted(s, c))
  {
    var s' := Accepted(s, c);
    ShapeAccepted(s, c);
    assert ConnClean(s, c);
    forall e | 0 <= e < |s'.eps| ensures EndpointClean(s', e) {
      if e < |s.eps| { assert EndpointShape(s.eps[e], s.conns) && EndpointClean(s, e); }
    }
    forall d | 0 <= d < |s'.conns| ensures ConnClean(s', d) {
      assert ConnClean(s, d);
    }
  }

  lemma TakeExistingEndpoint(s: State, c: nat, e: nat)
    requires Clean(s) && c < |s.conns| && s.conns[c].reg == InFlight && s.conns[c].target < s.conns[c].opener
    requires (s.conns[c].target, s.conns[c].opener) in s.table && e < |s.eps| && Shape(Accepted(s, c))
    ensures EndpointClean(Accepted(s, c), e)
  {
    assert EndpointShape(s.eps[e], s.conns) && EndpointClean(s, e);
  }

  lemma TakeExistingConn(s: State, c: nat, d: nat)
    requires Clean(s) && c < |s.conns| && s.conns[c].reg == InFlight && s.conns[c].target < s.conns[c].opener
    requires (s.conns[c].target, s.conns[c].opener) in s.table && d < |s.conns| && Shape(Accepted(s, c))
    ensures ConnClean(Accepted(s, c), d)
  {
    SetPeerFindsNone(s, c);
    assert ConnClean(s, c) && ConnClean(s, d);
  }

  lemma CleanTakeExisting(s: State, c: nat)
    requires Clean(s) && c < |s.conns| && s.conns[c].reg == InFlight && s.conns[c].target < s.conns[c].opener
    requires (s.conns[c].target, s.conns[c].opener) in s.table
    ensures Clean(Accepted(s, c))
  {
    var s' := Accepted(s, c);
    ShapeAccepted(s, c);
    forall e | 0 <= e < |s'.eps| ensures EndpointClean(s', e) { TakeExistingEndpoint(s, c, e); }
    forall d | 0 <= d < |s'.conns| ensures ConnClean(s', d) { TakeExistingConn(s, c, d); }
  }

  lemma CleanAccept(s: State, c: nat)
    requires Clean(s) && c < |s.conns| && s.conns[c].reg == InFlight
    ensures Clean(Accepted(s, c))
  {
    var (self, other) := (s.conns[c].target, s.conns[c].opener);
    if self < other {
      if (self, other) in s.table { CleanTakeExisting(s, c); } else { CleanTakeNew(s, c); }
    } else if (self, other) in s.table {
      CleanDrop(s, c, Dropped);
    } else if (self, other) !in s.knows {
      CleanDrop(s, c, Refused);
    } else {
      // the reciprocal dial is tracked under the same lock that drops the incoming connection
      CleanTrack(s, NewDial(self, other));
      CleanDrop(Track(s, NewDial(self, other)), c, Dropped);
    }
  }

  /** Writing and reading move messages on a connection both ends may hold. */
  lemma CleanWire(s: State, c: nat, from: Id, wire: seq<nat>)
    requires Clean(s) && c < |s.conns|
    requires from == s.conns[c].opener || from == s.conns[c].target
    requires wire == [] || Wire(s.conns[c], from) != []
          || Holds(s, (from, if from == s.conns[c].opener then s.conns[c].target else s.conns[c].opener), c)
    ensures Clean(s.(conns := s.conns[c := WithWire(s.conns[c], from, wire)]))
  {
    var s' := s.(conns := s.conns[c := WithWire(s.conns[c], from, wire)]);
    ShapeConns(s, s'.conns);
    forall e | 0 <= e < |s'.eps| ensures EndpointClean(s', e) {
      assert EndpointShape(s.eps[e], s.conns) && EndpointClean(s, e);
    }
    forall d | 0 <= d < |s'.conns| ensures ConnClean(s', d) {
      assert ConnClean(s, d);
    }
  }

  lemma CleanLogs(s: State, routed: map<Pair, seq<nat>>, received: map<Pair, seq<nat>>)
    requires Clean(s)
    ensures Clean(s.(routed := routed, received := received))
  {
    var s' := s.(routed := routed, received := received);
    forall e | 0 <= e < |s'.eps| ensures EndpointClean(s', e) { assert EndpointClean(s, e); }
    forall c | 0 <= c < |s'.conns| ensures ConnClean(s', c) { assert ConnClean(s, c); }
  }

  lemma CleanSend(s: State, e: nat)
    requires Clean(s) && HasPeer(s, e) && s.eps[e].queue != []
    ensures Clean(Sent(s, e))
  {
    var (ep, c) := (s.eps[e], s.eps[e].peer.value);
    assert EndpointShape(ep, s.conns) && EndpointClean(s, e);
    CleanPut(s, e, ep.(queue := ep.queue[1..]));
    CleanWire(Put(s, e, ep.(queue := ep.queue[1..])), c, ep.at, Wire(s.conns[c], ep.at) + [ep.queue[0]]);
  }

  lemma CleanRead(s: State, e: nat)
    requires Clean(s) && HasPeer(s, e) && Wire(s.conns[s.eps[e].peer.value], s.eps[e].to) != []
    ensures Clean(Read(s, e))
  {
    var (ep, c) := (s.eps[e], s.eps[e].peer.value);
    assert EndpointShape(ep, s.conns);
    var s' := s.(conns := s.conns[c := WithWire(s.conns[c], ep.to, Wire(s.conns[c], ep.to)[1..])]);
    CleanWire(s, c, ep.to, Wire(s.conns[c], ep.to)[1..]);
    CleanLogs(s', s'.routed, Read(s, e).received);
  }

  lemma CleanKnows(s: State, knows: set<Pair>)
    requires Clean(s)
    ensures Clean(s.(knows := knows))
  {
    var s' := s.(knows := knows);
    forall e | 0 <= e < |s'.eps| ensures EndpointClean(s', e) { assert EndpointClean(s, e); }
    forall c | 0 <= c < |s'.conns| ensures ConnClean(s', c) { assert ConnClean(s, c); }
  }

  /** Every failure-free step keeps the invariant, and every tracked endpoint. */
  lemma CleanKept(s: State, s': State, step: Step)
    requires Clean(s) && Next(s, s', step) && FailureFree(step)
    ensures Clean(s')
    ensures forall p :: p in s.table ==> p in s'.table && s'.table[p] == s.table[p]
  {
    match step
    case Ensure(a, b) => CleanTrack(s, NewDial(a, b));
    case Enqueue(e, message) =>
      CleanPut(s, e, s'.eps[e]);
      CleanLogs(Put(s, e, s'.eps[e]), s'.routed, s'.received);
    case Connect(e) => CleanConnect(s, e);
    case Install(e) => CleanInstall(s, e);
    case Wake(e) => CleanPut(s, e, s'.eps[e]);
    case Accept(c) => CleanAccept(s, c);
    case Send(e) => CleanSend(s, e);
    case Deliver(e) => CleanRead(s, e);
    case Learn(_) => CleanKnows(s, s'.knows);
    case Forget(_) => CleanKnows(s, s'.knows);
  }

  ghost predicate CleanRun(run: seq<State>, steps: seq<Step>) {
    Run(run, steps) && forall i :: 0 <= i < |steps| ==> FailureFree(steps[i])
  }

  lemma {:induction false} CleanRunIsClean(run: seq<State>, steps: seq<Step>, k: nat)
    requires CleanRun(run, steps) && k < |run|
    ensures Clean(run[k])
  {
    if k > 0 {
      CleanRunIsClean(run, steps, k - 1);
      CleanKept(run[k - 1], run[k], steps[k - 1]);
    }
  }

  /** In failure-free runs a tracked endpoint is never replaced. */
  lemma {:induction false} TrackedForGood(run: seq<State>, steps: seq<Step>, i: nat, k: nat, p: Pair)
    requires CleanRun(run, steps) && i <= k < |run| && p in run[i].table
    ensures p in run[k].table && run[k].table[p] == run[i].table[p]
    decreases k
  {
    if i < k {
      var before := k - 1;
      TrackedForGood(run, steps, i, before, p);
      CleanRunIsClean(run, steps, before);
      CleanKept(run[before], run[k], steps[before]);
    }
  }

  /**
   In failure-free runs the greater node dials a lesser one at most once, and `setPeer` finds no peer: at
   most one connection ever has the greater node as its opener, and until it is accepted the lesser
   node's endpoint, if there is one, has no peer.
   */
  lemma GreaterDialsOnce(run: seq<State>, steps: seq<Step>, k: nat, c: nat, d: nat)
    requires CleanRun(run, steps) && k < |run| && c < |run[k].conns| && d < |run[k].conns|
    requires var (x, y) := (run[k].conns[c], run[k].conns[d]);
             x.opener == y.opener && x.target == y.target && x.target < x.opener
    ensures c == d
    ensures var (s, back) := (run[k], (run[k].conns[c].target, run[k].conns[c].opener));
            Shape(s) && (s.conns[c].reg == InFlight && back in s.table ==> s.eps[s.table[back]].peer == None)
  {
    CleanRunIsClean(run, steps, k);
    DialledOnce(run[k], c, d);
    if run[k].conns[c].reg == InFlight && (run[k].conns[c].target, run[k].conns[c].opener) in run[k].table {
      SetPeerFindsNone(run[k], c);
    }
  }

  /** Destroying an endpoint takes it, and no other, out of the table. */
  lemma DestroyUntracks(s: State, s': State, e: nat)
    requires Shape(s) && Next(s, s', Destroy(e))
    ensures s.eps[e].flagged && s'.eps == s.eps
    ensures forall p :: p in s'.table <==> p in s.table && s.table[p] != e
    ensures forall p :: p in s'.table ==> s'.table[p] == s.table[p]
  {
  }

  /** What was last said about an address: learnt, forgotten, or nothing. */
  function LastWord(steps: seq<Step>, k: nat, p: Pair): Option<bool>
    requires k <= |steps|
  {
    if k == 0 then None
    else if steps[k - 1] == Learn(p) then Some(true)
    else if steps[k - 1] == Forget(p) then Some(false)
    else LastWord(steps, k - 1, p)
  }

  /** A node knows an address if it learnt it last, or knew it from the start and never forgot it. */
  lemma {:induction false} KnowsIsHistory(run: seq<State>, steps: seq<Step>, k: nat, p: Pair)
    requires Run(run, steps) && k < |run|
    ensures p in run[k].knows <==>
            match LastWord(steps, k, p) case Some(known) => known case None => p in run[0].knows
  {
    if k > 0 {
      var j := k - 1;
      KnowsIsHistory(run, steps, j, p);
      RunShape(run, steps, j);
      ShapeKept(run[j], run[k], steps[j]);
      assert Next(run[j], run[j + 1], steps[j]);
    }
  }

  predicate Flags(step: Step, e: nat) {
    step == Flag(e) || step == DialFails(e)
  }

  lemma AcceptFlagsNothing(s: State, c: nat, e: nat)
    requires Shape(s) && c < |s.conns| && e < |Accepted(s, c).eps|
    ensures |s.eps| <= |Accepted(s, c).eps|
    ensures Accepted(s, c).eps[e].flagged <==> e < |s.eps| && s.eps[e].flagged
  {
  }

  lemma FlagsStep(s: State, s': State, step: Step, e: nat)
    requires Shape(s) && Next(s, s', step) && e < |s'.eps|
    ensures s'.eps[e].flagged <==> (e < |s.eps| && s.eps[e].flagged) || Flags(step, e)
  {
    if step.Accept? { AcceptFlagsNothing(s, step.c, e); }
  }

  lemma FlagsOnlyItsOwn(s: State, s': State, step: Step, e: nat)
    requires Shape(s) && Next(s, s', step) && |s'.eps| <= e
    ensures |s.eps| <= e && !Flags(step, e)
  {
    if step.Accept? {
      EndpointsStay(s, step.c);
    } else {
      assert |s.eps| <= |s'.eps|;
    }
  }

  lemma EndpointsStay(s: State, c: nat)
    requires Shape(s) && c < |s.conns|
    ensures |s.eps| <= |Accepted(s, c).eps|
  {
  }

  lemma {:induction false} NoFlagBefore(run: seq<State>, steps: seq<Step>, k: nat, e: nat)
    requires Run(run, steps) && k < |run| && |run[k].eps| <= e
    ensures forall j :: 0 <= j < k ==> !Flags(steps[j], e)
  {
    if k > 0 {
      var j := k - 1;
      RunShape(run, steps, j);
      assert Next(run[j], run[j + 1], steps[j]);
      FlagsOnlyItsOwn(run[j], run[k], steps[j], e);
      NoFlagBefore(run, steps, j, e);
    }
  }

  /** An endpoint is flagged for destruction if and only if it was asked for, or its dial failed. */
  lemma {:induction false} FlaggedIsHistory(run: seq<State>, steps: seq<Step>, k: nat, e: nat)
    requires Run(run, steps) && k < |run| && e < |run[k].eps|
    ensures run[k].eps[e].flagged <==> exists j :: 0 <= j < k && Flags(steps[j], e)
  {
    if k > 0 {
      var j := k - 1;
      RunShape(run, steps, j);
      assert Next(run[j], run[j + 1], steps[j]);
      FlagsStep(run[j], run[k], steps[j], e);
      if e < |run[j].eps| {
        FlaggedIsHistory(run, steps, j, e);
      } else {
        NoFlagBefore(run, steps, j, e);
      }
    }
  }
}
