/**
 Node traffic over `Negotiation`: in failure-free runs nothing is lost or overtaken, and in every run, with dials
 that fail and endpoints that are destroyed, nothing is read twice or invented.
 */
module NegotiationTraffic {
  import opened Common
  import opened Negotiation

  ghost function OnWire(s: State, p: Pair): seq<nat>
    requires Shape(s) && p in s.table
  {
    var ep := s.eps[s.table[p]];
    assert EndpointShape(ep, s.conns);
    if ep.peer.Some? then Wire(s.conns[ep.peer.value], ep.at) else []
  }

  /** Read at the far end, then on the wire, then queued: together what was routed, in order. */
  ghost predicate Conserved(s: State, p: Pair)
    requires Shape(s)
  {
    if p in s.table then
      Log(s.routed, p) == Log(s.received, p) + OnWire(s, p) + s.eps[s.table[p]].queue
    else Log(s.routed, p) == [] && Log(s.received, p) == []
  }

  lemma NothingOnNewWire(s: State, p: Pair, c: nat)
    requires Clean(s) && c < |s.conns| && FromGreater(s.conns[c], p.0, p.1) && p.0 != p.1 && !Holds(s, p, c)
    ensures Wire(s.conns[c], p.0) == []
  {
    assert ConnClean(s, c);
  }

  /** A step that logs nothing and leaves every queue and everything on a wire where it was. */
  lemma ConservedFrame(s: State, s': State, p: Pair)
    requires Shape(s) && Conserved(s, p) && Shape(s')
    requires s'.routed == s.routed && s'.received == s.received
    requires p in s'.table ==> s'.eps[s'.table[p]].queue == if p in s.table then s.eps[s.table[p]].queue else []
    requires p in s'.table ==> OnWire(s', p) == if p in s.table then OnWire(s, p) else []
    requires p in s.table ==> p in s'.table
    ensures Conserved(s', p)
  {
  }

  lemma TakenKeepsOthers(s: State, c: nat, p: Pair)
    requires Shape(s) && c < |s.conns| && s.conns[c].target < s.conns[c].opener && Shape(Accepted(s, c))
    requires p in s.table && p != (s.conns[c].target, s.conns[c].opener)
    ensures var (s', e) := (Accepted(s, c), s.table[p]); p in s'.table && s'.table[p] == e && s'.eps[e] == s.eps[e]
    ensures OnWire(Accepted(s, c), p) == OnWire(s, p)
  {
    assert EndpointShape(s.eps[s.table[p]], s.conns);
  }

  lemma TakenWireIsNew(s: State, c: nat)
    requires Clean(s) && c < |s.conns| && s.conns[c].reg == InFlight && s.conns[c].target < s.conns[c].opener
    requires Shape(Accepted(s, c))
    ensures var (s', p) := (Accepted(s, c), (s.conns[c].target, s.conns[c].opener));
            && p in s'.table && OnWire(s', p) == []
            && s'.eps[s'.table[p]].queue == (if p in s.table then s.eps[s.table[p]].queue else [])
            && (p in s.table ==> OnWire(s, p) == [])
  {
    var p := (s.conns[c].target, s.conns[c].opener);
    if p in s.table { SetPeerFindsNone(s, c); }
    NothingOnNewWire(s, p, c);
  }

  lemma ConservedTaken(s: State, c: nat, p: Pair)
    requires Clean(s) && Conserved(s, p) && c < |s.conns| && s.conns[c].reg == InFlight
    requires s.conns[c].target < s.conns[c].opener
    ensures Shape(Accepted(s, c)) && Conserved(Accepted(s, c), p)
  {
    ShapeAccepted(s, c);
    if p == (s.conns[c].target, s.conns[c].opener) {
      TakenWireIsNew(s, c);
    } else if p in s.table {
      TakenKeepsOthers(s, c, p);
    }
    ConservedFrame(s, Accepted(s, c), p);
  }

  lemma ConservedDropped(s: State, c: nat, p: Pair)
    requires Clean(s) && Conserved(s, p) && c < |s.conns| && s.conns[c].reg == InFlight
    requires s.conns[c].opener < s.conns[c].target
    ensures Shape(Accepted(s, c)) && Conserved(Accepted(s, c), p)
  {
    ShapeAccepted(s, c);
    var s' := Accepted(s, c);
    if p in s.table {
      DroppedKeepsWire(s, c, p);
    }
    ConservedFrame(s, s', p);
  }

  lemma DroppedKeepsWire(s: State, c: nat, p: Pair)
    requires Shape(s) && c < |s.conns| && s.conns[c].opener < s.conns[c].target && p in s.table && Shape(Accepted(s, c))
    ensures var (s', e) := (Accepted(s, c), s.table[p]); p in s'.table && s'.table[p] == e && s'.eps[e] == s.eps[e]
    ensures OnWire(Accepted(s, c), p) == OnWire(s, p)
  {
    assert EndpointShape(s.eps[s.table[p]], s.conns);
  }

  lemma ConservedInstall(s: State, e: nat, p: Pair)
    requires Clean(s) && Conserved(s, p) && e < |s.eps| && s.eps[e].phase.Registered?
    ensures var s' := Put(s, e, s.eps[e].(peer := Some(s.eps[e].phase.conn), phase := Serving));
            Shape(s') && Conserved(s', p)
  {
    var ep := s.eps[e];
    var s' := Put(s, e, ep.(peer := Some(ep.phase.conn), phase := Serving));
    CleanInstall(s, e);
    assert EndpointShape(ep, s.conns) && EndpointClean(s, e);
    NothingOnNewWire(s, (ep.at, ep.to), ep.phase.conn);
    if p in s.table && s.table[p] != e {
      assert EndpointShape(s.eps[s.table[p]], s.conns);
      assert OnWire(s', p) == OnWire(s, p);
    }
    ConservedFrame(s, s', p);
  }

  lemma ConservedConnect(s: State, e: nat, p: Pair)
    requires Clean(s) && Conserved(s, p) && e < |s.eps| && s.eps[e].phase == Dialing
    ensures Shape(Dialled(s, e, InFlight)) && Conserved(Dialled(s, e, InFlight), p)
  {
    CleanConnect(s, e);
    if p in s.table {
      assert EndpointShape(s.eps[s.table[p]], s.conns);
      assert OnWire(Dialled(s, e, InFlight), p) == OnWire(s, p);
    }
    ConservedFrame(s, Dialled(s, e, InFlight), p);
  }

  lemma ConservedQueue(s: State, e: nat, message: nat, p: Pair)
    requires Clean(s) && Conserved(s, p) && e < |s.eps|
    ensures Shape(Queue(s, e, message)) && Conserved(Queue(s, e, message), p)
  {
    var s' := Queue(s, e, message);
    ShapePut(s, e, s'.eps[e]);
    assert EndpointClean(s, e);
    if p in s.table {
      assert EndpointShape(s.eps[s.table[p]], s.conns);
      assert OnWire(s', p) == OnWire(s, p);
    }
  }

  lemma ConservedWake(s: State, e: nat, p: Pair)
    requires Clean(s) && Conserved(s, p) && e < |s.eps| && s.eps[e].phase.Waiting? && s.eps[e].peer.Some?
    ensures var s' := Put(s, e, s.eps[e].(phase := Serving)); Shape(s') && Conserved(s', p)
  {
    var s' := Put(s, e, s.eps[e].(phase := Serving));
    ShapePut(s, e, s'.eps[e]);
    if p in s.table {
      assert EndpointShape(s.eps[s.table[p]], s.conns);
      assert OnWire(s', p) == OnWire(s, p);
    }
    ConservedFrame(s, s', p);
  }

  lemma ConservedSend(s: State, e: nat, p: Pair)
    requires Clean(s) && Conserved(s, p) && HasPeer(s, e) && s.eps[e].queue != []
    ensures Shape(Sent(s, e)) && Conserved(Sent(s, e), p)
  {
    CleanSend(s, e);
    assert EndpointShape(s.eps[e], s.conns) && EndpointClean(s, e);
    if p in s.table {
      var f := s.table[p];
      assert EndpointShape(s.eps[f], s.conns) && EndpointClean(s, f);
      var (ep, ep') := (s.eps[f], Sent(s, e).eps[f]);
      if f == e {
        assert OnWire(Sent(s, e), p) == OnWire(s, p) + [ep.queue[0]];
        assert ep.queue == [ep.queue[0]] + ep'.queue;
      } else {
        assert OnWire(Sent(s, e), p) == OnWire(s, p);
      }
    }
  }

  lemma ReadOther(s: State, e: nat, p: Pair)
    requires Shape(s) && HasPeer(s, e) && Wire(s.conns[s.eps[e].peer.value], s.eps[e].to) != []
    requires p in s.table && p != (s.eps[e].to, s.eps[e].at) && Shape(Read(s, e))
    ensures OnWire(Read(s, e), p) == OnWire(s, p)
  {
    assert EndpointShape(s.eps[e], s.conns) && EndpointShape(s.eps[s.table[p]], s.conns);
  }

  lemma ReadOwn(s: State, e: nat)
    requires Clean(s) && HasPeer(s, e) && Wire(s.conns[s.eps[e].peer.value], s.eps[e].to) != []
    requires Shape(Read(s, e))
    ensures var (p, wire) := ((s.eps[e].to, s.eps[e].at), Wire(s.conns[s.eps[e].peer.value], s.eps[e].to));
            p in s.table && OnWire(s, p) == wire && OnWire(Read(s, e), p) == wire[1..]
  {
    var (ep, c) := (s.eps[e], s.eps[e].peer.value);
    assert EndpointShape(ep, s.conns) && ConnClean(s, c);
    assert Holds(s, (ep.to, ep.at), c);
  }

  lemma ConservedRead(s: State, e: nat, p: Pair)
    requires Clean(s) && Conserved(s, p)
    requires HasPeer(s, e) && Wire(s.conns[s.eps[e].peer.value], s.eps[e].to) != []
    ensures Shape(Read(s, e)) && Conserved(Read(s, e), p)
  {
    CleanRead(s, e);
    var wire := Wire(s.conns[s.eps[e].peer.value], s.eps[e].to);
    var s' := Read(s, e);
    ReadOwn(s, e);
    if p == (s.eps[e].to, s.eps[e].at) {
      assert Log(s'.received, p) + wire[1..] == Log(s.received, p) + wire;
    } else {
      assert Log(s'.received, p) == Log(s.received, p);
      if p in s.table { ReadOther(s, e, p); }
    }
  }

  lemma ConservedKnows(s: State, knows: set<Pair>, p: Pair)
    requires Clean(s) && Conserved(s, p)
    ensures Shape(s.(knows := knows)) && Conserved(s.(knows := knows), p)
  {
    if p in s.table {
      assert EndpointShape(s.eps[s.table[p]], s.conns);
      assert OnWire(s.(knows := knows), p) == OnWire(s, p);
    }
  }

  lemma ConservedKept(s: State, s': State, step: Step, p: Pair)
    requires Clean(s) && Next(s, s', step) && FailureFree(step) && Conserved(s, p)
    ensures Shape(s') && Conserved(s', p)
  {
    match step
    case Ensure(a, b) =>
      ShapeTrack(s, NewDial(a, b));
      if p in s.table { assert OnWire(s', p) == OnWire(s, p); }
      ConservedFrame(s, s', p);
    case Enqueue(e, message) => ConservedQueue(s, e, message, p);
    case Connect(e) => ConservedConnect(s, e, p);
    case Install(e) => ConservedInstall(s, e, p);
    case Wake(e) => ConservedWake(s, e, p);
    case Accept(c) =>
      if s.conns[c].opener < s.conns[c].target { ConservedDropped(s, c, p); } else { ConservedTaken(s, c, p); }
    case Send(e) => ConservedSend(s, e, p);
    case Deliver(e) => ConservedRead(s, e, p);
    case Learn(_) => ConservedKnows(s, s'.knows, p);
    case Forget(_) => ConservedKnows(s, s'.knows, p);
  }

  lemma {:induction false} CleanRunKeeps(run: seq<State>, steps: seq<Step>, k: nat, p: Pair)
    requires CleanRun(run, steps) && k < |run|
    ensures Clean(run[k]) && Conserved(run[k], p)
  {
    if k > 0 {
      CleanRunKeeps(run, steps, k - 1, p);
      CleanKept(run[k - 1], run[k], steps[k - 1]);
      ConservedKept(run[k - 1], run[k], steps[k - 1], p);
    }
  }

  // ---------------------------------------------------------------------------------------------
  // What was routed and read, read off the steps taken.

  /** A message queued to an endpoint is the last in its queue; no other endpoint's queue is touched. */
  lemma EnqueueQueues(s: State, s': State, e: nat, message: nat)
    requires Next(s, s', Enqueue(e, message))
    ensures e < |s.eps| == |s'.eps| && s'.eps[e].queue == s.eps[e].queue + [message]
    ensures forall f :: 0 <= f < |s.eps| && f != e ==> s'.eps[f] == s.eps[f]
  {
  }

  /** What a step routes from `p.0` to `p.1`. */
  function RoutedBy(s: State, step: Step, p: Pair): seq<nat> {
    if step.Enqueue? && step.e < |s.eps| && (s.eps[step.e].at, s.eps[step.e].to) == p then [step.message] else []
  }

  /** What a step reads at `p.1` of what `p.0` wrote: the first message on the wire of the endpoint's connection. */
  function ReadBy(s: State, step: Step, p: Pair): seq<nat> {
    if step.Deliver? && HasPeer(s, step.e) && (s.eps[step.e].to, s.eps[step.e].at) == p then
      var wire := Wire(s.conns[s.eps[step.e].peer.value], s.eps[step.e].to);
      if wire == [] then [] else [wire[0]]
    else []
  }

  function Routed(run: seq<State>, steps: seq<Step>, k: nat, p: Pair): seq<nat>
    requires k <= |steps| && |run| == |steps| + 1
  {
    if k == 0 then [] else Routed(run, steps, k - 1, p) + RoutedBy(run[k - 1], steps[k - 1], p)
  }

  function WasRead(run: seq<State>, steps: seq<Step>, k: nat, p: Pair): seq<nat>
    requires k <= |steps| && |run| == |steps| + 1
  {
    if k == 0 then [] else WasRead(run, steps, k - 1, p) + ReadBy(run[k - 1], steps[k - 1], p)
  }

  lemma LogsKept(s: State, s': State, step: Step, p: Pair)
    requires Next(s, s', step)
    ensures Log(s'.routed, p) == Log(s.routed, p) + RoutedBy(s, step, p)
    ensures Log(s'.received, p) == Log(s.received, p) + ReadBy(s, step, p)
  {
    if step.Accept? { AcceptedLogsNothing(s, step.c); }
  }

  lemma AcceptedLogsNothing(s: State, c: nat)
    requires c < |s.conns|
    ensures Accepted(s, c).routed == s.routed && Accepted(s, c).received == s.received
  {
  }

  /** The logs record the messages of the enqueue steps and those of the read steps, in step order. */
  lemma {:induction false} LogsAreHistory(run: seq<State>, steps: seq<Step>, k: nat, p: Pair)
    requires Run(run, steps) && k < |run|
    ensures Log(run[k].routed, p) == Routed(run, steps, k, p)
    ensures Log(run[k].received, p) == WasRead(run, steps, k, p)
  {
    if k > 0 {
      var j := k - 1;
      LogsAreHistory(run, steps, j, p);
      assert Next(run[j], run[j + 1], steps[j]);
      LogsKept(run[j], run[k], steps[j], p);
    }
  }

  /**
   Traffic survives negotiation, whichever side dialled first and however late the connection came: what was
   read, then is on the wire, then waits in the queue is what was routed, in order.
   */
  lemma TrafficSurvives(run: seq<State>, steps: seq<Step>, k: nat, a: Id, b: Id)
    requires CleanRun(run, steps) && k < |run|
    ensures Shape(run[k])
    ensures (a, b) in run[k].table ==>
              var queue := run[k].eps[run[k].table[(a, b)]].queue;
              Routed(run, steps, k, (a, b)) == WasRead(run, steps, k, (a, b)) + OnWire(run[k], (a, b)) + queue
    ensures (a, b) !in run[k].table ==> Routed(run, steps, k, (a, b)) == []
  {
    CleanRunKeeps(run, steps, k, (a, b));
    LogsAreHistory(run, steps, k, (a, b));
  }

  /** Once two nodes are resolved, an endpoint that has messages can send them. */
  lemma SendersCanMove(s: State, e: nat)
    requires Clean(s) && e < |s.eps| && s.eps[e].peer.Some? && !s.eps[e].phase.Dialing? && s.eps[e].queue != []
    ensures exists s', step :: Next(s, s', step) && (step == Wake(e) || step == Send(e))
  {
    assert EndpointShape(s.eps[e], s.conns) && EndpointClean(s, e);
    var ep := s.eps[e];
    if ep.phase.Waiting? {
      assert Next(s, Put(s, e, ep.(phase := Serving)), Wake(e));
    } else {
      assert Next(s, Sent(s, e), Send(e));
    }
  }

  /** What one node wrote on a connection the other holds can be read there. */
  lemma ReadersCanMove(s: State, a: Id, b: Id, c: nat)
    requires Shape(s) && Holds(s, (b, a), c) && (a, b) in s.table && Holds(s, (a, b), c) && OnWire(s, (a, b)) != []
    ensures exists s' :: Next(s, s', Deliver(s.table[(b, a)]))
  {
    var e := s.table[(b, a)];
    assert EndpointShape(s.eps[e], s.conns);
    assert Next(s, Read(s, e), Deliver(e));
  }

  // ---------------------------------------------------------------------------------------------
  // Every run, failures included.

  function QueuedIn(ep: Endpoint, p: Pair): multiset<nat> {
    if (ep.at, ep.to) == p then multiset(ep.queue) else multiset{}
  }

  /** What waits in the queues of all endpoints ever made for the pair, destroyed or not. */
  function QueuedFor(eps: seq<Endpoint>, p: Pair): multiset<nat> {
    if eps == [] then multiset{} else QueuedFor(eps[..|eps| - 1], p) + QueuedIn(eps[|eps| - 1], p)
  }

  function WrittenOn(c: Conn, p: Pair): multiset<nat> {
    if (c.opener, c.target) == p then multiset(c.toTarget)
    else if (c.target, c.opener) == p then multiset(c.toOpener)
    else multiset{}
  }

  /** What was written on any connection between the two nodes, open or not, and not read. */
  function WrittenFor(conns: seq<Conn>, p: Pair): multiset<nat> {
    if conns == [] then multiset{} else WrittenFor(conns[..|conns| - 1], p) + WrittenOn(conns[|conns| - 1], p)
  }

  /** Everything routed was read, or is on a wire, or in a queue, once. */
  ghost predicate Accounted(s: State, p: Pair) {
    multiset(Log(s.routed, p)) == multiset(Log(s.received, p)) + WrittenFor(s.conns, p) + QueuedFor(s.eps, p)
  }

  lemma {:induction false} QueuedForPut(eps: seq<Endpoint>, e: nat, ep: Endpoint, p: Pair)
    requires e < |eps|
    ensures QueuedFor(eps[e := ep], p) + QueuedIn(eps[e], p) == QueuedFor(eps, p) + QueuedIn(ep, p)
  {
    var (last, put) := (|eps| - 1, eps[e := ep]);
    if e == last {
      assert put[..last] == eps[..last];
    } else {
      assert put[..last] == eps[..last][e := ep];
      QueuedForPut(eps[..last], e, ep, p);
      Exchange(QueuedFor(put[..last], p), QueuedIn(eps[e], p), QueuedFor(eps[..last], p), QueuedIn(ep, p),
               QueuedIn(eps[last], p));
    }
  }

  lemma {:induction false} WrittenForPut(conns: seq<Conn>, c: nat, conn: Conn, p: Pair)
    requires c < |conns|
    ensures WrittenFor(conns[c := conn], p) + WrittenOn(conns[c], p) == WrittenFor(conns, p) + WrittenOn(conn, p)
  {
    var (last, put) := (|conns| - 1, conns[c := conn]);
    if c == last {
      assert put[..last] == conns[..last];
    } else {
      assert put[..last] == conns[..last][c := conn];
      WrittenForPut(conns[..last], c, conn, p);
      Exchange(WrittenFor(put[..last], p), WrittenOn(conns[c], p), WrittenFor(conns[..last], p), WrittenOn(conn, p),
               WrittenOn(conns[last], p));
    }
  }

  lemma Exchange(a: multiset<nat>, x: multiset<nat>, b: multiset<nat>, y: multiset<nat>, z: multiset<nat>)
    requires a + x == b + y
    ensures a + z + x == b + z + y
  {
    assert a + z + x == a + x + z;
    assert b + z + y == b + y + z;
  }

  lemma SameAccount(s: State, s': State, p: Pair)
    requires Accounted(s, p) && s'.routed == s.routed && s'.received == s.received
    requires QueuedFor(s'.eps, p) == QueuedFor(s.eps, p) && WrittenFor(s'.conns, p) == WrittenFor(s.conns, p)
    ensures Accounted(s', p)
  {
  }

  lemma PutQueuesNothing(s: State, e: nat, ep: Endpoint, p: Pair)
    requires e < |s.eps| && ep.at == s.eps[e].at && ep.to == s.eps[e].to && ep.queue == s.eps[e].queue
    ensures QueuedFor(Put(s, e, ep).eps, p) == QueuedFor(s.eps, p)
  {
    QueuedForPut(s.eps, e, ep, p);
    Cancel(QueuedFor(s.eps[e := ep], p), QueuedFor(s.eps, p), QueuedIn(ep, p));
  }

  lemma Cancel(a: multiset<nat>, b: multiset<nat>, x: multiset<nat>)
    requires a + x == b + x
    ensures a == b
  {
    assert a == (a + x) - x && b == (b + x) - x;
  }

  lemma SettleWritesNothing(s: State, c: nat, reg: Registration, p: Pair)
    requires c < |s.conns|
    ensures WrittenFor(Settle(s, c, reg).conns, p) == WrittenFor(s.conns, p)
  {
    var conn := s.conns[c].(reg := reg);
    WrittenForPut(s.conns, c, conn, p);
    Cancel(WrittenFor(s.conns[c := conn], p), WrittenFor(s.conns, p), WrittenOn(conn, p));
  }

  lemma TrackQueuesNothing(s: State, ep: Endpoint, p: Pair)
    requires ep.queue == []
    ensures QueuedFor(Track(s, ep).eps, p) == QueuedFor(s.eps, p)
  {
    assert Track(s, ep).eps[..|s.eps|] == s.eps;
  }

  lemma DialledAccount(s: State, e: nat, reg: Registration, p: Pair)
    requires Accounted(s, p) && e < |s.eps|
    ensures Accounted(Dialled(s, e, reg), p)
  {
    var s' := Dialled(s, e, reg);
    PutQueuesNothing(s, e, s'.eps[e], p);
    assert s'.conns[..|s.conns|] == s.conns;
    SameAccount(s, s', p);
  }

  lemma AcceptedAccount(s: State, c: nat, p: Pair)
    requires Shape(s) && Accounted(s, p) && c < |s.conns|
    ensures Accounted(Accepted(s, c), p)
  {
    AcceptedWritesNothing(s, c, p);
    AcceptedQueuesNothing(s, c, p);
    AcceptedLogsNothing(s, c);
    SameAccount(s, Accepted(s, c), p);
  }

  /** How the filter settles a registration. */
  function Settlement(s: State, c: nat): Registration
    requires c < |s.conns|
  {
    var (self, other) := (s.conns[c].target, s.conns[c].opener);
    if self <= other then Taken
    else if (self, other) !in s.table && (self, other) !in s.knows then Refused
    else Dropped
  }

  lemma AcceptedConns(s: State, c: nat)
    requires Shape(s) && c < |s.conns|
    ensures Accepted(s, c).conns == Settle(s, c, Settlement(s, c)).conns
  {
  }

  lemma AcceptedWritesNothing(s: State, c: nat, p: Pair)
    requires Shape(s) && c < |s.conns|
    ensures WrittenFor(Accepted(s, c).conns, p) == WrittenFor(s.conns, p)
  {
    AcceptedConns(s, c);
    SettleWritesNothing(s, c, Settlement(s, c), p);
  }

  /** The endpoints after the filter: one more with an empty queue, one given its peer, or the same. */
  lemma AcceptedEps(s: State, c: nat) returns (e: nat, ep: Endpoint)
    requires Shape(s) && c < |s.conns|
    ensures var eps := Accepted(s, c).eps;
            || eps == s.eps
            || (ep.queue == [] && eps == s.eps + [ep])
            || (&& e < |s.eps| && eps == s.eps[e := ep] && ep.queue == s.eps[e].queue
                && ep.at == s.eps[e].at && ep.to == s.eps[e].to)
  {
    var (self, other) := (s.conns[c].target, s.conns[c].opener);
    if (self, other) in s.table {
      e := s.table[(self, other)];
      ep := s.eps[e].(peer := Some(c));
    } else {
      e := 0;
      ep := if other < self then NewDial(self, other) else Endpoint(self, other, Some(c), Serving, [], false);
    }
  }

  lemma AcceptedQueuesNothing(s: State, c: nat, p: Pair)
    requires Shape(s) && c < |s.conns|
    ensures QueuedFor(Accepted(s, c).eps, p) == QueuedFor(s.eps, p)
  {
    var e, ep := AcceptedEps(s, c);
    var eps := Accepted(s, c).eps;
    if eps == s.eps {
    } else if ep.queue == [] && eps == s.eps + [ep] {
      TrackQueuesNothing(s, ep, p);
    } else {
      PutQueuesNothing(s, e, ep, p);
    }
  }

  lemma QueuedAccount(s: State, e: nat, message: nat, p: Pair)
    requires Accounted(s, p) && e < |s.eps|
    ensures Accounted(Queue(s, e, message), p)
  {
    var (s', ep) := (Queue(s, e, message), s.eps[e]);
    QueuedForPut(s.eps, e, s'.eps[e], p);
    if (ep.at, ep.to) == p {
      assert multiset(ep.queue + [message]) == multiset(ep.queue) + multiset{message};
      Gained(QueuedFor(s'.eps, p), QueuedFor(s.eps, p), multiset(ep.queue), multiset{message});
      assert multiset(Log(s'.routed, p)) == multiset(Log(s.routed, p)) + multiset{message};
      Added(multiset(Log(s.received, p)) + WrittenFor(s.conns, p), QueuedFor(s.eps, p), multiset{message});
    } else {
      Cancel(QueuedFor(s'.eps, p), QueuedFor(s.eps, p), multiset{});
    }
  }

  lemma Gained(a: multiset<nat>, b: multiset<nat>, x: multiset<nat>, m: multiset<nat>)
    requires a + x == b + (x + m)
    ensures a == b + m
  {
    assert b + (x + m) == (b + m) + x;
    Cancel(a, b + m, x);
  }

  lemma Added(a: multiset<nat>, b: multiset<nat>, m: multiset<nat>)
    ensures a + b + m == a + (b + m)
  {
  }

  /** The peer of an endpoint joins its two nodes, so what either writes on it is written for the pair. */
  lemma WireIsWritten(s: State, e: nat)
    requires Shape(s) && HasPeer(s, e)
    ensures var (ep, c) := (s.eps[e], s.conns[s.eps[e].peer.value]);
            && WrittenOn(c, (ep.at, ep.to)) == multiset(Wire(c, ep.at))
            && WrittenOn(c, (ep.to, ep.at)) == multiset(Wire(c, ep.to))
  {
    assert EndpointShape(s.eps[e], s.conns);
  }

  lemma RewrittenWire(s: State, e: nat, from: Id, to: Id, wire: seq<nat>, p: Pair)
    requires Shape(s) && HasPeer(s, e)
    requires (from, to) == (s.eps[e].at, s.eps[e].to) || (from, to) == (s.eps[e].to, s.eps[e].at)
    ensures var c := s.conns[s.eps[e].peer.value];
            WrittenOn(WithWire(c, from, wire), p) == if p == (from, to) then multiset(wire) else WrittenOn(c, p)
  {
    assert EndpointShape(s.eps[e], s.conns);
  }

  /** Sending takes one envelope from the queue. */
  lemma SentUnqueues(s: State, e: nat)
    requires Shape(s) && HasPeer(s, e) && s.eps[e].queue != []
    ensures var p := (s.eps[e].at, s.eps[e].to);
            QueuedFor(s.eps, p) == QueuedFor(Sent(s, e).eps, p) + multiset{s.eps[e].queue[0]}
  {
    var (s', ep) := (Sent(s, e), s.eps[e]);
    var p := (ep.at, ep.to);
    QueuedForPut(s.eps, e, s'.eps[e], p);
    assert ep.queue == [ep.queue[0]] + ep.queue[1..];
    Gained(QueuedFor(s.eps, p), QueuedFor(s'.eps, p), multiset(ep.queue[1..]), multiset{ep.queue[0]});
  }

  /** It is written on the wire. */
  lemma SentWrites(s: State, e: nat)
    requires Shape(s) && HasPeer(s, e) && s.eps[e].queue != []
    ensures var p := (s.eps[e].at, s.eps[e].to);
            WrittenFor(Sent(s, e).conns, p) == WrittenFor(s.conns, p) + multiset{s.eps[e].queue[0]}
  {
    var (s', ep, c) := (Sent(s, e), s.eps[e], s.eps[e].peer.value);
    var (wire, p) := (Wire(s.conns[c], ep.at), (ep.at, ep.to));
    WrittenForPut(s.conns, c, s'.conns[c], p);
    WireIsWritten(s, e);
    RewrittenWire(s, e, ep.at, ep.to, wire + [ep.queue[0]], p);
    Gained(WrittenFor(s'.conns, p), WrittenFor(s.conns, p), multiset(wire), multiset{ep.queue[0]});
  }

  lemma SentLeaves(s: State, e: nat, p: Pair)
    requires Shape(s) && HasPeer(s, e) && s.eps[e].queue != [] && p != (s.eps[e].at, s.eps[e].to)
    ensures QueuedFor(Sent(s, e).eps, p) == QueuedFor(s.eps, p)
    ensures WrittenFor(Sent(s, e).conns, p) == WrittenFor(s.conns, p)
  {
    var (s', ep, c) := (Sent(s, e), s.eps[e], s.eps[e].peer.value);
    QueuedForPut(s.eps, e, s'.eps[e], p);
    WrittenForPut(s.conns, c, s'.conns[c], p);
    RewrittenWire(s, e, ep.at, ep.to, Wire(s.conns[c], ep.at) + [ep.queue[0]], p);
    Cancel(QueuedFor(s'.eps, p), QueuedFor(s.eps, p), multiset{});
    Cancel(WrittenFor(s'.conns, p), WrittenFor(s.conns, p), WrittenOn(s.conns[c], p));
  }

  lemma SentAccount(s: State, e: nat, p: Pair)
    requires Shape(s) && Accounted(s, p) && HasPeer(s, e) && s.eps[e].queue != []
    ensures Accounted(Sent(s, e), p)
  {
    var s' := Sent(s, e);
    if (s.eps[e].at, s.eps[e].to) == p {
      SentUnqueues(s, e);
      SentWrites(s, e);
      Shifted(multiset(Log(s.received, p)), WrittenFor(s.conns, p), QueuedFor(s'.eps, p), multiset{s.eps[e].queue[0]});
    } else {
      SentLeaves(s, e, p);
    }
  }

  lemma Shifted(a: multiset<nat>, b: multiset<nat>, c: multiset<nat>, m: multiset<nat>)
    ensures a + b + (c + m) == a + (b + m) + c
    ensures a + (b + m) + c == (a + m) + b + c
  {
  }

  /** Reading takes one envelope from the wire. */
  lemma ReadMoves(s: State, e: nat)
    requires Shape(s) && HasPeer(s, e) && Wire(s.conns[s.eps[e].peer.value], s.eps[e].to) != []
    ensures var (s', p) := (Read(s, e), (s.eps[e].to, s.eps[e].at));
            var m := multiset{Wire(s.conns[s.eps[e].peer.value], s.eps[e].to)[0]};
            && WrittenFor(s.conns, p) == WrittenFor(s'.conns, p) + m
            && multiset(Log(s'.received, p)) == multiset(Log(s.received, p)) + m
  {
    var (s', ep, c) := (Read(s, e), s.eps[e], s.eps[e].peer.value);
    var (wire, p) := (Wire(s.conns[c], ep.to), (ep.to, ep.at));
    WrittenForPut(s.conns, c, s'.conns[c], p);
    WireIsWritten(s, e);
    RewrittenWire(s, e, ep.to, ep.at, wire[1..], p);
    assert wire == [wire[0]] + wire[1..];
    Gained(WrittenFor(s.conns, p), WrittenFor(s'.conns, p), multiset(wire[1..]), multiset{wire[0]});
    assert Log(s'.received, p) == Log(s.received, p) + [wire[0]];
  }

  lemma ReadLeaves(s: State, e: nat, p: Pair)
    requires Shape(s) && HasPeer(s, e) && Wire(s.conns[s.eps[e].peer.value], s.eps[e].to) != []
    requires p != (s.eps[e].to, s.eps[e].at)
    ensures WrittenFor(Read(s, e).conns, p) == WrittenFor(s.conns, p)
    ensures Log(Read(s, e).received, p) == Log(s.received, p)
  {
    var (s', ep, c) := (Read(s, e), s.eps[e], s.eps[e].peer.value);
    WrittenForPut(s.conns, c, s'.conns[c], p);
    RewrittenWire(s, e, ep.to, ep.at, Wire(s.conns[c], ep.to)[1..], p);
    Cancel(WrittenFor(s'.conns, p), WrittenFor(s.conns, p), WrittenOn(s.conns[c], p));
  }

  lemma ReadAccount(s: State, e: nat, p: Pair)
    requires Shape(s) && Accounted(s, p)
    requires HasPeer(s, e) && Wire(s.conns[s.eps[e].peer.value], s.eps[e].to) != []
    ensures Accounted(Read(s, e), p)
  {
    if p == (s.eps[e].to, s.eps[e].at) {
      var m := multiset{Wire(s.conns[s.eps[e].peer.value], s.eps[e].to)[0]};
      ReadMoves(s, e);
      Shifted(multiset(Log(s.received, p)), WrittenFor(Read(s, e).conns, p), QueuedFor(s.eps, p), m);
    } else {
      ReadLeaves(s, e, p);
    }
  }

  lemma FlaggedAccount(s: State, e: nat, p: Pair)
    requires Accounted(s, p) && e < |s.eps|
    ensures Accounted(Put(s, e, s.eps[e].(flagged := true)), p)
  {
    PutQueuesNothing(s, e, s.eps[e].(flagged := true), p);
  }

  lemma AccountedKept(s: State, s': State, step: Step, p: Pair)
    requires Shape(s) && Accounted(s, p) && Next(s, s', step)
    ensures Accounted(s', p)
  {
    match step
    case Ensure(a, b) => TrackQueuesNothing(s, NewDial(a, b), p);
    case Enqueue(e, message) => QueuedAccount(s, e, message, p);
    case Connect(e) => DialledAccount(s, e, InFlight, p);
    case Install(e) => PutQueuesNothing(s, e, s'.eps[e], p);
    case Wake(e) => PutQueuesNothing(s, e, s'.eps[e], p);
    case Accept(c) => AcceptedAccount(s, c, p);
    case Send(e) => SentAccount(s, e, p);
    case Deliver(e) => ReadAccount(s, e, p);
    case DialFails(e) =>
      FlaggedAccount(s, e, p);
      DialledAccount(Put(s, e, s.eps[e].(flagged := true)), e, NeverSent, p);
    case Flag(e) => FlaggedAccount(s, e, p);
    case Destroy(_) =>
    case Learn(_) =>
    case Forget(_) =>
  }

  lemma {:induction false} AccountedRun(run: seq<State>, steps: seq<Step>, k: nat, p: Pair)
    requires Run(run, steps) && k < |run|
    ensures Accounted(run[k], p)
  {
    if k > 0 {
      var before := k - 1;
      AccountedRun(run, steps, before, p);
      RunShape(run, steps, before);
      AccountedKept(run[before], run[k], steps[before], p);
    }
  }

  /**
   In every run, whatever fails or is destroyed: of the envelopes routed between two nodes none is read twice
   and none is invented; each was read once, or is on a wire, or in an endpoint's queue.
   */
  lemma TrafficIsAccounted(run: seq<State>, steps: seq<Step>, k: nat, p: Pair)
    requires Run(run, steps) && k < |run|
    ensures multiset(Routed(run, steps, k, p))
         == multiset(WasRead(run, steps, k, p)) + WrittenFor(run[k].conns, p) + QueuedFor(run[k].eps, p)
    ensures multiset(WasRead(run, steps, k, p)) <= multiset(Routed(run, steps, k, p))
  {
    AccountedRun(run, steps, k, p);
    LogsAreHistory(run, steps, k, p);
  }
}
