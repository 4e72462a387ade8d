/**
 The order in which the nodes of a session deliver: runs of `Routing`'s session-wide model in which what one
 node forwards to another is received in the order it was sent, as `NegotiationTraffic` proves of failure-free runs.
 Envelopes are numbered as they are injected; the body of an envelope is its number.
 */
module RoutingOrder {
  import opened Common
  import opened Routing

  /** Where deliveries are made. */
  datatype Place = AtComputation(node: Id, computation: Id) | AtClient(session: Id)

  function For(place: Place, body: nat): Delivery {
    match place
    case AtComputation(node, computation) => ToComputation(node, computation, body)
    case AtClient(session) => ToClient(session, body)
  }

  /** The node that delivers there. */
  function Home(entries: map<Id, Id>, place: Place): Id {
    match place
    case AtComputation(node, _) => node
    case AtClient(session) => if session in entries then entries[session] else NULL_ID
  }

  /** What one node handed over at once. */
  datatype Arrival = Arrival(what: set<Delivery>, body: nat)

  /** `origins` are the nodes envelopes were injected at, by number; `arrived` logs the hand-overs in order. */
  datatype Mail = Mail(net: Net, origins: seq<Id>, arrived: seq<Arrival>)

  predicate From(origins: seq<Id>, o: Id, body: nat) {
    body < |origins| && origins[body] == o
  }

  /** No hop before it goes the same way. */
  ghost predicate FirstOfItsWay(m: Mail, i: nat) {
    && i < |m.net.hops| && m.net.hops[i].envelope.body < |m.origins|
    && forall j :: 0 <= j < i && m.net.hops[j].dst == m.net.hops[i].dst ==>
         !From(m.origins, m.origins[m.net.hops[i].envelope.body], m.net.hops[j].envelope.body)
  }

  ghost predicate MailInit(m: Mail) {
    NetInit(m.net) && m.origins == [] && m.arrived == []
  }

  ghost predicate MailNext(m: Mail, m': Mail, step: NetStep) {
    && NetNext(m.net, m'.net, step)
    && match step
       case Inject(origin, session, envelope, means) =>
         && envelope.body == |m.origins| && m'.origins == m.origins + [origin]
         && var rd := DataAt(m.net.entries, origin, session);
            m'.arrived == m.arrived + [Arrival(Found(rd, envelope.to, envelope.body, means.ipc), envelope.body)]
       case Receive(i, means) =>
         && FirstOfItsWay(m, i) && m'.origins == m.origins
         && var (rd, e) := (ReceiverData(m.net, i), m.net.hops[i].envelope);
            m'.arrived == m.arrived + [Arrival(Found(rd, e.to, e.body, means.ipc), e.body)]
       case Drop(_) => m'.origins == m.origins && m'.arrived == m.arrived
  }

  ghost predicate MailRun(run: seq<Mail>, steps: seq<NetStep>) {
    && |run| == |steps| + 1 && MailInit(run[0])
    && forall i :: 0 <= i < |steps| ==> MailNext(run[i], run[i + 1], steps[i])
  }

  /** The numbers of the envelopes injected at `o` that have been delivered at a place, in order. */
  ghost function Arrivals(arrived: seq<Arrival>, origins: seq<Id>, place: Place, o: Id): seq<nat> {
    if arrived == [] then []
    else
      var last := arrived[|arrived| - 1];
      Arrivals(arrived[..|arrived| - 1], origins, place, o)
        + if From(origins, o, last.body) && For(place, last.body) in last.what then [last.body] else []
  }

  ghost predicate Carries(hop: Hop, place: Place) {
    var e := hop.envelope;
    e.to != [] && For(place, e.body) in Flat(e.to[0].session, e.to, e.body)
  }

  /** The numbers of those still on their way there. */
  ghost function Waiting(hops: seq<Hop>, origins: seq<Id>, place: Place, o: Id): seq<nat> {
    if hops == [] then []
    else
      (if From(origins, o, hops[0].envelope.body) && Carries(hops[0], place) then [hops[0].envelope.body] else [])
        + Waiting(hops[1..], origins, place, o)
  }

  ghost predicate Increasing(numbers: seq<nat>) {
    forall i, j :: 0 <= i < j < |numbers| ==> numbers[i] < numbers[j]
  }

  ghost predicate Before(a: seq<nat>, b: seq<nat>) {
    forall x, y :: x in a && y in b ==> x < y
  }

  /** Delivered at the place, then on the way there. */
  ghost function Queue(m: Mail, place: Place, o: Id): seq<nat> {
    Arrivals(m.arrived, m.origins, place, o) + Waiting(m.net.hops, m.origins, place, o)
  }

  ghost predicate Numbered(m: Mail) {
    && (forall i :: 0 <= i < |m.net.hops| ==> m.net.hops[i].envelope.body < |m.origins|)
    && (forall i :: 0 <= i < |m.net.hops| ==> m.net.hops[i].dst != m.origins[m.net.hops[i].envelope.body])
    && (forall i :: 0 <= i < |m.arrived| ==> m.arrived[i].body < |m.origins|)
  }

  ghost predicate Inv(m: Mail) {
    NetInv(m.net) && Numbered(m) && Logged(m)
  }

  /** The parts of the invariant that the order rests on. */
  ghost predicate Steady(m: Mail) {
    && (forall s :: s in m.net.entries ==> m.net.entries[s] != NULL_ID)
    && (forall i :: 0 <= i < |m.net.hops| ==> Final(m.net.entries, m.net.hops[i]))
    && Numbered(m)
  }

  /** What a step does to hops and arrivals. */
  ghost predicate Moves(m: Mail, m': Mail, step: NetStep) {
    && m'.net.entries == m.net.entries
    && match step
       case Inject(origin, session, envelope, means) =>
         && origin != NULL_ID && session in m.net.entries && OneSession(envelope.to, session)
         && envelope.body == |m.origins| && m'.origins == m.origins + [origin]
         && var rd := DataAt(m.net.entries, origin, session);
            && m'.arrived == m.arrived + [Arrival(Found(rd, envelope.to, envelope.body, means.ipc), envelope.body)]
            && m'.net.hops == m.net.hops + SentOn(rd, envelope.to, envelope.body, means.nodes)
       case Receive(i, means) =>
         && FirstOfItsWay(m, i) && Known(m.net, i) && m'.origins == m.origins
         && var (rd, e) := (ReceiverData(m.net, i), m.net.hops[i].envelope);
            && m'.arrived == m.arrived + [Arrival(Found(rd, e.to, e.body, means.ipc), e.body)]
            && m'.net.hops == m.net.hops[..i] + m.net.hops[i + 1..] + SentOn(rd, e.to, e.body, means.nodes)
       case Drop(i) =>
         && i < |m.net.hops| && m'.net.hops == m.net.hops[..i] + m.net.hops[i + 1..]
         && m'.origins == m.origins && m'.arrived == m.arrived
  }

  lemma NextMoves(m: Mail, m': Mail, step: NetStep)
    requires Steady(m) && MailNext(m, m', step)
    ensures Moves(m, m', step)
  {
  }

  /** The log and the count of deliveries agree. */
  ghost predicate Logged(m: Mail) {
    && (forall i, d :: 0 <= i < |m.arrived| && d in m.arrived[i].what ==> d.body == m.arrived[i].body)
    && (forall d :: d in m.net.delivered <==> LoggedAt(m.arrived, d))
  }

  ghost predicate LoggedAt(arrived: seq<Arrival>, d: Delivery) {
    exists i :: 0 <= i < |arrived| && d in arrived[i].what
  }

  // ---------------------------------------------------------------------------------------------
  // Reading off the two sequences.

  lemma {:induction false} ArrivalsBelow(arrived: seq<Arrival>, origins: seq<Id>, place: Place, o: Id)
    ensures forall b :: b in Arrivals(arrived, origins, place, o) ==> b < |origins|
  {
    if arrived != [] { ArrivalsBelow(arrived[..|arrived| - 1], origins, place, o); }
  }

  lemma ArrivalsMore(arrived: seq<Arrival>, a: Arrival, origins: seq<Id>, place: Place, o: Id)
    ensures Arrivals(arrived + [a], origins, place, o)
         == Arrivals(arrived, origins, place, o)
          + if From(origins, o, a.body) && For(place, a.body) in a.what then [a.body] else []
  {
    assert (arrived + [a])[..|arrived|] == arrived;
  }

  /** A new origin is the origin of no envelope injected before. */
  lemma {:induction false} ArrivalsNewOrigin(arrived: seq<Arrival>, origins: seq<Id>, origin: Id, place: Place, o: Id)
    requires forall i :: 0 <= i < |arrived| ==> arrived[i].body < |origins|
    ensures Arrivals(arrived, origins + [origin], place, o) == Arrivals(arrived, origins, place, o)
  {
    if arrived != [] { ArrivalsNewOrigin(arrived[..|arrived| - 1], origins, origin, place, o); }
  }

  lemma {:induction false} WaitingNewOrigin(hops: seq<Hop>, origins: seq<Id>, origin: Id, place: Place, o: Id)
    requires forall i :: 0 <= i < |hops| ==> hops[i].envelope.body < |origins|
    ensures Waiting(hops, origins + [origin], place, o) == Waiting(hops, origins, place, o)
  {
    if hops != [] { WaitingNewOrigin(hops[1..], origins, origin, place, o); }
  }

  lemma {:induction false} WaitingCat(a: seq<Hop>, b: seq<Hop>, origins: seq<Id>, place: Place, o: Id)
    ensures Waiting(a + b, origins, place, o) == Waiting(a, origins, place, o) + Waiting(b, origins, place, o)
  {
    if a == [] {
      assert a + b == b;
    } else {
      assert (a + b)[1..] == a[1..] + b;
      WaitingCat(a[1..], b, origins, place, o);
    }
  }

  lemma {:induction false} NothingWaits(hops: seq<Hop>, origins: seq<Id>, place: Place, o: Id)
    requires forall i :: 0 <= i < |hops| && Carries(hops[i], place) ==> !From(origins, o, hops[i].envelope.body)
    ensures Waiting(hops, origins, place, o) == []
  {
    if hops != [] {
      assert Carries(hops[0], place) ==> !From(origins, o, hops[0].envelope.body);
      forall i | 0 <= i < |hops[1..]| && Carries(hops[1..][i], place)
        ensures !From(origins, o, hops[1..][i].envelope.body)
      {
        assert hops[1..][i] == hops[i + 1];
      }
      NothingWaits(hops[1..], origins, place, o);
    }
  }

  lemma WaitingAround(hops: seq<Hop>, i: nat, origins: seq<Id>, place: Place, o: Id)
    requires i < |hops|
    ensures var b := hops[i].envelope.body;
            var here := From(origins, o, b) && Carries(hops[i], place);
            var (before, after) := (Waiting(hops[..i], origins, place, o), Waiting(hops[i + 1..], origins, place, o));
            && Waiting(hops, origins, place, o) == before + (if here then [b] else []) + after
            && Waiting(hops[..i] + hops[i + 1..], origins, place, o) == before + after
  {
    assert hops == hops[..i] + hops[i..] && hops[i..][1..] == hops[i + 1..];
    WaitingCat(hops[..i], hops[i..], origins, place, o);
    WaitingCat(hops[..i], hops[i + 1..], origins, place, o);
  }

  // ---------------------------------------------------------------------------------------------
  // Who delivers what.

  /** A hop carries only what its receiver delivers itself. */
  lemma CarriedHome(entries: map<Id, Id>, hop: Hop, place: Place)
    requires Final(entries, hop) && Carries(hop, place)
    ensures hop.dst == Home(entries, place)
  {
    var (to, rd) := (hop.envelope.to, DataAt(entries, hop.dst, hop.envelope.to[0].session));
    var lists := NodeLists(rd, to);
    match place
    case AtComputation(node, computation) =>
      assert node != hop.dst ==> node in RemoteNodes(hop.dst, to) && node in lists;
    case AtClient(_) =>
      assert rd.entry != hop.dst ==> rd.entry in lists;
  }

  /** A node hands over only what it is to deliver. */
  lemma FoundAtHome(entries: map<Id, Id>, rd: RoutingData, to: seq<Address>, body: nat, ipc: set<Id>, place: Place)
    requires rd.session in entries && rd == DataAt(entries, rd.self, rd.session)
    requires For(place, body) in Found(rd, to, body, ipc)
    ensures Home(entries, place) == rd.self
  {
  }

  lemma {:induction false} OneWaits(
    ids: set<Id>, lists: map<Id, seq<Address>>, body: nat, origins: seq<Id>, place: Place, o: Id, home: Id)
    requires ids <= lists.Keys
    requires forall h :: h in Hops(ids, lists, body) && Carries(h, place) ==> h.dst == home
    ensures var waiting := Waiting(Hops(ids, lists, body), origins, place, o);
            waiting == [] || (waiting == [body] && home in ids && From(origins, o, body))
  {
    if ids != {} {
      var n := Least(ids);
      var (hops, rest) := (Hops(ids, lists, body), Hops(ids - {n}, lists, body));
      assert hops[1..] == rest && hops[0] in hops;
      assert forall h :: h in rest ==> h in hops;
      OneWaits(ids - {n}, lists, body, origins, place, o, home);
    }
  }

  // ---------------------------------------------------------------------------------------------
  // Every step keeps the order.

  function Maybe(here: bool, b: nat): seq<nat> {
    if here then [b] else []
  }

  lemma InjectArrivals(m: Mail, m': Mail, step: NetStep, place: Place, o: Id) returns (here: bool)
    requires Steady(m) && step.Inject? && Moves(m, m', step)
    ensures Arrivals(m'.arrived, m'.origins, place, o)
         == Arrivals(m.arrived, m.origins, place, o) + Maybe(here, step.envelope.body)
    ensures here ==> o == step.origin && Home(m.net.entries, place) == o
  {
    var (origin, e) := (step.origin, step.envelope);
    var rd := DataAt(m.net.entries, origin, step.session);
    var arrival := Arrival(Found(rd, e.to, e.body, step.means.ipc), e.body);
    ArrivalsMore(m.arrived, arrival, m'.origins, place, o);
    ArrivalsNewOrigin(m.arrived, m.origins, origin, place, o);
    here := From(m'.origins, o, e.body) && For(place, e.body) in arrival.what;
    if here { FoundAtHome(m.net.entries, rd, e.to, e.body, step.means.ipc, place); }
  }

  lemma InjectWaiting(m: Mail, m': Mail, step: NetStep, place: Place, o: Id) returns (there: bool)
    requires Steady(m) && step.Inject? && Moves(m, m', step)
    ensures Waiting(m'.net.hops, m'.origins, place, o)
         == Waiting(m.net.hops, m.origins, place, o) + Maybe(there, step.envelope.body)
    ensures there ==> o == step.origin && Home(m.net.entries, place) != o
  {
    var (origin, e) := (step.origin, step.envelope);
    var rd := DataAt(m.net.entries, origin, step.session);
    var more := SentOn(rd, e.to, e.body, step.means.nodes);
    WaitingNewOrigin(m.net.hops, m.origins, origin, place, o);
    WaitingCat(m.net.hops, more, m'.origins, place, o);
    NewHopsWait(m, m', origin, step.session, e, step.means, place, o);
    there := Waiting(more, m'.origins, place, o) != [];
  }

  /** A new envelope comes last, whether it is delivered at once or sent on. */
  lemma InjectQueue(m: Mail, m': Mail, step: NetStep, place: Place, o: Id)
    requires Steady(m) && step.Inject? && Moves(m, m', step)
    ensures var b := step.envelope.body;
            Queue(m', place, o) == Queue(m, place, o) || Queue(m', place, o) == Queue(m, place, o) + [b]
  {
    var here := InjectArrivals(m, m', step, place, o);
    var there := InjectWaiting(m, m', step, place, o);
    if here { NoneWaitsAtHome(m, place, o); }
    var (a, w) := (Arrivals(m.arrived, m.origins, place, o), Waiting(m.net.hops, m.origins, place, o));
    LastOfAll(a, w, here, there, step.envelope.body);
  }

  lemma LastOfAll(a: seq<nat>, w: seq<nat>, here: bool, there: bool, b: nat)
    requires here ==> !there && w == []
    ensures a + Maybe(here, b) + (w + Maybe(there, b)) == a + w + Maybe(here || there, b)
    ensures Maybe(false, b) == [] && a + w + [] == a + w
  {
  }

  /** Of the new hops at most one carries the envelope to the place, and none does when the origin is its home. */
  lemma NewHopsWait(m: Mail, m': Mail, origin: Id, session: Id, envelope: Envelope, means: Means, place: Place, o: Id)
    requires Steady(m) && Moves(m, m', Inject(origin, session, envelope, means))
    ensures var rd := DataAt(m.net.entries, origin, session);
            var waiting := Waiting(SentOn(rd, envelope.to, envelope.body, means.nodes), m'.origins, place, o);
            waiting == [] || (waiting == [envelope.body] && o == origin && Home(m.net.entries, place) != origin)
  {
    var rd := DataAt(m.net.entries, origin, session);
    var lists := NodeLists(rd, envelope.to);
    var (ids, home) := (Reached(lists.Keys, means.nodes), Home(m.net.entries, place));
    HopsAreFinal(m.net.entries, rd, envelope.to, envelope.body, ids);
    forall h | h in Hops(ids, lists, envelope.body) && Carries(h, place) ensures h.dst == home {
      CarriedHome(m.net.entries, h, place);
    }
    OneWaits(ids, lists, envelope.body, m'.origins, place, o, home);
    if home in ids { NodeListHolds(rd, envelope.to, home); }
  }

  lemma NoneWaitsAtHome(m: Mail, place: Place, o: Id)
    requires Steady(m) && Home(m.net.entries, place) == o
    ensures Waiting(m.net.hops, m.origins, place, o) == []
  {
    forall i | 0 <= i < |m.net.hops| && Carries(m.net.hops[i], place)
      ensures !From(m.origins, o, m.net.hops[i].envelope.body)
    {
      CarriedHome(m.net.entries, m.net.hops[i], place);
    }
    NothingWaits(m.net.hops, m.origins, place, o);
  }

  /** What is found at a receiver was carried by the hop. */
  lemma FoundCarried(m: Mail, i: nat, ipc: set<Id>, place: Place)
    requires Steady(m) && i < |m.net.hops| && Known(m.net, i)
    requires var e := m.net.hops[i].envelope; For(place, e.body) in Found(ReceiverData(m.net, i), e.to, e.body, ipc)
    ensures Carries(m.net.hops[i], place)
  {
    var (e, rd) := (m.net.hops[i].envelope, ReceiverData(m.net, i));
    assert Final(m.net.entries, m.net.hops[i]);
    LocalOwns(rd, e.to, e.body);
  }

  lemma ReceiveArrivals(m: Mail, m': Mail, i: nat, means: Means, place: Place, o: Id) returns (here: bool)
    requires Steady(m) && Moves(m, m', Receive(i, means))
    ensures var b := m.net.hops[i].envelope.body;
            Arrivals(m'.arrived, m'.origins, place, o) == Arrivals(m.arrived, m.origins, place, o) + Maybe(here, b)
    ensures here ==> From(m.origins, o, m.net.hops[i].envelope.body) && Carries(m.net.hops[i], place)
  {
    var (e, rd) := (m.net.hops[i].envelope, ReceiverData(m.net, i));
    var arrival := Arrival(Found(rd, e.to, e.body, means.ipc), e.body);
    ArrivalsMore(m.arrived, arrival, m.origins, place, o);
    here := From(m.origins, o, e.body) && For(place, e.body) in arrival.what;
    if here { FoundCarried(m, i, means.ipc, place); }
  }

  lemma ReceiveHops(m: Mail, m': Mail, i: nat, means: Means)
    requires Steady(m) && Moves(m, m', Receive(i, means))
    ensures m'.net.hops == m.net.hops[..i] + m.net.hops[i + 1..]
  {
    ReceivesLast(m, i, means);
    assert m'.net.hops == m.net.hops[..i] + m.net.hops[i + 1..] + [];
  }

  /** The first of its way is the first that waits, and is now delivered or lost. */
  lemma ReceiveQueue(m: Mail, m': Mail, i: nat, means: Means, place: Place, o: Id)
    requires Steady(m) && Moves(m, m', Receive(i, means))
    ensures Queue(m', place, o) == Queue(m, place, o) || LeftOut(Queue(m, place, o), Queue(m', place, o))
  {
    var (hops, h) := (m.net.hops, m.net.hops[i]);
    var waits := From(m.origins, o, h.envelope.body) && Carries(h, place);
    var here := ReceiveArrivals(m, m', i, means, place, o);
    ReceiveHops(m, m', i, means);
    WaitingAround(hops, i, m.origins, place, o);
    if waits { FirstWaits(m, i, place, o); }
    var before := Waiting(hops[..i], m.origins, place, o);
    var after := Waiting(hops[i + 1..], m.origins, place, o);
    HandsOver(Arrivals(m.arrived, m.origins, place, o), before, after, here, waits, h.envelope.body);
  }

  lemma HandsOver(a: seq<nat>, before: seq<nat>, after: seq<nat>, here: bool, waits: bool, b: nat)
    requires (waits ==> before == []) && (here ==> waits)
    ensures var (was, now) := (a + (before + Maybe(waits, b) + after), a + Maybe(here, b) + (before + after));
            now == was || LeftOut(was, now)
  {
    var (was, now) := (a + (before + Maybe(waits, b) + after), a + Maybe(here, b) + (before + after));
    if waits && !here {
      assert was == a + [b] + after && now == a + after;
    } else {
      assert now == was;
    }
  }

  /** A receiver sends nothing on. */
  lemma ReceivesLast(m: Mail, i: nat, means: Means)
    requires Steady(m) && i < |m.net.hops|
    ensures Known(m.net, i)
    ensures var e := m.net.hops[i].envelope; SentOn(ReceiverData(m.net, i), e.to, e.body, means.nodes) == []
  {
    assert Final(m.net.entries, m.net.hops[i]);
  }

  lemma FirstWaits(m: Mail, i: nat, place: Place, o: Id)
    requires Steady(m) && FirstOfItsWay(m, i) && Carries(m.net.hops[i], place)
    requires From(m.origins, o, m.net.hops[i].envelope.body)
    ensures Waiting(m.net.hops[..i], m.origins, place, o) == []
  {
    var hops := m.net.hops[..i];
    CarriedHome(m.net.entries, m.net.hops[i], place);
    forall j | 0 <= j < |hops| && Carries(hops[j], place) ensures !From(m.origins, o, hops[j].envelope.body) {
      assert Final(m.net.entries, m.net.hops[j]);
      CarriedHome(m.net.entries, hops[j], place);
    }
    NothingWaits(hops, m.origins, place, o);
  }

  /** `b` is `a` with one number left out. */
  ghost predicate LeftOut(a: seq<nat>, b: seq<nat>) {
    exists x, n: nat, y :: a == x + [n] + y && b == x + y
  }

  lemma DropQueue(m: Mail, m': Mail, i: nat, place: Place, o: Id)
    requires Steady(m) && Moves(m, m', Drop(i))
    ensures Queue(m', place, o) == Queue(m, place, o) || LeftOut(Queue(m, place, o), Queue(m', place, o))
  {
    var (hops, b) := (m.net.hops, m.net.hops[i].envelope.body);
    var waits := From(m.origins, o, b) && Carries(hops[i], place);
    WaitingAround(hops, i, m.origins, place, o);
    DropsOut(Arrivals(m.arrived, m.origins, place, o), Waiting(hops[..i], m.origins, place, o),
             Waiting(hops[i + 1..], m.origins, place, o), waits, b);
  }

  lemma DropsOut(a: seq<nat>, before: seq<nat>, after: seq<nat>, waits: bool, b: nat)
    ensures var (was, now) := (a + (before + Maybe(waits, b) + after), a + (before + after));
            now == was || LeftOut(was, now)
  {
    var (was, now) := (a + (before + Maybe(waits, b) + after), a + (before + after));
    if waits {
      assert was == (a + before) + [b] + after && now == (a + before) + after;
    } else {
      assert now == was;
    }
  }

  lemma LeftOutIncreases(a: seq<nat>, b: seq<nat>)
    requires Increasing(a) && LeftOut(a, b)
    ensures Increasing(b)
  {
    var x, n: nat, y :| a == x + [n] + y && b == x + y;
    forall i, j | 0 <= i < j < |b| ensures b[i] < b[j] {
      assert b[i] == a[if i < |x| then i else i + 1] && b[j] == a[if j < |x| then j else j + 1];
    }
  }

  lemma IncreasesMore(numbers: seq<nat>, b: nat)
    requires Increasing(numbers) && forall x :: x in numbers ==> x < b
    ensures Increasing(numbers + [b])
  {
    forall i, j | 0 <= i < j < |numbers| + 1 ensures (numbers + [b])[i] < (numbers + [b])[j] {
      assert numbers[i] in numbers;
    }
  }

  lemma QueueBelow(m: Mail, place: Place, o: Id)
    ensures forall b :: b in Queue(m, place, o) ==> b < |m.origins|
  {
    ArrivalsBelow(m.arrived, m.origins, place, o);
    WaitingBelow(m.net.hops, m.origins, place, o);
  }

  lemma {:induction false} WaitingBelow(hops: seq<Hop>, origins: seq<Id>, place: Place, o: Id)
    ensures forall b :: b in Waiting(hops, origins, place, o) ==> b < |origins|
  {
    if hops != [] { WaitingBelow(hops[1..], origins, place, o); }
  }

  lemma QueueKept(m: Mail, m': Mail, step: NetStep, place: Place, o: Id)
    requires Steady(m) && Increasing(Queue(m, place, o)) && Moves(m, m', step)
    ensures Increasing(Queue(m', place, o))
  {
    match step
    case Inject(origin, session, envelope, means) =>
      InjectQueue(m, m', step, place, o);
      QueueBelow(m, place, o);
      IncreasesMore(Queue(m, place, o), envelope.body);
    case Receive(i, means) =>
      ReceiveQueue(m, m', i, means, place, o);
      if Queue(m', place, o) != Queue(m, place, o) { LeftOutIncreases(Queue(m, place, o), Queue(m', place, o)); }
    case Drop(i) =>
      DropQueue(m, m', i, place, o);
      if Queue(m', place, o) != Queue(m, place, o) { LeftOutIncreases(Queue(m, place, o), Queue(m', place, o)); }
  }

  lemma LoggedMore(m: Mail, m': Mail, rd: RoutingData, to: seq<Address>, body: nat, ipc: set<Id>)
    requires Logged(m) && m'.arrived == m.arrived + [Arrival(Found(rd, to, body, ipc), body)]
    requires m'.net.delivered == m.net.delivered + multiset(Found(rd, to, body, ipc))
    ensures Logged(m')
  {
    var last := |m.arrived|;
    forall d ensures d in m'.net.delivered <==> LoggedAt(m'.arrived, d) {
      if d in Found(rd, to, body, ipc) {
        assert d in m'.arrived[last].what;
      } else if LoggedAt(m.arrived, d) {
        var i :| 0 <= i < |m.arrived| && d in m.arrived[i].what;
        assert d in m'.arrived[i].what;
      }
    }
  }

  lemma InjectKeepsNumbers(m: Mail, m': Mail, origin: Id, session: Id, envelope: Envelope, means: Means)
    requires Steady(m) && Moves(m, m', Inject(origin, session, envelope, means))
    ensures Numbered(m')
  {
    var rd := DataAt(m.net.entries, origin, session);
    var lists := NodeLists(rd, envelope.to);
    var ids := Reached(lists.Keys, means.nodes);
    HopsAreFinal(m.net.entries, rd, envelope.to, envelope.body, ids);
    HopsFrom(ids, lists, envelope.body);
    forall i | |m.net.hops| <= i < |m'.net.hops|
      ensures m'.net.hops[i].envelope.body == envelope.body && m'.net.hops[i].dst != origin
    {
      assert m'.net.hops[i] in Hops(ids, lists, envelope.body);
    }
  }

  lemma ReceiveKeepsNumbers(m: Mail, m': Mail, i: nat, means: Means)
    requires Steady(m) && Moves(m, m', Receive(i, means))
    ensures Numbered(m')
  {
    ReceiveHops(m, m', i, means);
    FewerHopsNumbered(m, m', i);
  }

  lemma FewerHopsNumbered(m: Mail, m': Mail, i: nat)
    requires Numbered(m) && i < |m.net.hops| && m'.origins == m.origins
    requires m'.net.hops == m.net.hops[..i] + m.net.hops[i + 1..]
    requires forall j :: 0 <= j < |m'.arrived| ==> m'.arrived[j].body < |m.origins|
    ensures Numbered(m')
  {
    forall j | 0 <= j < |m'.net.hops| ensures m'.net.hops[j] == m.net.hops[if j < i then j else j + 1] {
    }
  }

  lemma NumbersKept(m: Mail, m': Mail, step: NetStep)
    requires Steady(m) && Moves(m, m', step)
    ensures Numbered(m')
  {
    match step
    case Inject(origin, session, envelope, means) =>
      InjectKeepsNumbers(m, m', origin, session, envelope, means);
    case Receive(i, means) => ReceiveKeepsNumbers(m, m', i, means);
    case Drop(i) => FewerHopsNumbered(m, m', i);
  }

  lemma LoggedKept(m: Mail, m': Mail, step: NetStep)
    requires Logged(m) && MailNext(m, m', step)
    ensures Logged(m')
  {
    match step
    case Inject(origin, session, envelope, means) =>
      LoggedMore(m, m', DataAt(m.net.entries, origin, session), envelope.to, envelope.body, means.ipc);
    case Receive(i, means) =>
      var e := m.net.hops[i].envelope;
      LoggedMore(m, m', ReceiverData(m.net, i), e.to, e.body, means.ipc);
    case Drop(_) =>
  }

  lemma {:induction false} MailRunKeeps(run: seq<Mail>, steps: seq<NetStep>, k: nat, place: Place, o: Id)
    requires MailRun(run, steps) && k < |run|
    ensures Inv(run[k]) && Increasing(Queue(run[k], place, o))
  {
    if k == 0 {
      InitKeeps(run[0].net);
      assert Queue(run[0], place, o) == [];
    } else {
      var before := k - 1;
      MailRunKeeps(run, steps, before, place, o);
      assert MailNext(run[before], run[before + 1], steps[before]);
      NetInvKept(run[before].net, run[k].net, steps[before]);
      NextMoves(run[before], run[k], steps[before]);
      NumbersKept(run[before], run[k], steps[before]);
      LoggedKept(run[before], run[k], steps[before]);
      QueueKept(run[before], run[k], steps[before], place, o);
    }
  }

  /**
   At every destination the envelopes of one node arrive in the order it routed them, none twice, whatever is
   lost on the way and whichever other nodes send there too; those that arrive later were routed later.
   */
  lemma ArrivesInOrder(run: seq<Mail>, steps: seq<NetStep>, k: nat, place: Place, o: Id)
    requires MailRun(run, steps) && k < |run|
    ensures Increasing(Arrivals(run[k].arrived, run[k].origins, place, o))
    ensures Before(Arrivals(run[k].arrived, run[k].origins, place, o),
                   Waiting(run[k].net.hops, run[k].origins, place, o))
  {
    MailRunKeeps(run, steps, k, place, o);
    var arrivals := Arrivals(run[k].arrived, run[k].origins, place, o);
    var waiting := Waiting(run[k].net.hops, run[k].origins, place, o);
    var queue := Queue(run[k], place, o);
    assert forall i :: 0 <= i < |arrivals| ==> queue[i] == arrivals[i];
    assert forall i :: 0 <= i < |waiting| ==> queue[|arrivals| + i] == waiting[i];
  }

  lemma {:induction false} ArrivedIs(arrived: seq<Arrival>, origins: seq<Id>, place: Place, o: Id, b: nat)
    requires forall i, d :: 0 <= i < |arrived| && d in arrived[i].what ==> d.body == arrived[i].body
    ensures b in Arrivals(arrived, origins, place, o) <==> From(origins, o, b) && LoggedAt(arrived, For(place, b))
  {
    if arrived != [] {
      var n := |arrived| - 1;
      ArrivedIs(arrived[..n], origins, place, o, b);
      LoggedAtLast(arrived, For(place, b));
    }
  }

  lemma LoggedAtLast(arrived: seq<Arrival>, d: Delivery)
    requires arrived != []
    ensures LoggedAt(arrived, d) <==> LoggedAt(arrived[..|arrived| - 1], d) || d in arrived[|arrived| - 1].what
  {
    var init := arrived[..|arrived| - 1];
    if LoggedAt(init, d) {
      var i :| 0 <= i < |init| && d in init[i].what;
      assert d in arrived[i].what;
    }
    if LoggedAt(arrived, d) && d !in arrived[|arrived| - 1].what {
      var i :| 0 <= i < |arrived| && d in arrived[i].what;
      assert d in init[i].what;
    }
  }

  /** With nothing lost and nothing on its way, what has arrived is exactly what was promised there, in order. */
  lemma AllArriveInOrder(run: seq<Mail>, steps: seq<NetStep>, k: nat, place: Place, o: Id)
    requires MailRun(run, steps) && k < |run| && run[k].net.hops == [] && run[k].net.lost == multiset{}
    ensures var arrivals := Arrivals(run[k].arrived, run[k].origins, place, o);
            && Increasing(arrivals)
            && forall b: nat :: b in arrivals <==> From(run[k].origins, o, b) && For(place, b) in run[k].net.promised
  {
    ArrivesInOrder(run, steps, k, place, o);
    MailRunKeeps(run, steps, k, place, o);
    forall b: nat
      ensures b in Arrivals(run[k].arrived, run[k].origins, place, o) <==>
              From(run[k].origins, o, b) && For(place, b) in run[k].net.promised
    {
      ArrivedIs(run[k].arrived, run[k].origins, place, o, b);
    }
  }
}
