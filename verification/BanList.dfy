/**
 The list of clients refused for asking for unmapped URLs (BanList.cc, and UrlRouter::handle).  Entries
 expire lazily; the reference below keeps the whole history of an address and expires nothing.
 A request reads the clock once, and requests are handled one at a time.
 */
module BanList {
  import opened Common

  /** Counts are 32-bit unsigned. */
  const UINT_RANGE: nat := 0x1_0000_0000

  datatype Limits = Limits(countToBan: nat, window: int) {
    predicate Valid() { countToBan < UINT_RANGE && window >= 0 }
  }

  datatype Entry = Entry(count: nat, stamp: int)

  type Table = map<string, Entry>

  function Increment(count: nat): nat {
    (count + 1) % UINT_RANGE
  }

  predicate HasExpired(limits: Limits, e: Entry, now: int) {
    now - e.stamp > limits.window
  }

  function Checked(limits: Limits, t: Table, addr: string, now: int): Table {
    if addr !in t then t
    else if HasExpired(limits, t[addr], now) then t - {addr}
    else if t[addr].count == limits.countToBan then t[addr := Entry(Increment(t[addr].count), now)]
    else t
  }

  predicate Banned(limits: Limits, t: Table, addr: string, now: int) {
    var t' := Checked(limits, t, addr, now);
    addr in t' && t'[addr].count >= limits.countToBan
  }

  function Tracked(t: Table, addr: string, now: int): Table {
    if addr in t then t[addr := Entry(Increment(t[addr].count), now)] else t[addr := Entry(1, now)]
  }

  function Cleaned(limits: Limits, t: Table, now: int): Table {
    map addr | addr in t && !HasExpired(limits, t[addr], now) :: t[addr]
  }

  class BanList {
    const limits: Limits
    var table: Table

    constructor (limits: Limits)
      ensures this.limits == limits && table == map[]
    {
      this.limits := limits;
      table := map[];
    }

    method IsBanned(addr: string, now: int) returns (banned: bool)
      modifies this
      ensures banned == Banned(limits, old(table), addr, now) && table == Checked(limits, old(table), addr, now)
    {
      if addr !in table { return false; }
      if HasExpired(limits, table[addr], now) {
        table := table - {addr};
        return false;
      }
      if table[addr].count == limits.countToBan {
        table := table[addr := Entry(Increment(table[addr].count), now)];
      }
      banned := table[addr].count >= limits.countToBan;
    }

    method Track(addr: string, now: int)
      modifies this
      ensures table == Tracked(old(table), addr, now)
    {
      if addr !in table {
        table := table[addr := Entry(1, now)];
      } else {
        table := table[addr := Entry(Increment(table[addr].count), now)];
      }
    }

    method Cleanup(now: int)
      modifies this
      ensures table == Cleaned(limits, old(table), now)
      // exactly the entries that have not expired are left
      ensures forall a :: a in table ==> a in old(table) && table[a] == old(table)[a]
      ensures forall a :: a in table ==> !HasExpired(limits, table[a], now)
      ensures forall a :: a in old(table) && !HasExpired(limits, old(table)[a], now) ==> a in table
    {
      var left := table.Keys;
      while left != {}
        invariant left <= old(table).Keys
        invariant forall a :: a in table <==> a in old(table) && (a in left || !HasExpired(limits, old(table)[a], now))
        invariant forall a :: a in table ==> table[a] == old(table)[a]
        decreases left
      {
        var addr :| addr in left;
        if HasExpired(limits, table[addr], now) {
          table := table - {addr};
        }
        left := left - {addr};
      }
    }

    /** A request from `addr`; `unmapped` when no handler is found and the answer is 404. Refused with 429. */
    method Serve(addr: string, now: int, unmapped: bool) returns (refused: bool)
      modifies this
      ensures refused == Banned(limits, old(table), addr, now)
      ensures table == Served(limits, old(table), addr, now, unmapped)
    {
      refused := IsBanned(addr, now);
      if !refused && unmapped && addr != "" {
        Track(addr, now);
      }
    }
  }

  function Served(limits: Limits, t: Table, addr: string, now: int, unmapped: bool): Table {
    var t' := Checked(limits, t, addr, now);
    if !Banned(limits, t, addr, now) && unmapped && addr != "" then Tracked(t', addr, now) else t'
  }

  // ---------------------------------------------------------------------------------------------
  // The reference: what one address did, with nothing ever forgotten.

  datatype Visit = Visit(time: int, unmapped: bool)

  /** The times of all unmapped requests that were not refused, and of the last first refusal. */
  datatype Record = Record(strikes: seq<int>, banned: Option<int>)

  function Last(times: seq<int>): int
    requires times != []
  {
    times[|times| - 1]
  }

  /** The last `countToBan` strikes follow each other, and now follows them, with no gap above the window. */
  ghost predicate Hot(limits: Limits, strikes: seq<int>, now: int) {
    && |strikes| >= limits.countToBan
    && (strikes != [] ==> now - Last(strikes) <= limits.window)
    && forall i :: |strikes| - limits.countToBan < i < |strikes| ==> strikes[i] - strikes[i - 1] <= limits.window
  }

  predicate InBan(limits: Limits, r: Record, now: int) {
    r.banned.Some? && now - r.banned.value <= limits.window
  }

  ghost predicate Refuses(limits: Limits, r: Record, now: int) {
    InBan(limits, r, now) || Hot(limits, r.strikes, now)
  }

  ghost function Observe(limits: Limits, r: Record, v: Visit): Record {
    if InBan(limits, r, v.time) then r
    else if Hot(limits, r.strikes, v.time) then r.(banned := Some(v.time))
    else if v.unmapped then r.(strikes := r.strikes + [v.time])
    else r
  }

  ghost function History(limits: Limits, visits: seq<Visit>): Record {
    if visits == [] then Record([], None)
    else Observe(limits, History(limits, visits[..|visits| - 1]), visits[|visits| - 1])
  }

  // ---------------------------------------------------------------------------------------------
  // The lazy list agrees with the reference.

  /** The strikes at the end that follow each other without a gap. */
  function Chain(window: int, strikes: seq<int>): nat {
    if strikes == [] then 0
    else
      var init := strikes[..|strikes| - 1];
      if init == [] || Last(strikes) - Last(init) > window then 1 else 1 + Chain(window, init)
  }

  lemma {:induction false} ChainIsGapFree(window: int, strikes: seq<int>, n: nat)
    requires n >= 1
    ensures Chain(window, strikes) >= n <==>
              |strikes| >= n && forall i :: |strikes| - n < i < |strikes| ==> strikes[i] - strikes[i - 1] <= window
  {
    if strikes != [] && n > 1 {
      var m := |strikes| - 1;
      var init := strikes[..m];
      ChainIsGapFree(window, init, n - 1);
      if init != [] && Last(strikes) - Last(init) <= window {
        if |strikes| >= n {
          assert forall i :: 0 < i < m ==> init[i] - init[i - 1] == strikes[i] - strikes[i - 1];
        }
      } else if init != [] && |strikes| >= n {
        assert strikes[m] - strikes[m - 1] > window;
      }
    }
  }

  /** What an entry, or its absence, says of the record by the time `clock`. */
  ghost predicate Agrees(limits: Limits, e: Option<Entry>, r: Record, clock: int) {
    match e
    case None =>
      && (r.strikes != [] ==> clock - Last(r.strikes) > limits.window)
      && (r.banned.Some? ==> clock - r.banned.value > limits.window)
    case Some(Entry(count, stamp)) =>
      && stamp <= clock && r.strikes != [] && 1 <= count <= limits.countToBan + 1
      && (count <= limits.countToBan ==>
            && stamp == Last(r.strikes) && count == Chain(limits.window, r.strikes)
            && (r.banned.Some? ==> stamp - r.banned.value > limits.window))
      && (count == limits.countToBan + 1 ==> r.banned == Some(stamp) && Last(r.strikes) <= stamp)
  }

  function Find(t: Table, addr: string): Option<Entry> {
    if addr in t then Some(t[addr]) else None
  }

  /** Limits for which lazy expiry works: at least one strike, and no wrap of the count. */
  predicate Sound(limits: Limits) {
    limits.Valid() && 1 <= limits.countToBan < UINT_RANGE - 1
  }

  lemma HotIsChain(limits: Limits, strikes: seq<int>, now: int)
    requires Sound(limits)
    ensures Hot(limits, strikes, now) <==>
              && strikes != [] && now - Last(strikes) <= limits.window
              && Chain(limits.window, strikes) >= limits.countToBan
  {
    ChainIsGapFree(limits.window, strikes, limits.countToBan);
  }

  lemma ServedAgrees(limits: Limits, t: Table, r: Record, addr: string, clock: int, v: Visit)
    requires Sound(limits) && addr != "" && clock <= v.time && Agrees(limits, Find(t, addr), r, clock)
    ensures Banned(limits, t, addr, v.time) <==> Refuses(limits, r, v.time)
    ensures Agrees(limits, Find(Served(limits, t, addr, v.time, v.unmapped), addr), Observe(limits, r, v), v.time)
  {
    HotIsChain(limits, r.strikes, v.time);
    var more := r.strikes + [v.time];
    assert more[..|r.strikes|] == r.strikes;
  }

  lemma TimePasses(limits: Limits, e: Option<Entry>, r: Record, clock: int, now: int)
    requires Agrees(limits, e, r, clock) && clock <= now
    ensures Agrees(limits, e, r, now)
  {
  }

  lemma CleanedAgrees(limits: Limits, t: Table, r: Record, addr: string, clock: int, now: int)
    requires Agrees(limits, Find(t, addr), r, clock) && clock <= now
    ensures Agrees(limits, Find(Cleaned(limits, t, now), addr), r, now)
  {
  }

  datatype Event = Request(addr: string, now: int, unmapped: bool) | Cleanup(now: int)

  function After(limits: Limits, events: seq<Event>): Table {
    if events == [] then map[]
    else
      var before := After(limits, events[..|events| - 1]);
      match events[|events| - 1]
      case Request(addr, now, unmapped) => Served(limits, before, addr, now, unmapped)
      case Cleanup(now) => Cleaned(limits, before, now)
  }

  function VisitsOf(events: seq<Event>, addr: string): seq<Visit> {
    if events == [] then []
    else
      var last := events[|events| - 1];
      VisitsOf(events[..|events| - 1], addr)
        + if last.Request? && last.addr == addr then [Visit(last.now, last.unmapped)] else []
  }

  ghost predicate Ordered(events: seq<Event>) {
    forall i, j :: 0 <= i < j < |events| ==> events[i].now <= events[j].now
  }

  lemma OthersUntouched(limits: Limits, t: Table, addr: string, now: int, unmapped: bool, other: string)
    requires other != addr
    ensures Find(Served(limits, t, addr, now, unmapped), other) == Find(t, other)
  {
  }

  lemma {:induction false} RunAgrees(limits: Limits, events: seq<Event>, addr: string, clock: int)
    requires Sound(limits) && addr != "" && Ordered(events) && (events != [] ==> events[|events| - 1].now <= clock)
    ensures Agrees(limits, Find(After(limits, events), addr), History(limits, VisitsOf(events, addr)), clock)
  {
    if events != [] {
      var n := |events| - 1;
      var (init, last) := (events[..n], events[n]);
      RunAgrees(limits, init, addr, last.now);
      var before := History(limits, VisitsOf(init, addr));
      match last {
        case Cleanup(now) =>
          assert VisitsOf(events, addr) == VisitsOf(init, addr);
          CleanedAgrees(limits, After(limits, init), before, addr, now, now);
        case Request(a, now, unmapped) =>
          if a == addr {
            ServedAgrees(limits, After(limits, init), before, addr, now, Visit(now, unmapped));
            assert VisitsOf(events, addr)[..|VisitsOf(init, addr)|] == VisitsOf(init, addr);
          } else {
            assert VisitsOf(events, addr) == VisitsOf(init, addr);
            OthersUntouched(limits, After(limits, init), a, now, unmapped, addr);
          }
      }
      TimePasses(limits, Find(After(limits, events), addr), History(limits, VisitsOf(events, addr)), last.now, clock);
    }
  }

  /**
   After any requests and cleanups with a clock that never goes back, a request is refused exactly when the
   history of its address says so, wherever cleanups ran and whatever other addresses did.
   */
  lemma LazyAgreesWithHistory(limits: Limits, events: seq<Event>, addr: string, now: int)
    requires Sound(limits) && addr != "" && Ordered(events) && (events != [] ==> events[|events| - 1].now <= now)
    ensures Banned(limits, After(limits, events), addr, now)
        <==> Refuses(limits, History(limits, VisitsOf(events, addr)), now)
    ensures addr in After(limits, events) ==> After(limits, events)[addr].count <= limits.countToBan + 1
  {
    RunAgrees(limits, events, addr, now);
    ServedAgrees(limits, After(limits, events), History(limits, VisitsOf(events, addr)), addr, now, Visit(now, false));
  }

  /** Strikes come before the clock, and a ban after the strikes that caused it. */
  lemma {:induction false} HistoryOrdered(limits: Limits, visits: seq<Visit>, clock: int)
    requires Sound(limits) && forall i, j :: 0 <= i < j < |visits| ==> visits[i].time <= visits[j].time
    requires visits != [] ==> visits[|visits| - 1].time <= clock
    ensures var r := History(limits, visits);
            && (r.strikes != [] ==> Last(r.strikes) <= clock)
            && (r.banned.Some? ==> r.banned.value <= clock && r.strikes != [])
            && (r.banned.Some? && clock - r.banned.value <= limits.window ==> Last(r.strikes) <= r.banned.value)
  {
    if visits != [] {
      var n := |visits| - 1;
      HistoryOrdered(limits, visits[..n], visits[n].time);
    }
  }

  /** A ban starts with the first refusal and lasts exactly one window: up to then all is refused, then nothing. */
  lemma BanLastsOneWindow(limits: Limits, visits: seq<Visit>, first: Visit, now: int)
    requires Sound(limits) && forall i, j :: 0 <= i < j < |visits| ==> visits[i].time <= visits[j].time
    requires (visits != [] ==> visits[|visits| - 1].time <= first.time) && first.time <= now
    requires var r := History(limits, visits); Refuses(limits, r, first.time) && !InBan(limits, r, first.time)
    ensures var r := History(limits, visits + [first]);
            && r.banned == Some(first.time)
            && (Refuses(limits, r, now) <==> now - first.time <= limits.window)
  {
    HistoryOrdered(limits, visits, first.time);
    assert (visits + [first])[..|visits|] == visits;
  }

  lemma {:induction false} VisitsCat(a: seq<Event>, b: seq<Event>, addr: string)
    ensures VisitsOf(a + b, addr) == VisitsOf(a, addr) + VisitsOf(b, addr)
  {
    if b == [] {
      assert a + b == a;
    } else {
      assert (a + b)[..|a + b| - 1] == a + b[..|b| - 1];
      VisitsCat(a, b[..|b| - 1], addr);
    }
  }

  /** While a ban lasts, visits are refused and leave no trace. */
  lemma {:induction false} BannedVisitsLeaveNoTrace(limits: Limits, before: seq<Visit>, during: seq<Visit>)
    requires forall v :: v in during ==> InBan(limits, History(limits, before), v.time)
    ensures History(limits, before + during) == History(limits, before)
  {
    if during == [] {
      assert before + during == before;
    } else {
      var n := |during| - 1;
      BannedVisitsLeaveNoTrace(limits, before, during[..n]);
      assert (before + during)[..|before + during| - 1] == before + during[..n];
      assert during[n] in during;
    }
  }

  /** Visits of an address happen at the times of its requests. */
  lemma {:induction false} VisitTimes(events: seq<Event>, addr: string, v: Visit)
    requires v in VisitsOf(events, addr)
    ensures exists e :: e in events && e.now == v.time
  {
    var last := events[|events| - 1];
    if v in VisitsOf(events[..|events| - 1], addr) {
      VisitTimes(events[..|events| - 1], addr, v);
      var e :| e in events[..|events| - 1] && e.now == v.time;
      assert e in events;
    } else {
      assert last in events && last.now == v.time;
    }
  }

  ghost predicate InTimeOrder(visits: seq<Visit>) {
    forall i, j :: 0 <= i < j < |visits| ==> visits[i].time <= visits[j].time
  }

  lemma {:induction false} VisitsOrdered(events: seq<Event>, addr: string)
    requires Ordered(events)
    ensures InTimeOrder(VisitsOf(events, addr))
  {
    if events != [] {
      var n := |events| - 1;
      var (init, visits) := (VisitsOf(events[..n], addr), VisitsOf(events, addr));
      VisitsOrdered(events[..n], addr);
      forall v | v in init ensures v.time <= events[n].now {
        EarlierVisit(events, addr, v);
      }
      assert visits == init || visits == init + [Visit(events[n].now, events[n].unmapped)];
    }
  }

  lemma EarlierVisit(events: seq<Event>, addr: string, v: Visit)
    requires Ordered(events) && events != [] && v in VisitsOf(events[..|events| - 1], addr)
    ensures v.time <= events[|events| - 1].now
  {
    var init := events[..|events| - 1];
    VisitTimes(init, addr, v);
    var e :| e in init && e.now == v.time;
    var i :| 0 <= i < |init| && init[i] == e;
    assert events[i].now <= events[|events| - 1].now;
  }

  lemma LastVisit(events: seq<Event>, addr: string, now: int)
    requires Ordered(events) && (events != [] ==> events[|events| - 1].now <= now)
    ensures var visits := VisitsOf(events, addr); visits != [] ==> visits[|visits| - 1].time <= now
  {
    var visits := VisitsOf(events, addr);
    if visits != [] {
      VisitTimes(events, addr, visits[|visits| - 1]);
      var e :| e in events && e.now == visits[|visits| - 1].time;
      var i :| 0 <= i < |events| && events[i] == e;
    }
  }

  /** The request that starts a ban: refused by the list, with no ban in progress. */
  ghost predicate StartsBan(limits: Limits, events: seq<Event>, addr: string, time: int) {
    && Banned(limits, After(limits, events), addr, time)
    && !InBan(limits, History(limits, VisitsOf(events, addr)), time)
  }

  /**
   The same of the list itself: whatever requests and cleanups follow while the ban lasts, the address is
   refused up to the end of the window that began with its first refusal, and not right after it.
   */
  lemma ListBanLastsOneWindow(
    limits: Limits, before: seq<Event>, addr: string, first: int, unmapped: bool, during: seq<Event>, now: int)
    requires var events := before + [Request(addr, first, unmapped)] + during;
             Sound(limits) && addr != "" && Ordered(events) && events[|events| - 1].now <= now
    requires StartsBan(limits, before, addr, first)
    requires forall e :: e in during ==> first <= e.now <= first + limits.window
    ensures Banned(limits, After(limits, before + [Request(addr, first, unmapped)] + during), addr, now)
        <==> now - first <= limits.window
  {
    var start := Request(addr, first, unmapped);
    var (events, begun) := (before + [start] + during, before + [start]);
    assert events[..|before|] == before && events[|before|] == start;
    forall i, j | 0 <= i < j < |before| ensures before[i].now <= before[j].now {
      assert events[i] == before[i] && events[j] == before[j];
    }
    if before != [] { assert events[|before| - 1] == before[|before| - 1]; }
    assert first <= now;
    var (visits, visit) := (VisitsOf(before, addr), Visit(first, unmapped));
    VisitsOrdered(before, addr);
    LastVisit(before, addr, first);
    LazyAgreesWithHistory(limits, before, addr, first);
    BanLastsOneWindow(limits, visits, visit, now);
    assert begun[..|before|] == before;
    assert VisitsOf(begun, addr) == visits + [visit];
    VisitsCat(begun, during, addr);
    forall v | v in VisitsOf(during, addr) ensures InBan(limits, History(limits, visits + [visit]), v.time) {
      VisitTimes(during, addr, v);
    }
    BannedVisitsLeaveNoTrace(limits, visits + [visit], VisitsOf(during, addr));
    LazyAgreesWithHistory(limits, events, addr, now);
  }

  // Outside these limits the list does something else.

  /** With a count of zero an address that never did anything counts as hot, but is not in the list. */
  lemma ZeroCountDiffers(window: int, addr: string, now: int)
    requires window >= 0
    ensures var limits := Limits(0, window);
            !Banned(limits, map[], addr, now) && Refuses(limits, History(limits, []), now)
  {
  }

  /** With the largest count, the increment that should start the ban wraps to zero, so no ban ever starts. */
  lemma LargestCountNeverBans(window: int, t: Table, addr: string, now: int)
    requires window >= 0 && forall a :: a in t ==> t[a].count < UINT_RANGE
    ensures !Banned(Limits(UINT_RANGE - 1, window), t, addr, now)
  {
  }

  ghost predicate Upto(events: seq<Event>, now: int) {
    Ordered(events) && (events != [] ==> events[|events| - 1].now <= now)
  }

  ghost predicate Agreed(limits: Limits, events: seq<Event>, addr: string, now: int) {
    Banned(limits, After(limits, events), addr, now) <==> Refuses(limits, History(limits, VisitsOf(events, addr)), now)
  }

  ghost predicate AlwaysAgrees(limits: Limits) {
    forall events, addr, now :: addr != "" && Upto(events, now) ==> Agreed(limits, events, addr, now)
  }

  /** `n` unmapped requests, all at time zero. */
  function Burst(addr: string, n: nat): seq<Event> {
    seq(n, i => Request(addr, 0, true))
  }

  function Zeros(n: nat): (zeros: seq<int>)
    ensures |zeros| == n
  {
    if n == 0 then [] else Zeros(n - 1) + [0]
  }

  lemma {:induction false} ZerosAre(n: nat)
    ensures forall i :: 0 <= i < n ==> Zeros(n)[i] == 0
  {
    if n > 0 { ZerosAre(n - 1); }
  }

  lemma BurstMore(addr: string, n: nat)
    ensures VisitsOf(Burst(addr, n + 1), addr) == VisitsOf(Burst(addr, n), addr) + [Visit(0, true)]
  {
    assert Burst(addr, n + 1)[..n] == Burst(addr, n);
  }

  lemma HistoryMore(limits: Limits, visits: seq<Visit>, v: Visit)
    ensures History(limits, visits + [v]) == Observe(limits, History(limits, visits), v)
  {
    assert (visits + [v])[..|visits|] == visits;
  }

  lemma {:induction false} BurstStrikes(limits: Limits, addr: string, n: nat)
    requires n <= limits.countToBan
    ensures History(limits, VisitsOf(Burst(addr, n), addr)) == Record(Zeros(n), None)
  {
    if n > 0 {
      BurstStrikes(limits, addr, n - 1);
      BurstMore(addr, n - 1);
      HistoryMore(limits, VisitsOf(Burst(addr, n - 1), addr), Visit(0, true));
    }
  }

  lemma {:induction false} CountsInRange(limits: Limits, events: seq<Event>)
    ensures forall a :: a in After(limits, events) ==> After(limits, events)[a].count < UINT_RANGE
  {
    if events != [] { CountsInRange(limits, events[..|events| - 1]); }
  }

  /** Lazy expiry agrees with the history on every run iff the limit is neither zero nor the largest count. */
  lemma AlwaysAgreesIff(limits: Limits)
    requires limits.Valid()
    ensures AlwaysAgrees(limits) <==> Sound(limits)
  {
    var addr := "a";
    if limits.countToBan == 0 {
      ZeroCountDiffers(limits.window, addr, 0);
      assert After(limits, []) == map[] && VisitsOf([], addr) == [];
      assert Upto([], 0) && !Agreed(limits, [], addr, 0);
      assert !AlwaysAgrees(limits);
    } else if limits.countToBan == UINT_RANGE - 1 {
      var events := Burst(addr, limits.countToBan);
      BurstStrikes(limits, addr, limits.countToBan);
      ZerosAre(limits.countToBan);
      CountsInRange(limits, events);
      LargestCountNeverBans(limits.window, After(limits, events), addr, 0);
      assert Upto(events, 0) && !Agreed(limits, events, addr, 0);
      assert !AlwaysAgrees(limits);
    } else {
      forall events, addr, now | addr != "" && Upto(events, now) ensures Agreed(limits, events, addr, now) {
        LazyAgreesWithHistory(limits, events, addr, now);
      }
    }
  }

  /** A request with no address is not counted, and so never refused. */
  lemma {:induction false} NoAddressNeverBanned(limits: Limits, events: seq<Event>, now: int)
    ensures "" !in After(limits, events) && !Banned(limits, After(limits, events), "", now)
  {
    if events != [] { NoAddressNeverBanned(limits, events[..|events| - 1], now); }
  }
}
