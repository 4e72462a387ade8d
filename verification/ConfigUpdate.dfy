/**
 The body of a session update (Session.cc, applyNewConfig): stop what the new configuration dropped, wait
 for it to exit, start what is new.  `SessionLifecycle` proves that no other body runs meanwhile.
 */
module ConfigUpdate {
  import opened Common

  /** Sessions never forget a computation; `asked` once it has been asked to stop. */
  datatype Computation = Computation(asked: bool)

  datatype Event = Asked(id: Id) | Exited(id: Id) | Started(id: Id)

  datatype Outcome = Done | NotStopped(id: Id) | NotStarted(id: Id)

  type Computations = map<Id, Computation>

  function Defunct(computations: Computations, config: set<Id>): set<Id> {
    computations.Keys - config
  }

  function Fresh(computations: Computations, config: set<Id>): set<Id> {
    config - computations.Keys
  }

  function AskedToStop(computations: Computations, ids: set<Id>): Computations {
    map id | id in computations :: if id in ids then Computation(true) else computations[id]
  }

  function WithStarted(computations: Computations, ids: set<Id>): Computations {
    map id | id in computations.Keys + ids :: if id in ids then Computation(false) else computations[id]
  }

  /** Started and not asked to stop. */
  function Active(computations: Computations): set<Id> {
    set id | id in computations && !computations[id].asked
  }

  /** The computations an update starts before it fails: those below the first one that does not start. */
  ghost function Startable(newcomers: set<Id>, starts: Id -> bool): set<Id> {
    set n | n in newcomers && forall m :: m in newcomers && !starts(m) ==> n < m
  }

  /** One update: `exits` says which computations exit in time, `starts` which can be started. */
  ghost function Updated(before: Computations, config: set<Id>, exits: Id -> bool, starts: Id -> bool): Computations {
    var stopped := AskedToStop(before, Defunct(before, config));
    if forall d :: d in Defunct(before, config) ==> exits(d)
    then WithStarted(stopped, Startable(Fresh(before, config), starts))
    else stopped
  }

  ghost predicate Succeeds(before: Computations, config: set<Id>, exits: Id -> bool, starts: Id -> bool) {
    && (forall d :: d in Defunct(before, config) ==> exits(d))
    && (forall n :: n in Fresh(before, config) ==> starts(n))
  }

  class Session {
    var computations: Computations
    ghost var events: seq<Event>

    constructor ()
      ensures computations == map[] && events == []
    {
      computations, events := map[], [];
    }

    method GetConfigDelta(config: set<Id>) returns (defunct: set<Id>, newcomers: set<Id>)
      ensures defunct == Defunct(computations, config) && newcomers == Fresh(computations, config)
    {
      defunct, newcomers := {}, {};
      var seen: set<Id> := {};
      while seen != config
        invariant seen <= config && newcomers == seen - computations.Keys
        decreases config - seen
      {
        var id := NextOf(config, seen);
        if id !in computations { newcomers := newcomers + {id}; }
        seen := seen + {id};
      }
      seen := {};
      while seen != computations.Keys
        invariant seen <= computations.Keys && defunct == seen - config
        decreases computations.Keys - seen
      {
        var id := NextOf(computations.Keys, seen);
        if id !in config { defunct := defunct + {id}; }
        seen := seen + {id};
      }
    }

    method ShutdownAll(defunct: set<Id>) returns (ghost asks: seq<Event>)
      requires defunct <= computations.Keys
      modifies this
      ensures computations == AskedToStop(old(computations), defunct)
      ensures events == old(events) + asks && forall e :: e in asks <==> e.Asked? && e.id in defunct
    {
      var done: set<Id> := {};
      asks := [];
      while done != defunct
        invariant done <= defunct && computations == AskedToStop(old(computations), done)
        invariant events == old(events) + asks && forall e :: e in asks <==> e.Asked? && e.id in done
        decreases defunct - done
      {
        var d := NextOf(defunct, done);
        assert d in computations;
        computations := computations[d := Computation(true)];
        asks := asks + [Asked(d)];
        events := events + [Asked(d)];
        done := done + {d};
      }
    }

    method WaitForAll(defunct: set<Id>, exits: Id -> bool) returns (outcome: Outcome, ghost waits: seq<Event>)
      modifies this`events
      ensures events == old(events) + waits && forall e :: e in waits ==> e.Exited? && e.id in defunct && exits(e.id)
      ensures outcome.Done? <==> forall d :: d in defunct ==> exits(d)
      ensures outcome.Done? ==> forall d :: d in defunct ==> Exited(d) in waits
      ensures !outcome.Done? ==> outcome.NotStopped? && outcome.id in defunct && !exits(outcome.id)
    {
      var done: set<Id> := {};
      waits := [];
      while done != defunct
        invariant done <= defunct && forall d :: d in done ==> exits(d) && Exited(d) in waits
        invariant events == old(events) + waits
        invariant forall e :: e in waits ==> e.Exited? && e.id in defunct && exits(e.id)
        decreases defunct - done
      {
        var d := NextOf(defunct, done);
        if !exits(d) { return NotStopped(d), waits; }
        waits := waits + [Exited(d)];
        events := events + [Exited(d)];
        done := done + {d};
      }
      outcome := Done;
    }

    method StartAll(newcomers: set<Id>, starts: Id -> bool) returns (outcome: Outcome, ghost begun: seq<Event>)
      requires newcomers !! computations.Keys
      modifies this
      ensures computations == WithStarted(old(computations), Startable(newcomers, starts))
      ensures events == old(events) + begun
      ensures forall e :: e in begun <==> e.Started? && e.id in Startable(newcomers, starts)
      ensures outcome.Done? <==> forall n :: n in newcomers ==> starts(n)
      ensures !outcome.Done? ==> outcome.NotStarted? && outcome.id in newcomers && !starts(outcome.id)
    {
      var done: set<Id> := {};
      begun := [];
      while done != newcomers
        invariant Prefix(done, newcomers) && forall d :: d in done ==> starts(d)
        invariant computations == WithStarted(old(computations), done)
        invariant events == old(events) + begun && forall e :: e in begun <==> e.Started? && e.id in done
        decreases newcomers - done
      {
        var n := NextId(newcomers, done);
        if !starts(n) {
          StopsBelow(newcomers, starts, done, n);
          return NotStarted(n), begun;
        }
        computations := computations[n := Computation(false)];
        begun := begun + [Started(n)];
        events := events + [Started(n)];
        done := done + {n};
      }
      assert Startable(newcomers, starts) == newcomers;
      outcome := Done;
    }

    /** The exceptions of `applyNewConfig` are its outcomes other than `Done`. */
    method ApplyNewConfig(config: set<Id>, exits: Id -> bool, starts: Id -> bool)
      returns (outcome: Outcome, ghost asks: seq<Event>, ghost waits: seq<Event>, ghost begun: seq<Event>)
      modifies this
      ensures computations == Updated(old(computations), config, exits, starts)
      ensures outcome.Done? <==> Succeeds(old(computations), config, exits, starts)
      // every dropped computation is asked, then seen to exit, before anything is started
      ensures events == old(events) + asks + waits + begun
      ensures forall e :: e in asks <==> e.Asked? && e.id in Defunct(old(computations), config)
      ensures forall e :: e in waits ==> e.Exited?
      ensures begun != [] ==> forall d :: d in Defunct(old(computations), config) ==> Exited(d) in waits
      ensures forall e :: e in begun ==> e.Started? && e.id in Fresh(old(computations), config)
    {
      var defunct, newcomers := GetConfigDelta(config);
      asks := ShutdownAll(defunct);
      outcome, waits := WaitForAll(defunct, exits);
      begun := [];
      if outcome.Done? {
        outcome, begun := StartAll(newcomers, starts);
        if begun != [] { assert begun[0] in begun; }
      }
    }
  }

  method NextOf(ids: set<Id>, done: set<Id>) returns (n: Id)
    requires done <= ids && done != ids
    ensures n in ids && n !in done
  {
    assert ids == done + (ids - done);
    n :| n in ids - done;
  }

  lemma StopsBelow(newcomers: set<Id>, starts: Id -> bool, done: set<Id>, stop: Id)
    requires Prefix(done, newcomers) && forall d :: d in done ==> starts(d)
    requires stop in newcomers && stop !in done && !starts(stop)
    requires forall m :: m in newcomers && m !in done ==> stop <= m
    ensures Startable(newcomers, starts) == done
  {
    forall d | d in done ensures d in Startable(newcomers, starts) {
      assert forall m :: m in newcomers && !starts(m) ==> m !in done;
    }
    forall d | d in Startable(newcomers, starts) ensures d in done {
      assert d < stop;
    }
  }

  // ---------------------------------------------------------------------------------------------
  // Runs of updates.

  /** A successful update leaves exactly its configuration active, if and only if it lists none asked to stop before. */
  lemma SuccessMatchesConfigIff(before: Computations, config: set<Id>, exits: Id -> bool, starts: Id -> bool)
    requires Succeeds(before, config, exits, starts)
    ensures Active(Updated(before, config, exits, starts)) == config
        <==> forall id :: id in config && id in before ==> !before[id].asked
  {
    var after := Updated(before, config, exits, starts);
    assert Startable(Fresh(before, config), starts) == Fresh(before, config);
    forall id | id in config && id in before ensures id in Active(after) <==> !before[id].asked {
    }
    forall id ensures id in Active(after) ==> id in config {
    }
  }

  lemma FailureLeavesSubset(before: Computations, config: set<Id>, exits: Id -> bool, starts: Id -> bool)
    ensures Active(Updated(before, config, exits, starts)) <= config
  {
  }

  /** One update of a run: its configuration and what the processes did. */
  datatype Update = Update(config: set<Id>, exits: Id -> bool, starts: Id -> bool)

  ghost function After(updates: seq<Update>): Computations {
    if updates == [] then map[]
    else
      var last := updates[|updates| - 1];
      Updated(After(updates[..|updates| - 1]), last.config, last.exits, last.starts)
  }

  /** Listed, later dropped. */
  ghost predicate Dropped(updates: seq<Update>, id: Id) {
    exists i, j :: 0 <= i < j < |updates| && id in updates[i].config && id !in updates[j].config
  }

  ghost predicate NeverRelists(updates: seq<Update>) {
    forall k, id :: 0 <= k < |updates| && id in updates[k].config ==> !Dropped(updates[..k], id)
  }

  /** Whatever was started was listed, and whatever was asked to stop was dropped, even by updates that failed. */
  lemma {:induction false} History(updates: seq<Update>)
    ensures forall id :: id in After(updates) ==> exists i :: 0 <= i < |updates| && id in updates[i].config
    ensures forall id :: id in After(updates) && After(updates)[id].asked ==> Dropped(updates, id)
  {
    if updates != [] {
      var n := |updates| - 1;
      History(updates[..n]);
      var before := After(updates[..n]);
      forall id | id in After(updates)
        ensures exists i :: 0 <= i < |updates| && id in updates[i].config
        ensures After(updates)[id].asked ==> Dropped(updates, id)
      {
        if id in before {
          var i :| 0 <= i < n && id in updates[..n][i].config;
          assert id in updates[i].config;
          if before[id].asked {
            var a, b :| 0 <= a < b < n && id in updates[..n][a].config && id !in updates[..n][b].config;
            assert id in updates[a].config && id !in updates[b].config;
          } else if id !in updates[n].config {
            assert Dropped(updates, id);
          }
        } else {
          assert id in updates[n].config;
        }
      }
    }
  }

  /**
   After any run of updates that never re-list a dropped id, a successful update leaves exactly its
   configuration active, whatever failed before; a failed one leaves part of it.
   */
  lemma UpdatesConverge(updates: seq<Update>)
    requires updates != [] && NeverRelists(updates)
    ensures var last := updates[|updates| - 1];
            && Active(After(updates)) <= last.config
            && (Succeeds(After(updates[..|updates| - 1]), last.config, last.exits, last.starts) ==>
                  Active(After(updates)) == last.config)
  {
    var n := |updates| - 1;
    var last := updates[n];
    History(updates[..n]);
    FailureLeavesSubset(After(updates[..n]), last.config, last.exits, last.starts);
    if Succeeds(After(updates[..n]), last.config, last.exits, last.starts) {
      SuccessMatchesConfigIff(After(updates[..n]), last.config, last.exits, last.starts);
    }
  }

  /** A computation dropped and listed again is not restarted, though every update succeeds. */
  lemma RelistedIsNotRestarted(id: Id) returns (updates: seq<Update>)
    ensures |updates| == 3 && updates[0].config == updates[2].config == {id} && updates[1].config == {}
    ensures forall k :: 0 <= k < 3 ==>
              Succeeds(After(updates[..k]), updates[k].config, updates[k].exits, updates[k].starts)
    ensures Active(After(updates)) == {}
  {
    var on := Update({id}, _ => true, _ => true);
    updates := [on, Update({}, _ => true, _ => true), on];
    assert updates[..1][..0] == [] && updates[..2][..1] == updates[..1];
    assert After(updates[..1]) == map[id := Computation(false)];
    assert After(updates[..2]) == map[id := Computation(true)];
    assert After(updates) == map[id := Computation(true)];
  }

  /** Over any run of updates nothing started is forgotten, and nothing asked to stop is taken back. */
  lemma {:induction false} NothingForgotten(updates: seq<Update>, k: nat, id: Id)
    requires k <= |updates| && id in After(updates[..k])
    ensures id in After(updates)
    ensures After(updates[..k])[id].asked ==> After(updates)[id].asked
  {
    if k == |updates| {
      assert updates[..k] == updates;
    } else {
      var init := updates[..|updates| - 1];
      assert init[..k] == updates[..k];
      NothingForgotten(init, k, id);
    }
  }

  /** A computation is asked to stop by an update, if it is known and not listed, whether it was asked before or not. */
  lemma DroppedIsAsked(before: Computations, config: set<Id>, exits: Id -> bool, starts: Id -> bool, id: Id)
    requires id in before
    ensures id in Updated(before, config, exits, starts)
    ensures Updated(before, config, exits, starts)[id].asked <==> before[id].asked || id !in config
  {
  }
}
