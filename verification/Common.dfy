/** Identifiers and the optional value shared by every module. */
module Common {

  /** A UUID.  Only equality, the null value and the strict total order matter, so a number stands for it. */
  type Id = nat

  const NULL_ID: Id := 0

  datatype Option<+T> = None | Some(value: T)

  /** A non-empty set of ids has a least one: `std::map` is walked in ascending key order. */
  lemma {:induction false} LeastOf(ids: set<Id>) returns (least: Id)
    requires ids != {}
    ensures least in ids && forall n :: n in ids ==> least <= n
  {
    var first :| first in ids;
    var below := set n | n in ids && n < first;
    if below == {} {
      least := first;
      forall n | n in ids ensures first <= n {
        assert n !in below;
      }
    } else {
      assert below < ids by { assert first in ids && first !in below; }
      least := LeastOf(below);
      forall n | n in ids ensures least <= n {
        assert least in below;
        if n < first { assert n in below; }
      }
    }
  }

  lemma LeastExists(ids: set<Id>)
    requires ids != {}
    ensures exists least :: least in ids && forall n :: n in ids ==> least <= n
  {
    var least := LeastOf(ids);
  }

  ghost function Least(ids: set<Id>): (least: Id)
    requires ids != {}
    ensures least in ids && forall n :: n in ids ==> least <= n
  {
    LeastExists(ids);
    var least :| least in ids && forall n :: n in ids ==> least <= n;
    least
  }

  /** The ids a walk in ascending order has passed. */
  ghost predicate Prefix(done: set<Id>, ids: set<Id>) {
    done <= ids && forall d, n :: d in done && n in ids && n !in done ==> d < n
  }

  method NextId(ids: set<Id>, done: set<Id>) returns (n: Id)
    requires Prefix(done, ids) && done != ids
    ensures n in ids && n !in done && forall m :: m in ids && m !in done ==> n <= m
    ensures Prefix(done + {n}, ids)
  {
    var left := ids - done;
    assert ids == done + left;
    LeastExists(left);
    n :| n in left && forall m :: m in left ==> n <= m;
    forall m | m in ids && m !in done ensures n <= m {
      assert m in left;
    }
  }
}
