/** The URL router (UrlRouter.cc): path splitting, and a tree of nodes that indexes the mapped paths. */
module UrlRouter {
  import opened Common

  type Path = seq<string>

  /** Handlers are told apart by number. */
  type Handler = nat

  const STAR: string := "*"

  datatype Trie = Trie(constants: map<string, Trie>, variable: Option<Trie>, handler: Option<Handler>)

  const EMPTY_TRIE: Trie := Trie(map[], None, None)

  /** A handler found, and the path elements its variables captured. */
  datatype Match = Match(handler: Handler, variables: seq<string>)

  function Child(t: Trie, element: string): Trie {
    if element == STAR then (if t.variable.Some? then t.variable.value else EMPTY_TRIE)
    else if element in t.constants then t.constants[element] else EMPTY_TRIE
  }

  function WithChild(t: Trie, element: string, child: Trie): Trie {
    if element == STAR then t.(variable := Some(child)) else t.(constants := t.constants[element := child])
  }

  function Insert(t: Trie, path: Path, handler: Handler): Trie
    decreases |path|
  {
    if path == [] then t.(handler := Some(handler))
    else WithChild(t, path[0], Insert(Child(t, path[0]), path[1..], handler))
  }

  /** A constant wins over the variable, and there is no way back. */
  function Handle(t: Trie, path: Path): Option<Match>
    decreases |path|
  {
    if path == [] then (if t.handler.Some? then Some(Match(t.handler.value, [])) else None)
    else if path[0] in t.constants then Handle(t.constants[path[0]], path[1..])
    else if t.variable.Some? then
      match Handle(t.variable.value, path[1..])
      case Some(m) => Some(Match(m.handler, [path[0]] + m.variables))
      case None => None
    else None
  }

  // ---------------------------------------------------------------------------------------------
  // The plain route list.

  datatype Route = Route(pattern: Path, handler: Handler)

  function Build(routes: seq<Route>): Trie {
    if routes == [] then EMPTY_TRIE
    else
      var last := routes[|routes| - 1];
      Insert(Build(routes[..|routes| - 1]), last.pattern, last.handler)
  }

  /** The routes whose pattern has `element` at position `i`, in list order. */
  function Having(routes: seq<Route>, i: nat, element: string): seq<Route> {
    if routes == [] then []
    else
      var last := routes[|routes| - 1];
      Having(routes[..|routes| - 1], i, element)
        + if |last.pattern| > i && last.pattern[i] == element then [last] else []
  }

  function Narrow(routes: seq<Route>, i: nat, element: string): seq<Route> {
    var literal := if element == STAR then [] else Having(routes, i, element);
    if literal != [] then literal else Having(routes, i, STAR)
  }

  function LastOfLength(routes: seq<Route>, n: nat): (found: Option<Route>)
    ensures found.Some? ==> |found.value.pattern| == n
  {
    if routes == [] then None
    else
      var last := routes[|routes| - 1];
      if |last.pattern| == n then Some(last) else LastOfLength(routes[..|routes| - 1], n)
  }

  /** Narrow position by position, then take the last-added route of exact length. */
  function Scan(routes: seq<Route>, path: Path, i: nat): (found: Option<Route>)
    requires i <= |path|
    ensures found.Some? ==> |found.value.pattern| == |path|
    decreases |path| - i
  {
    if i == |path| then LastOfLength(routes, i)
    else Scan(Narrow(routes, i, path[i]), path, i + 1)
  }

  /** The path elements at the pattern's variable positions, from `i` on. */
  function Captured(pattern: Path, path: Path, i: nat): seq<string>
    requires |pattern| == |path|
    decreases |path| - i
  {
    if i >= |path| then []
    else (if pattern[i] == STAR then [path[i]] else []) + Captured(pattern, path, i + 1)
  }

  lemma {:induction false} HavingIs(routes: seq<Route>, i: nat, element: string)
    ensures forall r :: r in Having(routes, i, element) <==>
              r in routes && |r.pattern| > i && r.pattern[i] == element
  {
    if routes != [] {
      var n := |routes| - 1;
      HavingIs(routes[..n], i, element);
      assert routes == routes[..n] + [routes[n]];
    }
  }

  lemma {:induction false} LastOfLengthIs(routes: seq<Route>, n: nat)
    ensures LastOfLength(routes, n).Some? ==>
              LastOfLength(routes, n).value in routes && |LastOfLength(routes, n).value.pattern| == n
    ensures LastOfLength(routes, n).None? ==> forall r :: r in routes ==> |r.pattern| != n
  {
    if routes != [] {
      var m := |routes| - 1;
      LastOfLengthIs(routes[..m], n);
      assert routes == routes[..m] + [routes[m]];
    }
  }

  /** What a scan returns is one of the routes, and each of its elements is the path's or a variable. */
  lemma {:induction false} ScanMatches(routes: seq<Route>, path: Path, i: nat)
    requires i <= |path|
    requires forall r :: r in routes ==> |r.pattern| >= i
    requires forall r, j :: r in routes && 0 <= j < i ==> r.pattern[j] == path[j] || r.pattern[j] == STAR
    ensures Scan(routes, path, i).Some? ==>
              var r := Scan(routes, path, i).value;
              && r in routes && |r.pattern| == |path|
              && forall j :: 0 <= j < |path| ==> r.pattern[j] == path[j] || r.pattern[j] == STAR
    decreases |path| - i
  {
    if i == |path| {
      LastOfLengthIs(routes, i);
    } else {
      HavingIs(routes, i, path[i]);
      HavingIs(routes, i, STAR);
      ScanMatches(Narrow(routes, i, path[i]), path, i + 1);
    }
  }

  // ---------------------------------------------------------------------------------------------
  // The tree agrees with the list.

  function Rest(pattern: Path, i: nat): Path {
    if i <= |pattern| then pattern[i..] else []
  }

  /** The routes seen from position `i`. */
  function From(routes: seq<Route>, i: nat): seq<Route> {
    if routes == [] then []
    else
      var last := routes[|routes| - 1];
      From(routes[..|routes| - 1], i) + [Route(Rest(last.pattern, i), last.handler)]
  }

  lemma BuildSnoc(routes: seq<Route>, last: Route)
    ensures Build(routes + [last]) == Insert(Build(routes), last.pattern, last.handler)
  {
    assert (routes + [last])[..|routes|] == routes;
  }

  lemma FromSnoc(routes: seq<Route>, last: Route, i: nat)
    ensures From(routes + [last], i) == From(routes, i) + [Route(Rest(last.pattern, i), last.handler)]
  {
    assert (routes + [last])[..|routes|] == routes;
  }

  lemma BuildFromSnoc(routes: seq<Route>, last: Route, i: nat)
    ensures Build(From(routes + [last], i)) == Insert(Build(From(routes, i)), Rest(last.pattern, i), last.handler)
  {
    FromSnoc(routes, last, i);
    BuildSnoc(From(routes, i), Route(Rest(last.pattern, i), last.handler));
  }

  predicate HasChild(t: Trie, element: string) {
    if element == STAR then t.variable.Some? else element in t.constants
  }

  lemma InsertedChild(t: Trie, path: Path, handler: Handler, element: string)
    ensures var below := path != [] && path[0] == element;
            && HasChild(Insert(t, path, handler), element) == (HasChild(t, element) || below)
            && Child(Insert(t, path, handler), element)
            == if below then Insert(Child(t, element), path[1..], handler) else Child(t, element)
  {
  }

  /** The subtree under `element` is the tree of the routes having it next. */
  lemma {:induction false} BuildIndexes(routes: seq<Route>, i: nat, element: string)
    ensures Child(Build(From(routes, i)), element) == Build(From(Having(routes, i, element), i + 1))
    ensures HasChild(Build(From(routes, i)), element) <==> Having(routes, i, element) != []
  {
    if routes != [] {
      var n := |routes| - 1;
      var (init, last) := (routes[..n], routes[n]);
      assert routes == init + [last];
      BuildFromSnoc(init, last, i);
      BuildIndexes(init, i, element);
      InsertedChild(Build(From(init, i)), Rest(last.pattern, i), last.handler, element);
      var here := |last.pattern| > i && last.pattern[i] == element;
      assert here <==> Rest(last.pattern, i) != [] && Rest(last.pattern, i)[0] == element;
      assert Having(routes, i, element) == if here then Having(init, i, element) + [last] else Having(init, i, element);
      if here {
        BuildFromSnoc(Having(init, i, element), last, i + 1);
        assert Rest(last.pattern, i)[1..] == Rest(last.pattern, i + 1);
      }
    }
  }

  lemma {:induction false} BuildHandles(routes: seq<Route>, i: nat)
    requires forall r :: r in routes ==> |r.pattern| >= i
    ensures Build(From(routes, i)).handler
         == match LastOfLength(routes, i) case Some(r) => Some(r.handler) case None => None
  {
    if routes != [] {
      var n := |routes| - 1;
      assert routes == routes[..n] + [routes[n]];
      BuildFromSnoc(routes[..n], routes[n], i);
      BuildHandles(routes[..n], i);
    }
  }

  function Answer(found: Option<Route>, path: Path, i: nat): Option<Match>
    requires found.Some? ==> |found.value.pattern| == |path|
  {
    match found
    case Some(r) => Some(Match(r.handler, Captured(r.pattern, path, i)))
    case None => None
  }

  function Prepended(element: string, found: Option<Match>): Option<Match> {
    match found
    case Some(m) => Some(Match(m.handler, [element] + m.variables))
    case None => None
  }

  lemma HandleStep(t: Trie, path: Path)
    requires path != [] && STAR !in t.constants
    ensures var e := path[0];
            Handle(t, path) ==
              if e != STAR && HasChild(t, e) then Handle(Child(t, e), path[1..])
              else if HasChild(t, STAR) then Prepended(e, Handle(Child(t, STAR), path[1..]))
              else None
  {
  }

  lemma ScanEmpty(path: Path, i: nat)
    requires i <= |path|
    ensures Scan([], path, i) == None
    decreases |path| - i
  {
    if i < |path| { ScanEmpty(path, i + 1); }
  }

  /** The routes left after position `i` all have the literal there, or all the variable. */
  lemma AnswerStep(routes: seq<Route>, path: Path, i: nat)
    requires i < |path|
    ensures var (e, next) := (path[i], Narrow(routes, i, path[i]));
            Answer(Scan(routes, path, i), path, i) ==
              if e != STAR && Having(routes, i, e) != [] then Answer(Scan(next, path, i + 1), path, i + 1)
              else Prepended(e, Answer(Scan(next, path, i + 1), path, i + 1))
  {
    HavingIs(routes, i, path[i]);
    HavingIs(routes, i, STAR);
    var next := Narrow(routes, i, path[i]);
    ScanFromList(next, path, i + 1);
    var found := Scan(next, path, i + 1);
    assert Scan(routes, path, i) == found;
    if found.Some? {
      var r := found.value;
      assert r.pattern[i] == if path[i] != STAR && Having(routes, i, path[i]) != [] then path[i] else STAR;
      assert Captured(r.pattern, path, i)
          == (if r.pattern[i] == STAR then [path[i]] else []) + Captured(r.pattern, path, i + 1);
      assert [] + Captured(r.pattern, path, i + 1) == Captured(r.pattern, path, i + 1);
    }
  }

  lemma {:induction false} ScanFromList(routes: seq<Route>, path: Path, i: nat)
    requires i <= |path|
    ensures Scan(routes, path, i).Some? ==> Scan(routes, path, i).value in routes
    decreases |path| - i
  {
    if i == |path| {
      LastOfLengthIs(routes, i);
    } else {
      HavingIs(routes, i, path[i]);
      HavingIs(routes, i, STAR);
      ScanFromList(Narrow(routes, i, path[i]), path, i + 1);
    }
  }

  lemma {:induction false} HandleIsScan(routes: seq<Route>, path: Path, i: nat)
    requires i <= |path| && forall r :: r in routes ==> |r.pattern| >= i
    ensures Handle(Build(From(routes, i)), path[i..]) == Answer(Scan(routes, path, i), path, i)
    decreases |path| - i
  {
    if i == |path| {
      BuildHandles(routes, i);
    } else {
      BuildIndexes(routes, i, path[i]);
      BuildIndexes(routes, i, STAR);
      HavingIs(routes, i, path[i]);
      HavingIs(routes, i, STAR);
      NoStarConstant(From(routes, i));
      HandleStep(Build(From(routes, i)), path[i..]);
      AnswerStep(routes, path, i);
      var next := Narrow(routes, i, path[i]);
      if next == [] {
        ScanEmpty(path, i + 1);
      } else {
        assert path[i..][1..] == path[i + 1..];
        HandleIsScan(next, path, i + 1);
      }
    }
  }

  lemma {:induction false} NoStarConstant(routes: seq<Route>)
    ensures STAR !in Build(routes).constants
  {
    if routes != [] {
      NoStarConstant(routes[..|routes| - 1]);
    }
  }

  lemma {:induction false} FromStart(routes: seq<Route>)
    ensures From(routes, 0) == routes
  {
    if routes != [] {
      FromStart(routes[..|routes| - 1]);
    }
  }

  /** The tree built by any sequence of additions answers every path as a scan of the list does, variables included. */
  lemma TreeAnswersAsScan(routes: seq<Route>, path: Path)
    ensures Handle(Build(routes), path) == Answer(Scan(routes, path, 0), path, 0)
  {
    HandleIsScan(routes, path, 0);
    FromStart(routes);
    assert path[0..] == path;
  }

  // ---------------------------------------------------------------------------------------------
  // The tree as it is kept: nodes updated in place.

  /** The variable child is kept under "*", which no constant is. */
  class Node {
    var children: map<string, Node>
    var handler: Option<Handler>
    ghost var trie: Trie
    ghost var repr: set<Node>

    ghost predicate Valid()
      reads this, repr
      ensures Valid() ==> this in repr
      decreases repr
    {
      && this in repr
      && (forall e :: e in children ==> children[e] in repr)
      && (forall e :: e in children ==> children[e].repr < repr && this !in children[e].repr && children[e].Valid())
      && (forall e, f :: e in children && f in children && e != f ==> children[e].repr !! children[f].repr)
      && trie.handler == handler && STAR !in trie.constants
      && (forall e :: e in children <==> HasChild(trie, e))
      && (forall e :: e in children ==> children[e].trie == Child(trie, e))
    }

    constructor ()
      ensures Valid() && fresh(repr) && trie == EMPTY_TRIE
    {
      children, handler := map[], None;
      trie, repr := EMPTY_TRIE, {this};
    }

    /** Recursively adds a split path, attaching the handler where it ends. */
    method Add(elements: Path, index: nat, h: Handler)
      requires Valid() && index <= |elements|
      modifies repr
      ensures Valid() && fresh(repr - old(repr))
      ensures trie == Insert(old(trie), elements[index..], h)
      decreases |elements| - index, 1
    {
      if index == |elements| {
        handler := Some(h);
        trie := trie.(handler := Some(h));
      } else {
        assert elements[index..][1..] == elements[index + 1..];
        if elements[index] in children {
          AddBelow(elements, index, h);
        } else {
          AddNew(elements, index, h);
        }
      }
    }

    method AddNew(elements: Path, index: nat, h: Handler)
      requires Valid() && index < |elements| && elements[index] !in children
      modifies this
      ensures Valid() && fresh(repr - old(repr))
      ensures trie == WithChild(old(trie), elements[index], Insert(EMPTY_TRIE, elements[index + 1..], h))
      decreases |elements| - index, 0
    {
      var p := new Node();
      children := children[elements[index] := p];
      p.Add(elements, index + 1, h);
      Reattach(elements[index]);
    }

    method AddBelow(elements: Path, index: nat, h: Handler)
      requires Valid() && index < |elements| && elements[index] in children
      modifies repr
      ensures Valid() && fresh(repr - old(repr))
      ensures trie == WithChild(old(trie), elements[index],
                                Insert(Child(old(trie), elements[index]), elements[index + 1..], h))
      decreases |elements| - index, 0
    {
      children[elements[index]].Add(elements, index + 1, h);
      Reattach(elements[index]);
    }

    /** The child under `element` is new or has grown; nothing else has changed. */
    ghost method Reattach(element: string)
      requires this in repr && element in children
      requires children[element].Valid() && this !in children[element].repr
      requires forall e :: e in children && e != element ==>
                 children[e] in repr && children[e].repr < repr && this !in children[e].repr && children[e].Valid()
      requires forall e, f :: e in children && f in children && e != f ==> children[e].repr !! children[f].repr
      requires trie.handler == handler && STAR !in trie.constants
      requires forall e :: e != element ==> (e in children <==> HasChild(trie, e))
      requires forall e :: e in children && e != element ==> children[e].trie == Child(trie, e)
      modifies this`repr, this`trie
      ensures Valid() && repr == old(repr + children[element].repr)
      ensures trie == WithChild(old(trie), element, old(children[element].trie))
    {
      ghost var child := children[element];
      ghost var added := WithChild(trie, element, child.trie);
      assert forall e :: HasChild(added, e) <==> e == element || HasChild(trie, e);
      assert forall e :: Child(added, e) == if e == element then child.trie else Child(trie, e);
      assert repr + child.repr > child.repr;
      repr, trie := repr + child.repr, added;
    }

    /** Appends what the variables capture to `variables`; a handler found stands for its call. */
    method HandlePath(elements: Path, index: nat, variables: seq<string>) returns (found: Option<Match>)
      requires Valid() && index <= |elements|
      ensures found == match Handle(trie, elements[index..])
                       case Some(m) => Some(Match(m.handler, variables + m.variables))
                       case None => None
      decreases |elements| - index
    {
      if index == |elements| {
        if handler.Some? {
          assert variables + [] == variables;
          return Some(Match(handler.value, variables));
        }
        return None;
      }
      HandleStep(trie, elements[index..]);
      assert elements[index..][1..] == elements[index + 1..];
      var element := elements[index];
      if element != STAR && element in children {
        found := children[element].HandlePath(elements, index + 1, variables);
      } else if STAR in children {
        found := children[STAR].HandlePath(elements, index + 1, variables + [element]);
        ghost var below := Handle(Child(trie, STAR), elements[index + 1..]);
        if below.Some? {
          assert variables + [element] + below.value.variables == variables + ([element] + below.value.variables);
        }
      } else {
        found := None;
      }
    }
  }

  // ---------------------------------------------------------------------------------------------
  // Path splitting.

  predicate SlashFree(s: string) {
    forall i :: 0 <= i < |s| ==> s[i] != '/'
  }

  predicate IsElement(s: string) {
    s != "" && SlashFree(s)
  }

  /** The length of the slash-free run at the front. */
  function RunLength(s: string): (n: nat)
    ensures n <= |s| && SlashFree(s[..n]) && (n < |s| ==> s[n] == '/')
  {
    if s == "" || s[0] == '/' then 0
    else
      var n := 1 + RunLength(s[1..]);
      assert s[..n] == [s[0]] + s[1..][..n - 1];
      n
  }

  /** The non-empty slash-free runs of a path. */
  function Elements(path: string): Path
    decreases |path|
  {
    if path == "" then []
    else if path[0] == '/' then Elements(path[1..])
    else [path[..RunLength(path)]] + Elements(path[RunLength(path)..])
  }

  method FindFirstNotSlash(path: string, pos: nat) returns (at: nat)
    requires pos <= |path|
    ensures pos <= at <= |path| && Elements(path[at..]) == Elements(path[pos..])
    ensures at < |path| ==> path[at] != '/'
  {
    at := pos;
    while at < |path| && path[at] == '/'
      invariant pos <= at <= |path| && Elements(path[at..]) == Elements(path[pos..])
    {
      assert path[at..][1..] == path[at + 1..];
      at := at + 1;
    }
  }

  method FindFirstSlash(path: string, pos: nat) returns (at: nat)
    requires pos <= |path|
    ensures pos <= at <= |path| && at - pos == RunLength(path[pos..])
  {
    at := pos;
    while at < |path| && path[at] != '/'
      invariant pos <= at <= |path|
      invariant RunLength(path[pos..]) == at - pos + RunLength(path[at..])
    {
      assert path[at..][1..] == path[at + 1..];
      at := at + 1;
    }
  }

  lemma NextElement(path: string, pos: nat, next: nat)
    requires pos < |path| && path[pos] != '/' && next == pos + RunLength(path[pos..])
    ensures pos < next <= |path| && Elements(path[pos..]) == [path[pos..next]] + Elements(path[next..])
  {
    assert path[pos..][..next - pos] == path[pos..next] && path[pos..][next - pos..] == path[next..];
  }

  /** Ignores leading, trailing and repeated slashes. */
  method Split(path: string) returns (elements: Path)
    ensures elements == Elements(path)
  {
    elements := [];
    var pos := 0;
    assert path[0..] == path;
    while pos < |path|
      invariant pos <= |path| && elements + Elements(path[pos..]) == Elements(path)
      decreases |path| - pos
    {
      pos := FindFirstNotSlash(path, pos);
      if pos == |path| { break; }
      var next := FindFirstSlash(path, pos);
      NextElement(path, pos, next);
      elements := elements + [path[pos..next]];
      pos := next;
    }
  }

  lemma {:induction false} ElementsAreElements(path: string)
    ensures forall e :: e in Elements(path) ==> IsElement(e)
    decreases |path|
  {
    if path != "" {
      if path[0] == '/' { ElementsAreElements(path[1..]); } else { ElementsAreElements(path[RunLength(path)..]); }
    }
  }

  lemma {:induction false} OneElement(e: string)
    requires IsElement(e)
    ensures RunLength(e) == |e| && Elements(e) == [e]
  {
    var n := RunLength(e);
    assert n == |e|;
    assert e[..n] == e && e[n..] == "";
  }

  lemma {:induction false} RunBeforeSlash(a: string, b: string)
    ensures RunLength(a + "/" + b) == RunLength(a)
  {
    if a != "" && a[0] != '/' {
      assert (a + "/" + b)[1..] == a[1..] + "/" + b;
      RunBeforeSlash(a[1..], b);
    }
  }

  /** A slash separates. */
  lemma {:induction false} SlashSeparates(a: string, b: string)
    ensures Elements(a + "/" + b) == Elements(a) + Elements(b)
    decreases |a|
  {
    var whole := a + "/" + b;
    if a == "" {
      assert whole[1..] == b;
    } else if a[0] == '/' {
      assert whole[1..] == a[1..] + "/" + b;
      SlashSeparates(a[1..], b);
    } else {
      var n := RunLength(a);
      RunBeforeSlash(a, b);
      assert whole[..n] == a[..n] && whole[n..] == a[n..] + "/" + b;
      SlashSeparates(a[n..], b);
    }
  }

  function Join(elements: Path): string {
    if elements == [] then "" else if |elements| == 1 then elements[0] else elements[0] + "/" + Join(elements[1..])
  }

  /** Splitting inverts joining. */
  lemma {:induction false} SplitInvertsJoin(elements: Path)
    requires forall e :: e in elements ==> IsElement(e)
    ensures Elements(Join(elements)) == elements
  {
    if |elements| == 1 {
      OneElement(elements[0]);
    } else if elements != [] {
      OneElement(elements[0]);
      SlashSeparates(elements[0], Join(elements[1..]));
      SplitInvertsJoin(elements[1..]);
    }
  }

  lemma {:induction false} ElementsJoinAt(path: string, k: nat)
    requires k <= |path| && (k == 0 || k == |path| || path[k] == '/' || path[k - 1] == '/')
    ensures Elements(path) == Elements(path[..k]) + Elements(path[k..])
  {
    if 0 < k < |path| {
      if path[k] == '/' {
        assert path == path[..k] + "/" + path[k + 1..];
        SlashSeparates(path[..k], path[k + 1..]);
        assert path[k..][1..] == path[k + 1..];
      } else {
        assert path == path[..k - 1] + "/" + path[k..];
        SlashSeparates(path[..k - 1], path[k..]);
        assert path[..k] == path[..k - 1] + "/" + "";
        SlashSeparates(path[..k - 1], "");
      }
    } else {
      assert path[..|path|] == path && path[0..] == path;
    }
  }

  lemma FirstElementCounts(path: string)
    requires path != "" && path[0] != '/'
    ensures RunLength(path) > 0 && |Elements(path)| == 1 + |Elements(path[RunLength(path)..])|
  {
  }

  /** Between two characters of one element, cutting makes one element two. */
  lemma {:induction false} CutInside(a: string, b: string)
    requires a != "" && b != "" && a[|a| - 1] != '/' && b[0] != '/'
    ensures |Elements(a + b)| + 1 == |Elements(a)| + |Elements(b)|
    decreases |a|
  {
    var (whole, n) := (a + b, RunLength(a));
    if a[0] == '/' {
      assert whole[1..] == a[1..] + b;
      CutInside(a[1..], b);
    } else {
      RunLengthCat(a, b);
      FirstElementCounts(a);
      FirstElementCounts(whole);
      if n < |a| {
        CutLater(a, b, n);
      } else {
        FirstElementCounts(b);
        assert whole[n + RunLength(b)..] == b[RunLength(b)..] && a[n..] == "";
      }
    }
  }

  lemma {:induction false} CutLater(a: string, b: string, n: nat)
    requires 0 < n < |a| && b != "" && a[|a| - 1] != '/' && b[0] != '/'
    ensures |Elements((a + b)[n..])| + 1 == |Elements(a[n..])| + |Elements(b)|
    decreases |a|, 0
  {
    assert (a + b)[n..] == a[n..] + b;
    CutInside(a[n..], b);
  }

  lemma {:induction false} RunLengthCat(a: string, b: string)
    ensures RunLength(a + b) == if RunLength(a) == |a| then |a| + RunLength(b) else RunLength(a)
  {
    if a == "" {
      assert a + b == b;
    } else if a[0] != '/' {
      assert (a + b)[1..] == a[1..] + b;
      RunLengthCat(a[1..], b);
    }
  }

  /** One more slash changes nothing exactly at the ends and beside another slash. */
  lemma ExtraSlashIff(path: string, k: nat)
    requires k <= |path|
    ensures Elements(path[..k] + "/" + path[k..]) == Elements(path)
        <==> k == 0 || k == |path| || path[k] == '/' || path[k - 1] == '/'
  {
    var (a, b) := (path[..k], path[k..]);
    SlashSeparates(a, b);
    if k == 0 || k == |path| || path[k] == '/' || path[k - 1] == '/' {
      ElementsJoinAt(path, k);
    } else {
      assert path == a + b && a[|a| - 1] == path[k - 1] && b[0] == path[k];
      CutInside(a, b);
      assert |Elements(a) + Elements(b)| != |Elements(path)|;
    }
  }

  // ---------------------------------------------------------------------------------------------
  // The router.

  /** `routes` records every addition. */
  class Router {
    const root: Node
    ghost var routes: seq<Route>

    ghost predicate Valid()
      reads this, root, root.repr
    {
      root.Valid() && root.trie == Build(routes)
    }

    constructor ()
      ensures Valid() && fresh(root.repr) && routes == []
    {
      root := new Node();
      routes := [];
    }

    method Add(path: string, handler: Handler)
      requires Valid()
      modifies this, root.repr
      ensures Valid() && fresh(root.repr - old(root.repr))
      ensures routes == old(routes) + [Route(Elements(path), handler)]
    {
      var elements := Split(path);
      BuildSnoc(routes, Route(elements, handler));
      AddElements(elements, handler, routes + [Route(elements, handler)]);
    }

    method AddElements(elements: Path, handler: Handler, ghost more: seq<Route>)
      requires Valid() && Build(more) == Insert(root.trie, elements, handler)
      modifies this, root.repr
      ensures Valid() && fresh(root.repr - old(root.repr)) && routes == more
    {
      assert elements[0..] == elements;
      root.Add(elements, 0, handler);
      routes := more;
    }

    method Lookup(url: string) returns (found: Option<Match>)
      requires Valid()
      ensures found == Answer(Scan(routes, Elements(url), 0), Elements(url), 0)
    {
      var elements := Split(url);
      assert elements[0..] == elements;
      TreeAnswersAsScan(routes, elements);
      found := root.HandlePath(elements, 0, []);
      ghost var answer := Handle(root.trie, elements);
      if answer.Some? { assert [] + answer.value.variables == answer.value.variables; }
    }
  }

  /** URLs that differ in extra slashes only reach the same handler with the same variables. */
  lemma ExtraSlashSameAnswer(routes: seq<Route>, url: string, k: nat)
    requires k <= |url| && (k == 0 || k == |url| || url[k] == '/' || url[k - 1] == '/')
    ensures var padded := url[..k] + "/" + url[k..];
            && Answer(Scan(routes, Elements(padded), 0), Elements(padded), 0)
               == Answer(Scan(routes, Elements(url), 0), Elements(url), 0)
  {
    ExtraSlashIff(url, k);
  }

  /** `b` is `a` with one more slash, at an end or beside another. */
  ghost predicate Padded(a: string, b: string) {
    exists k :: PaddedAt(a, b, k)
  }

  predicate PaddedAt(a: string, b: string, k: nat) {
    k <= |a| && (k == 0 || k == |a| || a[k] == '/' || a[k - 1] == '/') && b == a[..k] + "/" + a[k..]
  }

  /** However many such slashes are added and taken away, the answer stays the same. */
  lemma {:induction false} SlashesSameAnswer(routes: seq<Route>, urls: seq<string>)
    requires urls != []
    requires forall i :: 0 <= i < |urls| - 1 ==> Padded(urls[i], urls[i + 1]) || Padded(urls[i + 1], urls[i])
    ensures var (a, b) := (Elements(urls[0]), Elements(urls[|urls| - 1]));
            a == b && Answer(Scan(routes, a, 0), a, 0) == Answer(Scan(routes, b, 0), b, 0)
  {
    if |urls| > 1 {
      var n := |urls| - 2;
      SlashesSameAnswer(routes, urls[..n + 1]);
      var (a, b) := if Padded(urls[n], urls[n + 1]) then (urls[n], urls[n + 1]) else (urls[n + 1], urls[n]);
      var k: nat :| PaddedAt(a, b, k);
      ExtraSlashIff(a, k);
    }
  }
}
