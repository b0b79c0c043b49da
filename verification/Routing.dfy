/** The static routing of labs/protocols/phase9_anp.py: cycle detection over the route graph. */
module RouteGraph {

  type Node = string

  /** The normalized graph: every source with its targets, in order, repetitions kept. */
  type Graph = map<Node, seq<Node>>

  function Targets(g: Graph, n: Node): seq<Node> {
    if n in g then g[n] else []
  }

  /** Consecutive nodes of the path are joined by an edge. */
  predicate IsPath(g: Graph, path: seq<Node>) {
    forall i :: 0 < i < |path| ==> path[i] in Targets(g, path[i - 1])
  }

  ghost predicate Cyclic(g: Graph) {
    exists path: seq<Node> :: |path| >= 2 && IsPath(g, path) && path[0] == path[|path| - 1]
  }

  /** Every edge by source and position. */
  function Edges(g: Graph): set<(Node, nat)> {
    set n, i: nat | n in g && i < |g[n]| :: (n, i)
  }

  function Universe(g: Graph): set<Node> {
    g.Keys + set n, i: nat | n in g && i < |g[n]| :: g[n][i]
  }

  lemma TargetsInUniverse(g: Graph, n: Node, t: Node)
    requires t in Targets(g, n)
    ensures t in Universe(g)
  {
    var i :| 0 <= i < |g[n]| && g[n][i] == t;
  }

  method CountEdges(g: Graph) returns (total: nat)
    ensures total == |Edges(g)|
  {
    total := 0;
    var todo := g.Keys;
    ghost var counted: set<(Node, nat)> := {};
    while todo != {}
      invariant todo <= g.Keys && total == |counted|
      invariant forall e :: e in counted <==> e in Edges(g) && e.0 !in todo
      decreases |todo|
    {
      var n :| n in todo;
      ghost var fresh_ := set i: nat | i < |g[n]| :: (n, i);
      EdgesOf(n, |g[n]|);
      assert counted !! fresh_;
      counted := counted + fresh_;
      total := total + |g[n]|;
      todo := todo - {n};
    }
    assert counted == Edges(g);
  }

  lemma {:induction false} EdgesOf(n: Node, k: nat)
    ensures |set i: nat | i < k :: (n, i)| == k
  {
    if k > 0 {
      EdgesOf(n, k - 1);
      assert (set i: nat | i < k :: (n, i)) == (set i: nat | i < k - 1 :: (n, i)) + {(n, k - 1)};
    }
  }

  /** The nodes on the stack form a path, and no node is on it twice. */
  ghost predicate StackOk(g: Graph, stack: seq<Node>, visiting: set<Node>) {
    && IsPath(g, stack) && (forall n :: n in stack <==> n in visiting)
    && (forall i, j :: 0 <= i < j < |stack| ==> stack[i] != stack[j])
  }

  /** Finished nodes in the order they were finished: every target of a node comes before it. */
  ghost predicate Ordered(g: Graph, order: seq<Node>) {
    forall i, t :: 0 <= i < |order| && t in Targets(g, order[i]) ==> t in order[..i]
  }

  class Search {
    const g: Graph
    var visiting: set<Node>
    var visited: set<Node>
    ghost var stack: seq<Node>
    ghost var order: seq<Node>

    constructor (g: Graph)
      ensures this.g == g && Valid() && stack == [] && visited == {}
    {
      this.g := g;
      visiting, visited, stack, order := {}, {}, [], [];
    }

    ghost predicate Valid()
      reads this
    {
      && StackOk(g, stack, visiting) && visiting <= Universe(g)
      && Ordered(g, order) && (forall n :: n in order <==> n in visited) && visiting !! visited
    }

    /** Depth-first from a node. Without a cycle everything reachable from it is finished and the
        stack is as before; with one, the graph has a cycle. */
    method Visit(node: Node) returns (ok: bool)
      requires Valid() && node in Universe(g)
      requires stack != [] ==> node in Targets(g, stack[|stack| - 1])
      modifies this
      ensures ok ==> Valid() && stack == old(stack) && visiting == old(visiting)
                     && node in visited && old(visited) <= visited
      ensures !ok ==> Cyclic(g)
      decreases Universe(g) - visiting, 0
    {
      if node in visiting {
        CycleOnStack(g, stack, visiting, node);
        return false;
      }
      if node in visited { return true; }
      PushNode(g, stack, visiting, node);
      visiting, stack := visiting + {node}, stack + [node];
      ok := VisitTargets(node);
      if !ok { return false; }
      Finish(node);
    }

    method VisitTargets(node: Node) returns (ok: bool)
      requires Valid() && stack != [] && stack[|stack| - 1] == node
      modifies this
      ensures ok ==> Valid() && stack == old(stack) && visiting == old(visiting) && old(visited) <= visited
      ensures ok ==> forall t :: t in Targets(g, node) ==> t in visited
      ensures !ok ==> Cyclic(g)
      decreases Universe(g) - visiting, 1
    {
      var targets := Targets(g, node);
      for i := 0 to |targets|
        invariant Valid() && stack == old(stack) && visiting == old(visiting) && old(visited) <= visited
        invariant forall j :: 0 <= j < i ==> targets[j] in visited
      {
        TargetsInUniverse(g, node, targets[i]);
        ok := Visit(targets[i]);
        if !ok { return false; }
      }
      return true;
    }

    method Finish(node: Node)
      requires Valid() && stack != [] && stack[|stack| - 1] == node
      requires forall t :: t in Targets(g, node) ==> t in visited
      modifies this
      ensures Valid() && stack == old(stack)[..|old(stack)| - 1] && visiting == old(visiting) - {node}
      ensures visited == old(visited) + {node}
    {
      PopNode(g, stack, visiting);
      OrderedAppend(g, order, node);
      visiting, stack := visiting - {node}, stack[..|stack| - 1];
      visited, order := visited + {node}, order + [node];
    }
  }

  lemma PopNode(g: Graph, stack: seq<Node>, visiting: set<Node>)
    requires StackOk(g, stack, visiting) && stack != []
    ensures StackOk(g, stack[..|stack| - 1], visiting - {stack[|stack| - 1]})
  {
    var top, rest := stack[|stack| - 1], stack[..|stack| - 1];
    forall n ensures n in rest <==> n in visiting - {top} {
      if n in visiting && n != top {
        var i :| 0 <= i < |stack| && stack[i] == n;
        assert rest[i] == n;
      }
    }
  }

  lemma PushNode(g: Graph, stack: seq<Node>, visiting: set<Node>, node: Node)
    requires StackOk(g, stack, visiting) && node !in visiting
    requires stack != [] ==> node in Targets(g, stack[|stack| - 1])
    ensures StackOk(g, stack + [node], visiting + {node})
  {
    var pushed := stack + [node];
    forall i | 0 < i < |pushed| ensures pushed[i] in Targets(g, pushed[i - 1]) {
      if i < |stack| {
        assert pushed[i] == stack[i] && pushed[i - 1] == stack[i - 1];
      }
    }
  }

  lemma CycleOnStack(g: Graph, stack: seq<Node>, visiting: set<Node>, node: Node)
    requires StackOk(g, stack, visiting) && node in visiting
    requires node in Targets(g, stack[|stack| - 1])
    ensures Cyclic(g)
  {
    var k :| 0 <= k < |stack| && stack[k] == node;
    var path := stack[k..] + [node];
    forall i | 0 < i < |path| ensures path[i] in Targets(g, path[i - 1]) {
      if i < |path| - 1 {
        assert path[i] == stack[k + i] && path[i - 1] == stack[k + i - 1];
      }
    }
    assert IsPath(g, path);
  }

  lemma OrderedAppend(g: Graph, order: seq<Node>, node: Node)
    requires Ordered(g, order) && forall t :: t in Targets(g, node) ==> t in order
    ensures Ordered(g, order + [node])
  {
    var all := order + [node];
    forall i, t | 0 <= i < |all| && t in Targets(g, all[i]) ensures t in all[..i] {
      if i < |order| {
        assert all[i] == order[i] && all[..i] == order[..i];
      } else {
        assert all[..i] == order;
      }
    }
  }

  /** A graph whose sources can be ordered targets first has no cycle. */
  lemma {:induction false} OrderedDescends(g: Graph, order: seq<Node>, path: seq<Node>, k: nat)
    requires Ordered(g, order) && IsPath(g, path) && k < |path| && path[0] in order
    ensures path[k] in order
    ensures forall i :: 0 <= i < |order| && order[i] == path[0] && k > 0 ==> path[k] in order[..i]
  {
    if k == 1 {
      assert path[1] in Targets(g, path[0]);
    } else if k > 1 {
      OrderedDescends(g, order, path, k - 1);
      assert path[k] in Targets(g, path[k - 1]);
      forall i | 0 <= i < |order| && order[i] == path[0] ensures path[k] in order[..i] {
        var j :| 0 <= j < i && order[j] == path[k - 1];
        assert path[k] in order[..j];
      }
      var i :| 0 <= i < |order| && order[i] == path[0];
    }
    if k > 0 {
      var i :| 0 <= i < |order| && order[i] == path[0];
      assert path[k] in order[..i];
    }
  }

  lemma OrderedAcyclic(g: Graph, order: seq<Node>)
    requires Ordered(g, order) && forall n :: n in g ==> n in order
    ensures !Cyclic(g)
  {
    forall path: seq<Node> | |path| >= 2 && IsPath(g, path) ensures path[0] != path[|path| - 1] {
      assert path[1] in Targets(g, path[0]);
      var i :| 0 <= i < |order| && order[i] == path[0] && path[0] !in order[..i] by { FirstAt(order, path[0]); }
      OrderedDescends(g, order, path, |path| - 1);
    }
  }

  lemma {:induction false} FirstAt(order: seq<Node>, n: Node)
    requires n in order
    ensures exists i :: 0 <= i < |order| && order[i] == n && n !in order[..i]
  {
    if order[0] == n {
      assert n !in order[..0];
    } else {
      FirstAt(order[1..], n);
      var i :| 0 <= i < |order[1..]| && order[1..][i] == n && n !in order[1..][..i];
      assert order[..i + 1] == [order[0]] + order[1..][..i];
      assert order[i + 1] == n;
    }
  }

  const MAX_SOURCES := 64
  const MAX_EDGES := 128

  /** Accepts a route graph exactly when it is within bounds and has no directed cycle. */
  method AcyclicRoutes(g: Graph) returns (ok: bool)
    ensures ok <==> |g.Keys| <= 64 && |Edges(g)| <= 128 && !Cyclic(g)
  {
    var edges := CountEdges(g);
    if |g| > MAX_SOURCES || edges > MAX_EDGES { return false; }
    var search := new Search(g);
    var todo := g.Keys;
    while todo != {}
      invariant search.Valid() && search.g == g && search.stack == [] && fresh(search)
      invariant todo <= g.Keys && g.Keys - todo <= search.visited
      decreases |todo|
    {
      var node :| node in todo;
      ok := search.Visit(node);
      if !ok { return false; }
      todo := todo - {node};
    }
    OrderedAcyclic(g, search.order);
    return true;
  }
}

/** Least-permission selection of labs/protocols/phase9_anp.py. */
module RouteSelection {

  datatype Descriptor = Descriptor(agentId: string, protocol: string, version: string, inputSchema: string,
                                   endpoint: string,
                                   capabilities: seq<string>, dataScopes: seq<string>, tools: seq<string>)

  datatype Request = Request(protocol: string, version: string, inputSchema: string, capability: string,
                             requiredScopes: seq<string>, allowedScopes: seq<string>,
                             requiredTools: seq<string>, allowedTools: seq<string>)

  predicate Within(xs: seq<string>, ys: seq<string>) {
    forall x :: x in xs ==> x in ys
  }

  predicate Compatible(d: Descriptor, r: Request) {
    && d.protocol == r.protocol && d.version == r.version && d.inputSchema == r.inputSchema
    && r.capability in d.capabilities
    && Within(r.requiredScopes, d.dataScopes) && Within(d.dataScopes, r.allowedScopes)
    && Within(r.requiredTools, d.tools) && Within(d.tools, r.allowedTools)
  }

  datatype Outcome = Route(d: Descriptor) | NoRoute | Ambiguous

  /** Fewer scopes, then fewer tools. */
  predicate RankLess(a: Descriptor, b: Descriptor) {
    |a.dataScopes| < |b.dataScopes| || (|a.dataScopes| == |b.dataScopes| && |a.tools| < |b.tools|)
  }

  predicate SameRank(a: Descriptor, b: Descriptor) {
    |a.dataScopes| == |b.dataScopes| && |a.tools| == |b.tools|
  }

  /** Text order by code point. */
  predicate TextLess(a: string, b: string) {
    if b == [] then false
    else if a == [] then true
    else if a[0] == b[0] then TextLess(a[1..], b[1..])
    else a[0] < b[0]
  }

  /** Not after, in the order of the sort key: scopes, tools, agent identifier. */
  predicate NotAfter(a: Descriptor, b: Descriptor) {
    RankLess(a, b) || (SameRank(a, b) && !TextLess(b.agentId, a.agentId))
  }

  lemma {:induction false} TextTotal(a: string, b: string)
    ensures !(TextLess(a, b) && TextLess(b, a))
    decreases |a|
  {
    if a != [] && b != [] && a[0] == b[0] {
      TextTotal(a[1..], b[1..]);
    }
  }

  lemma NotAfterTotal(a: Descriptor, b: Descriptor)
    ensures NotAfter(a, b) || NotAfter(b, a)
  {
    TextTotal(a.agentId, b.agentId);
  }

  predicate Sorted(ds: seq<Descriptor>) {
    forall i :: 0 < i < |ds| ==> NotAfter(ds[i - 1], ds[i])
  }

  /** Stable insertion: after every element not after it. */
  method InsertDescriptor(d: Descriptor, sorted: seq<Descriptor>) returns (r: seq<Descriptor>)
    requires Sorted(sorted)
    ensures Sorted(r) && multiset(r) == multiset(sorted) + multiset{d}
  {
    var i := |sorted|;
    while i > 0 && !NotAfter(sorted[i - 1], d)
      invariant 0 <= i <= |sorted|
      invariant i < |sorted| ==> NotAfter(d, sorted[i])
    {
      NotAfterTotal(sorted[i - 1], d);
      i := i - 1;
    }
    r := sorted[..i] + [d] + sorted[i..];
    InsertedSorted(sorted, d, i);
    assert sorted == sorted[..i] + sorted[i..];
  }

  lemma InsertedSorted(sorted: seq<Descriptor>, d: Descriptor, i: nat)
    requires Sorted(sorted) && i <= |sorted|
    requires i > 0 ==> NotAfter(sorted[i - 1], d)
    requires i < |sorted| ==> NotAfter(d, sorted[i])
    ensures Sorted(sorted[..i] + [d] + sorted[i..])
  {
    var r := sorted[..i] + [d] + sorted[i..];
    forall k | 0 < k < |r| ensures NotAfter(r[k - 1], r[k]) {
      if k < i {
        assert r[k] == sorted[k] && r[k - 1] == sorted[k - 1];
      } else if k > i + 1 {
        assert r[k] == sorted[k - 1] && r[k - 1] == sorted[k - 2];
      }
    }
  }

  /** The compatible descriptors, in key order. */
  method Candidates(descriptors: seq<Descriptor>, request: Request) returns (sorted: seq<Descriptor>)
    ensures Sorted(sorted) && multiset(sorted) == Chosen(descriptors, request)
  {
    sorted := [];
    for i := 0 to |descriptors|
      invariant Sorted(sorted) && multiset(sorted) == Chosen(descriptors[..i], request)
    {
      assert descriptors[..i + 1][..i] == descriptors[..i];
      if Compatible(descriptors[i], request) {
        sorted := InsertDescriptor(descriptors[i], sorted);
      }
    }
    assert descriptors[..|descriptors|] == descriptors;
  }

  function Chosen(descriptors: seq<Descriptor>, request: Request): multiset<Descriptor> {
    if descriptors == [] then multiset{}
    else
      var last := descriptors[|descriptors| - 1];
      Chosen(descriptors[..|descriptors| - 1], request) +
      if Compatible(last, request) then multiset{last} else multiset{}
  }

  lemma {:induction false} ChosenCounts(descriptors: seq<Descriptor>, request: Request, d: Descriptor)
    ensures Chosen(descriptors, request)[d] == if Compatible(d, request) then multiset(descriptors)[d] else 0
  {
    if descriptors != [] {
      ChosenCounts(descriptors[..|descriptors| - 1], request, d);
      assert descriptors == descriptors[..|descriptors| - 1] + [descriptors[|descriptors| - 1]];
    }
  }

  /** The descriptor occurs once, is compatible, and every other compatible one needs strictly more. */
  ghost predicate UniqueLeast(given: multiset<Descriptor>, request: Request, d: Descriptor) {
    && given[d] == 1 && Compatible(d, request)
    && forall e :: e in given && Compatible(e, request) && e != d ==> RankLess(d, e)
  }

  ghost predicate IsOutcome(given: multiset<Descriptor>, request: Request, o: Outcome) {
    && (o.Route? ==> UniqueLeast(given, request, o.d))
    && (o.NoRoute? <==> !AnyCompatible(given, request))
    && (o.Ambiguous? <==> AnyCompatible(given, request) && forall d :: d in given ==> !UniqueLeast(given, request, d))
  }

  ghost predicate AnyCompatible(given: multiset<Descriptor>, request: Request) {
    exists d :: d in given && Compatible(d, request)
  }

  lemma {:induction false} SortedRanks(ds: seq<Descriptor>, i: nat, j: nat)
    requires Sorted(ds) && i <= j < |ds|
    ensures RankLess(ds[i], ds[j]) || SameRank(ds[i], ds[j])
    decreases j
  {
    if i < j {
      SortedRanks(ds, i, j - 1);
      assert NotAfter(ds[j - 1], ds[j]);
    }
  }

  // ---- What the outcome means on the descriptors' own fields ----

  ghost function Names(xs: seq<string>): set<string> {
    set x | x in xs
  }

  /** The agent speaks the protocol and has the capability, with permissions between those required
      and those allowed. */
  ghost predicate Serves(d: Descriptor, r: Request) {
    && d.protocol == r.protocol && d.version == r.version && d.inputSchema == r.inputSchema
    && r.capability in d.capabilities
    && Names(r.requiredScopes) <= Names(d.dataScopes) <= Names(r.allowedScopes)
    && Names(r.requiredTools) <= Names(d.tools) <= Names(r.allowedTools)
  }

  ghost predicate Narrower(a: Descriptor, b: Descriptor) {
    |a.dataScopes| < |b.dataScopes| || (|a.dataScopes| == |b.dataScopes| && |a.tools| < |b.tools|)
  }

  /** A serving descriptor than which none that serves is narrower. */
  ghost predicate LeastAt(ds: seq<Descriptor>, r: Request, i: nat) {
    i < |ds| && Serves(ds[i], r) && forall k :: 0 <= k < |ds| && Serves(ds[k], r) ==> !Narrower(ds[k], ds[i])
  }

  /** The route is the least descriptor when there is one of them, ambiguous when there are more, and
      missing when nobody serves. */
  ghost predicate Decides(ds: seq<Descriptor>, r: Request, o: Outcome) {
    && (o.NoRoute? <==> forall i :: 0 <= i < |ds| ==> !Serves(ds[i], r))
    && (o.Ambiguous? <==> exists i: nat, j: nat :: i < j && LeastAt(ds, r, i) && LeastAt(ds, r, j))
    && (o.Route? ==>
          exists i: nat :: LeastAt(ds, r, i) && ds[i] == o.d && forall j: nat :: LeastAt(ds, r, j) ==> j == i)
  }

  lemma ServesIffCompatible(d: Descriptor, r: Request)
    ensures Serves(d, r) <==> Compatible(d, r)
  {
    NamesWithin(r.requiredScopes, d.dataScopes);
    NamesWithin(d.dataScopes, r.allowedScopes);
    NamesWithin(r.requiredTools, d.tools);
    NamesWithin(d.tools, r.allowedTools);
  }

  lemma NamesWithin(xs: seq<string>, ys: seq<string>)
    ensures Names(xs) <= Names(ys) <==> Within(xs, ys)
  {
    if Names(xs) <= Names(ys) {
      forall x | x in xs ensures x in ys {
        assert x in Names(xs);
      }
    }
  }

  lemma {:induction false} OncePosition<T>(xs: seq<T>, i: nat, j: nat)
    requires i < j < |xs| && xs[i] == xs[j]
    ensures multiset(xs)[xs[i]] >= 2
  {
    var front := xs[..j];
    assert xs == front + [xs[j]] + xs[j + 1..];
    assert front[i] in multiset(front);
  }

  lemma UniqueDecides(ds: seq<Descriptor>, r: Request, d: Descriptor)
    requires UniqueLeast(multiset(ds), r, d)
    ensures Decides(ds, r, Route(d))
  {
    forall i | 0 <= i < |ds| ensures Serves(ds[i], r) <==> Compatible(ds[i], r) { ServesIffCompatible(ds[i], r); }
    assert d in ds;
    var at :| 0 <= at < |ds| && ds[at] == d;
    forall k | 0 <= k < |ds| && Serves(ds[k], r) ensures k == at || Narrower(d, ds[k]) {
      assert ds[k] in multiset(ds);
      if k != at && ds[k] == d { OncePosition(ds, if k < at then k else at, if k < at then at else k); }
    }
    assert LeastAt(ds, r, at);
  }

  lemma TieDecides(ds: seq<Descriptor>, r: Request)
    requires AnyCompatible(multiset(ds), r) && forall d :: d in multiset(ds) ==> !UniqueLeast(multiset(ds), r, d)
    ensures Decides(ds, r, Ambiguous)
  {
    forall i | 0 <= i < |ds| ensures Serves(ds[i], r) <==> Compatible(ds[i], r) { ServesIffCompatible(ds[i], r); }
    var d :| d in multiset(ds) && Compatible(d, r);
    assert d in ds;
    var some :| 0 <= some < |ds| && ds[some] == d;
    var i := FirstLeast(ds, r, |ds|, some);
    assert ds[i] in multiset(ds);
    var j := SecondLeast(ds, r, i);
  }

  /** Some descriptor among the first n is least among them. */
  lemma {:induction false} FirstLeast(ds: seq<Descriptor>, r: Request, n: nat, some: nat) returns (i: nat)
    requires some < n <= |ds| && Serves(ds[some], r)
    ensures i < n && Serves(ds[i], r) && forall k :: 0 <= k < n && Serves(ds[k], r) ==> !Narrower(ds[k], ds[i])
  {
    i := some;
    for k := 0 to n
      invariant i < n && Serves(ds[i], r) && forall l :: 0 <= l < k && Serves(ds[l], r) ==> !Narrower(ds[l], ds[i])
    {
      if Serves(ds[k], r) && Narrower(ds[k], ds[i]) { i := k; }
    }
  }

  lemma SecondLeast(ds: seq<Descriptor>, r: Request, i: nat) returns (j: nat)
    requires LeastAt(ds, r, i) && !UniqueLeast(multiset(ds), r, ds[i])
    ensures j != i && LeastAt(ds, r, j)
  {
    ServesIffCompatible(ds[i], r);
    var d := ds[i];
    if e :| e in multiset(ds) && Compatible(e, r) && e != d && !RankLess(d, e) {
      ServesIffCompatible(e, r);
      assert e in ds;
      j :| 0 <= j < |ds| && ds[j] == e;
    } else {
      j := AnotherPosition(ds, i);
    }
  }

  lemma AnotherPosition<T>(xs: seq<T>, i: nat) returns (j: nat)
    requires i < |xs| && multiset(xs)[xs[i]] != 1
    ensures j < |xs| && j != i && xs[j] == xs[i]
  {
    var front, back := xs[..i], xs[i + 1..];
    assert xs == front + [xs[i]] + back;
    if xs[i] in front {
      j :| 0 <= j < |front| && front[j] == xs[i];
    } else {
      assert xs[i] !in multiset(front);
      assert xs[i] in multiset(back);
      var k :| 0 <= k < |back| && back[k] == xs[i];
      j := i + 1 + k;
    }
  }

  /** Selects the unique least-permission descriptor; reports ambiguity exactly when compatible
      descriptors exist and none is uniquely least. Only how often each descriptor is given counts,
      not their order. */
  method SelectRoute(descriptors: seq<Descriptor>, request: Request) returns (o: Outcome)
    ensures IsOutcome(multiset(descriptors), request, o) && Decides(descriptors, request, o)
  {
    var sorted := Candidates(descriptors, request);
    ghost var given := multiset(descriptors);
    forall d ensures d in sorted <==> d in given && Compatible(d, request) {
      ChosenCounts(descriptors, request, d);
      assert d in sorted <==> d in multiset(sorted);
    }
    if sorted == [] {
      NobodyDecides(descriptors, request);
      return NoRoute;
    }
    assert sorted[0] in sorted;
    if |sorted| > 1 && SameRank(sorted[0], sorted[1]) {
      forall d ensures !UniqueLeast(given, request, d) {
        TiedLeast(descriptors, sorted, request, d);
      }
      TieDecides(descriptors, request);
      return Ambiguous;
    }
    LeastFirst(descriptors, sorted, request);
    UniqueDecides(descriptors, request, sorted[0]);
    return Route(sorted[0]);
  }

  lemma NobodyDecides(ds: seq<Descriptor>, r: Request)
    requires forall d :: d in multiset(ds) ==> !Compatible(d, r)
    ensures Decides(ds, r, NoRoute)
  {
    forall i | 0 <= i < |ds| ensures !Serves(ds[i], r) {
      assert ds[i] in multiset(ds);
      ServesIffCompatible(ds[i], r);
    }
  }

  lemma TiedLeast(descriptors: seq<Descriptor>, sorted: seq<Descriptor>, request: Request, d: Descriptor)
    requires Sorted(sorted) && multiset(sorted) == Chosen(descriptors, request)
    requires |sorted| > 1 && SameRank(sorted[0], sorted[1])
    ensures !UniqueLeast(multiset(descriptors), request, d)
  {
    ChosenCounts(descriptors, request, d);
    ChosenCounts(descriptors, request, sorted[0]);
    ChosenCounts(descriptors, request, sorted[1]);
    assert sorted[0] in multiset(sorted) && sorted[1] in multiset(sorted);
    assert sorted == [sorted[0], sorted[1]] + sorted[2..];
    if d in sorted {
      var k :| 0 <= k < |sorted| && sorted[k] == d;
      SortedRanks(sorted, 0, k);
    } else {
      assert d !in multiset(sorted);
    }
  }

  lemma LeastFirst(descriptors: seq<Descriptor>, sorted: seq<Descriptor>, request: Request)
    requires Sorted(sorted) && multiset(sorted) == Chosen(descriptors, request) && sorted != []
    requires |sorted| > 1 ==> !SameRank(sorted[0], sorted[1])
    ensures UniqueLeast(multiset(descriptors), request, sorted[0])
  {
    var d := sorted[0];
    FirstIsLeast(sorted);
    ChosenCounts(descriptors, request, d);
    assert d in multiset(sorted);
    forall e | e in multiset(descriptors) && Compatible(e, request) && e != d ensures RankLess(d, e) {
      ChosenCounts(descriptors, request, e);
      assert e in multiset(sorted);
      var k :| 0 <= k < |sorted| && sorted[k] == e;
    }
  }

  lemma FirstIsLeast(sorted: seq<Descriptor>)
    requires Sorted(sorted) && sorted != [] && (|sorted| > 1 ==> !SameRank(sorted[0], sorted[1]))
    ensures forall k :: 0 < k < |sorted| ==> RankLess(sorted[0], sorted[k])
    ensures multiset(sorted)[sorted[0]] == 1
  {
    forall k | 0 < k < |sorted| ensures RankLess(sorted[0], sorted[k]) {
      SortedRanks(sorted, 0, 1);
      SortedRanks(sorted, 1, k);
    }
    assert sorted == [sorted[0]] + sorted[1..];
    assert sorted[0] !in sorted[1..];
  }

  /** Two lists with the same descriptors, in whatever order, have the same outcome. */
  lemma OrderIrrelevant(xs: seq<Descriptor>, ys: seq<Descriptor>, request: Request, o: Outcome, o': Outcome)
    requires multiset(xs) == multiset(ys)
    requires IsOutcome(multiset(xs), request, o) && IsOutcome(multiset(ys), request, o')
    ensures o == o'
  {
    if o.Route? && o'.Route? {
      assert o.d in multiset(xs) && o'.d in multiset(xs);
    }
    assert o.Route? ==> o.d in multiset(xs);
    assert o'.Route? ==> o'.d in multiset(xs);
  }
}
