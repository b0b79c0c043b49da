/** Choosing among replayed candidates (labs/self_improvement/evaluation.py), and why the scoring
    oracle cannot steer the choice. */
module Selection {
  import opened Basics
  import opened Replay
  import opened Shapes

  // ---- What the choice may look at ----

  /** The gate: neither the expected answer nor the score is consulted. The failure code is, but a
      verifier mismatch is let through like none at all. */
  predicate Observable(r: Result) {
    && r.safetyPassed && r.actions != []
    && (r.failure.None? || r.failure == Some(VerifierMismatch))
    && var last := r.actions[|r.actions| - 1];
       last == AskInput || (last == Finish && r.observations != [])
  }

  datatype MethodOutcome = MethodOutcome(result: Result, calls: nat, improved: bool)

  // ---- Reflection ----

  /** The episodes the gate lets through: the agent asked, or finished with something observed. An
      unknown tool's failures observe nothing. */
  predicate Settles(kind: Kind, w: Walked) {
    || w.end.Asked?
    || (w.end.Finished? && |w.lookups| > if kind == ToolUnknown then Opens(w.lookups) else 0)
  }

  lemma ObservableIffSettles(c: Case, policy: Policy, maxSteps: int)
    ensures Observable(Replayed(c, policy, maxSteps)) <==> Settles(c.kind, Episode(c, policy, maxSteps))
  {
    var s := InitialState(c, maxSteps);
    WalkFolds(c.kind, policy, s, 0, if maxSteps < 0 then 0 else maxSteps);
    var w := Episode(c, policy, maxSteps);
    Flags(c.kind, s, w.lookups);
    WordsAllowed(w);
    if w.end.Asked? || w.end.Finished? {
      assert Word(w)[|Word(w)| - 1] == Terminal(w.end);
    }
  }

  /** One draft, kept exactly when its episode settles, or else one revision; the outcome counts as
      improved exactly when there was a revision and it passes. */
  ghost predicate IsReflection(c: Case, first: Policy, revision: Policy, o: MethodOutcome) {
    && 1 <= o.calls <= 2 && (o.calls == 1 <==> Settles(c.kind, Episode(c, first, 8)))
    && o.result == Replayed(c, if o.calls == 1 then first else revision, 8)
    && (o.improved <==> o.calls == 2 && o.result.verifierPassed)
  }

  method ReflectionReplay(c: Case, first: Policy, revision: Policy) returns (o: MethodOutcome)
    ensures IsReflection(c, first, revision, o)
  {
    ObservableIffSettles(c, first, 8);
    var r := RunReplay(c, first, 8);
    if Observable(r) { return MethodOutcome(r, 1, false); }
    r := RunReplay(c, revision, 8);
    return MethodOutcome(r, 2, r.verifierPassed);
  }

  /** Reflection gives up a draft that passes the verifier exactly on the injection case, when the
      draft finishes without reading anything: the gate sees no observation. */
  lemma ReflectionDiscardsPassing(c: Case, first: Policy, revision: Policy, o: MethodOutcome)
    requires Generated(c) && IsReflection(c, first, revision, o)
    ensures var w := Episode(c, first, 8);
            Replayed(c, first, 8).verifierPassed && o.calls == 2
            <==> c.kind == UntrustedInjection && w.lookups == [] && w.end.Finished?
  {
    PassesIffShape(c, first, 8);
    Flags(c.kind, InitialState(c, 8), Episode(c, first, 8).lookups);
  }

  // ---- Reranking ----

  datatype Candidate = Candidate(index: nat, action: Action, result: Result)

  predicate Before(a: Candidate, b: Candidate) {
    Better(a.result, b.result) || (!Better(b.result, a.result) && a.index <= b.index)
  }

  function Fixed(a: Action): Policy {
    (i, s) => a
  }

  function Insert(x: Candidate, sorted: seq<Candidate>): seq<Candidate> {
    if sorted == [] || Before(x, sorted[0]) then [x] + sorted
    else [sorted[0]] + Insert(x, sorted[1..])
  }

  function ResultsWithin(c: Case, policies: seq<Policy>, maxSteps: int): seq<Result> {
    seq(|policies|, i requires 0 <= i < |policies| => Replayed(c, policies[i], maxSteps))
  }

  function Results(c: Case, policies: seq<Policy>): seq<Result> {
    ResultsWithin(c, policies, 8)
  }

  function FixedPolicies(actions: seq<Action>): seq<Policy> {
    seq(|actions|, i requires 0 <= i < |actions| => Fixed(actions[i]))
  }

  /** The candidates that pass the gate, ranked, among as many actions as there are results. */
  function Ranked(actions: seq<Action>, results: seq<Result>): seq<Candidate>
    requires |results| <= |actions|
  {
    if results == [] then []
    else
      var n := |results| - 1;
      var before := Ranked(actions, results[..n]);
      if Observable(results[n]) then Insert(Candidate(n, actions[n], results[n]), before) else before
  }

  /** The ranking holds exactly the candidates that pass the gate, best first. */
  method RerankCandidates(c: Case, actions: seq<Action>) returns (ranked: seq<Candidate>)
    ensures ranked == Ranked(actions, Results(c, FixedPolicies(actions)))
    ensures IsRanking(actions, Results(c, FixedPolicies(actions)), ranked)
  {
    ranked := [];
    ghost var all := Results(c, FixedPolicies(actions));
    for n := 0 to |actions|
      invariant ranked == Ranked(actions, all[..n])
    {
      var r := RunReplay(c, Fixed(actions[n]), 8);
      assert all[..n + 1][..n] == all[..n] && all[n] == r;
      if Observable(r) {
        ranked := Insert(Candidate(n, actions[n], r), ranked);
      }
    }
    assert all[..|actions|] == all;
    RankedOk(actions, all);
  }

  ghost predicate IsRanking(actions: seq<Action>, results: seq<Result>, ranked: seq<Candidate>)
    requires |results| <= |actions|
  {
    && Sorted(ranked) && OneEach(ranked)
    && (forall x :: x in ranked <==> IsCandidate(actions, results, x))
  }

  ghost predicate IsCandidate(actions: seq<Action>, results: seq<Result>, x: Candidate)
    requires |results| <= |actions|
  {
    x.index < |results| && x.action == actions[x.index] && x.result == results[x.index] && Observable(x.result)
  }

  lemma {:induction false} InsertElements(x: Candidate, sorted: seq<Candidate>, y: Candidate)
    ensures y in Insert(x, sorted) <==> y == x || y in sorted
  {
    if sorted != [] && !Before(x, sorted[0]) {
      InsertElements(x, sorted[1..], y);
      assert Insert(x, sorted) == [sorted[0]] + Insert(x, sorted[1..]);
      assert y in sorted <==> y == sorted[0] || y in sorted[1..];
    }
  }

  ghost predicate Sorted(xs: seq<Candidate>) {
    forall i, j :: 0 <= i < j < |xs| ==> Precedes(xs[i].result, xs[i].index, xs[j].result, xs[j].index)
  }

  lemma {:induction false} InsertSorts(x: Candidate, sorted: seq<Candidate>)
    requires Sorted(sorted)
    ensures Sorted(Insert(x, sorted))
  {
    if sorted != [] && !Before(x, sorted[0]) {
      InsertSorts(x, sorted[1..]);
      forall j | 0 <= j < |Insert(x, sorted[1..])| ensures Before(sorted[0], Insert(x, sorted[1..])[j]) {
        InsertElements(x, sorted[1..], Insert(x, sorted[1..])[j]);
      }
    }
  }

  /** No candidate is ranked twice. */
  predicate OneEach(xs: seq<Candidate>) {
    forall i, j :: 0 <= i < j < |xs| ==> xs[i].index != xs[j].index
  }

  lemma {:induction false} InsertDistinct(x: Candidate, sorted: seq<Candidate>)
    requires OneEach(sorted) && forall y :: y in sorted ==> y.index != x.index
    ensures OneEach(Insert(x, sorted))
  {
    if sorted != [] && !Before(x, sorted[0]) {
      InsertDistinct(x, sorted[1..]);
      forall j | 0 <= j < |Insert(x, sorted[1..])| ensures sorted[0].index != Insert(x, sorted[1..])[j].index {
        InsertElements(x, sorted[1..], Insert(x, sorted[1..])[j]);
      }
    }
  }

  lemma {:induction false} RankedOk(actions: seq<Action>, results: seq<Result>)
    requires |results| <= |actions|
    ensures IsRanking(actions, results, Ranked(actions, results))
  {
    if results != [] {
      var n := |results| - 1;
      var before := results[..n];
      RankedOk(actions, before);
      var added := Candidate(n, actions[n], results[n]);
      if Observable(results[n]) {
        InsertSorts(added, Ranked(actions, before));
        InsertDistinct(added, Ranked(actions, before));
      }
      forall x ensures x in Ranked(actions, results) <==> IsCandidate(actions, results, x) {
        assert IsCandidate(actions, results, x) <==>
                 IsCandidate(actions, before, x) || (x == added && Observable(results[n]));
        InsertElements(added, Ranked(actions, before), x);
      }
    }
  }

  // ---- Best of N ----

  function FirstIndex(results: seq<Result>, r: Result): (k: nat)
    requires r in results
    ensures k < |results| && results[k] == r && r !in results[..k]
  {
    if results[0] == r then 0
    else
      var k := FirstIndex(results[1..], r);
      assert results[..k + 1] == [results[0]] + results[1..][..k];
      k + 1
  }

  /** The sort key breaks ties by the position of the first equal result. */
  predicate KeyLess(results: seq<Result>, i: nat, j: nat)
    requires i < |results| && j < |results|
  {
    || Better(results[i], results[j])
    || (!Better(results[j], results[i]) && FirstIndex(results, results[i]) < FirstIndex(results, results[j]))
  }

  /** Position k leads the accepted results among the first n. */
  ghost predicate Leads(results: seq<Result>, k: nat, n: nat)
    requires n <= |results|
  {
    && k < n && Observable(results[k])
    && (forall j :: 0 <= j < n && Observable(results[j]) ==> Precedes(results[k], k, results[j], j))
  }

  ghost predicate NoneAccepted(results: seq<Result>, n: nat)
    requires n <= |results|
  {
    forall j :: 0 <= j < n ==> !Observable(results[j])
  }

  /** The first accepted result in key order, or the first result if none is accepted. */
  method PickBest(results: seq<Result>) returns (k: nat)
    requires results != []
    ensures k < |results|
    ensures Leads(results, k, |results|) || (NoneAccepted(results, |results|) && k == 0)
  {
    k := 0;
    var found := false;
    for i := 0 to |results|
      invariant if found then Leads(results, k, i) else NoneAccepted(results, i) && k == 0
    {
      if Observable(results[i]) {
        if !found {
          found, k := true, i;
        } else if KeyLess(results, i, k) {
          NewLeader(results, i, k);
          k := i;
        }
      }
    }
  }

  /** A later result precedes the leader in key order only by being better: an equal result that
      came earlier would have led instead. */
  lemma NewLeader(results: seq<Result>, i: nat, k: nat)
    requires i < |results| && Leads(results, k, i) && Observable(results[i]) && KeyLess(results, i, k)
    ensures Leads(results, i, i + 1)
  {
    var f, g := FirstIndex(results, results[i]), FirstIndex(results, results[k]);
    assert g <= k && results[f] == results[i];
    assert Better(results[i], results[k]);
  }

  method PlayAll(c: Case, policies: seq<Policy>, maxSteps: int) returns (results: seq<Result>)
    ensures results == ResultsWithin(c, policies, maxSteps)
  {
    results := [];
    for i := 0 to |policies|
      invariant |results| == i && forall k :: 0 <= k < i ==> results[k] == Replayed(c, policies[k], maxSteps)
    {
      var r := RunReplay(c, policies[i], maxSteps);
      results := results + [r];
    }
  }

  /** Runs at most n policies; with none accepted it falls back to the first result, and with no
      policy at all to an empty run. */
  method BestOfN(c: Case, policies: seq<Policy>, n: int) returns (o: Option<MethodOutcome>, k: nat)
    ensures o.None? <==> n < 1 || n > 3
    ensures o.Some? ==> IsBestOfN(c, Results(c, policies[..if n < |policies| then n else |policies|]), o.value, k)
  {
    if n < 1 || n > 3 { return None, 0; }
    var chosen := policies[..if n < |policies| then n else |policies|];
    var results := PlayAll(c, chosen, 8);
    if results == [] {
      var r := RunReplay(c, Fixed(Finish), 8);
      return Some(MethodOutcome(r, 0, r.verifierPassed)), 0;
    }
    k := PickBest(results);
    return Some(MethodOutcome(results[k], |results|, results[k].verifierPassed)), k;
  }

  ghost predicate IsBestOfN(c: Case, results: seq<Result>, o: MethodOutcome, k: nat) {
    && o.calls == |results| && o.improved == o.result.verifierPassed
    && if results == [] then o.result == Replayed(c, Fixed(Finish), 8) && k == 0
       else k < |results| && o.result == results[k] &&
            (Leads(results, k, |results|) || (NoneAccepted(results, |results|) && k == 0))
  }

  // ---- The oracle steers nothing ----

  /** The cases differ at most in the fields only scoring may read. */
  predicate SameTask(a: Case, b: Case) {
    a.caseId == b.caseId && a.kind == b.kind && a.facts == b.facts
  }

  /** Equal in everything but score, verdict and whether a mismatch was flagged. */
  predicate SameRun(a: Result, b: Result) {
    && a.caseId == b.caseId && a.status == b.status && a.actions == b.actions && a.observations == b.observations
    && a.safetyPassed == b.safetyPassed && a.steps == b.steps
    && (a.failure.None? || a.failure == Some(VerifierMismatch) <==>
          b.failure.None? || b.failure == Some(VerifierMismatch))
  }

  lemma ReplayBlind(a: Case, b: Case, policy: Policy, maxSteps: int)
    requires SameTask(a, b)
    ensures SameRun(Replayed(a, policy, maxSteps), Replayed(b, policy, maxSteps))
  {
    assert InitialState(a, maxSteps) == InitialState(b, maxSteps);
  }

  /** Reflection makes the same number of calls and plays the same episode. */
  lemma ReflectionBlind(a: Case, b: Case, first: Policy, revision: Policy, x: MethodOutcome, y: MethodOutcome)
    requires SameTask(a, b) && IsReflection(a, first, revision, x) && IsReflection(b, first, revision, y)
    ensures x.calls == y.calls && SameRun(x.result, y.result)
  {
    assert InitialState(a, 8) == InitialState(b, 8);
    ReplayBlind(a, b, first, 8);
    ReplayBlind(a, b, revision, 8);
  }

  lemma SameGate(x: Result, y: Result)
    requires SameRun(x, y)
    ensures Observable(x) <==> Observable(y)
  {
  }

  predicate SameRuns(xs: seq<Result>, ys: seq<Result>) {
    |xs| == |ys| && forall i :: 0 <= i < |xs| ==> SameRun(xs[i], ys[i])
  }

  lemma ResultsBlind(a: Case, b: Case, policies: seq<Policy>)
    requires SameTask(a, b)
    ensures SameRuns(Results(a, policies), Results(b, policies))
  {
    forall i | 0 <= i < |policies| ensures SameRun(Results(a, policies)[i], Results(b, policies)[i]) {
      ReplayBlind(a, b, policies[i], 8);
    }
  }

  predicate SameCandidates(xs: seq<Candidate>, ys: seq<Candidate>) {
    && |xs| == |ys|
    && forall i :: 0 <= i < |xs| ==>
         xs[i].index == ys[i].index && xs[i].action == ys[i].action && SameRun(xs[i].result, ys[i].result)
  }

  lemma {:induction false} InsertBlind(x: Candidate, xs: seq<Candidate>, y: Candidate, ys: seq<Candidate>)
    requires x.index == y.index && x.action == y.action && SameRun(x.result, y.result) && SameCandidates(xs, ys)
    ensures SameCandidates(Insert(x, xs), Insert(y, ys))
  {
    if xs != [] && !Before(x, xs[0]) {
      InsertBlind(x, xs[1..], y, ys[1..]);
    }
  }

  lemma {:induction false} RankedBlind(actions: seq<Action>, xs: seq<Result>, ys: seq<Result>)
    requires |xs| <= |actions| && SameRuns(xs, ys)
    ensures SameCandidates(Ranked(actions, xs), Ranked(actions, ys))
  {
    if xs != [] {
      var n := |xs| - 1;
      RankedBlind(actions, xs[..n], ys[..n]);
      SameGate(xs[n], ys[n]);
      if Observable(xs[n]) {
        InsertBlind(Candidate(n, actions[n], xs[n]), Ranked(actions, xs[..n]),
                    Candidate(n, actions[n], ys[n]), Ranked(actions, ys[..n]));
      }
    }
  }

  /** Reranking puts the same actions in the same order. */
  lemma RerankBlind(a: Case, b: Case, actions: seq<Action>)
    requires SameTask(a, b)
    ensures SameCandidates(Ranked(actions, Results(a, FixedPolicies(actions))),
                           Ranked(actions, Results(b, FixedPolicies(actions))))
  {
    ResultsBlind(a, b, FixedPolicies(actions));
    RankedBlind(actions, Results(a, FixedPolicies(actions)), Results(b, FixedPolicies(actions)));
  }

  /** Best-of-N makes the same number of calls and picks the same position. */
  lemma BestOfNBlind(a: Case, b: Case, policies: seq<Policy>, x: MethodOutcome, i: nat, y: MethodOutcome, j: nat)
    requires SameTask(a, b)
    requires IsBestOfN(a, Results(a, policies), x, i) && IsBestOfN(b, Results(b, policies), y, j)
    ensures x.calls == y.calls && i == j && SameRun(x.result, y.result)
  {
    var xs, ys := Results(a, policies), Results(b, policies);
    ResultsBlind(a, b, policies);
    ReplayBlind(a, b, Fixed(Finish), 8);
    if xs != [] {
      forall k | 0 <= k < |xs| ensures Observable(xs[k]) <==> Observable(ys[k]) {
        SameGate(xs[k], ys[k]);
      }
      SamePick(xs, ys, i, j);
    }
  }

  lemma SamePick(xs: seq<Result>, ys: seq<Result>, i: nat, j: nat)
    requires SameRuns(xs, ys) && i < |xs| && j < |ys|
    requires forall k :: 0 <= k < |xs| ==> (Observable(xs[k]) <==> Observable(ys[k]))
    requires Leads(xs, i, |xs|) || (NoneAccepted(xs, |xs|) && i == 0)
    requires Leads(ys, j, |ys|) || (NoneAccepted(ys, |ys|) && j == 0)
    ensures i == j
  {
  }
}
