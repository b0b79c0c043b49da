/** The paired group bootstrap of labs/self_improvement/evaluation.py over any random choices. */
module Bootstrap {
  import opened Basics

  datatype Record = Record(group: string, passed: bool)

  datatype Conclusion = Improved | Inconclusive | Regressed

  datatype Error = TooFewSamples | NoCommonGroup | UnequalRepeats

  datatype Summary = Summary(groups: nat, delta: real, lower: real, upper: real, conclusion: Conclusion)

  datatype Result = Ok(summary: Summary) | Err(error: Error)

  // ---- Groups ----

  function Outcomes(records: seq<Record>, g: string): seq<bool> {
    if records == [] then []
    else
      var last := records[|records| - 1];
      Outcomes(records[..|records| - 1], g) + if last.group == g then [last.passed] else []
  }

  function Groups(records: seq<Record>): set<string> {
    set i | 0 <= i < |records| :: records[i].group
  }

  lemma {:induction false} GroupNonEmpty(records: seq<Record>, g: string)
    ensures Outcomes(records, g) != [] <==> g in Groups(records)
  {
    if records != [] {
      var n := |records| - 1;
      var front := records[..n];
      GroupNonEmpty(front, g);
      assert Groups(records) == Groups(front) + {records[n].group} by {
        forall h | h in Groups(records) ensures h in Groups(front) + {records[n].group} {
          var i :| 0 <= i < |records| && records[i].group == h;
          if i < n { assert front[i].group == h; }
        }
        forall h | h in Groups(front) ensures h in Groups(records) {
          var i :| 0 <= i < |front| && front[i].group == h;
          assert records[i].group == h;
        }
        assert records[n].group in Groups(records);
      }
    }
  }

  method GroupBy(records: seq<Record>) returns (byGroup: map<string, seq<bool>>)
    ensures byGroup.Keys == Groups(records)
    ensures forall g :: g in byGroup ==> byGroup[g] == Outcomes(records, g)
  {
    byGroup := map[];
    for i := 0 to |records|
      invariant forall g :: g in byGroup <==> Outcomes(records[..i], g) != []
      invariant forall g :: g in byGroup ==> byGroup[g] == Outcomes(records[..i], g)
    {
      var r := records[i];
      assert records[..i + 1][..i] == records[..i];
      byGroup := byGroup[r.group := (if r.group in byGroup then byGroup[r.group] else []) + [r.passed]];
    }
    assert records[..|records|] == records;
    forall g ensures g in byGroup <==> g in Groups(records) { GroupNonEmpty(records, g); }
  }

  /** How many passed. */
  function Passed(outcomes: seq<bool>): nat {
    if outcomes == [] then 0 else Passed(outcomes[..|outcomes| - 1]) + if outcomes[|outcomes| - 1] then 1 else 0
  }

  lemma {:induction false} PassedAtMost(outcomes: seq<bool>)
    ensures Passed(outcomes) <= |outcomes|
  {
    if outcomes != [] { PassedAtMost(outcomes[..|outcomes| - 1]); }
  }

  /** Records of a group, and those of them that passed. */
  function Made(records: seq<Record>, g: string): nat {
    |set i | 0 <= i < |records| && records[i].group == g|
  }

  function MadePassing(records: seq<Record>, g: string): nat {
    |set i | 0 <= i < |records| && records[i].group == g && records[i].passed|
  }

  /** What a group's outcomes count is its records, and the passing ones among them. */
  lemma {:induction false} CountsRecords(records: seq<Record>, g: string)
    ensures |Outcomes(records, g)| == Made(records, g)
    ensures Passed(Outcomes(records, g)) == MadePassing(records, g) == multiset(Outcomes(records, g))[true]
  {
    if records != [] {
      var n := |records| - 1;
      var front, last := records[..n], records[n];
      CountsRecords(front, g);
      MadeLast(records, g);
      MadePassingLast(records, g);
      OneMoreOutcome(Outcomes(front, g), last.passed);
      assert Outcomes(front, g) + [] == Outcomes(front, g);
    }
  }

  lemma MadeLast(records: seq<Record>, g: string)
    requires records != []
    ensures var n := |records| - 1; Made(records, g) == Made(records[..n], g) + if records[n].group == g then 1 else 0
  {
    var n := |records| - 1;
    var before := set i | 0 <= i < |records[..n]| && records[..n][i].group == g;
    assert (set i | 0 <= i < |records| && records[i].group == g) == before + if records[n].group == g then {n} else {};
  }

  lemma MadePassingLast(records: seq<Record>, g: string)
    requires records != []
    ensures var n := |records| - 1;
            MadePassing(records, g) ==
            MadePassing(records[..n], g) + if records[n].group == g && records[n].passed then 1 else 0
  {
    var n := |records| - 1;
    var before := set i | 0 <= i < |records[..n]| && records[..n][i].group == g && records[..n][i].passed;
    assert (set i | 0 <= i < |records| && records[i].group == g && records[i].passed)
           == before + if records[n].group == g && records[n].passed then {n} else {};
  }

  lemma OneMoreOutcome(outcomes: seq<bool>, passed: bool)
    ensures Passed(outcomes + [passed]) == Passed(outcomes) + if passed then 1 else 0
  {
    assert (outcomes + [passed])[..|outcomes|] == outcomes;
  }

  function Rate(outcomes: seq<bool>): real
    requires outcomes != []
  {
    Passed(outcomes) as real / |outcomes| as real
  }

  lemma RateBounds(outcomes: seq<bool>)
    requires outcomes != []
    ensures 0.0 <= Rate(outcomes) <= 1.0
  {
    PassedAtMost(outcomes);
    Quotient(Passed(outcomes) as real, |outcomes| as real, 0.0, 1.0);
  }

  lemma Quotient(x: real, n: real, lo: real, hi: real)
    requires n > 0.0 && lo * n <= x <= hi * n
    ensures lo <= x / n <= hi
  {
    var q := x / n;
    assert x == q * n;
    assert q < lo ==> (lo - q) * n > 0.0;
    assert q > hi ==> (q - hi) * n > 0.0;
  }

  // ---- Sums ----

  function Sum(xs: seq<real>): real {
    if xs == [] then 0.0 else Sum(xs[..|xs| - 1]) + xs[|xs| - 1]
  }

  predicate Within(xs: seq<real>, lo: real, hi: real) {
    forall i :: 0 <= i < |xs| ==> lo <= xs[i] <= hi
  }

  lemma {:induction false} SumBounds(xs: seq<real>, lo: real, hi: real)
    requires Within(xs, lo, hi)
    ensures lo * |xs| as real <= Sum(xs) <= hi * |xs| as real
  {
    if xs != [] {
      var n := |xs| - 1;
      SumBounds(xs[..n], lo, hi);
      assert lo * (n + 1) as real == lo * n as real + lo && hi * (n + 1) as real == hi * n as real + hi;
    }
  }

  function Mean(xs: seq<real>): real
    requires xs != []
  {
    Sum(xs) / |xs| as real
  }

  lemma MeanBounds(xs: seq<real>, lo: real, hi: real)
    requires xs != [] && Within(xs, lo, hi)
    ensures lo <= Mean(xs) <= hi
  {
    SumBounds(xs, lo, hi);
    Quotient(Sum(xs), |xs| as real, lo, hi);
  }

  method AddUp(xs: seq<real>) returns (total: real)
    ensures total == Sum(xs)
  {
    total := 0.0;
    for i := 0 to |xs|
      invariant total == Sum(xs[..i])
    {
      assert xs[..i + 1][..i] == xs[..i];
      total := total + xs[i];
    }
    assert xs[..|xs|] == xs;
  }

  // ---- Sorting the draws ----

  predicate Sorted(xs: seq<real>) {
    forall i, j :: 0 <= i < j < |xs| ==> xs[i] <= xs[j]
  }

  /** How many elements are at most t. */
  function AtMost(xs: seq<real>, t: real): nat {
    if xs == [] then 0 else AtMost(xs[..|xs| - 1], t) + if xs[|xs| - 1] <= t then 1 else 0
  }

  lemma {:induction false} AtMostConcat(xs: seq<real>, ys: seq<real>, t: real)
    ensures AtMost(xs + ys, t) == AtMost(xs, t) + AtMost(ys, t)
  {
    if ys == [] {
      assert xs + ys == xs;
    } else {
      var n := |ys| - 1;
      assert (xs + ys)[..|xs| + n] == xs + ys[..n];
      AtMostConcat(xs, ys[..n], t);
    }
  }

  lemma {:induction false} AtMostBounds(xs: seq<real>, t: real)
    ensures AtMost(xs, t) <= |xs|
    ensures (forall i :: 0 <= i < |xs| ==> xs[i] > t) ==> AtMost(xs, t) == 0
    ensures (forall i :: 0 <= i < |xs| ==> xs[i] <= t) ==> AtMost(xs, t) == |xs|
  {
    if xs != [] { AtMostBounds(xs[..|xs| - 1], t); }
  }

  ghost predicate Rearranges(ys: seq<real>, xs: seq<real>) {
    && multiset(ys) == multiset(xs)
    && forall t :: AtMost(ys, t) == AtMost(xs, t)
  }

  lemma Inserted(front: seq<real>, x: real, back: seq<real>)
    ensures Rearranges(front + [x] + back, front + back + [x])
  {
    forall t ensures AtMost(front + [x] + back, t) == AtMost(front + back + [x], t) {
      AtMostConcat(front + [x], back, t);
      AtMostConcat(front, [x], t);
      AtMostConcat(front, back, t);
      AtMostConcat(front + back, [x], t);
    }
  }

  lemma InsertedSorted(front: seq<real>, x: real, back: seq<real>)
    requires Sorted(front) && Sorted(back)
    requires forall i :: 0 <= i < |front| ==> front[i] <= x
    requires forall i :: 0 <= i < |back| ==> x <= back[i]
    ensures Sorted(front + [x] + back)
  {
  }

  method InsertDraw(sorted: seq<real>, x: real) returns (r: seq<real>)
    requires Sorted(sorted)
    ensures Sorted(r) && Rearranges(r, sorted + [x])
  {
    var k := |sorted|;
    while k > 0 && sorted[k - 1] > x
      invariant 0 <= k <= |sorted|
      invariant forall i :: k <= i < |sorted| ==> sorted[i] > x
    {
      k := k - 1;
    }
    r := Spliced(sorted, x, k);
  }

  method Spliced(sorted: seq<real>, x: real, k: nat) returns (r: seq<real>)
    requires Sorted(sorted) && k <= |sorted|
    requires (k > 0 ==> sorted[k - 1] <= x) && forall i :: k <= i < |sorted| ==> sorted[i] > x
    ensures Sorted(r) && Rearranges(r, sorted + [x])
  {
    var front, back := sorted[..k], sorted[k..];
    InsertedSorted(front, x, back);
    Inserted(front, x, back);
    r := front + [x] + back;
    assert sorted == front + back;
  }

  method SortDraws(draws: seq<real>) returns (r: seq<real>)
    ensures Sorted(r) && Rearranges(r, draws)
  {
    r := [];
    for i := 0 to |draws|
      invariant Sorted(r) && Rearranges(r, draws[..i])
    {
      ghost var before := r;
      r := InsertDraw(r, draws[i]);
      assert draws[..i + 1] == draws[..i] + [draws[i]];
      forall t ensures AtMost(r, t) == AtMost(draws[..i + 1], t) {
        AtMostConcat(before, [draws[i]], t);
        AtMostConcat(draws[..i], [draws[i]], t);
      }
    }
    assert draws[..|draws|] == draws;
  }

  /** At most k elements lie below the element at k, and at least k + 1 up to it. */
  lemma OrderStatistic(xs: seq<real>, k: nat, t: real)
    requires Sorted(xs) && k < |xs|
    ensures t < xs[k] ==> AtMost(xs, t) <= k
    ensures AtMost(xs, xs[k]) >= k + 1
  {
    var front, back, upTo, above := xs[..k], xs[k..], xs[..k + 1], xs[k + 1..];
    assert front + back == xs;
    CountedBelow(front, back, t, xs[k]);
    assert upTo + above == xs;
    CountedUpTo(upTo, above, xs[k]);
  }

  lemma CountedBelow(front: seq<real>, back: seq<real>, t: real, x: real)
    requires forall i :: 0 <= i < |back| ==> back[i] >= x
    ensures t < x ==> AtMost(front + back, t) <= |front|
  {
    AtMostConcat(front, back, t);
    AtMostBounds(front, t);
    AtMostBounds(back, t);
  }

  lemma CountedUpTo(front: seq<real>, back: seq<real>, x: real)
    requires forall i :: 0 <= i < |front| ==> front[i] <= x
    ensures AtMost(front + back, x) >= |front|
  {
    AtMostConcat(front, back, x);
    AtMostBounds(front, x);
  }

  // ---- The bootstrap ----

  function LowerIndex(samples: nat): int {
    (samples as real * 0.025).Floor
  }

  function UpperIndex(samples: nat): int {
    var k := (samples as real * 0.975).Floor;
    if k < samples - 1 then k else samples - 1
  }

  /** Every sample count that is let through has its quantiles in range. */
  lemma IndicesInRange(samples: nat)
    requires samples >= 100
    ensures 0 <= LowerIndex(samples) <= UpperIndex(samples) < samples
    ensures 40 * LowerIndex(samples) <= samples < 40 * (LowerIndex(samples) + 1)
    ensures 40 * UpperIndex(samples) <= 39 * samples < 40 * (UpperIndex(samples) + 1)
  {
  }

  /** One resample: a delta per group, drawn with replacement. */
  function Resample(deltas: seq<real>, choose: nat -> nat): seq<real>
    requires deltas != []
  {
    seq(|deltas|, k requires 0 <= k < |deltas| => deltas[choose(k) % |deltas|])
  }

  /** Drawing every group once gives the groups back, and drawing one group all the time gives that one. */
  lemma ResampleExtremes(deltas: seq<real>, i: nat)
    requires i < |deltas|
    ensures Resample(deltas, k => k) == deltas
    ensures Mean(Resample(deltas, k => k)) == Mean(deltas) && Mean(Resample(deltas, k => i)) == deltas[i]
  {
    assert forall k: nat :: k < |deltas| ==> k % |deltas| == k;
    assert Resample(deltas, k => k) == deltas;
    MeanBounds(Resample(deltas, k => i), deltas[i], deltas[i]);
  }

  /** The means of all resamples, for one sequence of random choices. */
  function Draws(deltas: seq<real>, choose: (nat, nat) -> nat, samples: nat): (draws: seq<real>)
    requires deltas != []
    ensures |draws| == samples
    ensures forall s :: 0 <= s < samples ==> draws[s] == Mean(Resample(deltas, k => choose(s, k)))
  {
    seq(samples, s requires 0 <= s < samples => Mean(Resample(deltas, k => choose(s, k))))
  }

  lemma DrawsWithin(deltas: seq<real>, choose: (nat, nat) -> nat, samples: nat, lo: real, hi: real)
    requires deltas != [] && Within(deltas, lo, hi)
    ensures Within(Draws(deltas, choose, samples), lo, hi)
  {
    forall s | 0 <= s < samples ensures lo <= Draws(deltas, choose, samples)[s] <= hi {
      MeanBounds(Resample(deltas, k => choose(s, k)), lo, hi);
    }
  }

  /** What a summary says about the group deltas it was drawn from. */
  ghost predicate Summarises(m: Summary, deltas: seq<real>, draws: seq<real>) {
    && deltas != [] && m.groups == |deltas| && m.delta == Mean(deltas) && m.lower <= m.upper
    && (forall lo, hi :: Within(deltas, lo, hi) ==> lo <= m.lower && m.upper <= hi && lo <= m.delta <= hi)
    && (forall t :: t < m.lower ==> 40 * AtMost(draws, t) <= |draws|)
    && 40 * AtMost(draws, m.upper) > 39 * |draws|
    && (m.conclusion == Improved <==> m.lower > 0.0) && (m.conclusion == Regressed <==> m.upper < 0.0)
  }

  method DrawAll(deltas: seq<real>, choose: (nat, nat) -> nat, samples: nat) returns (draws: seq<real>)
    requires deltas != []
    ensures draws == Draws(deltas, choose, samples)
  {
    ghost var spec := Draws(deltas, choose, samples);
    draws := [];
    for s := 0 to samples
      invariant |draws| == s && draws == spec[..s]
    {
      var total := AddUp(Resample(deltas, k => choose(s, k)));
      draws := draws + [total / |deltas| as real];
    }
  }

  method Summarise(deltas: seq<real>, choose: (nat, nat) -> nat, samples: nat) returns (m: Summary)
    requires samples >= 100 && deltas != []
    ensures Summarises(m, deltas, Draws(deltas, choose, samples))
  {
    var draws := DrawAll(deltas, choose, samples);
    var sorted := SortDraws(draws);
    assert |sorted| == |multiset(sorted)| == samples;
    IndicesInRange(samples);
    var lower, upper := sorted[LowerIndex(samples)], sorted[UpperIndex(samples)];
    var total := AddUp(deltas);
    m := Summary(|deltas|, total / |deltas| as real, lower, upper,
                 if lower > 0.0 then Improved else if upper < 0.0 then Regressed else Inconclusive);
    forall t ensures t < lower ==> AtMost(draws, t) <= LowerIndex(samples) {
      OrderStatistic(sorted, LowerIndex(samples), t);
    }
    OrderStatistic(sorted, UpperIndex(samples), upper);
    forall lo, hi | Within(deltas, lo, hi) ensures lo <= lower && upper <= hi && lo <= m.delta <= hi {
      DrawsWithin(deltas, choose, samples, lo, hi);
      MeanBounds(deltas, lo, hi);
      assert lower in multiset(sorted) && upper in multiset(sorted);
      assert lower in draws && upper in draws;
    }
  }

  // ---- From records to a summary ----

  ghost function Delta(a: seq<Record>, b: seq<Record>, g: string): real
    requires g in Groups(a) * Groups(b)
  {
    GroupNonEmpty(a, g);
    GroupNonEmpty(b, g);
    Rate(Outcomes(a, g)) - Rate(Outcomes(b, g))
  }

  ghost predicate Paired(a: seq<Record>, b: seq<Record>) {
    forall g :: g in Groups(a) * Groups(b) ==> |Outcomes(a, g)| == |Outcomes(b, g)|
  }

  method CommonGroups(a: map<string, seq<bool>>, b: map<string, seq<bool>>) returns (groups: seq<string>)
    ensures Distinct(groups) && forall g :: g in groups <==> g in a.Keys * b.Keys
  {
    groups := [];
    var left := a.Keys * b.Keys;
    while left != {}
      invariant left <= a.Keys * b.Keys && Distinct(groups)
      invariant forall g :: g in groups <==> g in a.Keys * b.Keys - left
      decreases |left|
    {
      var g :| g in left;
      assert g !in groups;
      groups, left := groups + [g], left - {g};
    }
  }

  /** Each common group counts once, in whatever order the groups come. */
  ghost predicate DeltasOf(deltas: seq<real>, groups: seq<string>, a: seq<Record>, b: seq<Record>) {
    && |deltas| == |groups| && Distinct(groups) && (forall g :: g in groups <==> g in Groups(a) * Groups(b))
    && (forall i :: 0 <= i < |groups| ==> deltas[i] == Delta(a, b, groups[i]))
  }

  method GroupedBootstrap(a: seq<Record>, b: seq<Record>, choose: (nat, nat) -> nat, samples: nat)
    returns (r: Result, ghost deltas: seq<real>, ghost groups: seq<string>)
    ensures r == Err(TooFewSamples) <==> samples < 100
    ensures r == Err(NoCommonGroup) <==> samples >= 100 && Groups(a) * Groups(b) == {}
    ensures r == Err(UnequalRepeats) <==> samples >= 100 && Groups(a) * Groups(b) != {} && !Paired(a, b)
    ensures r.Ok? ==> DeltasOf(deltas, groups, a, b) && Summarises(r.summary, deltas, Draws(deltas, choose, samples))
    ensures r.Ok? ==> Fair(r.summary.conclusion, a, b) && r.summary.groups == |Groups(a) * Groups(b)|
  {
    deltas, groups := [], [];
    if samples < 100 { return Err(TooFewSamples), [], []; }
    var aBy := GroupBy(a);
    var bBy := GroupBy(b);
    var common := CommonGroups(aBy, bBy);
    groups := common;
    if common == [] {
      return Err(NoCommonGroup), [], [];
    }
    assert common[0] in Groups(a) * Groups(b);
    var found: seq<real> := [];
    for i := 0 to |common|
      invariant |found| == i
      invariant forall k :: 0 <= k < i ==>
                  |Outcomes(a, common[k])| == |Outcomes(b, common[k])| && found[k] == Delta(a, b, common[k])
    {
      var g := common[i];
      assert g in common;
      GroupNonEmpty(a, g);
      GroupNonEmpty(b, g);
      if |aBy[g]| != |bBy[g]| { return Err(UnequalRepeats), [], []; }
      found := found + [Rate(aBy[g]) - Rate(bBy[g])];
    }
    deltas := found;
    var m := Summarise(found, choose, samples);
    ConclusionFair(m, found, common, Draws(found, choose, samples), a, b);
    DistinctSize(common, Groups(a) * Groups(b));
    r := Ok(m);
  }

  /** Between paired groups the delta is the difference in passing records, over the repeats. */
  lemma DeltaIsDifference(a: seq<Record>, b: seq<Record>, g: string)
    requires g in Groups(a) * Groups(b) && Paired(a, b)
    ensures Made(a, g) == Made(b, g) > 0
    ensures Delta(a, b, g) == (MadePassing(a, g) - MadePassing(b, g)) as real / Made(a, g) as real
    ensures Delta(a, b, g) > 0.0 <==> MadePassing(a, g) > MadePassing(b, g)
    ensures Delta(a, b, g) < 0.0 <==> MadePassing(a, g) < MadePassing(b, g)
  {
    GroupNonEmpty(a, g);
    GroupNonEmpty(b, g);
    CountsRecords(a, g);
    CountsRecords(b, g);
    Difference(MadePassing(a, g) as real, MadePassing(b, g) as real, Made(a, g) as real);
  }

  lemma Difference(x: real, y: real, n: real)
    requires n > 0.0
    ensures x / n - y / n == (x - y) / n
    ensures (x - y) / n > 0.0 <==> x > y
    ensures (x - y) / n < 0.0 <==> x < y
  {
    var p, q, d := x / n, y / n, (x - y) / n;
    assert x == p * n && y == q * n && x - y == d * n;
    assert (p - q - d) * n == 0.0;
    assert p - q - d > 0.0 ==> (p - q - d) * n > 0.0;
    assert p - q - d < 0.0 ==> (p - q - d) * n < 0.0;
    assert d > 0.0 ==> d * n > 0.0;
    assert d < 0.0 ==> d * n < 0.0;
  }

  /** A conclusion is never at odds with the records: an improvement needs a group in which more of
      a's records pass than of b's, and is certain when that is so in every group; the same with the
      sides changed for a regression. */
  ghost predicate Fair(conclusion: Conclusion, a: seq<Record>, b: seq<Record>) {
    var common := Groups(a) * Groups(b);
    && (conclusion == Improved ==> exists g :: g in common && MadePassing(a, g) > MadePassing(b, g))
    && (conclusion == Regressed ==> exists g :: g in common && MadePassing(a, g) < MadePassing(b, g))
    && ((forall g :: g in common ==> MadePassing(a, g) > MadePassing(b, g)) ==> conclusion == Improved)
    && ((forall g :: g in common ==> MadePassing(a, g) < MadePassing(b, g)) ==> conclusion == Regressed)
  }

  lemma ConclusionFair(m: Summary, deltas: seq<real>, groups: seq<string>, draws: seq<real>, a: seq<Record>,
                       b: seq<Record>)
    requires DeltasOf(deltas, groups, a, b) && Summarises(m, deltas, draws) && Paired(a, b)
    ensures Fair(m.conclusion, a, b)
  {
    var least, most := Extremes(deltas);
    var g, h := groups[least], groups[most];
    assert g in groups && h in groups;
    DeltaIsDifference(a, b, g);
    DeltaIsDifference(a, b, h);
  }

  lemma DeltaBounds(a: seq<Record>, b: seq<Record>, g: string)
    requires g in Groups(a) * Groups(b)
    ensures -1.0 <= Delta(a, b, g) <= 1.0
  {
    GroupNonEmpty(a, g);
    GroupNonEmpty(b, g);
    RateBounds(Outcomes(a, g));
    RateBounds(Outcomes(b, g));
  }

  lemma {:induction false} Extremes(xs: seq<real>) returns (least: nat, most: nat)
    requires xs != []
    ensures least < |xs| && most < |xs| && Within(xs, xs[least], xs[most])
  {
    least, most := 0, 0;
    for i := 1 to |xs|
      invariant least < |xs| && most < |xs| && Within(xs[..i], xs[least], xs[most])
    {
      if xs[i] < xs[least] { least := i; }
      if xs[i] > xs[most] { most := i; }
    }
    assert xs[..|xs|] == xs;
  }

  /** The interval lies between the deltas of two groups, so an improvement is never claimed unless
      some group did improve, nor a regression unless some group regressed. */
  lemma IntervalBetweenGroups(m: Summary, deltas: seq<real>, groups: seq<string>, draws: seq<real>, a: seq<Record>,
                              b: seq<Record>)
    requires DeltasOf(deltas, groups, a, b) && Summarises(m, deltas, draws)
    ensures exists g, h :: && g in Groups(a) * Groups(b) && h in Groups(a) * Groups(b)
                           && Delta(a, b, g) <= m.lower <= m.upper <= Delta(a, b, h)
    ensures -1.0 <= m.lower <= m.upper <= 1.0 && -1.0 <= m.delta <= 1.0
    ensures m.conclusion == Improved ==> exists h :: h in Groups(a) * Groups(b) && Delta(a, b, h) > 0.0
    ensures m.conclusion == Regressed ==> exists g :: g in Groups(a) * Groups(b) && Delta(a, b, g) < 0.0
  {
    var least, most := Extremes(deltas);
    var g, h := groups[least], groups[most];
    assert g in Groups(a) * Groups(b) && h in Groups(a) * Groups(b);
    assert Delta(a, b, g) <= m.lower <= m.upper <= Delta(a, b, h);
    DeltaBounds(a, b, g);
    DeltaBounds(a, b, h);
  }

  /** A claimed improvement holds in all but one draw in forty, a claimed regression in more than
      thirty-nine of forty. */
  lemma ConclusionCoversDraws(m: Summary, deltas: seq<real>, draws: seq<real>)
    requires Summarises(m, deltas, draws)
    ensures m.conclusion == Improved ==> 40 * AtMost(draws, 0.0) <= |draws|
    ensures m.conclusion == Regressed ==> exists t :: t < 0.0 && 40 * AtMost(draws, t) > 39 * |draws|
  {
  }

  /** Groups that all changed alike leave no interval. */
  lemma EqualDeltasCollapse(m: Summary, deltas: seq<real>, draws: seq<real>, d: real)
    requires Summarises(m, deltas, draws) && forall i :: 0 <= i < |deltas| ==> deltas[i] == d
    ensures m.lower == m.upper == m.delta == d
  {
    assert Within(deltas, d, d);
  }
}
