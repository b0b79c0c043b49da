/** The loops of labs/self_improvement/training.py around the optimiser: early stopping, discounted
    returns and the choice of a REINFORCE checkpoint. Losses and metrics are arbitrary. */
module Training {
  import opened Basics

  // ---- Early stopping ----

  /** A dev loss that is not finite (None) is never below anything. */
  type Loss = Option<real>

  predicate Below(a: Loss, b: Loss) {
    a.Some? && (b.None? || a.value < b.value)
  }

  /** Epoch i does better than every epoch before it. */
  predicate Improves(losses: seq<Loss>, i: nat)
    requires i < |losses|
  {
    losses[i].Some? && forall j :: 0 <= j < i ==> losses[j].None? || losses[i].value < losses[j].value
  }

  /** The last `patience` of the first k epochs bring no improvement. */
  predicate RunOut(losses: seq<Loss>, k: nat, patience: nat) {
    patience <= k <= |losses| && forall i :: k - patience <= i < k ==> !Improves(losses, i)
  }

  /** The first epoch with the least loss, None when no loss was finite: the weights before training. */
  predicate FirstMinimum(losses: seq<Loss>, best: Option<nat>) {
    match best
    case None => forall i :: 0 <= i < |losses| ==> losses[i].None?
    case Some(b) =>
      && b < |losses| && losses[b].Some?
      && (forall i :: 0 <= i < |losses| && losses[i].Some? ==> losses[b].value <= losses[i].value)
      && (forall i :: 0 <= i < b && losses[i].Some? ==> losses[b].value < losses[i].value)
  }

  /** The loop that supervised and preference training share: it keeps the weights of the first
      minimum and stops at the first run of `patience` epochs without improvement. */
  method TrainEarlyStopping(losses: seq<Loss>, patience: nat)
    returns (best: Option<nat>, bestLoss: Loss, history: seq<Loss>)
    requires patience >= 1
    ensures |history| <= |losses| && history == losses[..|history|]
    ensures FirstMinimum(history, best) && bestLoss == (if best.Some? then history[best.value] else None)
    ensures forall k :: 0 <= k < |history| ==> !RunOut(losses, k, patience)
    ensures RunOut(losses, |history|, patience) || |history| == |losses|
  {
    best, bestLoss, history := None, None, [];
    var stale: nat := 0;
    while |history| < |losses|
      invariant |history| <= |losses| && history == losses[..|history|]
      invariant FirstMinimum(history, best) && bestLoss == (if best.Some? then history[best.value] else None)
      invariant stale == |history| - (if best.Some? then best.value + 1 else 0)
      invariant best.Some? ==> Improves(losses, best.value)
      invariant forall i :: |history| - stale <= i < |history| ==> !Improves(losses, i)
      invariant forall k :: 0 <= k <= |history| ==> !RunOut(losses, k, patience)
      invariant stale < patience
    {
      var n := |history|;
      var loss := losses[n];
      history := history + [loss];
      assert history == losses[..n + 1];
      if Below(loss, bestLoss) {
        assert Improves(losses, n) by {
          forall j | 0 <= j < n ensures losses[j].None? || losses[n].value < losses[j].value {
            assert history[j] == losses[j];
          }
        }
        best, bestLoss, stale := Some(n), loss, 0;
      } else {
        assert !Improves(losses, n) by {
          if best.Some? { assert history[best.value] == losses[best.value]; }
        }
        stale := stale + 1;
        if stale >= patience { break; }
      }
    }
  }

  // ---- Discounted returns ----

  function Power(g: real, k: nat): real {
    if k == 0 then 1.0 else g * Power(g, k - 1)
  }

  /** The sum of g^(k - i) * rewards[k] over i <= k < j. */
  function Discounted(rewards: seq<real>, g: real, i: nat, j: nat): real
    requires i <= j <= |rewards|
  {
    if i == j then 0.0 else Discounted(rewards, g, i, j - 1) + Power(g, j - 1 - i) * rewards[j - 1]
  }

  /** Pulling the first reward out of the sum leaves the sum from the next step, discounted once. */
  lemma {:induction false} DiscountedFromFront(rewards: seq<real>, g: real, i: nat, j: nat)
    requires i < j <= |rewards|
    ensures Discounted(rewards, g, i, j) == rewards[i] + g * Discounted(rewards, g, i + 1, j)
  {
    if i + 1 == j {
      assert Discounted(rewards, g, i, i) == 0.0 && Discounted(rewards, g, j, j) == 0.0;
      assert Power(g, 0) == 1.0;
    } else {
      DiscountedFromFront(rewards, g, i, j - 1);
      var p, r, d := Power(g, j - 2 - i), rewards[j - 1], Discounted(rewards, g, i + 1, j - 1);
      assert Power(g, j - 1 - i) == g * p;
      assert Discounted(rewards, g, i + 1, j) == d + p * r;
      assert g * (d + p * r) == g * d + (g * p) * r;
    }
  }

  /** Accumulating backwards and then reversing gives every step its discounted return. */
  method DiscountedReturns(rewards: seq<real>, g: real) returns (discounted: seq<real>)
    ensures |discounted| == |rewards|
    ensures forall i :: 0 <= i < |rewards| ==> discounted[i] == Discounted(rewards, g, i, |rewards|)
  {
    var n, i, total, reversed := |rewards|, |rewards|, 0.0, [];
    while i > 0
      invariant 0 <= i <= n && |reversed| == n - i && total == Discounted(rewards, g, i, n)
      invariant forall k :: 0 <= k < n - i ==> reversed[k] == Discounted(rewards, g, n - 1 - k, n)
    {
      i := i - 1;
      DiscountedFromFront(rewards, g, i, n);
      total := rewards[i] + g * total;
      reversed := reversed + [total];
    }
    discounted := seq(n, k requires 0 <= k < n => reversed[n - 1 - k]);
  }

  // ---- REINFORCE checkpoints ----

  datatype Metrics = Metrics(safetyRate: real, successRate: real, averageSteps: real)

  datatype Rank = Rank(safe: bool, success: real, steps: real, episode: real)

  function RankOf(m: Metrics, episode: nat): Rank {
    Rank(m.safetyRate >= 1.0, m.successRate, -m.averageSteps, -(episode as real))
  }

  /** Tuples compare by their first difference. */
  predicate Above(a: Rank, b: Rank) {
    if a.safe != b.safe then a.safe
    else if a.success != b.success then a.success > b.success
    else if a.steps != b.steps then a.steps > b.steps
    else a.episode > b.episode
  }

  /** Safe before unsafe, then the higher success rate, then the fewer steps. */
  predicate Better(a: Metrics, b: Metrics) {
    var aSafe, bSafe := a.safetyRate >= 1.0, b.safetyRate >= 1.0;
    || (aSafe && !bSafe)
    || (aSafe == bSafe && a.successRate > b.successRate)
    || (aSafe == bSafe && a.successRate == b.successRate && a.averageSteps < b.averageSteps)
  }

  predicate IsCheckpoint(episode: nat, episodes: nat) {
    1 <= episode <= episodes && (episode % 25 == 0 || episode == episodes)
  }

  /** The chosen checkpoint is beaten by none, and none as good came earlier. */
  ghost predicate Chosen(metrics: nat -> Metrics, episodes: nat, selected: nat) {
    && IsCheckpoint(selected, episodes)
    && (forall e: nat :: IsCheckpoint(e, episodes) ==> !Better(metrics(e), metrics(selected)))
    && (forall e: nat :: IsCheckpoint(e, episodes) && e < selected ==> Better(metrics(selected), metrics(e)))
  }

  method SelectCheckpoint(metrics: nat -> Metrics, episodes: nat) returns (selected: nat, checkpoints: nat)
    requires 1 <= episodes
    ensures Chosen(metrics, episodes, selected)
    ensures checkpoints == episodes / 25 + if episodes % 25 == 0 then 0 else 1
  {
    var best: Option<Rank> := None;
    selected, checkpoints := 0, 0;
    for episode := 0 to episodes
      invariant checkpoints == episode / 25 + (if episode == episodes && episode % 25 != 0 then 1 else 0)
      invariant best.None? ==> forall e: nat :: IsCheckpoint(e, episodes) ==> e > episode
      invariant best.Some? ==> IsCheckpoint(selected, episodes) && selected <= episode
                               && best.value == RankOf(metrics(selected), selected)
      invariant best.Some? ==> forall e: nat :: IsCheckpoint(e, episodes) && e <= episode && e != selected ==>
                               Above(best.value, RankOf(metrics(e), e))
    {
      var completed := episode + 1;
      if completed % 25 == 0 || completed == episodes {
        checkpoints := checkpoints + 1;
        var rank := RankOf(metrics(completed), completed);
        if best.None? || Above(rank, best.value) {
          best, selected := Some(rank), completed;
        }
      }
    }
    assert IsCheckpoint(episodes, episodes);
    forall e: nat | IsCheckpoint(e, episodes)
      ensures !Better(metrics(e), metrics(selected)) && (e < selected ==> Better(metrics(selected), metrics(e)))
    {
      if e != selected { assert Above(RankOf(metrics(selected), selected), RankOf(metrics(e), e)); }
    }
  }

  /** There is only one such checkpoint. */
  lemma ChosenUnique(metrics: nat -> Metrics, episodes: nat, a: nat, b: nat)
    requires Chosen(metrics, episodes, a) && Chosen(metrics, episodes, b)
    ensures a == b
  {
    assert a < b ==> Better(metrics(b), metrics(a));
    assert b < a ==> Better(metrics(a), metrics(b));
  }
}
