/** Durable purchase-to-pay orchestration (labs/p2p_orchestration/phase10_comparison.py) for any
    chain of actions and any sequence of wake-up events. */
module Durable {
  import opened Basics

  type Action = string

  datatype Kind = ErpWake | TimerWake | Restart

  datatype Event = Event(action: Action, kind: Kind)

  /** The first k actions of the chain. */
  function Prefix(actions: seq<Action>, k: nat): set<Action>
    requires k <= |actions|
  {
    set i | 0 <= i < k :: actions[i]
  }

  /** What woke the orchestrator up, restarts aside. */
  function Delivered(events: seq<Event>): set<Action> {
    if events == [] then {}
    else
      var last := events[|events| - 1];
      Delivered(events[..|events| - 1]) + if last.kind.Restart? then {} else {last.action}
  }

  lemma {:induction false} DeliveredBy(events: seq<Event>, a: Action)
    ensures a in Delivered(events) <==>
              exists i :: 0 <= i < |events| && !events[i].kind.Restart? && events[i].action == a
  {
    if events != [] {
      var front, n := events[..|events| - 1], |events| - 1;
      DeliveredBy(front, a);
      if a in Delivered(front) {
        var i :| 0 <= i < |front| && !front[i].kind.Restart? && front[i].action == a;
        assert events[i] == front[i];
      }
      forall i | 0 <= i < n && !events[i].kind.Restart? && events[i].action == a ensures a in Delivered(front) {
        assert front[i] == events[i];
      }
    }
  }

  function Wakes(events: seq<Event>): nat {
    if events == [] then 0 else Wakes(events[..|events| - 1]) + if events[|events| - 1].kind.Restart? then 0 else 1
  }

  predicate Restarted(events: seq<Event>) {
    events != [] && (Restarted(events[..|events| - 1]) || events[|events| - 1].kind.Restart?)
  }

  /** k is how far the chain reaches into a set: the first k actions are in it, the next is not. */
  predicate Reaches(actions: seq<Action>, delivered: set<Action>, k: nat) {
    && k <= |actions| && Prefix(actions, k) <= delivered
    && (k < |actions| ==> actions[k] !in delivered)
  }

  /** The ledger of one run: completed and pending steps, what was seen, and the counters. */
  class DurableRun {
    const actions: seq<Action>
    var completed: set<Action>
    var pending: set<Action>
    var seen: set<Action>
    var duplicates: nat
    var writes: nat
    var recovered: bool

    constructor (actions: seq<Action>)
      requires Distinct(actions)
      ensures this.actions == actions && Valid({}, 0) && duplicates == 0 && writes == 0 && !recovered && seen == {}
    {
      this.actions := actions;
      completed, pending, seen := {}, {}, {};
      duplicates, writes, recovered := 0, 0, false;
      new;
      assert Prefix(actions, 0) == {};
    }

    /** The first k actions are completed, the other delivered ones wait, each completed once. */
    ghost predicate Valid(delivered: set<Action>, k: nat)
      reads this
    {
      && Distinct(actions) && k <= |actions|
      && completed == Prefix(actions, k) && writes == k
      && completed + pending == delivered && completed !! pending
    }

    /** Completes what is ready until nothing is: afterwards the chain reaches exactly as far as
        the delivered actions do. */
    method Drain(ghost delivered: set<Action>, ghost k0: nat) returns (ghost k: nat)
      requires Valid(delivered, k0)
      modifies this`completed, this`pending, this`writes
      ensures Valid(delivered, k) && k >= k0 && Reaches(actions, delivered, k)
    {
      k := k0;
      var changed := true;
      while changed
        invariant Valid(delivered, k) && k >= k0
        invariant !changed ==> k < |actions| ==> actions[k] !in pending
        decreases |actions| - k, changed
      {
        changed := false;
        ghost var before := k;
        for i := 0 to |actions|
          invariant Valid(delivered, k) && k >= before
          invariant if changed then k > before else k == before
          invariant !changed && i > before ==> actions[before] !in pending
        {
          var action := actions[i];
          if action !in pending { continue; }
          if i > 0 && actions[i - 1] !in completed { continue; }
          ReadyIsNext(actions, completed, pending, k, i);
          pending := pending - {action};
          completed := completed + {action};
          writes := writes + 1;
          changed := true;
          PrefixGrows(actions, k);
          k := k + 1;
        }
      }
      if k < |actions| {
        NextNotInPrefix(actions, k);
      }
    }

    /** One event. Returns how far the chain reaches now. */
    method Deliver(e: Event, ghost delivered: set<Action>, ghost k0: nat) returns (ghost k: nat)
      requires Valid(delivered, k0) && seen == delivered && Reaches(actions, delivered, k0)
      modifies this
      ensures var now := if e.kind.Restart? then delivered else delivered + {e.action};
              Valid(now, k) && seen == now && Reaches(actions, now, k)
      ensures duplicates == old(duplicates) + if !e.kind.Restart? && e.action in delivered then 1 else 0
      ensures recovered == (old(recovered) || e.kind.Restart?)
    {
      k := k0;
      if e.kind.Restart? {
        recovered := true;
        k := Drain(delivered, k0);
        return;
      }
      if e.action in seen {
        duplicates := duplicates + 1;
        assert delivered + {e.action} == delivered;
        return;
      }
      seen := seen + {e.action};
      pending := pending + {e.action};
      assert completed + pending == delivered + {e.action};
      k := Drain(delivered + {e.action}, k0);
    }
  }

  lemma PrefixGrows(actions: seq<Action>, k: nat)
    requires k < |actions|
    ensures Prefix(actions, k + 1) == Prefix(actions, k) + {actions[k]}
  {
  }

  lemma PrefixMembers(actions: seq<Action>, k: nat)
    requires k <= |actions|
    ensures forall i :: 0 <= i < k ==> actions[i] in Prefix(actions, k)
  {
  }

  lemma NextNotInPrefix(actions: seq<Action>, k: nat)
    requires Distinct(actions) && k < |actions|
    ensures actions[k] !in Prefix(actions, k)
  {
  }

  /** A waiting action whose predecessor is completed is the next one of the chain. */
  lemma ReadyIsNext(actions: seq<Action>, completed: set<Action>, pending: set<Action>, k: nat, i: nat)
    requires Distinct(actions) && k <= |actions| && i < |actions| && completed == Prefix(actions, k)
             && completed !! pending
    requires actions[i] in pending && (i > 0 ==> actions[i - 1] in completed)
    ensures i == k
  {
    PrefixMembers(actions, k);
    if i > 0 {
      var j :| 0 <= j < k && actions[j] == actions[i - 1];
    }
  }

  datatype Summary = Summary(succeeded: bool, completed: set<Action>, duplicates: nat, writes: nat, recovered: bool,
                             violations: nat)

  /** A whole run. The chain is completed exactly as far as the delivered actions reach without a
      gap, each completed action is written once, and every wake-up is either the first of its
      action or counted as a duplicate. */
  method RunDurable(actions: seq<Action>, events: seq<Event>) returns (r: Summary, ghost k: nat)
    requires Distinct(actions)
    ensures Reaches(actions, Delivered(events), k) && r.completed == Prefix(actions, k)
    ensures r.writes == k == |r.completed|
    ensures r.duplicates + |Delivered(events)| == Wakes(events)
    ensures r.recovered <==> Restarted(events)
    ensures r.succeeded <==> r.violations == 0
    ensures r.succeeded <==> Delivered(events) == Prefix(actions, |actions|)
  {
    var run := new DurableRun(actions);
    k := 0;
    for i := 0 to |events|
      invariant run.actions == actions && fresh(run)
      invariant run.Valid(Delivered(events[..i]), k) && run.seen == Delivered(events[..i])
                && Reaches(actions, Delivered(events[..i]), k)
      invariant run.duplicates + |Delivered(events[..i])| == Wakes(events[..i])
      invariant run.recovered <==> Restarted(events[..i])
    {
      OneMore(events, i);
      k := run.Deliver(events[i], Delivered(events[..i]), k);
    }
    assert events[..|events|] == events;
    ghost var delivered := Delivered(events);
    k := run.Drain(delivered, k);
    PrefixSize(actions, k);
    WholeChain(actions, delivered, run.pending, k);
    var whole := run.pending == {} && |run.completed| == |actions|;
    r := Summary(whole, run.completed, run.duplicates, run.writes, run.recovered, if whole then 0 else 1);
  }

  /** Nothing is left waiting and every action is completed exactly when the chain's actions, and no
      others, were delivered. */
  lemma WholeChain(actions: seq<Action>, delivered: set<Action>, pending: set<Action>, k: nat)
    requires Distinct(actions) && Reaches(actions, delivered, k)
    requires Prefix(actions, k) + pending == delivered && Prefix(actions, k) !! pending
    ensures (pending == {} && k == |actions|) <==> delivered == Prefix(actions, |actions|)
  {
    assert k < |actions| ==> actions[k] in Prefix(actions, |actions|);
  }

  lemma OneMore(events: seq<Event>, i: nat)
    requires i < |events|
    ensures var before, e := Delivered(events[..i]), events[i];
            && Delivered(events[..i + 1]) == (if e.kind.Restart? then before else before + {e.action})
            && |Delivered(events[..i + 1])| == |before| + (if e.kind.Restart? || e.action in before then 0 else 1)
            && Wakes(events[..i + 1]) == Wakes(events[..i]) + (if e.kind.Restart? then 0 else 1)
            && (Restarted(events[..i + 1]) <==> Restarted(events[..i]) || e.kind.Restart?)
  {
    assert events[..i + 1][..i] == events[..i];
    var before, e := Delivered(events[..i]), events[i];
    assert e.action in before ==> before + {e.action} == before;
  }

  lemma {:induction false} PrefixSize(actions: seq<Action>, k: nat)
    requires Distinct(actions) && k <= |actions|
    ensures |Prefix(actions, k)| == k
  {
    if k == 0 {
      assert Prefix(actions, 0) == {};
    } else {
      PrefixSize(actions, k - 1);
      PrefixGrows(actions, k - 1);
      NextNotInPrefix(actions, k - 1);
    }
  }

  lemma ReachUnique(actions: seq<Action>, delivered: set<Action>, j: nat, k: nat)
    requires Reaches(actions, delivered, j) && Reaches(actions, delivered, k)
    ensures j == k
  {
    PrefixMembers(actions, j);
    PrefixMembers(actions, k);
  }

  /** Reordering, repeating or interleaving restarts changes nothing: runs that deliver the same
      actions complete the same steps with the same number of writes and the same verdict. */
  lemma DeliveryOrderIrrelevant(actions: seq<Action>, xs: seq<Event>, ys: seq<Event>, j: nat, k: nat)
    requires Delivered(xs) == Delivered(ys)
    requires Reaches(actions, Delivered(xs), j) && Reaches(actions, Delivered(ys), k)
    ensures j == k && Prefix(actions, j) == Prefix(actions, k)
  {
    ReachUnique(actions, Delivered(xs), j, k);
  }

  /** A permutation of the events with any restarts added delivers the same actions. */
  lemma PermutationDeliversSame(xs: seq<Event>, ys: seq<Event>)
    requires forall e :: e in xs && !e.kind.Restart? <==> e in ys && !e.kind.Restart?
    ensures Delivered(xs) == Delivered(ys)
  {
    forall a ensures a in Delivered(xs) <==> a in Delivered(ys) {
      DeliveredBy(xs, a);
      DeliveredBy(ys, a);
      if a in Delivered(xs) {
        var i :| 0 <= i < |xs| && !xs[i].kind.Restart? && xs[i].action == a;
        assert xs[i] in xs && xs[i] in ys;
        var j :| 0 <= j < |ys| && ys[j] == xs[i];
      }
      if a in Delivered(ys) {
        var i :| 0 <= i < |ys| && !ys[i].kind.Restart? && ys[i].action == a;
        assert ys[i] in ys && ys[i] in xs;
        var j :| 0 <= j < |xs| && xs[j] == ys[i];
      }
    }
  }

  // ---- The strategy without a ledger ----

  /** The event's action was done before. */
  ghost predicate Repeated(events: seq<Event>, i: nat) {
    i < |events| && exists j :: 0 <= j < i && events[j].action == events[i].action
  }

  /** The event's action has a predecessor that was not done before it. */
  ghost predicate Premature(actions: seq<Action>, events: seq<Event>, i: nat) {
    && i < |events|
    && exists p :: && 0 < p < |actions| && actions[p] == events[i].action
                   && forall j :: 0 <= j < i ==> events[j].action != actions[p - 1]
  }

  /** How many of the first n satisfy p. */
  ghost function HowMany(p: nat -> bool, n: nat): nat {
    if n == 0 then 0 else HowMany(p, n - 1) + if p(n - 1) then 1 else 0
  }

  lemma {:induction false} HowManyIsSize(p: nat -> bool, n: nat)
    ensures HowMany(p, n) == |set i: nat | i < n && p(i)|
  {
    if n == 0 {
      assert (set i: nat | i < 0 && p(i)) == {};
    } else {
      HowManyIsSize(p, n - 1);
      assert (set i: nat | i < n && p(i)) == (set i: nat | i < n - 1 && p(i)) + if p(n - 1) then {n - 1} else {};
    }
  }

  /** One violation for every repetition, one for every action before its predecessor. */
  ghost function Violations(actions: seq<Action>, events: seq<Event>, n: nat): nat {
    HowMany((i: nat) => Repeated(events, i), n) + HowMany((i: nat) => Premature(actions, events, i), n)
  }

  lemma OneEventMore(actions: seq<Action>, events: seq<Event>, n: nat)
    ensures Violations(actions, events, n + 1) ==
            Violations(actions, events, n) + (if Repeated(events, n) then 1 else 0) +
            (if Premature(actions, events, n) then 1 else 0)
  {
  }

  /** The baseline acts on every event as it comes; an action outside the chain is an error. It
      counts a violation for every repetition and every action before its predecessor. */
  method RunSingleAgent(actions: seq<Action>, events: seq<Event>) returns (violations: nat, known: bool)
    requires Distinct(actions)
    ensures known <==> forall i :: 0 <= i < |events| ==> events[i].action in actions
    ensures known ==> violations == Violations(actions, events, |events|)
    ensures known ==> (violations == 0 <==> InChainOrder(actions, events))
  {
    var completed: seq<Action> := [];
    violations := 0;
    for i := 0 to |events|
      invariant forall j :: 0 <= j < i ==> events[j].action in actions
      invariant |completed| == i && forall j :: 0 <= j < i ==> completed[j] == events[j].action
      invariant violations == Violations(actions, events, i)
      invariant violations == 0 <==> InChainOrder(actions, events[..i])
    {
      var action := events[i].action;
      if action !in actions { return violations, false; }
      var found := CountViolations(actions, events, i, completed);
      violations := violations + found;
      assert events[..i + 1][..i] == events[..i];
      completed := completed + [action];
    }
    assert events[..|events|] == events;
    return violations, true;
  }

  /** The violations of one event, given what was done before it. */
  method CountViolations(actions: seq<Action>, events: seq<Event>, i: nat, completed: seq<Action>) returns (found: nat)
    requires Distinct(actions) && i < |events| && events[i].action in actions
    requires |completed| == i && forall j :: 0 <= j < i ==> completed[j] == events[j].action
    ensures Violations(actions, events, i + 1) == Violations(actions, events, i) + found
    ensures InChainOrder(actions, events[..i]) ==> (found == 0 <==> InChainOrder(actions, events[..i + 1]))
  {
    var position :| 0 <= position < |actions| && actions[position] == events[i].action;
    OneEventMore(actions, events, i);
    DoneBefore(actions, events, i, completed, position);
    found := 0;
    if events[i].action in completed { found := found + 1; }
    if position > 0 && actions[position - 1] !in completed { found := found + 1; }
    if InChainOrder(actions, events[..i]) { NextInOrder(actions, events[..i], completed, position); }
  }

  lemma DoneBefore(actions: seq<Action>, events: seq<Event>, i: nat, completed: seq<Action>, position: nat)
    requires Distinct(actions) && i < |events| && position < |actions| && actions[position] == events[i].action
    requires |completed| == i && forall j :: 0 <= j < i ==> completed[j] == events[j].action
    ensures Repeated(events, i) <==> events[i].action in completed
    ensures Premature(actions, events, i) <==> position > 0 && actions[position - 1] !in completed
  {
    if Premature(actions, events, i) {
      var p :| && 0 < p < |actions| && actions[p] == events[i].action
               && forall j :: 0 <= j < i ==> events[j].action != actions[p - 1];
      assert p == position;
    }
  }

  /** The events name the chain's actions from the first on, in order and without repetition. */
  predicate InChainOrder(actions: seq<Action>, events: seq<Event>) {
    |events| <= |actions| && forall i :: 0 <= i < |events| ==> events[i].action == actions[i]
  }

  lemma NextInOrder(actions: seq<Action>, done: seq<Event>, completed: seq<Action>, position: nat)
    requires Distinct(actions) && InChainOrder(actions, done) && position < |actions|
    requires |completed| == |done| && forall j :: 0 <= j < |done| ==> completed[j] == done[j].action
    ensures (actions[position] !in completed && (position > 0 ==> actions[position - 1] in completed)) <==>
              position == |done|
  {
    if position < |done| {
      assert completed[position] == actions[position];
    } else if position == |done| {
      if position > 0 {
        assert completed[position - 1] == actions[position - 1];
      }
    }
  }
}
