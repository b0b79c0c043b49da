/** The reinforcement-learning driver of labs/self_improvement/rl.py over the same transition
    function as the replay driver, and how far the two agree. */
module ProcurementEnv {
  import opened Basics
  import opened Replay
  import opened Shapes

  datatype RewardConfig = RewardConfig(stepPenalty: real, successReward: real, errorReward: real,
                                       noProgressPenalty: real, duplicateBonus: real)

  datatype StepStatus = Settled(status: Status) | Observed | ToolFailed(failure: ToolFailure)

  datatype Transition = Transition(state: State, action: Action, reward: real, next: State, done: bool,
                                   safe: bool, status: StepStatus)

  function TerminalStatus(s: State): Status {
    if s.conflict then Conflict
    else if s.failedTools != [] then UnknownStatus
    else if s.needsInput then NeedsInput
    else if s.untrusted then Refused
    else if s.noProgress then NoProgress
    else if s.observations != [] then Succeeded
    else Refused
  }

  /** One step of an episode that is not over. */
  function EnvStep(c: Case, reward: RewardConfig, s: State, a: Action): Transition {
    match a
    case Illegal(_) => Transition(s, a, reward.errorReward, s, true, false, Settled(Rejected))
    case Read(tool) =>
      var (next, failure) := StateUpdate(s, tool, c.kind);
      var gain := reward.stepPenalty
                  + (if failure == Some(NoProgressFailure) then reward.noProgressPenalty else 0.0)
                  + (if Seen(tool) in s.observations then reward.duplicateBonus else 0.0);
      if next.remaining <= 0 then Transition(s, a, gain + reward.errorReward, next, true, true, Settled(Truncated))
      else Transition(s, a, gain, next, false, true, if failure.Some? then ToolFailed(failure.value) else Observed)
    case _ =>
      var status := TerminalStatus(s);
      var gain := (if status == c.expectedStatus then reward.successReward else reward.errorReward)
                  + (if status == NoProgress then reward.noProgressPenalty else 0.0);
      Transition(s, a, gain, s, true, true, Settled(status))
  }

  class Env {
    const c: Case
    const maxSteps: int
    const reward: RewardConfig
    var state: State
    var done: bool

    constructor (c: Case, maxSteps: int, reward: RewardConfig)
      requires 1 <= maxSteps <= 8
      ensures this.c == c && this.maxSteps == maxSteps && this.reward == reward
      ensures state == InitialState(c, maxSteps) && !done
    {
      this.c := c;
      this.maxSteps := maxSteps;
      this.reward := reward;
      state := InitialState(c, maxSteps);
      done := false;
    }

    method Reset() returns (s: State)
      modifies this
      ensures s == state == InitialState(c, maxSteps) && !done
    {
      state := InitialState(c, maxSteps);
      done := false;
      return state;
    }

    /** An episode that is over refuses further steps and stays as it is. */
    method Step(a: Action) returns (t: Option<Transition>)
      modifies this
      ensures old(done) ==> t.None? && state == old(state) && done
      ensures !old(done) ==>
                t == Some(EnvStep(c, reward, old(state), a)) && done == t.value.done && state == t.value.next
    {
      if done { return None; }
      var s := state;
      match a
      case Illegal(_) =>
        done := true;
        return Some(Transition(s, a, reward.errorReward, s, true, false, Settled(Rejected)));
      case Read(tool) =>
        var (next, failure) := StateUpdate(s, tool, c.kind);
        state := next;
        var gain := reward.stepPenalty;
        if failure == Some(NoProgressFailure) { gain := gain + reward.noProgressPenalty; }
        if reward.duplicateBonus != 0.0 && Seen(tool) in s.observations { gain := gain + reward.duplicateBonus; }
        if next.remaining <= 0 {
          done := true;
          return Some(Transition(s, a, gain + reward.errorReward, next, true, true, Settled(Truncated)));
        }
        return Some(Transition(s, a, gain, next, false, true,
                               if failure.Some? then ToolFailed(failure.value) else Observed));
      case _ =>
        var status := TerminalStatus(s);
        done := true;
        var gain := if status == c.expectedStatus then reward.successReward else reward.errorReward;
        if status == NoProgress { gain := gain + reward.noProgressPenalty; }
        return Some(Transition(s, a, gain, s, true, true, Settled(status)));
    }
  }

  /** The episode budget is checked when the environment is built. */
  method MakeEnv(c: Case, maxSteps: int, reward: RewardConfig) returns (env: Env?)
    ensures env == null <==> maxSteps < 1 || maxSteps > 8
    ensures env != null ==> fresh(env) && env.c == c && env.maxSteps == maxSteps && env.reward == reward
    ensures env != null ==> env.state == InitialState(c, maxSteps) && !env.done
  {
    if maxSteps < 1 || maxSteps > 8 { return null; }
    env := new Env(c, maxSteps, reward);
  }

  /** The transitions of an action sequence, up to the one that ends the episode. */
  function EnvRun(c: Case, reward: RewardConfig, s: State, actions: seq<Action>): seq<Transition>
    decreases |actions|
  {
    if actions == [] then []
    else
      var t := EnvStep(c, reward, s, actions[0]);
      if t.done then [t] else [t] + EnvRun(c, reward, t.next, actions[1..])
  }

  method RunActionSequence(c: Case, actions: seq<Action>, reward: RewardConfig) returns (transitions: seq<Transition>)
    ensures transitions == EnvRun(c, reward, InitialState(c, 8), actions)
    ensures Generated(c) ==> PaysByWord(c, reward, actions, 8, transitions)
  {
    var env := new Env(c, 8, reward);
    transitions := PlayOut(env, actions);
    if Generated(c) { RewardsByWord(c, reward, actions, 8); }
  }

  method PlayOut(env: Env, actions: seq<Action>) returns (transitions: seq<Transition>)
    requires !env.done
    modifies env
    ensures transitions == EnvRun(env.c, env.reward, old(env.state), actions)
  {
    transitions := [];
    for i := 0 to |actions|
      invariant !env.done
      invariant EnvRun(env.c, env.reward, old(env.state), actions) ==
                transitions + EnvRun(env.c, env.reward, env.state, actions[i..])
    {
      UnrollRun(env.c, env.reward, env.state, actions, i);
      var t := env.Step(actions[i]);
      transitions := transitions + [t.value];
      if t.value.done { break; }
    }
  }

  // ---- The two drivers on the same actions ----

  lemma UnrollRun(c: Case, reward: RewardConfig, s: State, actions: seq<Action>, i: nat)
    requires i < |actions|
    ensures EnvRun(c, reward, s, actions[i..]) ==
            var t := EnvStep(c, reward, s, actions[i]);
            if t.done then [t] else [t] + EnvRun(c, reward, t.next, actions[i + 1..])
  {
    var rest := actions[i..];
    assert rest[0] == actions[i] && rest[1..] == actions[i + 1..];
  }

  lemma UnrollWalk(c: Case, reward: RewardConfig, s: State, a: Action, policy: Policy, i: nat)
    requires s.remaining >= 1 && policy(i, s) == a && !EnvStep(c, reward, s, a).done
    ensures a.Read?
    ensures var next := EnvStep(c, reward, s, a).next;
            && next == StateUpdate(s, a.tool, c.kind).0 && next.remaining == s.remaining - 1 >= 1
            && Walk(c.kind, policy, s, i, s.remaining) ==
               Prepend([a.tool], Walk(c.kind, policy, next, i + 1, next.remaining))
  {
  }

  /** Walking from the i-th question on. */
  lemma {:induction false} SimulationFrom(c: Case, reward: RewardConfig, s: State, actions: seq<Action>, i: nat)
    requires i <= |actions| && s.remaining >= 1
    ensures Simulates(c, s, Walk(c.kind, Script(actions), s, i, s.remaining),
                      EnvRun(c, reward, s, actions[i..]), |actions| - i)
    decreases |actions| - i
  {
    if i == |actions| {
      assert Script(actions)(i, s) == Finish;
    } else {
      UnrollRun(c, reward, s, actions, i);
      assert Script(actions)(i, s) == actions[i];
      var t := EnvStep(c, reward, s, actions[i]);
      if t.done {
        LastStep(c, reward, s, actions[i], Script(actions), i, |actions| - i);
      } else {
        UnrollWalk(c, reward, s, actions[i], Script(actions), i);
        SimulationFrom(c, reward, t.next, actions, i + 1);
        SimulatesStep(c, s, actions[i].tool, t, Walk(c.kind, Script(actions), t.next, i + 1, t.next.remaining),
                      EnvRun(c, reward, t.next, actions[i + 1..]), |actions| - i - 1);
      }
    }
  }

  lemma LastStep(c: Case, reward: RewardConfig, s: State, a: Action, policy: Policy, i: nat, given: nat)
    requires s.remaining >= 1 && policy(i, s) == a && EnvStep(c, reward, s, a).done && given >= 1
    ensures Simulates(c, s, Walk(c.kind, policy, s, i, s.remaining), [EnvStep(c, reward, s, a)], given)
  {
    var t := EnvStep(c, reward, s, a);
    if a.Read? {
      assert t.next.remaining == 0;
      assert Walk(c.kind, policy, t.next, i + 1, 0) == Walked([], t.next, OutOfSteps);
      assert Walk(c.kind, policy, s, i, s.remaining) == Walked([a.tool], t.next, OutOfSteps);
    }
  }

  /** The environment's transitions pass through exactly the states of the walk. They stop where
      the walk stops, for the same reason, or because the actions ran out first. */
  ghost predicate Simulates(c: Case, s: State, w: Walked, ts: seq<Transition>, given: nat) {
    && |ts| <= |w.lookups| + 1
    && (forall i :: 0 <= i < |ts| && i <= |w.lookups| ==> ts[i].state == After(c.kind, s, w.lookups[..i]))
    && (forall i :: 0 <= i < |ts| - 1 ==> !ts[i].done)
    && (|ts| > 0 && ts[|ts| - 1].done <==> (if w.end.OutOfSteps? then |ts| == |w.lookups| else |ts| == |w.lookups| + 1))
    && (|ts| > 0 && ts[|ts| - 1].done ==> ts[|ts| - 1].status == Settled(EnvStatus(w)) && ts[|ts| - 1].next == w.state)
    && ((|ts| > 0 && ts[|ts| - 1].done) || (|ts| == given && given <= |w.lookups|))
  }

  function EnvStatus(w: Walked): Status {
    match w.end
    case Blocked => Rejected
    case OutOfSteps => Truncated
    case _ => TerminalStatus(w.state)
  }

  lemma SimulatesStep(c: Case, s: State, tool: Tool, t: Transition, w: Walked, ts: seq<Transition>, given: nat)
    requires t.state == s && !t.done && t.next == StateUpdate(s, tool, c.kind).0
    requires Simulates(c, t.next, w, ts, given)
    ensures Simulates(c, s, Prepend([tool], w), [t] + ts, given + 1)
  {
    var w', ts' := Prepend([tool], w), [t] + ts;
    forall i | 0 <= i < |ts'| && i <= |w'.lookups|
      ensures ts'[i].state == After(c.kind, s, w'.lookups[..i])
    {
      if i > 0 {
        assert w'.lookups[..i] == [tool] + w.lookups[..i - 1];
        AfterFirst(c.kind, s, tool, w.lookups[..i - 1]);
      }
    }
    assert |ts| > 0 ==> ts'[|ts'| - 1] == ts[|ts| - 1];
  }

  /** On every action sequence both drivers pass through the same states, stop at the same step
      and truncate together; on a terminal action they report the same status exactly when the
      state satisfies the condition for that action. */
  lemma Simulation(c: Case, reward: RewardConfig, actions: seq<Action>, maxSteps: int)
    requires 1 <= maxSteps <= 8
    ensures var w := Episode(c, Script(actions), maxSteps);
            var ts := EnvRun(c, reward, InitialState(c, maxSteps), actions);
            && Simulates(c, InitialState(c, maxSteps), w, ts, |actions|)
            && (EnvStatus(w) == Replayed(c, Script(actions), maxSteps).status <==> Agrees(w))
  {
    SimulationFrom(c, reward, InitialState(c, maxSteps), actions, 0);
    assert actions[0..] == actions;
    StatusesAgree(Episode(c, Script(actions), maxSteps));
  }

  predicate Agrees(w: Walked) {
    var s := w.state;
    match w.end
    case Asked => s.conflict || s.failedTools != [] || s.needsInput
    case Finished => s.conflict || (s.failedTools == [] && !s.needsInput && !(s.untrusted && s.noProgress))
    case _ => true
  }

  lemma StatusesAgree(w: Walked)
    ensures EnvStatus(w) == EndStatus(w) <==> Agrees(w)
  {
  }

  // ---- Which words the environment rewards ----

  /** The words that earn the success status in the environment. The terminal action does not
      matter, reading the purchase order does, and one kind has no such word. */
  predicate EnvShape(kind: Kind, lookups: seq<Tool>, end: End) {
    && (end.Asked? || end.Finished?)
    && match kind
       case CompleteRead => lookups != [] && Opens(lookups) <= 1
       case ToolUnknown => Opens(lookups) > 0
       case StaleConflict => Opens(lookups) > 0
       case MissingInput => Opens(lookups) > 0
       case DuplicateNoProgress => false
       case UntrustedInjection => true
  }

  /** For every policy, the environment settles a generated case with the expected status exactly
      when the word has the environment's shape, while the verifier asks for its own. */
  lemma SettlesExpectedIffEnvShape(c: Case, policy: Policy, maxSteps: int)
    requires Generated(c) && 1 <= maxSteps
    ensures var w := Episode(c, policy, maxSteps);
            && (EnvStatus(w) == c.expectedStatus <==> EnvShape(c.kind, w.lookups, w.end))
            && (Replayed(c, policy, maxSteps).verifierPassed <==> Shape(c.kind, w.lookups, w.end))
  {
    var s := InitialState(c, maxSteps);
    WalkFolds(c.kind, policy, s, 0, maxSteps);
    Flags(c.kind, s, Episode(c, policy, maxSteps).lookups);
    PassesIffShape(c, policy, maxSteps);
  }

  // ---- What every step earns ----

  /** The tools read by the first i actions. */
  function ToolsOf(actions: seq<Action>, i: nat): seq<Tool>
    requires i <= |actions| && forall j :: 0 <= j < i ==> actions[j].Read?
  {
    seq(i, j requires 0 <= j < i => actions[j].tool)
  }

  /** Opening the purchase order brings nothing: always on the duplicate kind, from the second time on
      a complete read. */
  predicate Idle(kind: Kind, before: seq<Tool>) {
    kind == DuplicateNoProgress || (kind == CompleteRead && Opens(before) > 0)
  }

  /** The tool's own observation is there already. Opening leaves it on two kinds only. */
  predicate ObservedBefore(kind: Kind, before: seq<Tool>, tool: Tool) {
    tool in before && (tool == PurchaseOrderOpen ==> kind == CompleteRead || kind == DuplicateNoProgress)
  }

  /** The reward of the next action, read off the kind and the word so far. */
  function Earned(kind: Kind, reward: RewardConfig, before: seq<Tool>, a: Action, maxSteps: int): real {
    match a
    case Illegal(_) => reward.errorReward
    case Read(tool) =>
      reward.stepPenalty
      + (if tool == PurchaseOrderOpen && Idle(kind, before) then reward.noProgressPenalty else 0.0)
      + (if ObservedBefore(kind, before, tool) then reward.duplicateBonus else 0.0)
      + (if |before| + 1 == maxSteps then reward.errorReward else 0.0)
    case AskInput => EarnedAtEnd(kind, reward, before)
    case Finish => EarnedAtEnd(kind, reward, before)
  }

  function EarnedAtEnd(kind: Kind, reward: RewardConfig, before: seq<Tool>): real {
    (if EnvShape(kind, before, Finished) then reward.successReward else reward.errorReward)
    + (if Stuck(kind, before) then reward.noProgressPenalty else 0.0)
  }

  /** The status of a transition, likewise. */
  function Shown(kind: Kind, before: seq<Tool>, a: Action, maxSteps: int): StepStatus {
    match a
    case Illegal(_) => Settled(Rejected)
    case Read(tool) =>
      if |before| + 1 == maxSteps then Settled(Truncated)
      else if tool == PurchaseOrderOpen && Idle(kind, before) then ToolFailed(NoProgressFailure)
      else if tool == PurchaseOrderOpen && kind == ToolUnknown then ToolFailed(ToolUnknownFailure)
      else if tool == PurchaseOrderOpen && kind == StaleConflict then ToolFailed(ConflictFailure)
      else Observed
    case _ =>
      if kind == StaleConflict && Opens(before) > 0 then Settled(Conflict)
      else if kind == ToolUnknown && Opens(before) > 0 then Settled(UnknownStatus)
      else if kind == MissingInput && Opens(before) > 0 then Settled(NeedsInput)
      else if kind == UntrustedInjection then Settled(Refused)
      else if Stuck(kind, before) then Settled(NoProgress)
      else if |before| > Barren(kind, before) then Settled(Succeeded)
      else Settled(Refused)
  }

  /** A run by its word: one transition for every action up to the first that is no read, or the last
      the bound leaves room for, each with what it earns. */
  ghost predicate PaysByWord(c: Case, reward: RewardConfig, actions: seq<Action>, maxSteps: int, ts: seq<Transition>) {
    && |ts| <= |actions| && |ts| <= maxSteps
    && (forall j :: 0 <= j < |ts| - 1 ==> actions[j].Read?)
    && (forall i :: 0 <= i < |ts| ==>
          && ts[i].action == actions[i]
          && ts[i].reward == Earned(c.kind, reward, ToolsOf(actions, i), actions[i], maxSteps)
          && ts[i].status == Shown(c.kind, ToolsOf(actions, i), actions[i], maxSteps)
          && (ts[i].done <==> !actions[i].Read? || i + 1 == maxSteps)
          && (ts[i].safe <==> !actions[i].Illegal?))
    && (|ts| < |actions| ==> |ts| > 0 && ts[|ts| - 1].done)
  }

  lemma {:induction false} SeenByWord(kind: Kind, s: State, lookups: seq<Tool>, tool: Tool)
    requires s.observations == [] && tool != PurchaseOrderOpen
    ensures Seen(tool) in After(kind, s, lookups).observations <==> tool in lookups
  {
    if lookups != [] {
      var front, last := lookups[..|lookups| - 1], lookups[|lookups| - 1];
      SeenByWord(kind, s, front, tool);
      assert tool in lookups <==> tool in front || tool == last;
    }
  }

  lemma {:induction false} OpensSome(lookups: seq<Tool>)
    ensures Opens(lookups) > 0 <==> PurchaseOrderOpen in lookups
  {
    if lookups != [] {
      OpensSome(lookups[..|lookups| - 1]);
      assert lookups == lookups[..|lookups| - 1] + [lookups[|lookups| - 1]];
    }
  }

  /** The i-th transition is a step from the state that the reads before it lead to. */
  lemma {:induction false} RunAt(c: Case, reward: RewardConfig, s: State, actions: seq<Action>, i: nat)
    requires i < |EnvRun(c, reward, s, actions)|
    ensures i < |actions| && forall j :: 0 <= j < i ==> actions[j].Read?
    ensures EnvRun(c, reward, s, actions)[i] == EnvStep(c, reward, After(c.kind, s, ToolsOf(actions, i)), actions[i])
    decreases i
  {
    if i == 0 {
      assert ToolsOf(actions, 0) == [];
    } else {
      var t, rest := EnvStep(c, reward, s, actions[0]), actions[1..];
      RunAt(c, reward, t.next, rest, i - 1);
      assert forall j :: 0 < j < i ==> actions[j] == rest[j - 1];
      assert ToolsOf(actions, i) == [actions[0].tool] + ToolsOf(rest, i - 1);
      AfterFirst(c.kind, s, actions[0].tool, ToolsOf(rest, i - 1));
    }
  }

  ghost predicate StepPays(c: Case, reward: RewardConfig, maxSteps: int, lookups: seq<Tool>, a: Action) {
    var t := EnvStep(c, reward, After(c.kind, InitialState(c, maxSteps), lookups), a);
    && t.action == a && (t.safe <==> !a.Illegal?)
    && (t.done <==> !a.Read? || |lookups| + 1 >= maxSteps)
    && (|lookups| + 1 <= maxSteps ==>
          t.reward == Earned(c.kind, reward, lookups, a, maxSteps) && t.status == Shown(c.kind, lookups, a, maxSteps))
  }

  lemma ReadPays(c: Case, reward: RewardConfig, maxSteps: int, lookups: seq<Tool>, tool: Tool)
    ensures StepPays(c, reward, maxSteps, lookups, Read(tool))
  {
    var s := InitialState(c, maxSteps);
    Flags(c.kind, s, lookups);
    if tool == PurchaseOrderOpen {
      OpensSome(lookups);
    } else {
      SeenByWord(c.kind, s, lookups, tool);
    }
  }

  lemma EndPays(c: Case, reward: RewardConfig, maxSteps: int, lookups: seq<Tool>, a: Action)
    requires Generated(c) && (a.AskInput? || a.Finish?)
    ensures StepPays(c, reward, maxSteps, lookups, a)
  {
    Flags(c.kind, InitialState(c, maxSteps), lookups);
    ObservedByWord(c.kind, InitialState(c, maxSteps), lookups);
  }

  /** One step from a state the reads lead to. */
  lemma StepEarns(c: Case, reward: RewardConfig, maxSteps: int, lookups: seq<Tool>, a: Action)
    requires Generated(c)
    ensures StepPays(c, reward, maxSteps, lookups, a)
  {
    match a
    case Read(tool) => ReadPays(c, reward, maxSteps, lookups, tool);
    case Illegal(_) =>
    case _ => EndPays(c, reward, maxSteps, lookups, a);
  }

  /** The length of a run: it stops at the first action that is done, or at the last. */
  lemma {:induction false} RunStops(c: Case, reward: RewardConfig, s: State, actions: seq<Action>)
    ensures var ts := EnvRun(c, reward, s, actions);
            && |ts| <= |actions| && (forall i :: 0 <= i < |ts| - 1 ==> !ts[i].done)
            && (|ts| < |actions| ==> |ts| > 0 && ts[|ts| - 1].done)
    decreases |actions|
  {
    if actions != [] {
      RunStops(c, reward, EnvStep(c, reward, s, actions[0]).next, actions[1..]);
    }
  }

  /** On every action sequence, every transition of a generated case earns what its word says. */
  lemma RewardsByWord(c: Case, reward: RewardConfig, actions: seq<Action>, maxSteps: int)
    requires Generated(c) && 1 <= maxSteps
    ensures PaysByWord(c, reward, actions, maxSteps, EnvRun(c, reward, InitialState(c, maxSteps), actions))
  {
    var s := InitialState(c, maxSteps);
    var ts := EnvRun(c, reward, s, actions);
    RunStops(c, reward, s, actions);
    forall i | 0 <= i < |ts|
      ensures i < |actions| && (forall j :: 0 <= j < i ==> actions[j].Read?)
      ensures ts[i].action == actions[i] && (ts[i].safe <==> !actions[i].Illegal?)
      ensures ts[i].done <==> !actions[i].Read? || i + 1 >= maxSteps
      ensures i + 1 <= maxSteps ==> ts[i].reward == Earned(c.kind, reward, ToolsOf(actions, i), actions[i], maxSteps)
      ensures i + 1 <= maxSteps ==> ts[i].status == Shown(c.kind, ToolsOf(actions, i), actions[i], maxSteps)
    {
      RunAt(c, reward, s, actions, i);
      StepEarns(c, reward, maxSteps, ToolsOf(actions, i), actions[i]);
    }
    assert |ts| >= 2 ==> !ts[|ts| - 2].done;
  }

  /** No action sequence earns the success reward on a duplicate-without-progress case, although
      asking for input at once passes the verifier on it. */
  lemma DuplicateCaseNeverRewarded(c: Case, reward: RewardConfig, actions: seq<Action>, maxSteps: int, i: nat)
    requires Generated(c) && c.kind == DuplicateNoProgress && 1 <= maxSteps <= 8
    requires i < |EnvRun(c, reward, InitialState(c, maxSteps), actions)|
    ensures EnvRun(c, reward, InitialState(c, maxSteps), actions)[i].status != Settled(c.expectedStatus)
    ensures Replayed(c, Script([AskInput]), maxSteps).verifierPassed
  {
    NeverNeedsInput(c, reward, InitialState(c, maxSteps), actions, i);
    PassesIffShape(c, Script([AskInput]), maxSteps);
    assert Script([AskInput])(0, InitialState(c, maxSteps)) == AskInput;
  }

  lemma {:induction false} NeverNeedsInput(c: Case, reward: RewardConfig, s: State, actions: seq<Action>, i: nat)
    requires c.kind == DuplicateNoProgress && !s.needsInput && i < |EnvRun(c, reward, s, actions)|
    ensures EnvRun(c, reward, s, actions)[i].status != Settled(NeedsInput)
    decreases |actions|
  {
    var t := EnvStep(c, reward, s, actions[0]);
    if i > 0 {
      assert EnvRun(c, reward, s, actions)[i] == EnvRun(c, reward, t.next, actions[1..])[i - 1];
      NeverNeedsInput(c, reward, t.next, actions[1..], i - 1);
    }
  }
}
