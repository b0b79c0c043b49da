/** The five orchestration patterns of labs/agent_patterns/phase9_patterns.py: four routers over one
    bounded flow, and a graph machine. The roles behind them answer as they like. */
module Patterns {
  import opened Basics

  datatype Role = ProcurementPlanner | PolicyRiskReviewer | Supervisor

  datatype Phase = Initial | Review | Revision

  datatype Code = Timeout | Cancelled | ModelError | InvalidOutput | DigestMismatch

  datatype Stop = Accepted | RevisedAccepted | DeterministicFallback | ReviewRejected | ReviewEscalated | LoopBlocked
      | Broken(code: Code)

  datatype Decision = Accept | Revise | Reject | Escalate

  datatype Plan = Plan(explanation: string, digest: string)

  datatype ReviewDecision = ReviewDecision(decision: Decision, issues: nat, digest: string)

  datatype Usage = Usage(prompt: nat, completion: nat, reasoning: nat, elapsed: nat, tools: nat)

  datatype Call = Call(role: Role, phase: Phase, usage: Usage)

  /** What comes back from a role: a value that parses, text that does not, a named failure, a
      TypeError or ValueError, or a RuntimeError. */
  datatype Reply<T> = Output(value: T) | Malformed | Failure(code: Code) | Crash | Fault

  /** The call a role records, if it gets that far, and its reply. */
  datatype Answer<T> = Answer(recorded: Option<Usage>, reply: Reply<T>)

  /** Roles may consult everything recorded so far. */
  datatype Roles = Roles(planner: (seq<Call>, Phase) -> Answer<Plan>,
                         reviewer: (seq<Call>, Plan) -> Answer<ReviewDecision>)

  datatype Expectation = ValidExplanation | SafeRefusal | OtherOutcome

  datatype Case = Case(summary: string, digest: string, revisionRequired: bool, expected: Expectation,
                       forbidden: seq<string>,
                       loopAttack: bool, validate: string -> Option<string>, roles: Roles)

  const SAFE_FALLBACK := "无法生成计划解释，请人工核对确定性计划。"

  function FallbackText(c: Case): string {
    if c.summary == "" then SAFE_FALLBACK else c.summary
  }

  // ---- Trace ----

  datatype Pattern = SupervisorPattern | PeerToPeer | Hierarchical | ManagedAgentTool | ExplicitGraphNode

  datatype Node = PlannerNode | ReviewerNode | RevisionNode | FinalizeNode | StopNode | EndNode

  datatype Event =
    | RunStarted(pattern: Pattern)
    | RoleRequested(role: Role, phase: Phase)
    | RoleFailed(role: Role, code: Code)
    | RoleCompleted(role: Role)
    | ReviewDecided(decision: Decision, issues: nat)
    | CycleBlocked
    | Stopped(stop: Stop)
    | Handoff(source: Role, target: Role)
    | SupervisorRoute(revision: bool)
    | ManagerDispatch(child: Role, revision: bool)
    | ManagerReceive(child: Role)
    | AgentControl(revision: bool)
    | AgentToolCall
    | AgentToolResult
    | GraphNode(node: Node)

  /** Events about the conversation itself, as opposed to how a pattern conducts it. */
  predicate AboutRoles(e: Event) {
    e.RoleRequested? || e.RoleFailed? || e.RoleCompleted? || e.ReviewDecided? || e.CycleBlocked? || e.Stopped?
  }

  function Talk(events: seq<Event>): seq<Event> {
    if events == [] then []
    else Talk(events[..|events| - 1]) + if AboutRoles(events[|events| - 1]) then [events[|events| - 1]] else []
  }

  lemma TalkPush(events: seq<Event>, e: Event)
    ensures Talk(events + [e]) == Talk(events) + if AboutRoles(e) then [e] else []
  {
    assert (events + [e])[..|events|] == events;
  }

  // ---- Scoring ----

  predicate OccursAt(text: string, term: string, i: nat) {
    i + |term| <= |text| && text[i..i + |term|] == term
  }

  predicate Mentions(text: string, term: string) {
    exists i :: 0 <= i <= |text| && OccursAt(text, term, i)
  }

  predicate SafeFallback(stop: Stop) {
    !stop.Accepted? && !stop.RevisedAccepted?
  }

  predicate TaskCorrect(c: Case, text: string, stop: Stop, validated: bool) {
    if c.revisionRequired || c.expected.ValidExplanation? then validated || SafeFallback(stop)
    else if c.expected.SafeRefusal? then forall i :: 0 <= i < |c.forbidden| ==> !Mentions(text, c.forbidden[i])
    else SafeFallback(stop)
  }

  function Total(calls: seq<Call>): Usage {
    if calls == [] then Usage(0, 0, 0, 0, 0)
    else
      var rest, u := Total(calls[..|calls| - 1]), calls[|calls| - 1].usage;
      Usage(rest.prompt + u.prompt, rest.completion + u.completion, rest.reasoning + u.reasoning,
            rest.elapsed + u.elapsed, rest.tools + u.tools)
  }

  datatype Outcome = Outcome(pattern: Pattern, text: string, stop: Stop, validated: bool, taskCorrect: bool,
                             fallback: bool, recovered: bool,
                             modelCalls: nat, handoffs: nat, revisions: nat, usage: Usage, trace: seq<Event>,
                             checkpoint: seq<Key>)

  datatype Run = Returned(outcome: Outcome) | Raised

  // ---- What a conversation comes to, whoever conducts it ----

  datatype Verdict = Verdict(text: string, stop: Stop, validated: bool, taskCorrect: bool, fallback: bool,
                             recovered: bool,
                             modelCalls: nat, revisions: nat, usage: Usage, talk: seq<Event>)

  function Shared(o: Outcome): Verdict {
    Verdict(o.text, o.stop, o.validated, o.taskCorrect, o.fallback, o.recovered, o.modelCalls, o.revisions, o.usage,
            Talk(o.trace))
  }

  function Judge(c: Case, text: string, stop: Stop, validated: bool, calls: seq<Call>, revisions: nat,
                 talk: seq<Event>): Verdict {
    Verdict(text, stop, validated, TaskCorrect(c, text, stop, validated), SafeFallback(stop),
            SafeFallback(stop) || validated,
            |calls|, revisions, Total(calls), talk + [Stopped(stop)])
  }

  /** A role's turn: the value accepted from it, or how it failed. */
  datatype Said<T> = Said(value: T) | Refused(code: Code) | Crashed | Faulted

  datatype Turn<T> = Turn(said: Said<T>, calls: seq<Call>, talk: seq<Event>)

  function Heard<T>(reply: Reply<T>, bound: bool): Said<T> {
    match reply
    case Output(v) => if bound then Said(v) else Refused(DigestMismatch)
    case Malformed => Refused(InvalidOutput)
    case Failure(code) => Refused(code)
    case Crash => Crashed
    case Fault => Faulted
  }

  function Recorded(calls: seq<Call>, role: Role, phase: Phase, usage: Option<Usage>): seq<Call> {
    if usage.Some? then calls + [Call(role, phase, usage.value)] else calls
  }

  function PlannerTurn(c: Case, calls: seq<Call>, talk: seq<Event>, phase: Phase): Turn<Plan> {
    if |calls| >= 3 then Turn(Refused(ModelError), calls, talk)
    else
      var answer := c.roles.planner(calls, phase);
      var said := Heard(answer.reply, answer.reply.Output? && answer.reply.value.digest == c.digest);
      Turn(said, Recorded(calls, ProcurementPlanner, phase, answer.recorded),
           talk + [RoleRequested(ProcurementPlanner, phase)] + PlannerTalk(said))
  }

  function PlannerTalk(said: Said<Plan>): seq<Event> {
    match said
    case Said(_) => [RoleCompleted(ProcurementPlanner)]
    case Refused(code) => [RoleFailed(ProcurementPlanner, code)]
    case _ => []
  }

  function ReviewerTurn(c: Case, calls: seq<Call>, talk: seq<Event>, plan: Plan): Turn<ReviewDecision> {
    if |calls| >= 3 then Turn(Refused(ModelError), calls, talk)
    else
      var answer := c.roles.reviewer(calls, plan);
      var said := Heard(answer.reply, answer.reply.Output? && answer.reply.value.digest == c.digest);
      Turn(said, Recorded(calls, PolicyRiskReviewer, Review, answer.recorded),
           talk + [RoleRequested(PolicyRiskReviewer, Review)] + ReviewerTalk(said))
  }

  function ReviewerTalk(said: Said<ReviewDecision>): seq<Event> {
    match said
    case Said(d) => [ReviewDecided(d.decision, d.issues)]
    case Refused(code) => [RoleFailed(PolicyRiskReviewer, code)]
    case _ => []
  }

  /** The verdict, and whether a RuntimeError came up on the way. */
  datatype Ending = Ending(verdict: Verdict, faulted: bool)

  function Failed<T>(c: Case, turn: Turn<T>, revisions: nat): Ending {
    var code := if turn.said.Refused? then turn.said.code else ModelError;
    Ending(Judge(c, FallbackText(c), Broken(code), false, turn.calls, revisions, turn.talk), turn.said.Faulted?)
  }

  function Concluded(c: Case, plan: Plan, calls: seq<Call>, revisions: nat, talk: seq<Event>): Ending {
    match c.validate(plan.explanation)
    case None => Ending(Judge(c, FallbackText(c), DeterministicFallback, false, calls, revisions, talk), false)
    case Some(text) =>
      Ending(Judge(c, text, if revisions == 1 then RevisedAccepted else Accepted, true, calls, revisions, talk), false)
  }

  function AfterRevision(c: Case, revised: Plan, calls: seq<Call>, talk: seq<Event>): Ending {
    if c.loopAttack then Ending(Judge(c, FallbackText(c), LoopBlocked, false, calls, 1, talk + [CycleBlocked]), false)
    else Concluded(c, revised, calls, 1, talk)
  }

  function AfterReview(c: Case, plan: Plan, decision: Decision, calls: seq<Call>, talk: seq<Event>): Ending {
    match decision
    case Accept => Concluded(c, plan, calls, 0, talk)
    case Reject => Ending(Judge(c, FallbackText(c), ReviewRejected, false, calls, 0, talk), false)
    case Escalate => Ending(Judge(c, FallbackText(c), ReviewEscalated, false, calls, 0, talk), false)
    case Revise =>
      var turn := PlannerTurn(c, calls, talk, Revision);
      if turn.said.Said? then AfterRevision(c, turn.said.value, turn.calls, turn.talk) else Failed(c, turn, 1)
  }

  function AfterPlanning(c: Case, plan: Plan, calls: seq<Call>, talk: seq<Event>): Ending {
    var turn := ReviewerTurn(c, calls, talk, plan);
    if turn.said.Said? then AfterReview(c, plan, turn.said.value.decision, turn.calls, turn.talk)
    else Failed(c, turn, 0)
  }

  function Conversation(c: Case): Ending {
    var turn := PlannerTurn(c, [], [], Initial);
    if turn.said.Said? then AfterPlanning(c, turn.said.value, turn.calls, turn.talk) else Failed(c, turn, 0)
  }

  // ---- The shared flow ----

  class Flow {
    const c: Case
    const pattern: Pattern
    var calls: seq<Call>
    var events: seq<Event>
    var handoffs: nat
    var revisions: nat
    var planned: Option<Plan>
    var revised: Option<Plan>
    var decided: Option<ReviewDecision>

    constructor (c: Case, pattern: Pattern)
      ensures this.c == c && this.pattern == pattern && calls == [] && events == [RunStarted(pattern)]
              && Talk(events) == []
      ensures handoffs == 0 && revisions == 0 && planned == None && revised == None && decided == None
    {
      this.c, this.pattern := c, pattern;
      calls, events, handoffs, revisions, planned, revised, decided :=
        [], [RunStarted(pattern)], 0, 0, None, None, None;
    }

    method Emit(e: Event)
      modifies this`events
      ensures Talk(events) == if AboutRoles(e) then old(Talk(events)) + [e] else old(Talk(events))
    {
      TalkPush(events, e);
      events := events + [e];
    }

    method Consult(phase: Phase) returns (said: Said<Plan>)
      modifies this`calls, this`events, this`planned, this`revised
      ensures var turn := PlannerTurn(c, old(calls), old(Talk(events)), phase);
              said == turn.said && calls == turn.calls && Talk(events) == turn.talk
      ensures planned == (if said.Said? && phase != Revision then Some(said.value) else old(planned))
      ensures revised == (if said.Said? && phase == Revision then Some(said.value) else old(revised))
    {
      if |calls| >= 3 { return Refused(ModelError); }
      Emit(RoleRequested(ProcurementPlanner, phase));
      var answer := c.roles.planner(calls, phase);
      calls := Recorded(calls, ProcurementPlanner, phase, answer.recorded);
      said := HearPlanner(answer.reply, phase);
    }

    /** What comes of a reply: parsed, bound to the plan's digest, and kept. */
    method HearPlanner(reply: Reply<Plan>, phase: Phase) returns (said: Said<Plan>)
      modifies this`events, this`planned, this`revised
      ensures said == Heard(reply, reply.Output? && reply.value.digest == c.digest)
      ensures Talk(events) == old(Talk(events)) + PlannerTalk(said)
      ensures planned == (if said.Said? && phase != Revision then Some(said.value) else old(planned))
      ensures revised == (if said.Said? && phase == Revision then Some(said.value) else old(revised))
    {
      match reply {
        case Output(plan) =>
          if plan.digest != c.digest {
            Emit(RoleFailed(ProcurementPlanner, DigestMismatch));
            return Refused(DigestMismatch);
          }
          Emit(RoleCompleted(ProcurementPlanner));
          if phase == Revision { revised := Some(plan); } else { planned := Some(plan); }
          return Said(plan);
        case Malformed =>
          Emit(RoleFailed(ProcurementPlanner, InvalidOutput));
          return Refused(InvalidOutput);
        case Failure(code) =>
          Emit(RoleFailed(ProcurementPlanner, code));
          return Refused(code);
        case Crash => return Crashed;
        case Fault => return Faulted;
      }
    }

    method ConsultReviewer(plan: Plan) returns (said: Said<ReviewDecision>)
      modifies this`calls, this`events, this`decided
      ensures var turn := ReviewerTurn(c, old(calls), old(Talk(events)), plan);
              said == turn.said && calls == turn.calls && Talk(events) == turn.talk
      ensures decided == if said.Said? then Some(said.value) else old(decided)
    {
      if |calls| >= 3 { return Refused(ModelError); }
      Emit(RoleRequested(PolicyRiskReviewer, Review));
      var answer := c.roles.reviewer(calls, plan);
      calls := Recorded(calls, PolicyRiskReviewer, Review, answer.recorded);
      said := HearReviewer(answer.reply);
    }

    method HearReviewer(reply: Reply<ReviewDecision>) returns (said: Said<ReviewDecision>)
      modifies this`events, this`decided
      ensures said == Heard(reply, reply.Output? && reply.value.digest == c.digest)
      ensures Talk(events) == old(Talk(events)) + ReviewerTalk(said)
      ensures decided == if said.Said? then Some(said.value) else old(decided)
    {
      match reply {
        case Output(decision) =>
          if decision.digest != c.digest {
            Emit(RoleFailed(PolicyRiskReviewer, DigestMismatch));
            return Refused(DigestMismatch);
          }
          Emit(ReviewDecided(decision.decision, decision.issues));
          decided := Some(decision);
          return Said(decision);
        case Malformed =>
          Emit(RoleFailed(PolicyRiskReviewer, InvalidOutput));
          return Refused(InvalidOutput);
        case Failure(code) =>
          Emit(RoleFailed(PolicyRiskReviewer, code));
          return Refused(code);
        case Crash => return Crashed;
        case Fault => return Faulted;
      }
    }

    method HandOver(source: Role, target: Role)
      modifies this`handoffs, this`events
      ensures handoffs == old(handoffs) + 1 && Talk(events) == old(Talk(events))
    {
      handoffs := handoffs + 1;
      Emit(Handoff(source, target));
    }

    method Close(text: string, stop: Stop, validated: bool, checkpoint: seq<Key>) returns (o: Outcome)
      modifies this`events
      ensures Shared(o) == Judge(c, text, stop, validated, calls, revisions, old(Talk(events)))
      ensures o.pattern == pattern && o.handoffs == handoffs && o.checkpoint == checkpoint
    {
      var usage := AddUp(calls);
      Emit(Stopped(stop));
      o := Outcome(pattern, text, stop, validated, TaskCorrect(c, text, stop, validated), SafeFallback(stop),
                   SafeFallback(stop) || validated,
                   |calls|, handoffs, revisions, usage, events, checkpoint);
    }

    method Conclude(plan: Plan, checkpoint: seq<Key>) returns (o: Outcome)
      requires revisions <= 1
      modifies this`events
      ensures Shared(o) == Concluded(c, plan, calls, revisions, old(Talk(events))).verdict
      ensures o.pattern == pattern && o.handoffs == handoffs && o.checkpoint == checkpoint
    {
      match c.validate(plan.explanation)
      case None => o := Close(FallbackText(c), DeterministicFallback, false, checkpoint);
      case Some(text) => o := Close(text, if revisions == 1 then RevisedAccepted else Accepted, true, checkpoint);
    }
  }

  method AddUp(calls: seq<Call>) returns (u: Usage)
    ensures u == Total(calls)
  {
    u := Usage(0, 0, 0, 0, 0);
    for i := 0 to |calls|
      invariant u == Total(calls[..i])
    {
      assert calls[..i + 1][..i] == calls[..i];
      var v := calls[i].usage;
      u := Usage(u.prompt + v.prompt, u.completion + v.completion, u.reasoning + v.reasoning, u.elapsed + v.elapsed,
                 u.tools + v.tools);
    }
    assert calls[..|calls|] == calls;
  }

  // ---- Routers ----

  method RoutePlanner(flow: Flow, phase: Phase) returns (said: Said<Plan>)
    modifies flow`calls, flow`events, flow`planned, flow`revised
    ensures var turn := PlannerTurn(flow.c, old(flow.calls), old(Talk(flow.events)), phase);
            said == turn.said && flow.calls == turn.calls && Talk(flow.events) == turn.talk
  {
    match flow.pattern {
      case SupervisorPattern => flow.Emit(SupervisorRoute(phase == Revision));
      case Hierarchical => flow.Emit(ManagerDispatch(ProcurementPlanner, phase == Revision));
      case ManagedAgentTool => flow.Emit(AgentControl(phase == Revision));
      case _ =>
    }
    said := flow.Consult(phase);
  }

  predicate Hands(pattern: Pattern) {
    pattern.SupervisorPattern? || pattern.PeerToPeer?
  }

  method RouteReviewer(flow: Flow, plan: Plan) returns (said: Said<ReviewDecision>)
    modifies flow`calls, flow`events, flow`decided, flow`handoffs
    ensures var turn := ReviewerTurn(flow.c, old(flow.calls), old(Talk(flow.events)), plan);
            said == turn.said && flow.calls == turn.calls && Talk(flow.events) == turn.talk
    ensures flow.handoffs == old(flow.handoffs) + if Hands(flow.pattern) then 1 else 0
  {
    match flow.pattern {
      case SupervisorPattern => flow.HandOver(Supervisor, PolicyRiskReviewer);
      case PeerToPeer => flow.HandOver(ProcurementPlanner, PolicyRiskReviewer);
      case Hierarchical =>
        flow.Emit(ManagerReceive(ProcurementPlanner));
        flow.Emit(ManagerDispatch(PolicyRiskReviewer, false));
      case ManagedAgentTool => flow.Emit(AgentToolCall);
      case _ =>
    }
    said := flow.ConsultReviewer(plan);
    if said.Said? {
      match flow.pattern {
        case Hierarchical => flow.Emit(ManagerReceive(PolicyRiskReviewer));
        case ManagedAgentTool => flow.Emit(AgentToolResult);
        case _ =>
      }
    }
  }

  method RevisionHandoff(flow: Flow)
    modifies flow`events, flow`handoffs
    ensures Talk(flow.events) == old(Talk(flow.events))
    ensures flow.handoffs == old(flow.handoffs) + if Hands(flow.pattern) then 1 else 0
  {
    match flow.pattern {
      case SupervisorPattern =>
        flow.Emit(SupervisorRoute(true));
        flow.HandOver(Supervisor, ProcurementPlanner);
      case PeerToPeer => flow.HandOver(PolicyRiskReviewer, ProcurementPlanner);
      case Hierarchical => flow.Emit(ManagerDispatch(ProcurementPlanner, true));
      case ManagedAgentTool => flow.Emit(AgentControl(true));
      case _ =>
    }
  }

  /** A run returns the verdict of a conversation, unless a RuntimeError gets through. */
  ghost predicate Carries(run: Run, ending: Ending, pattern: Pattern, handoffs: nat) {
    && (run.Raised? <==> ending.faulted)
    && (run.Returned? ==>
          && Shared(run.outcome) == ending.verdict && run.outcome.pattern == pattern
          && run.outcome.checkpoint == [] && run.outcome.handoffs == handoffs)
  }

  /** The handlers around the bounded flow: named failures and value errors end it, others escape. */
  method GiveUp<T>(flow: Flow, ghost turn: Turn<T>, said: Said<T>) returns (run: Run)
    requires turn.said == said && !said.Said? && flow.calls == turn.calls && Talk(flow.events) == turn.talk
    modifies flow`events
    ensures Carries(run, Failed(flow.c, turn, flow.revisions), flow.pattern, flow.handoffs)
  {
    if said.Faulted? { return Raised; }
    var o := flow.Close(FallbackText(flow.c), Broken(if said.Refused? then said.code else ModelError), false, []);
    run := Returned(o);
  }

  method ReviseAndClose(flow: Flow) returns (run: Run)
    requires flow.revisions == 1
    modifies flow
    ensures var turn := PlannerTurn(flow.c, old(flow.calls), old(Talk(flow.events)), Revision);
            Carries(run, if turn.said.Said? then AfterRevision(flow.c, turn.said.value, turn.calls, turn.talk)
                         else Failed(flow.c, turn, 1),
                    flow.pattern, old(flow.handoffs) + if Hands(flow.pattern) then 1 else 0)
  {
    ghost var turn := PlannerTurn(flow.c, flow.calls, Talk(flow.events), Revision);
    RevisionHandoff(flow);
    var revision := RoutePlanner(flow, Revision);
    if !revision.Said? {
      run := GiveUp(flow, turn, revision);
      return;
    }
    var o;
    if flow.c.loopAttack {
      flow.Emit(CycleBlocked);
      o := flow.Close(FallbackText(flow.c), LoopBlocked, false, []);
    } else {
      o := flow.Conclude(revision.value, []);
    }
    run := Returned(o);
  }

  method DecideAndClose(flow: Flow, plan: Plan, decision: Decision) returns (run: Run)
    requires flow.revisions == 0
    modifies flow
    ensures Carries(run, AfterReview(flow.c, plan, decision, old(flow.calls), old(Talk(flow.events))),
                    flow.pattern, old(flow.handoffs) + if Hands(flow.pattern) && decision == Revise then 1 else 0)
  {
    var o;
    match decision {
      case Accept => o := flow.Conclude(plan, []);
      case Reject => o := flow.Close(FallbackText(flow.c), ReviewRejected, false, []);
      case Escalate => o := flow.Close(FallbackText(flow.c), ReviewEscalated, false, []);
      case Revise =>
        flow.revisions := 1;
        run := ReviseAndClose(flow);
        return;
    }
    run := Returned(o);
  }

  /** Handoffs are the one count that the pattern decides: supervisor and peers hand over before each
      review and each revision. */
  function HandoffsOf(c: Case, pattern: Pattern): nat {
    var planning := PlannerTurn(c, [], [], Initial);
    if !Hands(pattern) || !planning.said.Said? then 0
    else
      var review := ReviewerTurn(c, planning.calls, planning.talk, planning.said.value);
      if review.said.Said? && review.said.value.decision == Revise then 2 else 1
  }

  method RunBoundedFlow(c: Case, pattern: Pattern) returns (run: Run)
    requires !pattern.ExplicitGraphNode?
    ensures Carries(run, Conversation(c), pattern, HandoffsOf(c, pattern))
  {
    var flow := new Flow(c, pattern);
    ghost var planningTurn := PlannerTurn(c, [], [], Initial);
    var planning := RoutePlanner(flow, Initial);
    if !planning.Said? {
      run := GiveUp(flow, planningTurn, planning);
      return;
    }
    ghost var reviewTurn := ReviewerTurn(c, flow.calls, Talk(flow.events), planning.value);
    var review := RouteReviewer(flow, planning.value);
    if !review.Said? {
      run := GiveUp(flow, reviewTurn, review);
      return;
    }
    run := DecideAndClose(flow, planning.value, review.value.decision);
  }

  // ---- The graph machine ----

  datatype Stage = Start | ForReview | ForDecision | ForRevision | Revised | Finalized | Halted

  datatype Key = CaseIdKey | DecisionKey | PlanDigestKey | StageKey | StopCodeKey

  datatype GraphState = GraphState(stage: Stage, planDigest: string, decision: Option<Decision>, stopCode: Option<Code>)

  function Keys(s: GraphState): seq<Key> {
    [CaseIdKey] + (if s.decision.Some? then [DecisionKey] else []) + [PlanDigestKey, StageKey] +
    (if s.stopCode.Some? then [StopCodeKey] else [])
  }

  const INITIAL_KEYS := [CaseIdKey, PlanDigestKey, StageKey]

  /** What a node leaves behind: the next state, or the kind of exception that stops the machine. */
  datatype Stepped = Next(state: GraphState) | Threw

  function Halt(s: GraphState, code: Code): Stepped {
    Next(s.(stopCode := Some(code), stage := Halted))
  }

  function AfterPlannerNode(s: GraphState): Node {
    if s.stage == Halted then StopNode else ReviewerNode
  }

  function AfterReviewerNode(s: GraphState): Node {
    if s.stage == Halted then StopNode else if s.decision == Some(Revise) then RevisionNode else FinalizeNode
  }

  /** What the last block of the runner reads off the final state. */
  ghost function Settled(c: Case, s: GraphState, planned: Option<Plan>, revised: Option<Plan>,
                         calls: seq<Call>, revisions: nat, talk: seq<Event>): Option<Ending> {
    if s.stopCode.Some? then
      Some(Ending(Judge(c, FallbackText(c), Broken(s.stopCode.value), false, calls, revisions, talk), false))
    else if s.decision == Some(Revise) then
      if revised.Some? && revisions == 1 then Some(AfterRevision(c, revised.value, calls, talk)) else None
    else if s.decision.Some? && planned.Some? && revisions == 0 then
      Some(AfterReview(c, planned.value, s.decision.value, calls, talk))
    else None
  }

  /** What is still to be said once the machine stands before a node: the rest of the conversation. */
  ghost function Remaining(c: Case, node: Node, s: GraphState, planned: Option<Plan>, revised: Option<Plan>,
                           calls: seq<Call>, revisions: nat, talk: seq<Event>): Option<Ending> {
    match node
    case PlannerNode =>
      if s.stage == Start && calls == [] && talk == [] && revisions == 0 then Some(Conversation(c)) else None
    case ReviewerNode =>
      if planned.Some? && revisions == 0 then Some(AfterPlanning(c, planned.value, calls, talk)) else None
    case RevisionNode =>
      if planned.Some? && revisions == 0 && s.decision == Some(Revise)
        then Some(AfterReview(c, planned.value, Revise, calls, talk)) else None
    case _ => Settled(c, s, planned, revised, calls, revisions, talk)
  }

  /** The machine stands before a node with the conversation's verdict still ahead of it. */
  ghost predicate Standing(flow: Flow, node: Node, s: GraphState, ending: Ending)
    reads flow
  {
    var rest := Remaining(flow.c, node, s, flow.planned, flow.revised, flow.calls, flow.revisions, Talk(flow.events));
    && rest.Some? && rest.value.verdict == ending.verdict
    && (node == PlannerNode || node == ReviewerNode || node == RevisionNode ==> s.stopCode == None && s.stage != Halted)
    && (s.stopCode == None && s.decision.Some? ==>
          flow.decided.Some? && flow.decided.value.decision == s.decision.value)
  }

  /** An exception leaves the machine with just what its handler reports. */
  ghost predicate Abandoned(flow: Flow, ending: Ending)
    reads flow
  {
    Judge(flow.c, FallbackText(flow.c), Broken(ModelError), false, flow.calls, flow.revisions,
          Talk(flow.events)) == ending.verdict
  }

  /** After the first turn the conversation goes on with the review, or the turn has ended it. */
  lemma AfterFirstTurn(c: Case, s: GraphState, planned: Option<Plan>, revised: Option<Plan>)
    ensures var turn, v := PlannerTurn(c, [], [], Initial), Conversation(c).verdict;
            match turn.said
            case Said(plan) =>
              planned == Some(plan) ==>
                Remaining(c, ReviewerNode, s, planned, revised, turn.calls, 0, turn.talk) == Some(Conversation(c))
            case Refused(code) => Judge(c, FallbackText(c), Broken(code), false, turn.calls, 0, turn.talk) == v
            case _ => Judge(c, FallbackText(c), Broken(ModelError), false, turn.calls, 0, turn.talk) == v
  {
  }

  method PlannerStep(flow: Flow, s: GraphState, ghost ending: Ending) returns (r: Stepped)
    requires Standing(flow, PlannerNode, s, ending) && s.decision == None
    modifies flow`calls, flow`events, flow`planned, flow`revised
    ensures if r.Threw? then Abandoned(flow, ending)
            else Standing(flow, AfterPlannerNode(r.state), r.state, ending) && r.state.decision == None
  {
    flow.Emit(GraphNode(PlannerNode));
    var said := flow.Consult(if s.stage == ForRevision then Revision else Initial);
    r := AfterPlan(flow, s, said, ending);
  }

  /** The planner node's state once the planner has answered. */
  method AfterPlan(flow: Flow, s: GraphState, said: Said<Plan>, ghost ending: Ending) returns (r: Stepped)
    requires s.stopCode == None && s.decision == None && flow.revisions == 0
             && ending.verdict == Conversation(flow.c).verdict
    requires var turn := PlannerTurn(flow.c, [], [], Initial);
             said == turn.said && flow.calls == turn.calls && Talk(flow.events) == turn.talk
             && (said.Said? ==> flow.planned == Some(said.value))
    ensures if r.Threw? then Abandoned(flow, ending)
            else Standing(flow, AfterPlannerNode(r.state), r.state, ending) && r.state.decision == None
  {
    match said {
      case Said(plan) => r := Next(s.(stage := ForReview, planDigest := plan.digest));
      case Refused(code) => r := Halt(s, code);
      case _ => r := Threw;
    }
    AfterFirstTurn(flow.c, if r.Next? then r.state else s, flow.planned, flow.revised);
  }

  /** After the reviewer's turn the conversation goes where the decision leads, or the turn has ended it. */
  lemma AfterSecondTurn(c: Case, s: GraphState, planned: Option<Plan>, revised: Option<Plan>, plan: Plan,
                        calls: seq<Call>,
                        talk: seq<Event>)
    requires planned == Some(plan)
    ensures var turn, rest := ReviewerTurn(c, calls, talk, plan), AfterPlanning(c, plan, calls, talk);
            match turn.said
            case Said(d) =>
              s.decision == Some(d.decision) && s.stopCode == None && s.stage != Halted ==>
                Remaining(c, AfterReviewerNode(s), s, planned, revised, turn.calls, 0, turn.talk) == Some(rest)
            case Refused(code) =>
              Judge(c, FallbackText(c), Broken(code), false, turn.calls, 0, turn.talk) == rest.verdict
            case _ => Judge(c, FallbackText(c), Broken(ModelError), false, turn.calls, 0, turn.talk) == rest.verdict
  {
  }

  /** The runner's guard against a missing candidate never fires: the machine stands here only with one. */
  method ReviewerStep(flow: Flow, s: GraphState, ghost ending: Ending) returns (r: Stepped)
    requires Standing(flow, ReviewerNode, s, ending) && s.decision == None
    modifies flow`calls, flow`events, flow`decided
    ensures if r.Threw? then Abandoned(flow, ending) else Standing(flow, AfterReviewerNode(r.state), r.state, ending)
  {
    ghost var calls, talk := flow.calls, Talk(flow.events);
    flow.Emit(GraphNode(ReviewerNode));
    var said := flow.ConsultReviewer(flow.planned.value);
    r := AfterDecision(flow, s, said, flow.planned.value, calls, talk, ending);
  }

  /** The reviewer node's state once the reviewer has answered. */
  method AfterDecision(flow: Flow, s: GraphState, said: Said<ReviewDecision>, ghost plan: Plan, ghost calls: seq<Call>,
                       ghost talk: seq<Event>, ghost ending: Ending) returns (r: Stepped)
    requires s.stopCode == None && s.decision == None && flow.revisions == 0 && flow.planned == Some(plan)
    requires AfterPlanning(flow.c, plan, calls, talk).verdict == ending.verdict
    requires var turn := ReviewerTurn(flow.c, calls, talk, plan);
             && said == turn.said && flow.calls == turn.calls && Talk(flow.events) == turn.talk
             && (said.Said? ==> flow.decided == Some(said.value))
    ensures if r.Threw? then Abandoned(flow, ending) else Standing(flow, AfterReviewerNode(r.state), r.state, ending)
  {
    match said {
      case Said(d) => r := Next(s.(decision := Some(d.decision), stage := ForDecision));
      case Refused(code) => r := Halt(s, code);
      case _ => r := Threw;
    }
    AfterSecondTurn(flow.c, if r.Next? then r.state else s, flow.planned, flow.revised, plan, calls, talk);
  }

  /** After the revision's turn the rest of the conversation is the revised plan, or the turn has ended it. */
  lemma AfterLastTurn(c: Case, s: GraphState, planned: Option<Plan>, revised: Option<Plan>, plan: Plan,
                      calls: seq<Call>,
                      talk: seq<Event>)
    requires s.decision == Some(Revise)
    ensures var turn, rest := PlannerTurn(c, calls, talk, Revision), AfterReview(c, plan, Revise, calls, talk);
            match turn.said
            case Said(p) =>
              revised == Some(p) && s.stopCode == None ==>
                Settled(c, s, planned, revised, turn.calls, 1, turn.talk) == Some(rest)
            case Refused(code) =>
              Judge(c, FallbackText(c), Broken(code), false, turn.calls, 1, turn.talk) == rest.verdict
            case _ => Judge(c, FallbackText(c), Broken(ModelError), false, turn.calls, 1, turn.talk) == rest.verdict
  {
  }

  method RevisionStep(flow: Flow, s: GraphState, ghost ending: Ending) returns (r: Stepped)
    requires Standing(flow, RevisionNode, s, ending)
    modifies flow`calls, flow`events, flow`planned, flow`revised, flow`revisions
    ensures if r.Threw? then Abandoned(flow, ending) else Standing(flow, FinalizeNode, r.state, ending)
  {
    ghost var plan, calls, talk := flow.planned.value, flow.calls, Talk(flow.events);
    flow.Emit(GraphNode(RevisionNode));
    flow.revisions := 1;
    var said := flow.Consult(Revision);
    r := AfterRevise(flow, s, said, plan, calls, talk, ending);
  }

  /** The revision node's state once the planner has answered. */
  method AfterRevise(flow: Flow, s: GraphState, said: Said<Plan>, ghost plan: Plan, ghost calls: seq<Call>,
                     ghost talk: seq<Event>, ghost ending: Ending) returns (r: Stepped)
    requires s.decision == Some(Revise) && s.stopCode == None && flow.revisions == 1
    requires flow.decided.Some? && flow.decided.value.decision == Revise
    requires AfterReview(flow.c, plan, Revise, calls, talk).verdict == ending.verdict
    requires var turn := PlannerTurn(flow.c, calls, talk, Revision);
             && said == turn.said && flow.calls == turn.calls && Talk(flow.events) == turn.talk
             && (said.Said? ==> flow.revised == Some(said.value))
    ensures if r.Threw? then Abandoned(flow, ending) else Standing(flow, FinalizeNode, r.state, ending)
  {
    match said {
      case Said(_) => r := Next(s.(stage := Revised));
      case Refused(code) => r := Halt(s, code);
      case _ => r := Threw;
    }
    AfterLastTurn(flow.c, if r.Next? then r.state else s, flow.planned, flow.revised, plan, calls, talk);
  }

  method FinalizeStep(flow: Flow, s: GraphState, ghost ending: Ending) returns (r: Stepped)
    requires Standing(flow, FinalizeNode, s, ending)
    modifies flow`events
    ensures r.Next? && Standing(flow, EndNode, r.state, ending)
  {
    flow.Emit(GraphNode(FinalizeNode));
    r := Next(s.(stage := Finalized));
  }

  function Rank(n: Node): nat {
    match n
    case PlannerNode => 4
    case ReviewerNode => 3
    case RevisionNode => 2
    case FinalizeNode => 1
    case StopNode => 1
    case EndNode => 0
  }

  /** One node, and the edge out of it. */
  method RunNode(flow: Flow, node: Node, s: GraphState, ghost ending: Ending) returns (r: Stepped, next: Node)
    requires node != EndNode && Standing(flow, node, s, ending)
    requires node == PlannerNode || node == ReviewerNode ==> s.decision == None
    modifies flow`calls, flow`events, flow`planned, flow`revised, flow`decided, flow`revisions
    ensures if r.Threw? then Abandoned(flow, ending)
            else Standing(flow, next, r.state, ending) && Rank(next) < Rank(node)
    ensures r.Next? && (next == PlannerNode || next == ReviewerNode) ==> r.state.decision == None
  {
    match node {
      case PlannerNode =>
        r := PlannerStep(flow, s, ending);
        next := if r.Next? then AfterPlannerNode(r.state) else EndNode;
      case ReviewerNode =>
        r := ReviewerStep(flow, s, ending);
        next := if r.Next? then AfterReviewerNode(r.state) else EndNode;
      case RevisionNode =>
        r := RevisionStep(flow, s, ending);
        next := FinalizeNode;
      case FinalizeNode =>
        r := FinalizeStep(flow, s, ending);
        next := EndNode;
      case StopNode =>
        r := Next(s);
        next := EndNode;
    }
  }

  /** The machine always returns, with the conversation's verdict. */
  method RunExplicitGraph(c: Case) returns (o: Outcome)
    ensures Shared(o) == Conversation(c).verdict && o.pattern == ExplicitGraphNode && o.handoffs == 0
  {
    var flow := new Flow(c, ExplicitGraphNode);
    ghost var ending := Conversation(c);
    var s := GraphState(Start, c.digest, None, None);
    var node := PlannerNode;
    while node != EndNode
      invariant fresh(flow) && flow.c == c && flow.pattern == ExplicitGraphNode && flow.handoffs == 0
      invariant Standing(flow, node, s, ending)
      invariant node == PlannerNode || node == ReviewerNode ==> s.decision == None
      decreases Rank(node)
    {
      var r, next := RunNode(flow, node, s, ending);
      if r.Threw? {
        o := flow.Close(FallbackText(c), Broken(ModelError), false, INITIAL_KEYS);
        return;
      }
      s, node := r.state, next;
    }
    o := ReadOff(flow, s);
  }

  /** The runner's last block. Its fallbacks for a missing candidate or decision are never reached. */
  method ReadOff(flow: Flow, s: GraphState) returns (o: Outcome)
    requires Settled(flow.c, s, flow.planned, flow.revised, flow.calls, flow.revisions, Talk(flow.events)).Some?
    requires s.stopCode == None && s.decision.Some? ==>
               flow.decided.Some? && flow.decided.value.decision == s.decision.value
    modifies flow`events
    ensures Shared(o) ==
            old(Settled(flow.c, s, flow.planned, flow.revised, flow.calls, flow.revisions,
                        Talk(flow.events))).value.verdict
    ensures o.pattern == flow.pattern && o.handoffs == flow.handoffs
  {
    var c, keys := flow.c, Keys(s);
    if s.stopCode.Some? {
      o := flow.Close(FallbackText(c), Broken(s.stopCode.value), false, keys);
    } else if s.decision == Some(Accept) {
      o := flow.Conclude(flow.planned.value, keys);
    } else if s.decision == Some(Revise) {
      if c.loopAttack {
        flow.Emit(CycleBlocked);
        o := flow.Close(FallbackText(c), LoopBlocked, false, keys);
      } else {
        o := flow.Conclude(flow.revised.value, keys);
      }
    } else {
      o := flow.Close(FallbackText(c),
                      if flow.decided.value.decision == Reject then ReviewRejected else ReviewEscalated, false, keys);
    }
  }

  // ---- All five ----

  method RunPattern(c: Case, pattern: Pattern) returns (run: Run)
    ensures run.Raised? <==> Conversation(c).faulted && !pattern.ExplicitGraphNode?
    ensures run.Returned? ==> Shared(run.outcome) == Conversation(c).verdict && run.outcome.pattern == pattern
    ensures run.Returned? ==> run.outcome.handoffs == HandoffsOf(c, pattern)
    ensures run.Returned? ==> Says(Shared(run.outcome), ToldBy(c))
  {
    VerdictByAnswers(c);
    if pattern.ExplicitGraphNode? {
      var o := RunExplicitGraph(c);
      run := Returned(o);
    } else {
      run := RunBoundedFlow(c, pattern);
    }
  }

  const PATTERNS := [SupervisorPattern, PeerToPeer, Hierarchical, ManagedAgentTool, ExplicitGraphNode]

  predicate Agree(a: Run, b: Run) {
    a.Returned? && b.Returned? && Shared(a.outcome) == Shared(b.outcome)
  }

  /** For every behaviour of the roles, all five patterns reach the same verdict exactly when no role
      that is asked raises a RuntimeError: the bounded flow lets that one through, the graph does not. */
  method RunAllPatterns(c: Case) returns (runs: seq<Run>)
    ensures |runs| == |PATTERNS|
    ensures (forall i, j :: 0 <= i < |runs| && 0 <= j < |runs| ==> Agree(runs[i], runs[j])) <==>
              !Conversation(c).faulted
    ensures forall i :: 0 <= i < |runs| && runs[i].Returned? ==> Shared(runs[i].outcome) == Conversation(c).verdict
  {
    ghost var ending := Conversation(c);
    runs := [];
    for k := 0 to |PATTERNS|
      invariant |runs| == k && forall i :: 0 <= i < k ==> RunsAs(runs[i], PATTERNS[i], ending)
    {
      var run := RunPattern(c, PATTERNS[k]);
      runs := runs + [run];
    }
    AllAgreeIff(runs, ending);
  }

  ghost predicate RunsAs(run: Run, pattern: Pattern, ending: Ending) {
    && (run.Raised? <==> ending.faulted && !pattern.ExplicitGraphNode?)
    && (run.Returned? ==> Shared(run.outcome) == ending.verdict)
  }

  lemma AllAgreeIff(runs: seq<Run>, ending: Ending)
    requires |runs| == |PATTERNS| && forall i :: 0 <= i < |runs| ==> RunsAs(runs[i], PATTERNS[i], ending)
    ensures (forall i, j :: 0 <= i < |runs| && 0 <= j < |runs| ==> Agree(runs[i], runs[j])) <==> !ending.faulted
  {
    assert PATTERNS[0] == SupervisorPattern && RunsAs(runs[0], PATTERNS[0], ending);
    assert ending.faulted ==> !Agree(runs[0], runs[0]);
  }

  /** Nobody who is asked raises a RuntimeError. */
  ghost predicate NoFault(c: Case) {
    var planning := PlannerTurn(c, [], [], Initial);
    && !planning.said.Faulted?
    && (planning.said.Said? ==>
          var review := ReviewerTurn(c, planning.calls, planning.talk, planning.said.value);
          && !review.said.Faulted?
          && (review.said.Said? && review.said.value.decision == Revise ==>
                !PlannerTurn(c, review.calls, review.talk, Revision).said.Faulted?))
  }

  lemma FaultedIffAsked(c: Case)
    ensures Conversation(c).faulted <==> !NoFault(c)
  {
  }

  // ---- What every verdict satisfies ----

  ghost predicate Asked(talk: seq<Event>, decision: Decision) {
    exists i :: 0 <= i < |talk| && talk[i].ReviewDecided? && talk[i].decision == decision
  }

  /** Recovery never fails: every conversation ends validated or in the safe fallback, never both. */
  ghost predicate Recovered(c: Case, v: Verdict) {
    && v.recovered && v.validated == !v.fallback && v.validated == (v.stop.Accepted? || v.stop.RevisedAccepted?)
    && (!v.validated ==> v.text == FallbackText(c))
    && (if c.revisionRequired || c.expected.ValidExplanation? then v.taskCorrect
        else if c.expected.SafeRefusal? then
          v.taskCorrect <==> !exists k, i: nat :: 0 <= k < |c.forbidden| && OccursAt(v.text, c.forbidden[k], i)
        else v.taskCorrect == !v.validated)
  }

  /** How a run may end once the reviewer has decided: an accepted plan is published if it validates, a
      rejected or escalated one never is, and a revision is published, blocked as a loop, or fails. */
  ghost predicate Ends(c: Case, decision: Decision, v: Verdict) {
    match decision
    case Accept => v.stop.Accepted? || v.stop.DeterministicFallback?
    case Reject => v.stop.ReviewRejected? && !v.validated
    case Escalate => v.stop.ReviewEscalated? && !v.validated
    case Revise =>
      if c.loopAttack then v.stop.LoopBlocked? || v.stop.Broken?
      else v.stop.RevisedAccepted? || v.stop.DeterministicFallback? || v.stop.Broken?
  }

  predicate Bounded(v: Verdict) {
    && v.modelCalls <= 3 && v.revisions <= 1 && |v.talk| <= 8
    && (v.stop.RevisedAccepted? || v.stop.LoopBlocked? ==> v.revisions == 1)
    && (v.stop.Accepted? || v.stop.ReviewRejected? || v.stop.ReviewEscalated? ==> v.revisions == 0)
  }

  /** From here on the reviewer is not asked again. */
  predicate Extends(v: Verdict, talk: seq<Event>) {
    && |talk| <= |v.talk| && v.talk[..|talk|] == talk
    && forall i :: |talk| <= i < |v.talk| ==> !v.talk[i].ReviewDecided?
  }

  lemma FailedHolds<T>(c: Case, turn: Turn<T>, revisions: nat)
    requires |turn.calls| <= 3 && revisions <= 1 && |turn.talk| <= 7
    ensures var v := Failed(c, turn, revisions).verdict;
            Recovered(c, v) && Bounded(v) && Extends(v, turn.talk) && v.revisions == revisions && v.stop.Broken?
  {
  }

  lemma ConcludedHolds(c: Case, plan: Plan, calls: seq<Call>, revisions: nat, talk: seq<Event>)
    requires |calls| <= 3 && revisions <= 1 && |talk| <= 7
    ensures var v := Concluded(c, plan, calls, revisions, talk).verdict;
            Recovered(c, v) && Bounded(v) && Extends(v, talk) && v.revisions == revisions
  {
  }

  lemma AfterRevisionHolds(c: Case, plan: Plan, calls: seq<Call>, talk: seq<Event>)
    requires |calls| <= 3 && |talk| <= 6
    ensures var v := AfterRevision(c, plan, calls, talk).verdict;
            Recovered(c, v) && Bounded(v) && Extends(v, talk) && v.revisions == 1
  {
    ConcludedHolds(c, plan, calls, 1, talk);
  }

  lemma PlannerTurnGrows(c: Case, calls: seq<Call>, talk: seq<Event>, phase: Phase)
    ensures var turn := PlannerTurn(c, calls, talk, phase);
            && |turn.calls| <= |calls| + 1 && |talk| <= |turn.talk| <= |talk| + 2 && turn.talk[..|talk|] == talk
            && forall i :: |talk| <= i < |turn.talk| ==> !turn.talk[i].ReviewDecided?
  {
  }

  lemma AfterReviewHolds(c: Case, plan: Plan, decision: Decision, calls: seq<Call>, talk: seq<Event>)
    requires |calls| <= 2 && |talk| <= 4
    ensures var v := AfterReview(c, plan, decision, calls, talk).verdict;
            && Recovered(c, v) && Bounded(v) && Extends(v, talk) && Ends(c, decision, v)
            && (v.revisions == 1 <==> decision == Revise)
  {
    if decision == Revise {
      var turn := PlannerTurn(c, calls, talk, Revision);
      PlannerTurnGrows(c, calls, talk, Revision);
      if turn.said.Said? {
        AfterRevisionHolds(c, turn.said.value, turn.calls, turn.talk);
      } else {
        FailedHolds(c, turn, 1);
      }
      assert AfterReview(c, plan, decision, calls, talk).verdict.talk[..|turn.talk|][..|talk|] == talk;
    } else {
      ConcludedHolds(c, plan, calls, 0, talk);
    }
  }

  predicate Undecided(talk: seq<Event>) {
    forall i :: 0 <= i < |talk| ==> !talk[i].ReviewDecided?
  }

  lemma ReviewerTurnGrows(c: Case, calls: seq<Call>, talk: seq<Event>, plan: Plan)
    requires Undecided(talk)
    ensures var turn := ReviewerTurn(c, calls, talk, plan);
            && |turn.calls| <= |calls| + 1 && |turn.talk| <= |talk| + 2
            && if turn.said.Said? then DecidesLast(turn.talk, turn.said.value.decision) && |turn.talk| == |talk| + 2
               else Undecided(turn.talk)
  {
  }

  /** The last event is the reviewer's decision, and the only one. */
  predicate DecidesLast(talk: seq<Event>, decision: Decision) {
    && talk != [] && Undecided(talk[..|talk| - 1])
    && talk[|talk| - 1].ReviewDecided? && talk[|talk| - 1].decision == decision
  }

  lemma DecidedOnce(all: seq<Event>, talk: seq<Event>, at: nat)
    requires |talk| == at + 1 <= |all| && all[..|talk|] == talk && talk[at].ReviewDecided?
             && DecidesLast(talk, talk[at].decision)
    requires forall i :: |talk| <= i < |all| ==> !all[i].ReviewDecided?
    ensures forall decision :: Asked(all, decision) <==> talk[at].decision == decision
  {
    assert all[at] == talk[at];
    forall i | 0 <= i < at ensures !all[i].ReviewDecided? {
      assert all[i] == talk[i] == talk[..at][i];
    }
  }

  lemma NeverDecided(all: seq<Event>, talk: seq<Event>)
    requires Undecided(talk) && |talk| <= |all| && all[..|talk|] == talk
    requires forall i :: |talk| <= i < |all| ==> !all[i].ReviewDecided?
    ensures forall decision :: !Asked(all, decision)
  {
    forall i | 0 <= i < |talk| ensures !all[i].ReviewDecided? {
      assert all[i] == talk[i];
    }
  }

  /** What the trace alone says of the verdict: without a decision the run broke; with one it ended as
      that decision leads to. */
  ghost predicate FromTalk(c: Case, v: Verdict) {
    && (v.revisions == 1 <==> Asked(v.talk, Revise))
    && (v.stop.ReviewRejected? <==> Asked(v.talk, Reject))
    && (v.stop.ReviewEscalated? <==> Asked(v.talk, Escalate))
    && (v.stop.Accepted? ==> Asked(v.talk, Accept))
    && (v.stop.RevisedAccepted? || v.stop.LoopBlocked? ==> Asked(v.talk, Revise))
    && (v.stop.DeterministicFallback? || v.validated ==> Asked(v.talk, Accept) || Asked(v.talk, Revise))
    && (Asked(v.talk, Accept) ==> v.stop.Accepted? || v.stop.DeterministicFallback?)
    && ((forall decision :: !Asked(v.talk, decision)) ==> v.stop.Broken?)
    && (forall a, b :: Asked(v.talk, a) && Asked(v.talk, b) ==> a == b)
  }

  lemma AfterPlanningHolds(c: Case, plan: Plan, calls: seq<Call>, talk: seq<Event>)
    requires |calls| <= 1 && |talk| <= 2 && Undecided(talk)
    ensures var v := AfterPlanning(c, plan, calls, talk).verdict;
            Recovered(c, v) && Bounded(v) && FromTalk(c, v)
  {
    var turn := ReviewerTurn(c, calls, talk, plan);
    ReviewerTurnGrows(c, calls, talk, plan);
    if turn.said.Said? {
      var decision := turn.said.value.decision;
      AfterReviewHolds(c, plan, decision, turn.calls, turn.talk);
      DecidedOnce(AfterReview(c, plan, decision, turn.calls, turn.talk).verdict.talk, turn.talk, |talk| + 1);
    } else {
      FailedHolds(c, turn, 0);
      NeverDecided(Failed(c, turn, 0).verdict.talk, turn.talk);
    }
  }

  /** Whatever the roles do, at most three calls and one revision are made, the run recovers, and what
      the trace shows of the review decides how it may end. */
  lemma VerdictHolds(c: Case)
    ensures var v := Conversation(c).verdict;
            Recovered(c, v) && Bounded(v) && FromTalk(c, v)
  {
    var turn := PlannerTurn(c, [], [], Initial);
    PlannerTurnGrows(c, [], [], Initial);
    if turn.said.Said? {
      AfterPlanningHolds(c, turn.said.value, turn.calls, turn.talk);
    } else {
      FailedHolds(c, turn, 0);
      NeverDecided(Failed(c, turn, 0).verdict.talk, turn.talk);
    }
  }

  /** The usage of calls is what each recorded, taken together: of one call its own, of two lists the
      sum, figure by figure. */
  lemma {:induction false} UsageAddsUp(a: seq<Call>, b: seq<Call>, one: Call)
    ensures Total([one]) == one.usage
    ensures var t, x, y := Total(a + b), Total(a), Total(b);
            && t.prompt == x.prompt + y.prompt && t.completion == x.completion + y.completion
            && t.reasoning == x.reasoning + y.reasoning && t.elapsed == x.elapsed + y.elapsed
            && t.tools == x.tools + y.tools
    decreases |b|
  {
    assert [one][..0] == [];
    if b == [] {
      assert a + b == a;
    } else {
      var n := |b| - 1;
      UsageAddsUp(a, b[..n], one);
      assert (a + b)[..|a| + n] == a + b[..n];
    }
  }

  // ---- The verdict, answer by answer ----

  /** How an answer that is no use ends the run; `bound` says it carries the plan's digest. */
  ghost function BreaksOn<T>(reply: Reply<T>, bound: bool): Option<Code> {
    match reply
    case Failure(code) => Some(code)
    case Malformed => Some(InvalidOutput)
    case Crash => Some(ModelError)
    case Fault => Some(ModelError)
    case Output(_) => if bound then None else Some(DigestMismatch)
  }

  ghost function PlanOf(c: Case, calls: seq<Call>, phase: Phase): Reply<Plan> {
    c.roles.planner(calls, phase).reply
  }

  ghost predicate PlanBound(c: Case, calls: seq<Call>, phase: Phase) {
    PlanOf(c, calls, phase).Output? && PlanOf(c, calls, phase).value.digest == c.digest
  }

  ghost function CallsAfterPlan(c: Case): seq<Call> {
    var usage := c.roles.planner([], Initial).recorded;
    if usage.Some? then [Call(ProcurementPlanner, Initial, usage.value)] else []
  }

  ghost function ReviewOf(c: Case): Answer<ReviewDecision>
    requires PlanBound(c, [], Initial)
  {
    c.roles.reviewer(CallsAfterPlan(c), PlanOf(c, [], Initial).value)
  }

  ghost function CallsAfterReview(c: Case): seq<Call>
    requires PlanBound(c, [], Initial)
  {
    var usage := ReviewOf(c).recorded;
    CallsAfterPlan(c) + if usage.Some? then [Call(PolicyRiskReviewer, Review, usage.value)] else []
  }

  /** What a run comes to: how it ends and with which text, the calls recorded, and what was said. */
  datatype Told = Told(stop: Stop, text: string, calls: seq<Call>, revisions: nat, talk: seq<Event>)

  ghost function Published(c: Case, plan: Plan, stop: Stop, calls: seq<Call>, revisions: nat, talk: seq<Event>): Told {
    match c.validate(plan.explanation)
    case Some(text) => Told(stop, text, calls, revisions, talk)
    case None => Told(DeterministicFallback, FallbackText(c), calls, revisions, talk)
  }

  /** The trace of a turn: the request, and unless the role threw, how it went. */
  ghost function Turned<T>(role: Role, phase: Phase, reply: Reply<T>, bound: bool, done: Event): seq<Event> {
    [RoleRequested(role, phase)] +
    if reply.Crash? || reply.Fault? then []
    else if BreaksOn(reply, bound).Some? then [RoleFailed(role, BreaksOn(reply, bound).value)]
    else [done]
  }

  ghost function RevisionOf(c: Case, calls: seq<Call>, talk: seq<Event>): Told {
    var answer, bound := c.roles.planner(calls, Revision), PlanBound(c, calls, Revision);
    var calls' := if answer.recorded.Some? then calls + [Call(ProcurementPlanner, Revision, answer.recorded.value)]
                  else calls;
    var talk' := talk + Turned(ProcurementPlanner, Revision, answer.reply, bound, RoleCompleted(ProcurementPlanner));
    var gone := BreaksOn(answer.reply, bound);
    if gone.Some? then Told(Broken(gone.value), FallbackText(c), calls', 1, talk')
    else if c.loopAttack then Told(LoopBlocked, FallbackText(c), calls', 1, talk' + [CycleBlocked])
    else Published(c, answer.reply.value, RevisedAccepted, calls', 1, talk')
  }

  ghost function DecisionOf(c: Case, plan: Plan, decision: Decision, calls: seq<Call>, talk: seq<Event>): Told {
    match decision
    case Accept => Published(c, plan, Accepted, calls, 0, talk)
    case Reject => Told(ReviewRejected, FallbackText(c), calls, 0, talk)
    case Escalate => Told(ReviewEscalated, FallbackText(c), calls, 0, talk)
    case Revise => RevisionOf(c, calls, talk)
  }

  /** A run, read off the answers given along the way. */
  ghost function ToldBy(c: Case): Told {
    var plan := PlanOf(c, [], Initial);
    var broken := BreaksOn(plan, PlanBound(c, [], Initial));
    var talk := Turned(ProcurementPlanner, Initial, plan, PlanBound(c, [], Initial), RoleCompleted(ProcurementPlanner));
    if broken.Some? then Told(Broken(broken.value), FallbackText(c), CallsAfterPlan(c), 0, talk)
    else ReviewedBy(c, talk)
  }

  ghost function ReviewedBy(c: Case, talk: seq<Event>): Told
    requires PlanBound(c, [], Initial)
  {
    var review := ReviewOf(c).reply;
    var bound := review.Output? && review.value.digest == c.digest;
    var failed := BreaksOn(review, bound);
    var said := if review.Output? then ReviewDecided(review.value.decision, review.value.issues) else CycleBlocked;
    var talk' := talk + Turned(PolicyRiskReviewer, Review, review, bound, said);
    if failed.Some? then Told(Broken(failed.value), FallbackText(c), CallsAfterReview(c), 0, talk')
    else DecisionOf(c, PlanOf(c, [], Initial).value, review.value.decision, CallsAfterReview(c), talk')
  }

  /** The verdict says what was told, and adds the stop to the trace. */
  ghost predicate Says(v: Verdict, told: Told) {
    && v.stop == told.stop && v.text == told.text && v.revisions == told.revisions
    && v.modelCalls == |told.calls| && v.usage == Total(told.calls) && v.talk == told.talk + [Stopped(told.stop)]
  }

  lemma RevisionSays(c: Case, calls: seq<Call>, talk: seq<Event>)
    requires |calls| <= 2
    ensures var turn := PlannerTurn(c, calls, talk, Revision);
            var ending := if turn.said.Said? then AfterRevision(c, turn.said.value, turn.calls, turn.talk)
                          else Failed(c, turn, 1);
            Says(ending.verdict, RevisionOf(c, calls, talk))
  {
    var turn := PlannerTurn(c, calls, talk, Revision);
    assert turn.talk == RevisionTalk(c, calls, talk);
    if turn.said.Said? {
      PublishedSays(c, turn.said.value, turn.calls, 1, turn.talk);
    } else {
      FailedSays(c, turn, 1);
    }
  }

  ghost function RevisionTalk(c: Case, calls: seq<Call>, talk: seq<Event>): seq<Event> {
    talk + Turned(ProcurementPlanner, Revision, c.roles.planner(calls, Revision).reply, PlanBound(c, calls, Revision),
                  RoleCompleted(ProcurementPlanner))
  }

  lemma DecisionSays(c: Case, plan: Plan, decision: Decision, calls: seq<Call>, talk: seq<Event>)
    requires |calls| <= 2
    ensures Says(AfterReview(c, plan, decision, calls, talk).verdict, DecisionOf(c, plan, decision, calls, talk))
  {
    if decision == Revise { RevisionSays(c, calls, talk); }
  }

  ghost function ReviewTalk(c: Case, talk: seq<Event>): seq<Event>
    requires PlanBound(c, [], Initial)
  {
    var review := ReviewOf(c).reply;
    var said := if review.Output? then ReviewDecided(review.value.decision, review.value.issues) else CycleBlocked;
    talk + Turned(PolicyRiskReviewer, Review, review, review.Output? && review.value.digest == c.digest, said)
  }

  lemma ReviewTurnSays(c: Case, talk: seq<Event>)
    requires PlanBound(c, [], Initial)
    ensures var turn := ReviewerTurn(c, CallsAfterPlan(c), talk, PlanOf(c, [], Initial).value);
            turn.calls == CallsAfterReview(c) && turn.talk == ReviewTalk(c, talk)
  {
    var turn := ReviewerTurn(c, CallsAfterPlan(c), talk, PlanOf(c, [], Initial).value);
    assert turn.calls == CallsAfterReview(c);
    assert turn.talk == ReviewTalk(c, talk);
  }

  /** The reviewer's answer goes on to its decision, or breaks the run off. */
  lemma ReviewLeads(c: Case, talk: seq<Event>)
    requires PlanBound(c, [], Initial)
    ensures var plan, review := PlanOf(c, [], Initial).value, ReviewOf(c).reply;
            var turn := ReviewerTurn(c, CallsAfterPlan(c), talk, plan);
            var code := if turn.said.Refused? then turn.said.code else ModelError;
            && (turn.said.Said? ==> review.Output? && turn.said.value == review.value)
            && ReviewedBy(c, talk)
               == (if turn.said.Said? then DecisionOf(c, plan, review.value.decision, turn.calls, turn.talk)
                   else Told(Broken(code), FallbackText(c), turn.calls, 0, turn.talk))
  {
    ReviewTurnSays(c, talk);
  }

  lemma ReviewSays(c: Case, talk: seq<Event>)
    requires PlanBound(c, [], Initial)
    ensures Says(AfterPlanning(c, PlanOf(c, [], Initial).value, CallsAfterPlan(c), talk).verdict, ReviewedBy(c, talk))
  {
    var plan := PlanOf(c, [], Initial).value;
    var turn := ReviewerTurn(c, CallsAfterPlan(c), talk, plan);
    ReviewLeads(c, talk);
    ReviewTurnSays(c, talk);
    if turn.said.Said? {
      DecisionSays(c, plan, turn.said.value.decision, turn.calls, turn.talk);
    } else {
      FailedSays(c, turn, 0);
    }
  }

  lemma GoesOn(c: Case)
    requires PlanBound(c, [], Initial)
    ensures var talk := [RoleRequested(ProcurementPlanner, Initial), RoleCompleted(ProcurementPlanner)];
            && Conversation(c) == AfterPlanning(c, PlanOf(c, [], Initial).value, CallsAfterPlan(c), talk)
            && ToldBy(c) == ReviewedBy(c, talk)
  {
    var turn := PlannerTurn(c, [], [], Initial);
    var talk := [RoleRequested(ProcurementPlanner, Initial), RoleCompleted(ProcurementPlanner)];
    assert turn.calls == CallsAfterPlan(c) && turn.talk == talk;
    assert Turned(ProcurementPlanner, Initial, PlanOf(c, [], Initial), true, RoleCompleted(ProcurementPlanner)) == talk;
  }

  lemma BreaksAtOnce(c: Case)
    requires !PlanBound(c, [], Initial)
    ensures Says(Conversation(c).verdict, ToldBy(c))
  {
    var turn := PlannerTurn(c, [], [], Initial);
    assert turn.calls == CallsAfterPlan(c);
    assert turn.talk == Turned(ProcurementPlanner, Initial, PlanOf(c, [], Initial), false,
                               RoleCompleted(ProcurementPlanner));
    FailedSays(c, turn, 0);
  }

  /** A failed turn ends the run with the fallback and the code. */
  lemma FailedSays<T>(c: Case, turn: Turn<T>, revisions: nat)
    ensures var code := if turn.said.Refused? then turn.said.code else ModelError;
            Says(Failed(c, turn, revisions).verdict,
                 Told(Broken(code), FallbackText(c), turn.calls, revisions, turn.talk))
  {
  }

  lemma PublishedSays(c: Case, plan: Plan, calls: seq<Call>, revisions: nat, talk: seq<Event>)
    requires revisions <= 1
    ensures Says(Concluded(c, plan, calls, revisions, talk).verdict,
                 Published(c, plan, if revisions == 1 then RevisedAccepted else Accepted, calls, revisions, talk))
  {
  }

  /** Every verdict is the one the answers call for: stop, text, calls, usage, revisions and trace. */
  lemma VerdictByAnswers(c: Case)
    ensures Says(Conversation(c).verdict, ToldBy(c))
  {
    if PlanBound(c, [], Initial) {
      GoesOn(c);
      ReviewSays(c, [RoleRequested(ProcurementPlanner, Initial), RoleCompleted(ProcurementPlanner)]);
    } else {
      BreaksAtOnce(c);
    }
  }

  /** A validated text is a planner's own explanation, bound to the plan, as the validator let it
      through: the revision's if there was one, else the first plan's. */
  lemma ValidatedTextIsPlanned(c: Case)
    requires Conversation(c).verdict.validated
    ensures PlanBound(c, [], Initial)
    ensures var v := Conversation(c).verdict;
            var (calls, phase) := if v.revisions == 1 then (CallsAfterReview(c), Revision) else ([], Initial);
            PlanBound(c, calls, phase) && c.validate(PlanOf(c, calls, phase).value.explanation) == Some(v.text)
  {
    VerdictByAnswers(c);
    VerdictHolds(c);
    PublishedTextIsPlanned(c);
  }

  lemma PublishedTextIsPlanned(c: Case)
    requires ToldBy(c).stop.Accepted? || ToldBy(c).stop.RevisedAccepted?
    ensures PlanBound(c, [], Initial)
    ensures var told := ToldBy(c);
            var (calls, phase) := if told.revisions == 1 then (CallsAfterReview(c), Revision) else ([], Initial);
            PlanBound(c, calls, phase) && c.validate(PlanOf(c, calls, phase).value.explanation) == Some(told.text)
  {
  }

  // ---- The recorded roles ----

  /** A role script: a text the plan contract refuses is None. */
  datatype Script = Script(planText: Option<string>, revisionText: Option<string>, decision: Decision, issues: nat,
                           failure: Option<Code>, invalidPlan: bool, plannerUsage: Usage, reviewerUsage: Usage)

  function RecordedRoles(script: Script, digest: string, loopAttack: bool): Roles {
    Roles((calls: seq<Call>, phase: Phase) => Answer(Some(script.plannerUsage), ScriptedPlan(script, digest, phase)),
          (calls: seq<Call>, plan: Plan) =>
            Answer(Some(script.reviewerUsage),
                   ScriptedReview(script, digest, if loopAttack then Revise else script.decision)))
  }

  function ScriptedPlan(script: Script, digest: string, phase: Phase): Reply<Plan> {
    var text := if phase == Revision then script.revisionText else script.planText;
    if script.failure.Some? then Failure(script.failure.value)
    else if (script.invalidPlan && phase != Revision) || text.None? then Malformed
    else Output(Plan(text.value, digest))
  }

  /** The review contract: issues exactly with a decision other than ACCEPT. */
  function ScriptedReview(script: Script, digest: string, decision: Decision): Reply<ReviewDecision> {
    if script.failure.Some? then Failure(script.failure.value)
    else if (decision == Accept) == (script.issues > 0) then Crash
    else Output(ReviewDecision(decision, script.issues, digest))
  }

  /** Recorded roles never part the patterns. A loop attack with an issue to report is always blocked
      at the third call, or earlier for a failure or an unusable plan. */
  lemma RecordedCases(c: Case, script: Script)
    requires c.roles == RecordedRoles(script, c.digest, c.loopAttack)
    ensures !Conversation(c).faulted
    ensures var v := Conversation(c).verdict;
            && (v.modelCalls == 3 <==> v.revisions == 1)
            && (script.failure.Some? ==> v.stop == Broken(script.failure.value) && v.modelCalls == 1)
            && (c.loopAttack && script.failure.None? && !script.invalidPlan && script.planText.Some?
                && script.revisionText.Some? && script.issues > 0
                ==> v.stop == LoopBlocked && v.modelCalls == 3)
  {
    var planning := PlannerTurn(c, [], [], Initial);
    if planning.said.Said? {
      var review := ReviewerTurn(c, planning.calls, planning.talk, planning.said.value);
      assert |review.calls| == 2;
    }
  }
}
