/** The exit gate of labs/self_improvement/stage.py and stage_completion.py: what an accepted
    evidence graph must look like. */
module StageGate {
  import opened Basics

  datatype Method = Baseline | Reflection | BestOf3 | PromptCandidate | SkillCandidate | OtherMethod(name: string)

  datatype Split = Train | Dev | Test

  datatype Case = Case(id: string, split: Split)

  datatype Candidate = Candidate(isPrompt: bool, content: string, boundary: string)

  datatype Plan = Plan(id: string, codeVersion: string, model: string, devMethods: seq<Method>,
                       testMethods: seq<Method>,
                       selected: Method)

  const FIVE: seq<Method> := [Baseline, Reflection, BestOf3, PromptCandidate, SkillCandidate]

  /** The plan's own validator. */
  predicate ValidPlan(p: Plan) {
    && |p.devMethods| == 5 && Distinct(p.devMethods) && (forall m :: m in p.devMethods ==> m in FIVE)
    && (forall m :: m in FIVE ==> m in p.devMethods)
    && 3 <= |p.testMethods| <= 5 && Distinct(p.testMethods) && (forall m :: m in p.testMethods ==> m in FIVE)
    && Baseline in p.testMethods && p.selected in p.devMethods && p.selected in p.testMethods
  }

  datatype Record = Record(experimentId: string, live: bool, planId: Option<string>, split: Split, m: Method,
                           repeat: nat,
                           caseId: Option<string>, codeVersion: string, model: string, datasetDigest: string,
                           calls: nat, keys: seq<string>, candidate: Option<string>, content: Option<string>,
                           boundary: Option<string>)

  // ---- Trials ----

  datatype Trial = Trial(m: Method, repeat: nat, caseId: string)

  function CaseIds(cases: seq<Case>, split: Split): set<string> {
    set i | 0 <= i < |cases| && cases[i].split == split :: cases[i].id
  }

  predicate EndsWith(text: string, suffix: string) {
    |suffix| <= |text| && text[|text| - |suffix|..] == suffix
  }

  /** The longest case identifier the experiment identifier ends with, for records without one. */
  function MatchCase(experimentId: string, cases: seq<Case>, split: Split): Option<string> {
    if cases == [] then None
    else
      var last := cases[|cases| - 1];
      var before := MatchCase(experimentId, cases[..|cases| - 1], split);
      if last.split == split && EndsWith(experimentId, "-" + last.id) && (before.None? || |before.value| < |last.id|)
      then Some(last.id) else before
  }

  function CaseOf(r: Record, cases: seq<Case>, split: Split): Option<string> {
    if r.caseId.Some? then (if r.caseId.value in CaseIds(cases, split) then r.caseId else None)
    else MatchCase(r.experimentId, cases, split)
  }

  function TrialOf(r: Record, cases: seq<Case>, split: Split): Trial {
    var id := CaseOf(r, cases, split);
    Trial(r.m, r.repeat, if id.Some? then id.value else "")
  }

  /** The experiment identifier ends in a dash and the case identifier. */
  ghost predicate NamesCase(experimentId: string, id: string) {
    exists k :: 0 <= k <= |experimentId| && experimentId[k..] == "-" + id
  }

  /** A record's case is the one it names, if that is in the split; a record that names none belongs to
      the longest identifier of the split that its experiment ends with. */
  lemma CaseFound(r: Record, cases: seq<Case>, split: Split)
    ensures var id, ids := CaseOf(r, cases, split), CaseIds(cases, split);
            && (r.caseId.Some? ==> id == if r.caseId.value in ids then r.caseId else None)
            && (r.caseId.None? && id.None? ==> forall x :: x in ids ==> !NamesCase(r.experimentId, x))
            && (r.caseId.None? && id.Some? ==>
                  && id.value in ids && NamesCase(r.experimentId, id.value)
                  && forall x :: x in ids && NamesCase(r.experimentId, x) ==> |x| <= |id.value|)
  {
    LongestMatch(r.experimentId, cases, split);
  }

  lemma {:induction false} LongestMatch(experimentId: string, cases: seq<Case>, split: Split)
    ensures var id, ids := MatchCase(experimentId, cases, split), CaseIds(cases, split);
            && (id.None? ==> forall x :: x in ids ==> !NamesCase(experimentId, x))
            && (id.Some? ==>
                  && id.value in ids && NamesCase(experimentId, id.value)
                  && forall x :: x in ids && NamesCase(experimentId, x) ==> |x| <= |id.value|)
  {
    if cases != [] {
      var n := |cases| - 1;
      var front, last := cases[..n], cases[n];
      LongestMatch(experimentId, front, split);
      MoreCases(cases, split);
      EndsIffNames(experimentId, last.id);
    }
  }

  lemma MoreCases(cases: seq<Case>, split: Split)
    requires cases != []
    ensures var n := |cases| - 1;
            CaseIds(cases, split) == CaseIds(cases[..n], split) + if cases[n].split == split then {cases[n].id} else {}
  {
    var n := |cases| - 1;
    forall id | id in CaseIds(cases[..n], split) ensures id in CaseIds(cases, split) {
      var i :| 0 <= i < n && cases[..n][i].split == split && cases[..n][i].id == id;
      assert cases[i] == cases[..n][i];
    }
    forall id | id in CaseIds(cases, split) && !(cases[n].split == split && cases[n].id == id)
      ensures id in CaseIds(cases[..n], split)
    {
      var i :| 0 <= i < |cases| && cases[i].split == split && cases[i].id == id;
      assert cases[..n][i] == cases[i];
    }
  }

  lemma EndsIffNames(experimentId: string, id: string)
    ensures EndsWith(experimentId, "-" + id) <==> NamesCase(experimentId, id)
  {
    var suffix := "-" + id;
    if k :| 0 <= k <= |experimentId| && experimentId[k..] == suffix {
      assert |experimentId| - k == |suffix|;
    }
  }

  predicate Expected(t: Trial, cases: seq<Case>, split: Split, methods: seq<Method>) {
    t.m in methods && 1 <= t.repeat <= 3 && t.caseId in CaseIds(cases, split)
  }

  function ExpectedTrials(cases: seq<Case>, split: Split, methods: seq<Method>): (r: set<Trial>)
    ensures forall t :: t in r <==> Expected(t, cases, split, methods)
  {
    set m, repeat: nat, id | m in methods && 1 <= repeat <= 3 && id in CaseIds(cases, split) :: Trial(m, repeat, id)
  }

  /** Live records of the plan and split: one matrix. */
  predicate InMatrix(r: Record, plan: Plan, split: Split) {
    r.live && r.planId == Some(plan.id) && r.split == split
  }

  function Matrix(records: seq<Record>, plan: Plan, split: Split): seq<Record> {
    if records == [] then []
    else
      var last := records[|records| - 1];
      Matrix(records[..|records| - 1], plan, split) + if InMatrix(last, plan, split) then [last] else []
  }

  function Trials(live: seq<Record>, cases: seq<Case>, split: Split): seq<Trial> {
    seq(|live|, i requires 0 <= i < |live| => TrialOf(live[i], cases, split))
  }

  /** How many calls a method makes per trial, at least and at most. */
  function Fewest(m: Method): nat {
    if m.BestOf3? then 3 else 1
  }

  function Most(m: Method): nat {
    if m.BestOf3? then 3 else if m.Reflection? then 2 else 1
  }

  predicate CandidateBound(r: Record, candidates: map<string, Candidate>) {
    if r.m.PromptCandidate? || r.m.SkillCandidate? then
      && r.candidate.Some? && r.candidate.value in candidates
      && candidates[r.candidate.value].isPrompt == r.m.PromptCandidate?
      && r.content == Some(candidates[r.candidate.value].content)
      && r.boundary == Some(candidates[r.candidate.value].boundary)
    else r.candidate.None?
  }

  /** One trial, on its own. */
  predicate TrialOk(r: Record, cases: seq<Case>, split: Split, methods: seq<Method>, plan: Plan, digest: string,
                    candidates: map<string, Candidate>) {
    && Expected(TrialOf(r, cases, split), cases, split, methods)
    && r.codeVersion == plan.codeVersion && r.model == plan.model && r.datasetDigest == digest
    && CaseOf(r, cases, split).Some?
    && r.calls >= 1 && |r.keys| == r.calls && Distinct(r.keys)
    && (r.m in FIVE ==> Fewest(r.m) <= r.calls <= Most(r.m))
    && CandidateBound(r, candidates)
  }

  // ---- The audit ----

  datatype Finding =
    | OtherPlan | DuplicateTrial | UnexpectedTrial | BindingMismatch | ReservationCountMismatch | InvalidReservationKeys
    | UnexpectedCalls | ReflectionBoundExceeded | NotThreeCalls
    | CandidateInvalid | CandidateDigestMismatch | UnexpectedCandidate
    | MatrixIncomplete | RequiredMethodMissing | SelectionMissing
    | LedgerInvalid | BudgetExceeded | KeysNotOneToOne
    | OtherFinding(text: string)

  class StageAudit {
    var reasons: seq<Finding>
    var blocked: bool
    var incomplete: bool

    constructor ()
      ensures !blocked && !incomplete && reasons == []
    {
      reasons, blocked, incomplete := [], false, false;
    }

    /** Findings accumulate and are never withdrawn. */
    method Fail(reason: Finding, blocks: bool)
      modifies this
      ensures reasons == old(reasons) + [reason]
      ensures blocked == (old(blocked) || blocks) && incomplete == (old(incomplete) || !blocks)
    {
      reasons := reasons + [reason];
      blocked := blocked || blocks;
      incomplete := incomplete || !blocks;
    }
  }

  /** All tests of one live record; `repeated` says its trial was seen before. */
  method CheckTrial(audit: StageAudit, r: Record, repeated: bool, cases: seq<Case>, split: Split, methods: seq<Method>,
                    plan: Plan, digest: string, candidates: map<string, Candidate>)
    modifies audit
    ensures audit.blocked <==>
              old(audit.blocked) || repeated || !TrialOk(r, cases, split, methods, plan, digest, candidates)
    ensures audit.incomplete == old(audit.incomplete)
    ensures old(audit.reasons) <= audit.reasons
  {
    if repeated { audit.Fail(DuplicateTrial, true); }
    if !Expected(TrialOf(r, cases, split), cases, split, methods) { audit.Fail(UnexpectedTrial, true); }
    if r.codeVersion != plan.codeVersion || r.model != plan.model || r.datasetDigest != digest
       || CaseOf(r, cases, split).None? {
      audit.Fail(BindingMismatch, true);
    }
    if r.calls < 1 || |r.keys| != r.calls { audit.Fail(ReservationCountMismatch, true); }
    if !Distinct(r.keys) { audit.Fail(InvalidReservationKeys, true); }
    CheckCalls(audit, r);
    CheckCandidate(audit, r, candidates);
  }

  method CheckCalls(audit: StageAudit, r: Record)
    modifies audit
    ensures audit.blocked <==> old(audit.blocked) || (r.m in FIVE && !(Fewest(r.m) <= r.calls <= Most(r.m)))
    ensures audit.incomplete == old(audit.incomplete)
    ensures old(audit.reasons) <= audit.reasons
  {
    if (r.m.Baseline? || r.m.PromptCandidate? || r.m.SkillCandidate?) && r.calls != 1 {
      audit.Fail(UnexpectedCalls, true);
    }
    if r.m.Reflection? && r.calls != 1 && r.calls != 2 { audit.Fail(ReflectionBoundExceeded, true); }
    if r.m.BestOf3? && r.calls != 3 { audit.Fail(NotThreeCalls, true); }
  }

  method CheckCandidate(audit: StageAudit, r: Record, candidates: map<string, Candidate>)
    modifies audit
    ensures audit.blocked <==> old(audit.blocked) || !CandidateBound(r, candidates)
    ensures audit.incomplete == old(audit.incomplete)
    ensures old(audit.reasons) <= audit.reasons
  {
    if r.m.PromptCandidate? || r.m.SkillCandidate? {
      if r.candidate.None? || r.candidate.value !in candidates
         || candidates[r.candidate.value].isPrompt != r.m.PromptCandidate? {
        audit.Fail(CandidateInvalid, true);
      } else if r.content != Some(candidates[r.candidate.value].content)
                || r.boundary != Some(candidates[r.candidate.value].boundary) {
        audit.Fail(CandidateDigestMismatch, true);
      }
    } else if r.candidate.Some? {
      audit.Fail(UnexpectedCandidate, true);
    }
  }

  ghost predicate PlansOk(records: seq<Record>, plan: Plan) {
    forall i :: 0 <= i < |records| && records[i].live ==> records[i].planId == Some(plan.id)
  }

  ghost predicate TrialsOk(live: seq<Record>, cases: seq<Case>, split: Split, methods: seq<Method>, plan: Plan,
                           digest: string,
                           candidates: map<string, Candidate>) {
    forall i :: 0 <= i < |live| ==> TrialOk(live[i], cases, split, methods, plan, digest, candidates)
  }

  ghost predicate Covered(live: seq<Record>, cases: seq<Case>, split: Split, methods: seq<Method>) {
    forall t :: Expected(t, cases, split, methods) ==> t in Trials(live, cases, split)
  }

  ghost predicate MatrixClean(live: seq<Record>, cases: seq<Case>, split: Split, methods: seq<Method>, plan: Plan,
                              digest: string,
                              candidates: map<string, Candidate>) {
    && TrialsOk(live, cases, split, methods, plan, digest, candidates)
    && Distinct(Trials(live, cases, split)) && Covered(live, cases, split, methods)
  }

  /** A trial that is unsound, or made twice. */
  ghost predicate Faulty(live: seq<Record>, cases: seq<Case>, split: Split, methods: seq<Method>, plan: Plan,
                         digest: string, candidates: map<string, Candidate>) {
    !TrialsOk(live, cases, split, methods, plan, digest, candidates) || !Distinct(Trials(live, cases, split))
  }

  function KeysOf(live: seq<Record>): seq<string> {
    if live == [] then [] else KeysOf(live[..|live| - 1]) + live[|live| - 1].keys
  }

  /** One live matrix: blocked by a live record of another plan and by an unsound or repeated trial,
      incomplete when a trial is missing. */
  method CheckLiveMatrix(audit: StageAudit, cases: seq<Case>, plan: Plan, digest: string, records: seq<Record>,
                         candidates: map<string, Candidate>, split: Split, methods: seq<Method>)
    returns (keys: set<string>)
    modifies audit
    ensures var live := Matrix(records, plan, split);
            && (audit.blocked <==> || old(audit.blocked) || !PlansOk(records, plan)
                                   || Faulty(live, cases, split, methods, plan, digest, candidates))
            && (audit.incomplete <==> old(audit.incomplete) || !Covered(live, cases, split, methods))
    ensures forall key :: key in keys <==> key in KeysOf(Matrix(records, plan, split))
    ensures old(audit.reasons) <= audit.reasons
  {
    CheckPlans(audit, plan, records);
    var live := CollectMatrix(records, plan, split);
    var actual := CheckTrials(audit, live, cases, split, methods, plan, digest, candidates);
    var missing := ExpectedTrials(cases, split, methods) - actual;
    NoneMissing(live, cases, split, methods, actual);
    if missing != {} { audit.Fail(MatrixIncomplete, false); }
    keys := {};
    for i := 0 to |live|
      invariant forall key :: key in keys <==> key in KeysOf(live[..i])
    {
      assert live[..i + 1][..i] == live[..i];
      keys := keys + set key | key in live[i].keys;
    }
    assert live[..|live|] == live;
  }

  lemma NoneMissing(live: seq<Record>, cases: seq<Case>, split: Split, methods: seq<Method>, actual: set<Trial>)
    requires forall t :: t in actual <==> t in Trials(live, cases, split)
    ensures ExpectedTrials(cases, split, methods) - actual == {} <==> Covered(live, cases, split, methods)
  {
    var missing := ExpectedTrials(cases, split, methods) - actual;
    if missing == {} {
      forall t | Expected(t, cases, split, methods) ensures t in Trials(live, cases, split) {
        assert t !in missing;
      }
    } else {
      var t :| t in missing;
      assert Expected(t, cases, split, methods) && t !in Trials(live, cases, split);
    }
  }

  method CheckPlans(audit: StageAudit, plan: Plan, records: seq<Record>)
    modifies audit
    ensures audit.blocked <==> old(audit.blocked) || !PlansOk(records, plan)
    ensures audit.incomplete == old(audit.incomplete)
    ensures old(audit.reasons) <= audit.reasons
  {
    for i := 0 to |records|
      invariant audit.blocked <==> old(audit.blocked) || !PlansOk(records[..i], plan)
      invariant audit.incomplete == old(audit.incomplete)
      invariant old(audit.reasons) <= audit.reasons
    {
      if records[i].live && records[i].planId != Some(plan.id) {
        audit.Fail(OtherPlan, true);
      }
      assert forall j :: 0 <= j < i ==> records[..i + 1][j] == records[..i][j];
      assert records[..i + 1][i] == records[i];
    }
    assert records[..|records|] == records;
  }

  method CollectMatrix(records: seq<Record>, plan: Plan, split: Split) returns (live: seq<Record>)
    ensures live == Matrix(records, plan, split)
  {
    live := [];
    for i := 0 to |records|
      invariant live == Matrix(records[..i], plan, split)
    {
      assert records[..i + 1][..i] == records[..i];
      if InMatrix(records[i], plan, split) { live := live + [records[i]]; }
    }
    assert records[..|records|] == records;
  }

  method CheckTrials(audit: StageAudit, live: seq<Record>, cases: seq<Case>, split: Split, methods: seq<Method>,
                     plan: Plan,
                     digest: string, candidates: map<string, Candidate>) returns (actual: set<Trial>)
    modifies audit
    ensures audit.blocked <==> old(audit.blocked) || Faulty(live, cases, split, methods, plan, digest, candidates)
    ensures audit.incomplete == old(audit.incomplete)
    ensures forall t :: t in actual <==> t in Trials(live, cases, split)
    ensures old(audit.reasons) <= audit.reasons
  {
    actual := {};
    for i := 0 to |live|
      invariant audit.blocked <==>
                  old(audit.blocked) || Faulty(live[..i], cases, split, methods, plan, digest, candidates)
      invariant audit.incomplete == old(audit.incomplete)
      invariant forall t :: t in actual <==> t in Trials(live[..i], cases, split)
      invariant old(audit.reasons) <= audit.reasons
    {
      var t := TrialOf(live[i], cases, split);
      CheckTrial(audit, live[i], t in actual, cases, split, methods, plan, digest, candidates);
      OneMoreTrial(live, i, cases, split);
      OneMoreOk(live, i, cases, split, methods, plan, digest, candidates);
      actual := actual + {t};
    }
    assert live[..|live|] == live;
  }

  lemma OneMoreTrial(live: seq<Record>, i: nat, cases: seq<Case>, split: Split)
    requires i < |live|
    ensures Trials(live[..i + 1], cases, split) == Trials(live[..i], cases, split) + [TrialOf(live[i], cases, split)]
    ensures Distinct(Trials(live[..i + 1], cases, split)) <==>
            Distinct(Trials(live[..i], cases, split))
            && TrialOf(live[i], cases, split) !in Trials(live[..i], cases, split)
  {
    DistinctAppend(Trials(live[..i], cases, split), TrialOf(live[i], cases, split));
    assert Trials(live[..i + 1], cases, split) == Trials(live[..i], cases, split) + [TrialOf(live[i], cases, split)];
  }

  lemma OneMoreOk(live: seq<Record>, i: nat, cases: seq<Case>, split: Split, methods: seq<Method>, plan: Plan,
                  digest: string,
                  candidates: map<string, Candidate>)
    requires i < |live|
    ensures TrialsOk(live[..i + 1], cases, split, methods, plan, digest, candidates) <==>
            TrialsOk(live[..i], cases, split, methods, plan, digest, candidates)
            && TrialOk(live[i], cases, split, methods, plan, digest, candidates)
  {
    var a, b := live[..i], live[..i + 1];
    assert forall j :: 0 <= j < i ==> a[j] == b[j];
    assert b[i] == live[i];
  }

  lemma DistinctAppend<T>(xs: seq<T>, x: T)
    ensures Distinct(xs + [x]) <==> Distinct(xs) && x !in xs
  {
    var all := xs + [x];
    assert all[|xs|] == x;
    assert forall i :: 0 <= i < |xs| ==> all[i] == xs[i];
    if x in xs {
      var k :| 0 <= k < |xs| && xs[k] == x;
      assert all[k] == all[|xs|];
    }
  }

  // ---- Ledger, budget, methods ----

  datatype LedgerState = Recorded | Unrecorded

  /** An unreadable or missing ledger is `None`. */
  method CheckLedger(audit: StageAudit, ledger: Option<map<string, LedgerState>>, expected: set<string>)
    modifies audit
    ensures audit.blocked <==> old(audit.blocked) || !LedgerMatches(ledger, expected)
    ensures audit.incomplete == old(audit.incomplete)
    ensures old(audit.reasons) <= audit.reasons
  {
    if ledger.None? || (exists key :: key in ledger.value && ledger.value[key] != Recorded)
       || ledger.value.Keys != expected {
      audit.Fail(LedgerInvalid, true);
    }
  }

  ghost predicate LedgerMatches(ledger: Option<map<string, LedgerState>>, expected: set<string>) {
    ledger.Some? && ledger.value.Keys == expected && forall key :: key in ledger.value ==> ledger.value[key] == Recorded
  }

  function LiveOnly(records: seq<Record>): seq<Record> {
    if records == [] then []
    else LiveOnly(records[..|records| - 1]) + if records[|records| - 1].live then [records[|records| - 1]] else []
  }

  function CallsOf(live: seq<Record>): nat {
    if live == [] then 0 else CallsOf(live[..|live| - 1]) + live[|live| - 1].calls
  }

  /** Every live record, whatever its split: at most 1,200 calls, one key for each. */
  ghost predicate BudgetOk(live: seq<Record>) {
    CallsOf(live) <= 1200 && |KeysOf(live)| == CallsOf(live) && Distinct(KeysOf(live))
  }

  method CheckBudget(audit: StageAudit, records: seq<Record>)
    modifies audit
    ensures audit.blocked <==> old(audit.blocked) || !BudgetOk(LiveOnly(records))
    ensures audit.incomplete == old(audit.incomplete)
    ensures old(audit.reasons) <= audit.reasons
  {
    var calls: nat, keys: seq<string> := 0, [];
    for i := 0 to |records|
      invariant calls == CallsOf(LiveOnly(records[..i])) && keys == KeysOf(LiveOnly(records[..i]))
      invariant audit.blocked == old(audit.blocked) && audit.incomplete == old(audit.incomplete)
      invariant audit.reasons == old(audit.reasons)
    {
      LiveAppend(records, i);
      if records[i].live {
        calls, keys := calls + records[i].calls, keys + records[i].keys;
      }
    }
    assert records[..|records|] == records;
    if calls > 1200 { audit.Fail(BudgetExceeded, true); }
    if |keys| != calls || !Distinct(keys) { audit.Fail(KeysNotOneToOne, true); }
  }

  lemma LiveAppend(records: seq<Record>, i: nat)
    requires i < |records|
    ensures var live, live' := LiveOnly(records[..i]), LiveOnly(records[..i + 1]);
            && CallsOf(live') == CallsOf(live) + (if records[i].live then records[i].calls else 0)
            && KeysOf(live') == KeysOf(live) + (if records[i].live then records[i].keys else [])
  {
    var live := LiveOnly(records[..i]);
    assert records[..i + 1][..i] == records[..i];
    if records[i].live {
      assert (live + [records[i]])[..|live|] == live;
    } else {
      assert live + [] == live;
    }
  }

  predicate SelectionMethod(m: Method) {
    m.Reflection? || m.BestOf3?
  }

  /** The test methods in force: the plan's, and if the plan selected neither reflection nor
      best-of-3, the one the validated supplement names. */
  function TestMethods(plan: Plan, supplement: Option<Method>): seq<Method> {
    if SelectionMethod(plan.selected) || supplement.None? || !SelectionMethod(supplement.value)
       || supplement.value in plan.testMethods
       || PromptCandidate !in plan.testMethods || SkillCandidate !in plan.testMethods
    then plan.testMethods
    else plan.testMethods + [supplement.value]
  }

  predicate SelectionOk(plan: Plan, supplement: Option<Method>) {
    && PromptCandidate in plan.testMethods && SkillCandidate in plan.testMethods
    && (SelectionMethod(plan.selected) || (supplement.Some? && SelectionMethod(supplement.value)))
  }

  method CheckMethodSelection(audit: StageAudit, plan: Plan, supplement: Option<Method>) returns (methods: seq<Method>)
    requires ValidPlan(plan)
    modifies audit
    ensures old(audit.reasons) <= audit.reasons && methods == TestMethods(plan, supplement)
    ensures audit.incomplete <==> old(audit.incomplete) || !SelectionOk(plan, supplement)
    ensures audit.blocked == old(audit.blocked)
  {
    methods := plan.testMethods;
    if PromptCandidate !in plan.testMethods || SkillCandidate !in plan.testMethods {
      audit.Fail(RequiredMethodMissing, false);
    } else if !SelectionMethod(plan.selected) {
      if supplement.None? || !SelectionMethod(supplement.value) {
        audit.Fail(SelectionMissing, false);
      } else if supplement.value !in methods {
        methods := methods + [supplement.value];
      }
    }
  }

  /** They are distinct known methods, and once accepted hold the three required ones and one of the
      two candidates for selection. */
  lemma TestMethodsOk(plan: Plan, supplement: Option<Method>)
    requires ValidPlan(plan)
    ensures Distinct(TestMethods(plan, supplement)) && forall m :: m in TestMethods(plan, supplement) ==> m in FIVE
    ensures SelectionOk(plan, supplement) ==>
              var ms := TestMethods(plan, supplement);
              Baseline in ms && PromptCandidate in ms && SkillCandidate in ms && (Reflection in ms || BestOf3 in ms)
  {
    if supplement.Some? {
      DistinctAppend(plan.testMethods, supplement.value);
      assert FIVE[1] == Reflection && FIVE[2] == BestOf3;
    }
  }

  datatype Status = Pass | Blocked | Incomplete

  /** Everything the gate reads, loaded. `others` are the findings of the checks outside this model,
      each with whether it blocks. */
  datatype Evidence = Evidence(cases: seq<Case>, plan: Plan, digest: string, records: seq<Record>,
                               candidates: map<string, Candidate>,
                               ledger: Option<map<string, LedgerState>>, supplement: Option<Method>, others: seq<bool>)

  /** What passing means, for the two matrices, the ledger and the budget. */
  ghost predicate Sound(e: Evidence, methods: seq<Method>) {
    var dev, test := Matrix(e.records, e.plan, Dev), Matrix(e.records, e.plan, Test);
    && PlansOk(e.records, e.plan)
    && MatrixClean(dev, e.cases, Dev, e.plan.devMethods, e.plan, e.digest, e.candidates)
    && MatrixClean(test, e.cases, Test, methods, e.plan, e.digest, e.candidates)
    && LedgerMatches(e.ledger, (set key | key in KeysOf(dev)) + (set key | key in KeysOf(test)))
    && BudgetOk(LiveOnly(e.records))
  }

  /** What blocks the stage: a live record of another plan, an unsound or repeated trial, a ledger that
      does not match, a budget that does not, or a blocking finding of another check. */
  ghost predicate Blocks(e: Evidence, methods: seq<Method>) {
    var dev, test := Matrix(e.records, e.plan, Dev), Matrix(e.records, e.plan, Test);
    || (exists i :: 0 <= i < |e.records| && e.records[i].live && e.records[i].planId != Some(e.plan.id))
    || Faulty(dev, e.cases, Dev, e.plan.devMethods, e.plan, e.digest, e.candidates)
    || Faulty(test, e.cases, Test, methods, e.plan, e.digest, e.candidates)
    || !LedgerMatches(e.ledger, (set key | key in KeysOf(dev)) + (set key | key in KeysOf(test)))
    || !BudgetOk(LiveOnly(e.records))
    || true in e.others
  }

  /** What is missing: a trial, a required method or a selection, or what another check does not find. */
  ghost predicate Lacks(e: Evidence, methods: seq<Method>) {
    || !Covered(Matrix(e.records, e.plan, Dev), e.cases, Dev, e.plan.devMethods)
    || !Covered(Matrix(e.records, e.plan, Test), e.cases, Test, methods)
    || !SelectionOk(e.plan, e.supplement)
    || false in e.others
  }

  /** The stage passes exactly when nothing is found, and what is found decides between blocked and
      incomplete. */
  method VerifyStage(e: Evidence) returns (status: Status)
    requires ValidPlan(e.plan)
    ensures status == Pass <==>
              SelectionOk(e.plan, e.supplement) && Sound(e, TestMethods(e.plan, e.supplement)) && e.others == []
    ensures status == Blocked <==> Blocks(e, TestMethods(e.plan, e.supplement))
    ensures status == Incomplete <==>
              !Blocks(e, TestMethods(e.plan, e.supplement)) && Lacks(e, TestMethods(e.plan, e.supplement))
  {
    var audit := new StageAudit();
    CheckEvidence(audit, e);
    TakeOver(audit, e.others);
    PassIff(e, TestMethods(e.plan, e.supplement));
    status := if audit.blocked then Blocked else if audit.incomplete then Incomplete else Pass;
  }

  /** The findings of the other checks. */
  method TakeOver(audit: StageAudit, others: seq<bool>)
    modifies audit
    ensures audit.blocked <==> old(audit.blocked) || true in others
    ensures audit.incomplete <==> old(audit.incomplete) || false in others
  {
    for i := 0 to |others|
      invariant audit.blocked <==> old(audit.blocked) || true in others[..i]
      invariant audit.incomplete <==> old(audit.incomplete) || false in others[..i]
    {
      assert others[..i + 1] == others[..i] + [others[i]];
      audit.Fail(OtherFinding("outside this model"), others[i]);
    }
    assert others[..|others|] == others;
  }

  /** The checks of this model, in order. */
  method CheckEvidence(audit: StageAudit, e: Evidence)
    requires ValidPlan(e.plan)
    modifies audit
    ensures var mine, methods := e.(others := []), TestMethods(e.plan, e.supplement);
            && (audit.blocked <==> old(audit.blocked) || Blocks(mine, methods))
            && (audit.incomplete <==> old(audit.incomplete) || Lacks(mine, methods))
  {
    var methods := CheckMethodSelection(audit, e.plan, e.supplement);
    var devKeys := CheckLiveMatrix(audit, e.cases, e.plan, e.digest, e.records, e.candidates, Dev, e.plan.devMethods);
    var testKeys := CheckLiveMatrix(audit, e.cases, e.plan, e.digest, e.records, e.candidates, Test, methods);
    assert devKeys == set key | key in KeysOf(Matrix(e.records, e.plan, Dev));
    assert testKeys == set key | key in KeysOf(Matrix(e.records, e.plan, Test));
    CheckLedger(audit, e.ledger, devKeys + testKeys);
    CheckBudget(audit, e.records);
  }

  lemma PassIff(e: Evidence, methods: seq<Method>)
    ensures !Blocks(e, methods) && !Lacks(e, methods) <==>
              SelectionOk(e.plan, e.supplement) && Sound(e, methods) && e.others == []
    ensures Blocks(e, methods) <==> Blocks(e.(others := []), methods) || true in e.others
    ensures Lacks(e, methods) <==> Lacks(e.(others := []), methods) || false in e.others
  {
    NothingElse(e.others);
  }

  lemma NothingElse(others: seq<bool>)
    ensures others == [] <==> true !in others && false !in others
  {
    if others != [] {
      if others[0] { assert true in others; } else { assert false in others; }
    }
  }

  // ---- What an accepted stage contains ----

  /** Every record of an accepted stage is bound to the plan it was made for, and a candidate's record
      to the candidate as it is. */
  lemma PassBindsRecords(e: Evidence, methods: seq<Method>, split: Split, i: nat)
    requires Sound(e, methods) && split != Train && i < |Matrix(e.records, e.plan, split)|
    ensures var r := Matrix(e.records, e.plan, split)[i];
            && r in e.records && r.live && r.planId == Some(e.plan.id) && r.split == split
            && r.codeVersion == e.plan.codeVersion && r.model == e.plan.model && r.datasetDigest == e.digest
            && (r.caseId.Some? ==> r.caseId.value in CaseIds(e.cases, split))
            && 1 <= r.calls == |r.keys| && Distinct(r.keys)
            && (r.m.PromptCandidate? || r.m.SkillCandidate? ==>
                  && r.candidate.Some? && r.candidate.value in e.candidates
                  && var candidate := e.candidates[r.candidate.value];
                     && candidate.isPrompt == r.m.PromptCandidate?
                     && r.content == Some(candidate.content) && r.boundary == Some(candidate.boundary))
            && (!r.m.PromptCandidate? && !r.m.SkillCandidate? ==> r.candidate.None?)
  {
    InItsMatrix(e.records, e.plan, split, i);
    var live := Matrix(e.records, e.plan, split);
    var of := if split == Dev then e.plan.devMethods else methods;
    assert TrialOk(live[i], e.cases, split, of, e.plan, e.digest, e.candidates);
  }

  lemma {:induction false} InItsMatrix(records: seq<Record>, plan: Plan, split: Split, i: nat)
    requires i < |Matrix(records, plan, split)|
    ensures Matrix(records, plan, split)[i] in records && InMatrix(Matrix(records, plan, split)[i], plan, split)
  {
    var front := records[..|records| - 1];
    if i < |Matrix(front, plan, split)| { InItsMatrix(front, plan, split, i); }
  }

  function CountMethod(ts: seq<Trial>, m: Method): nat {
    if ts == [] then 0 else CountMethod(ts[..|ts| - 1], m) + if ts[|ts| - 1].m == m then 1 else 0
  }

  lemma {:induction false} CountIsSize(ts: seq<Trial>, m: Method, all: set<Trial>)
    requires Distinct(ts) && forall t :: t in all <==> t in ts && t.m == m
    ensures CountMethod(ts, m) == |all|
  {
    if ts == [] {
      assert all == {};
    } else {
      var front, last := ts[..|ts| - 1], ts[|ts| - 1];
      assert forall t :: t in ts <==> t in front || t == last;
      assert last !in front;
      CountIsSize(front, m, all - {last});
    }
  }

  /** Trials of one method and one repeat, one per case. */
  lemma {:induction false} RowSize(m: Method, repeat: nat, ids: set<string>, row: set<Trial>)
    requires forall t :: t in row <==> t.m == m && t.repeat == repeat && t.caseId in ids
    ensures |row| == |ids|
    decreases |ids|
  {
    if ids == {} {
      assert row == {};
    } else {
      var id :| id in ids;
      var t := Trial(m, repeat, id);
      assert t in row;
      RowSize(m, repeat, ids - {id}, row - {t});
    }
  }

  lemma ColumnSize(m: Method, ids: set<string>, all: set<Trial>)
    requires forall t :: t in all <==> t.m == m && 1 <= t.repeat <= 3 && t.caseId in ids
    ensures |all| == 3 * |ids|
  {
    var one := set t | t in all && t.repeat == 1;
    var two := set t | t in all && t.repeat == 2;
    var three := set t | t in all && t.repeat == 3;
    RowSize(m, 1, ids, one);
    RowSize(m, 2, ids, two);
    RowSize(m, 3, ids, three);
    assert all == one + two + three;
    assert |one + two| == |one| + |two|;
  }

  /** In a clean matrix every method has exactly three trials per case, and other methods none. */
  lemma MethodCount(live: seq<Record>, cases: seq<Case>, split: Split, methods: seq<Method>, plan: Plan, digest: string,
                    candidates: map<string, Candidate>, m: Method)
    requires MatrixClean(live, cases, split, methods, plan, digest, candidates)
    ensures CountMethod(Trials(live, cases, split), m) == if m in methods then 3 * |CaseIds(cases, split)| else 0
  {
    var ts := Trials(live, cases, split);
    var all := set t | t in ts && t.m == m;
    CountIsSize(ts, m, all);
    forall t ensures t in ts <==> Expected(t, cases, split, methods) {
      TrialsExpected(live, cases, split, methods, plan, digest, candidates, t);
    }
    if m in methods {
      ColumnSize(m, CaseIds(cases, split), all);
    } else {
      assert all == {};
    }
  }

  lemma TrialsExpected(live: seq<Record>, cases: seq<Case>, split: Split, methods: seq<Method>, plan: Plan,
                       digest: string,
                       candidates: map<string, Candidate>, t: Trial)
    requires MatrixClean(live, cases, split, methods, plan, digest, candidates)
    ensures t in Trials(live, cases, split) <==> Expected(t, cases, split, methods)
  {
    if t in Trials(live, cases, split) {
      var i :| 0 <= i < |live| && Trials(live, cases, split)[i] == t;
      assert TrialOk(live[i], cases, split, methods, plan, digest, candidates);
    }
  }

  /** Calls weighed by how many each method makes at least, and at most. */
  function Weigh(ts: seq<Trial>, most: bool): nat {
    if ts == [] then 0 else Weigh(ts[..|ts| - 1], most) + if most then Most(ts[|ts| - 1].m) else Fewest(ts[|ts| - 1].m)
  }

  lemma {:induction false} CallsWithin(live: seq<Record>, cases: seq<Case>, split: Split)
    requires forall i :: 0 <= i < |live| ==> Fewest(live[i].m) <= live[i].calls <= Most(live[i].m)
    ensures Weigh(Trials(live, cases, split), false) <= CallsOf(live) <= Weigh(Trials(live, cases, split), true)
  {
    if live != [] {
      var n := |live| - 1;
      CallsWithin(live[..n], cases, split);
      assert Trials(live, cases, split)[..n] == Trials(live[..n], cases, split);
    }
  }

  lemma {:induction false} WeighByMethod(ts: seq<Trial>, most: bool)
    requires forall i :: 0 <= i < |ts| ==> ts[i].m in FIVE
    ensures Weigh(ts, most) ==
            CountMethod(ts, Baseline) + CountMethod(ts, PromptCandidate) + CountMethod(ts, SkillCandidate)
                               + 3 * CountMethod(ts, BestOf3) + (if most then 2 else 1) * CountMethod(ts, Reflection)
  {
    if ts != [] {
      WeighByMethod(ts[..|ts| - 1], most);
      assert ts[|ts| - 1].m in FIVE;
    }
  }

  lemma TrialMethodsKnown(live: seq<Record>, cases: seq<Case>, split: Split, methods: seq<Method>, plan: Plan,
                          digest: string,
                          candidates: map<string, Candidate>)
    requires MatrixClean(live, cases, split, methods, plan, digest, candidates)
    requires forall m :: m in methods ==> m in FIVE
    ensures forall i :: 0 <= i < |live| ==> Fewest(live[i].m) <= live[i].calls <= Most(live[i].m) && live[i].m in FIVE
  {
    forall i | 0 <= i < |live| ensures Fewest(live[i].m) <= live[i].calls <= Most(live[i].m) && live[i].m in FIVE {
      assert TrialOk(live[i], cases, split, methods, plan, digest, candidates);
    }
  }

  /** The calls of a clean matrix, by its methods. */
  lemma MatrixCalls(live: seq<Record>, cases: seq<Case>, split: Split, methods: seq<Method>, plan: Plan, digest: string,
                    candidates: map<string, Candidate>)
    requires MatrixClean(live, cases, split, methods, plan, digest, candidates)
    requires forall m :: m in methods ==> m in FIVE
    ensures CallsOf(live) <= 24 * |CaseIds(cases, split)|
    ensures (forall m :: m in FIVE ==> m in methods) ==> 21 * |CaseIds(cases, split)| <= CallsOf(live)
  {
    var ts := Trials(live, cases, split);
    TrialMethodsKnown(live, cases, split, methods, plan, digest, candidates);
    CallsWithin(live, cases, split);
    WeighByMethod(ts, false);
    WeighByMethod(ts, true);
    assert FIVE[0] == Baseline && FIVE[1] == Reflection && FIVE[2] == BestOf3 && FIVE[3] == PromptCandidate
           && FIVE[4] == SkillCandidate;
    MethodCount(live, cases, split, methods, plan, digest, candidates, Baseline);
    MethodCount(live, cases, split, methods, plan, digest, candidates, Reflection);
    MethodCount(live, cases, split, methods, plan, digest, candidates, BestOf3);
    MethodCount(live, cases, split, methods, plan, digest, candidates, PromptCandidate);
    MethodCount(live, cases, split, methods, plan, digest, candidates, SkillCandidate);
  }

  // ---- One key per call ----

  lemma KeysAppend(live: seq<Record>, r: Record)
    ensures KeysOf(live + [r]) == KeysOf(live) + r.keys && CallsOf(live + [r]) == CallsOf(live) + r.calls
  {
    assert (live + [r])[..|live|] == live;
  }

  lemma MatrixLast(records: seq<Record>, plan: Plan, split: Split)
    requires records != []
    ensures var front, last := records[..|records| - 1], records[|records| - 1];
            KeysOf(Matrix(records, plan, split)) ==
            KeysOf(Matrix(front, plan, split)) + if InMatrix(last, plan, split) then last.keys else []
  {
    var front, last := records[..|records| - 1], records[|records| - 1];
    KeysAppend(Matrix(front, plan, split), last);
    assert Matrix(front, plan, split) + [] == Matrix(front, plan, split);
  }

  lemma LiveLast(records: seq<Record>)
    requires records != []
    ensures var front, last := records[..|records| - 1], records[|records| - 1];
            KeysOf(LiveOnly(records)) == KeysOf(LiveOnly(front)) + if last.live then last.keys else []
  {
    var front, last := records[..|records| - 1], records[|records| - 1];
    KeysAppend(LiveOnly(front), last);
    assert LiveOnly(front) + [] == LiveOnly(front);
  }

  function SplitKeys(records: seq<Record>, plan: Plan, split: Split): multiset<string> {
    multiset(KeysOf(Matrix(records, plan, split)))
  }

  function Given<T>(given: bool, keys: multiset<T>): multiset<T> {
    if given then keys else multiset{}
  }

  lemma SplitKeysLast(records: seq<Record>, plan: Plan, split: Split)
    requires records != []
    ensures var front, last := records[..|records| - 1], records[|records| - 1];
            SplitKeys(records, plan, split) ==
            SplitKeys(front, plan, split) + Given(InMatrix(last, plan, split), multiset(last.keys))
  {
    MatrixLast(records, plan, split);
  }

  lemma LiveKeysLast(records: seq<Record>)
    requires records != []
    ensures var front, last := records[..|records| - 1], records[|records| - 1];
            multiset(KeysOf(LiveOnly(records))) ==
            multiset(KeysOf(LiveOnly(front))) + Given(last.live, multiset(last.keys))
  {
    LiveLast(records);
  }

  /** What goes to one of three shares goes to their sum. */
  lemma SharedOut<T>(dev: multiset<T>, test: multiset<T>, train: multiset<T>, all: multiset<T>, more: multiset<T>,
                     live: bool, split: Split)
    requires dev + test + train == all
    ensures (dev + Given(live && split == Dev, more)) + (test + Given(live && split == Test, more))
            + (train + Given(live && split == Train, more))
            == all + Given(live, more)
  {
  }

  /** The matrices of the three splits share out the keys of the live records between them. */
  lemma {:induction false} KeysSplit(records: seq<Record>, plan: Plan)
    requires PlansOk(records, plan)
    ensures SplitKeys(records, plan, Dev) + SplitKeys(records, plan, Test) + SplitKeys(records, plan, Train)
            == multiset(KeysOf(LiveOnly(records)))
  {
    if records != [] {
      var front, last := records[..|records| - 1], records[|records| - 1];
      KeysSplit(front, plan);
      SplitKeysLast(records, plan, Dev);
      SplitKeysLast(records, plan, Test);
      SplitKeysLast(records, plan, Train);
      LiveKeysLast(records);
      assert forall split :: InMatrix(last, plan, split) <==> last.live && last.split == split;
      SharedOut(SplitKeys(front, plan, Dev), SplitKeys(front, plan, Test), SplitKeys(front, plan, Train),
                multiset(KeysOf(LiveOnly(front))), multiset(last.keys), last.live, last.split);
    }
  }

  lemma {:induction false} DistinctCounts<T>(xs: seq<T>, x: T)
    requires Distinct(xs)
    ensures multiset(xs)[x] <= 1
  {
    if xs != [] {
      var front, last := xs[..|xs| - 1], xs[|xs| - 1];
      DistinctCounts(front, x);
      assert xs == front + [last];
      assert last !in front;
      assert last !in multiset(front);
    }
  }

  /** No key occurs twice in the two lists together. */
  lemma DisjointKeys(a: seq<string>, b: seq<string>, all: seq<string>)
    requires Distinct(all) && multiset(a) + multiset(b) <= multiset(all)
    ensures Distinct(a + b)
  {
    forall x ensures multiset(a + b)[x] <= 1 {
      DistinctCounts(all, x);
      assert multiset(a + b) == multiset(a) + multiset(b);
    }
    CountsDistinct(a + b);
  }

  lemma {:induction false} CountsDistinct(xs: seq<string>)
    requires forall x :: multiset(xs)[x] <= 1
    ensures Distinct(xs)
  {
    if xs != [] {
      var front, last := xs[..|xs| - 1], xs[|xs| - 1];
      assert xs == front + [last];
      assert multiset(xs) == multiset(front) + multiset{last};
      forall x ensures multiset(front)[x] <= 1 {
        assert multiset(xs)[x] <= 1;
      }
      assert multiset(xs)[last] == multiset(front)[last] + 1;
      CountsDistinct(front);
      DistinctAppend(front, last);
    }
  }

  lemma {:induction false} KeysMatchCalls(live: seq<Record>)
    requires forall i :: 0 <= i < |live| ==> |live[i].keys| == live[i].calls
    ensures |KeysOf(live)| == CallsOf(live)
  {
    if live != [] {
      KeysMatchCalls(live[..|live| - 1]);
    }
  }

  /** The ledger's keys are the calls of the two matrices, one for one. */
  lemma LedgerIsTheCalls(e: Evidence, methods: seq<Method>)
    requires Sound(e, methods)
    ensures var dev, test := Matrix(e.records, e.plan, Dev), Matrix(e.records, e.plan, Test);
            && Distinct(KeysOf(dev) + KeysOf(test))
            && e.ledger.Some? && e.ledger.value.Keys == (set key | key in KeysOf(dev) + KeysOf(test))
            && |e.ledger.value.Keys| == CallsOf(dev) + CallsOf(test)
            && forall key :: key in e.ledger.value ==> e.ledger.value[key] == Recorded
  {
    var dev, test := Matrix(e.records, e.plan, Dev), Matrix(e.records, e.plan, Test);
    KeysSplit(e.records, e.plan);
    assert SplitKeys(e.records, e.plan, Dev) + SplitKeys(e.records, e.plan, Test)
           <= multiset(KeysOf(LiveOnly(e.records)));
    DisjointKeys(KeysOf(dev), KeysOf(test), KeysOf(LiveOnly(e.records)));
    DistinctSize(KeysOf(dev) + KeysOf(test), set key | key in KeysOf(dev) + KeysOf(test));
    forall i | 0 <= i < |dev| ensures |dev[i].keys| == dev[i].calls {
      assert TrialOk(dev[i], e.cases, Dev, e.plan.devMethods, e.plan, e.digest, e.candidates);
    }
    forall i | 0 <= i < |test| ensures |test[i].keys| == test[i].calls {
      assert TrialOk(test[i], e.cases, Test, methods, e.plan, e.digest, e.candidates);
    }
    KeysMatchCalls(dev);
    KeysMatchCalls(test);
    var both := KeysOf(dev) + KeysOf(test);
    assert (set key | key in both) == (set key | key in KeysOf(dev)) + (set key | key in KeysOf(test));
  }

  /** A passed stage holds exactly the preregistered trials of both splits, each once, and the calls
      they made are bounded per case. */
  lemma PassMeansExactCoverage(e: Evidence)
    requires ValidPlan(e.plan) && Sound(e, TestMethods(e.plan, e.supplement))
    ensures var methods := TestMethods(e.plan, e.supplement);
            var dev, test := Matrix(e.records, e.plan, Dev), Matrix(e.records, e.plan, Test);
            var n, k := |CaseIds(e.cases, Dev)|, |CaseIds(e.cases, Test)|;
            && Distinct(Trials(dev, e.cases, Dev))
            && (forall t :: t in Trials(dev, e.cases, Dev) <==> Expected(t, e.cases, Dev, e.plan.devMethods))
            && Distinct(Trials(test, e.cases, Test))
            && (forall t :: t in Trials(test, e.cases, Test) <==> Expected(t, e.cases, Test, methods))
            && 21 * n <= CallsOf(dev) <= 24 * n && CallsOf(test) <= 24 * k
            && (n == 24 && k == 24 ==> CallsOf(dev) + CallsOf(test) <= 1152)
  {
    var methods := TestMethods(e.plan, e.supplement);
    TestMethodsOk(e.plan, e.supplement);
    var dev, test := Matrix(e.records, e.plan, Dev), Matrix(e.records, e.plan, Test);
    forall t ensures t in Trials(dev, e.cases, Dev) <==> Expected(t, e.cases, Dev, e.plan.devMethods) {
      TrialsExpected(dev, e.cases, Dev, e.plan.devMethods, e.plan, e.digest, e.candidates, t);
    }
    forall t ensures t in Trials(test, e.cases, Test) <==> Expected(t, e.cases, Test, methods) {
      TrialsExpected(test, e.cases, Test, methods, e.plan, e.digest, e.candidates, t);
    }
    MatrixCalls(dev, e.cases, Dev, e.plan.devMethods, e.plan, e.digest, e.candidates);
    MatrixCalls(test, e.cases, Test, methods, e.plan, e.digest, e.candidates);
  }

  // ---- Live records outside both matrices ----

  /** Of three lists that share out distinct elements, a set holding the first two covers all of them
      exactly when the third is empty. */
  lemma CoveredIff<T>(dev: seq<T>, test: seq<T>, train: seq<T>, all: seq<T>, covered: set<T>)
    requires multiset(dev) + multiset(test) + multiset(train) == multiset(all) && Distinct(all)
    requires forall x :: x in covered <==> x in dev + test
    ensures (forall x :: x in all ==> x in covered) <==> train == []
  {
    forall x ensures x in all <==> x in dev || x in test || x in train {
      assert x in all <==> x in multiset(all);
    }
    if train != [] {
      DistinctCounts(all, train[0]);
      assert train[0] in multiset(train);
      assert multiset(dev)[train[0]] == 0 && multiset(test)[train[0]] == 0;
      assert train[0] in all && train[0] !in covered;
    }
  }

  /** Passing does not mean that every live call is in the ledger: it does exactly when no live record
      of the training split lists a key. */
  lemma AllLiveKeysInLedgerIff(e: Evidence, methods: seq<Method>)
    requires Sound(e, methods)
    ensures (forall key :: key in KeysOf(LiveOnly(e.records)) ==> key in e.ledger.value.Keys) <==>
              KeysOf(Matrix(e.records, e.plan, Train)) == []
  {
    LedgerIsTheCalls(e, methods);
    KeysSplit(e.records, e.plan);
    CoveredIff(KeysOf(Matrix(e.records, e.plan, Dev)), KeysOf(Matrix(e.records, e.plan, Test)),
               KeysOf(Matrix(e.records, e.plan, Train)),
               KeysOf(LiveOnly(e.records)), e.ledger.value.Keys);
  }

  /** Such a record can be added to any passing evidence: a live call the ledger never saw. */
  lemma TrainingRecordUnnoticed(e: Evidence, methods: seq<Method>, r: Record)
    requires Sound(e, methods) && r.live && r.planId == Some(e.plan.id) && r.split == Train
    requires |r.keys| == r.calls && CallsOf(LiveOnly(e.records)) + r.calls <= 1200
             && Distinct(KeysOf(LiveOnly(e.records)) + r.keys)
    ensures Sound(e.(records := e.records + [r]), methods)
  {
    MatrixUntouched(e.records, e.plan, Dev, r);
    MatrixUntouched(e.records, e.plan, Test, r);
    OneMoreLive(e.records, r);
  }

  lemma MatrixUntouched(records: seq<Record>, plan: Plan, split: Split, r: Record)
    requires !InMatrix(r, plan, split)
    ensures Matrix(records + [r], plan, split) == Matrix(records, plan, split)
  {
    assert (records + [r])[..|records|] == records;
    assert Matrix(records, plan, split) + [] == Matrix(records, plan, split);
  }

  lemma OneMoreLive(records: seq<Record>, r: Record)
    requires BudgetOk(LiveOnly(records)) && r.live && |r.keys| == r.calls
    requires CallsOf(LiveOnly(records)) + r.calls <= 1200 && Distinct(KeysOf(LiveOnly(records)) + r.keys)
    ensures BudgetOk(LiveOnly(records + [r]))
  {
    assert (records + [r])[..|records|] == records;
    KeysAppend(LiveOnly(records), r);
  }
}
