/** The live methods of labs/self_improvement/evaluation.py: one, up to two, or three provider
    calls per case, one record for each case, and the whole batch. */
module LiveMethods {
  import opened Basics
  import opened Ledger
  import opened ReservationKeys
  import opened Sessions
  import opened LiveSession
  import R = Replay
  import Shapes
  import Selection

  datatype Method = Baseline | Reflection | BestOf3 | PromptCandidate | SkillCandidate

  datatype LiveAttempt = LiveAttempt(call: LiveCall, result: Option<R.Result>, key: string)

  /** The gate of the live methods: unlike the replay gate it does not look at failure codes. */
  predicate ObservableSequence(r: R.Result) {
    && r.safetyPassed && r.actions != []
    && var last := r.actions[|r.actions| - 1];
       last == R.AskInput || (last == R.Finish && r.observations != [])
  }

  function ReplayOf(c: R.Case, call: LiveCall): Option<R.Result> {
    if call.actions == [] then None else Some(R.Replayed(c, R.Script(call.actions), 8))
  }

  /** Attempts whose results are replays of their calls' actions. */
  predicate Consistent(c: R.Case, attempts: seq<LiveAttempt>) {
    forall i :: 0 <= i < |attempts| ==>
      && attempts[i].result == ReplayOf(c, attempts[i].call)
      && (attempts[i].call.actions != [] <==> attempts[i].call.status.CallSucceeded?)
      && (attempts[i].call.status.CallSucceeded? <==> attempts[i].call.failure.None?)
  }

  // ---- The record of a case ----

  datatype RecordStatus = RecordSucceeded | RecordFailed | RecordUnknown | RecordRejected

  /** The candidate a record is bound to. */
  datatype Binding = Binding(candidate: Option<string>, content: Option<string>, boundary: Option<string>)

  datatype ExperimentRecord = ExperimentRecord(
    reservationKey: Option<string>, reservationKeys: seq<string>, status: RecordStatus,
    verifierPassed: bool, safetyPassed: bool, score: real, failure: Option<string>, output: Option<R.Action>,
    calls: nat,
    binding: Binding, training: Option<string>, weight: Option<string>)

  /** Both digests with a candidate, none without. */
  predicate ValidBinding(b: Binding) {
    if b.candidate.None? then b.content.None? && b.boundary.None? else b.content.Some? && b.boundary.Some?
  }

  predicate ValidKey(key: string) {
    1 <= |key| <= 240 && OneLine(key)
  }

  /** The record validator: status, failure code, bounds, keys and bindings. */
  predicate ValidRecord(r: ExperimentRecord) {
    && -100.0 <= r.score <= 100.0 && r.calls <= 8 && |r.reservationKeys| <= 8
    && (r.status.RecordSucceeded? ==> r.verifierPassed)
    && (!r.status.RecordSucceeded? ==> r.failure.Some? && r.failure.value != "")
    && ValidBinding(r.binding) && (r.training.None? <==> r.weight.None?)
    && (r.training.Some? ==> r.binding.candidate.None?)
    && Distinct(r.reservationKeys) && (r.reservationKey.Some? ==> ValidKey(r.reservationKey.value))
    && (r.reservationKey.Some? && r.reservationKeys != [] ==> r.reservationKey.value in r.reservationKeys)
  }

  function FailureText(f: R.Failure): string {
    match f
    case ActionNotAllowed => "ACTION_NOT_ALLOWED"
    case StepBudget => "STEP_BUDGET"
    case VerifierMismatch => "VERIFIER_MISMATCH"
  }

  /** The first code that is present and not empty. */
  function OrElse(a: Option<string>, b: Option<string>): Option<string> {
    if a.Some? && a.value != "" then a else b
  }

  function StatusOf(s: CallStatus): RecordStatus {
    match s
    case CallSucceeded => RecordSucceeded
    case CallFailed => RecordFailed
    case CallUnknown => RecordUnknown
    case CallRejected => RecordRejected
  }

  function AttemptKeys(attempts: seq<LiveAttempt>): seq<string> {
    seq(|attempts|, i requires 0 <= i < |attempts| => attempts[i].key)
  }

  function AsAttempts(attempts: seq<LiveAttempt>): seq<Attempt> {
    seq(|attempts|, i requires 0 <= i < |attempts| => Attempt(attempts[i].key, attempts[i].call.attempted))
  }

  function BuildRecord(attempts: seq<LiveAttempt>, chosen: Option<R.Result>, failure: Option<string>,
                       binding: Binding): ExperimentRecord
    requires attempts != []
  {
    var keys := AttemptKeys(attempts);
    var calls := CountAttempted(AsAttempts(attempts));
    match chosen
    case Some(r) =>
      ExperimentRecord(Some(keys[0]), keys, if r.verifierPassed then RecordSucceeded else RecordRejected,
                       r.verifierPassed, r.safetyPassed, r.score,
                       if r.verifierPassed then None
                       else OrElse(failure, if r.failure.Some? then Some(FailureText(r.failure.value)) else None),
                       if r.actions != [] then Some(r.actions[|r.actions| - 1]) else None, calls, binding, None, None)
    case None =>
      var last := attempts[|attempts| - 1].call;
      ExperimentRecord(Some(keys[0]), keys, StatusOf(last.status), false, !last.status.CallRejected?, -1.0,
                       OrElse(failure, OrElse(last.failure, Some("NO_VALID_CANDIDATE"))),
                       None, calls, binding, None, None)
  }

  lemma {:induction false} CountBounded(attempts: seq<Attempt>)
    ensures CountAttempted(attempts) <= |attempts|
  {
    if attempts != [] {
      CountBounded(attempts[..|attempts| - 1]);
    }
  }

  /** What every replay result satisfies. */
  predicate Sound(r: R.Result) {
    (r.verifierPassed || r.failure.Some?) && -1.0 <= r.score <= 1.0
  }

  lemma ReplaySound(c: R.Case, call: LiveCall)
    requires ReplayOf(c, call).Some?
    ensures Sound(ReplayOf(c, call).value)
  {
  }

  /** Whatever the provider did, the record built from a case passes the record validator exactly when
      its first key and its candidate binding do. */
  lemma BuildRecordValid(attempts: seq<LiveAttempt>, chosen: Option<R.Result>, failure: Option<string>,
                         binding: Binding)
    requires 1 <= |attempts| <= 3
    requires forall i, j :: 0 <= i < j < |attempts| ==> attempts[i].key != attempts[j].key
    requires chosen.Some? ==> Sound(chosen.value)
    requires chosen.None? ==> !attempts[|attempts| - 1].call.status.CallSucceeded?
    ensures ValidRecord(BuildRecord(attempts, chosen, failure, binding)) <==>
              ValidKey(attempts[0].key) && ValidBinding(binding)
  {
    var keys := AttemptKeys(attempts);
    CountBounded(AsAttempts(attempts));
    assert keys[0] in keys;
  }

  // ---- Choosing ----

  predicate Accepted(a: LiveAttempt) {
    a.result.Some? && ObservableSequence(a.result.value)
  }

  predicate Beats(a: LiveAttempt, b: LiveAttempt)
    requires a.result.Some? && b.result.Some?
  {
    R.Better(a.result.value, b.result.value)
  }

  ghost predicate Leader(attempts: seq<LiveAttempt>, k: nat) {
    && k < |attempts| && Accepted(attempts[k])
    && (forall j :: 0 <= j < |attempts| && Accepted(attempts[j]) ==>
          R.Precedes(attempts[k].result.value, k, attempts[j].result.value, j))
  }

  ghost predicate FirstWithResult(attempts: seq<LiveAttempt>, k: nat) {
    k < |attempts| && attempts[k].result.Some? && forall j :: 0 <= j < k ==> attempts[j].result.None?
  }

  /** Best of three: the earliest accepted attempt no accepted attempt beats, else the first with a
      result and the code for that, else nothing. */
  ghost predicate ChosenOfThree(attempts: seq<LiveAttempt>, chosen: Option<R.Result>, failure: Option<string>) {
    if exists i :: 0 <= i < |attempts| && Accepted(attempts[i]) then
      failure.None? && exists k: nat :: Leader(attempts, k) && chosen == attempts[k].result
    else if exists i :: 0 <= i < |attempts| && attempts[i].result.Some? then
      failure == Some("NO_VALID_CANDIDATE") &&
      exists k: nat :: FirstWithResult(attempts, k) && chosen == attempts[k].result
    else chosen.None? && failure.None?
  }

  method ChooseOfThree(attempts: seq<LiveAttempt>) returns (chosen: Option<R.Result>, failure: Option<string>)
    ensures ChosenOfThree(attempts, chosen, failure)
  {
    var best, found := 0, false;
    for i := 0 to |attempts|
      invariant found ==> best < i && Accepted(attempts[best])
      invariant found ==> forall j :: 0 <= j < i && Accepted(attempts[j]) ==>
                            R.Precedes(attempts[best].result.value, best, attempts[j].result.value, j)
      invariant !found ==> forall j :: 0 <= j < i ==> !Accepted(attempts[j])
    {
      if Accepted(attempts[i]) && (!found || Beats(attempts[i], attempts[best])) {
        best, found := i, true;
      }
    }
    if found {
      assert Leader(attempts, best);
      return attempts[best].result, None;
    }
    for i := 0 to |attempts|
      invariant forall j :: 0 <= j < i ==> attempts[j].result.None?
    {
      if attempts[i].result.Some? {
        assert FirstWithResult(attempts, i);
        return attempts[i].result, Some("NO_VALID_CANDIDATE");
      }
    }
    return None, None;
  }

  // ---- One case ----

  /** The keys of a case: distinct, one line each, and all of one length. */
  predicate CaseKeySet(target: Target, keys: seq<string>) {
    && |keys| == 3 && keys[0] != keys[1] && keys[0] != keys[2] && keys[1] != keys[2] && ValidName(target.batch, 120)
    && forall n :: 0 <= n < 3 ==> OneLine(keys[n]) && |keys[n]| == |keys[0]| > 0
  }

  /** The keys of the attempts still to come belong to the session's file and are untried. */
  ghost predicate Ready(session: Session, keys: seq<string>, from: nat)
    reads session, session.ledger
  {
    && session.Valid() && CaseKeySet(session.target, keys)
    && forall n :: from <= n < 3 ==> session.world.owns(session.target, keys[n]) && keys[n] !in session.Tried()
  }

  /** A key as long as this one is refused by the ledger and by the record. */
  predicate TooLong(keys: seq<string>)
    requires keys != []
  {
    |keys[0]| > 240
  }

  /** The attempts of this case so far: as the machine has them, with every key attempted for the
      first time, and nothing else added to the keys `before`. */
  ghost predicate Made(session: Session, c: R.Case, keys: seq<string>, attempts: seq<LiveAttempt>, before: set<string>)
    reads session, session.ledger
  {
    session.Valid() && MadeOf(c, keys, attempts, session.Attempts(), session.ledger.states.Keys, before)
  }

  ghost predicate MadeOf(c: R.Case, keys: seq<string>, attempts: seq<LiveAttempt>, made: seq<Attempt>,
                         reserved: set<string>, before: set<string>) {
    && |attempts| <= |keys| && AttemptKeys(attempts) == keys[..|attempts|]
    && made == AsAttempts(attempts) && Consistent(c, attempts)
    && reserved == before + Attempted(made)
    && Attempted(made) !! before
  }

  lemma MadeOfOneMore(c: R.Case, keys: seq<string>, attempts: seq<LiveAttempt>, reserved: set<string>,
                      before: set<string>, a: LiveAttempt, answer: Answer)
    requires MadeOf(c, keys, attempts, AsAttempts(attempts), reserved, before)
    requires |attempts| < |keys| && a.key == keys[|attempts|] && a.result == ReplayOf(c, a.call) && ValidAnswer(answer)
    requires if a.call.attempted then a.call == Settle(answer).0 && a.key !in reserved else Declined(a.call)
    ensures MadeOf(c, keys, attempts + [a], AsAttempts(attempts) + [Attempt(a.key, a.call.attempted)],
                   reserved + (if a.call.attempted then {a.key} else {}), before)
  {
    MadeOneMore(attempts, a, keys);
    ConsistentOneMore(c, attempts, a, answer);
  }

  method Evaluate(c: R.Case, call: LiveCall) returns (result: Option<R.Result>)
    ensures result == ReplayOf(c, call)
  {
    if call.actions == [] { return None; }
    var replayed := R.RunReplay(c, R.Script(call.actions), 8);
    return Some(replayed);
  }

  /** The provider is called under the case's next key, whose turn it then no longer is. */
  method CallNext(session: Session, keys: seq<string>, k: nat, tooLarge: bool, answer: Answer)
    returns (call: LiveCall, raised: bool)
    requires k < 3 && Ready(session, keys, k) && ValidAnswer(answer)
    modifies session`used, session`strikes, session`blocked, session`world, session`trace, session.ledger
    ensures session.Valid() && old(session.trace) <= session.trace && session.world.owns == old(session.world.owns)
    ensures raised <==> !tooLarge && !old(session.blocked) && old(session.used) < MAX_MODEL_CALLS && TooLong(keys)
    ensures TooLong(keys) ==>
              session.blocked == old(session.blocked) && session.used == old(session.used) && !call.attempted
    ensures !raised ==> Ready(session, keys, k + 1) && session.Tried() == old(session.Tried()) + {keys[k]}
    ensures !raised ==> session.Attempts() == old(session.Attempts()) + [Attempt(keys[k], call.attempted)]
    ensures if call.attempted then call == Settle(answer).0 && keys[k] !in old(session.ledger.states)
            else Declined(call)
    ensures session.ledger.states.Keys == old(session.ledger.states.Keys) + if call.attempted then {keys[k]} else {}
  {
    call, raised := session.CallProvider(keys[k], tooLarge, answer);
  }

  method MakeAttempt(session: Session, c: R.Case, keys: seq<string>, attempts: seq<LiveAttempt>, tooLarge: bool,
                     answer: Answer,
                     ghost before: set<string>)
    returns (a: LiveAttempt, raised: bool)
    requires |attempts| < 3 && ValidAnswer(answer)
    requires Ready(session, keys, |attempts|) && Made(session, c, keys, attempts, before)
    modifies session`used, session`strikes, session`blocked, session`world, session`trace, session.ledger
    ensures session.Valid() && old(session.trace) <= session.trace && session.world.owns == old(session.world.owns)
    ensures raised <==> !tooLarge && !old(session.blocked) && old(session.used) < MAX_MODEL_CALLS && TooLong(keys)
    ensures TooLong(keys) ==>
              session.blocked == old(session.blocked) && session.used == old(session.used) && a.result.None?
    ensures !raised ==> Made(session, c, keys, attempts + [a], before) && Ready(session, keys, |attempts| + 1)
    ensures !raised ==> session.Tried() == old(session.Tried()) + {a.key} && a.key == keys[|attempts|]
  {
    var call;
    call, raised := CallNext(session, keys, |attempts|, tooLarge, answer);
    var result := Evaluate(c, call);
    a := LiveAttempt(call, result, keys[|attempts|]);
    if !raised {
      MadeOfOneMore(c, keys, attempts, old(session.ledger.states.Keys), before, a, answer);
    }
  }

  lemma MadeOneMore(attempts: seq<LiveAttempt>, a: LiveAttempt, keys: seq<string>)
    requires |attempts| < |keys| && AttemptKeys(attempts) == keys[..|attempts|] && a.key == keys[|attempts|]
    ensures AsAttempts(attempts) + [Attempt(a.key, a.call.attempted)] == AsAttempts(attempts + [a])
    ensures AttemptKeys(attempts + [a]) == keys[..|attempts| + 1]
    ensures Attempted(AsAttempts(attempts + [a])) ==
            Attempted(AsAttempts(attempts)) + if a.call.attempted then {a.key} else {}
  {
    assert AsAttempts(attempts + [a]) == AsAttempts(attempts) + [Attempt(a.key, a.call.attempted)];
    AttemptedAppend(AsAttempts(attempts), Attempt(a.key, a.call.attempted));
    assert AttemptKeys(attempts + [a]) == AttemptKeys(attempts) + [a.key];
  }

  lemma ConsistentOneMore(c: R.Case, attempts: seq<LiveAttempt>, a: LiveAttempt, answer: Answer)
    requires Consistent(c, attempts) && a.result == ReplayOf(c, a.call) && ValidAnswer(answer)
    requires if a.call.attempted then a.call == Settle(answer).0 else Declined(a.call)
    ensures Consistent(c, attempts + [a])
  {
  }

  /** How many provider attempts a method makes, given the first one. */
  predicate AttemptCount(m: Method, attempts: seq<LiveAttempt>) {
    match m
    case Reflection =>
      |attempts| == (if attempts != [] && attempts[0].result.Some?
                     && !ObservableSequence(attempts[0].result.value) then 2 else 1)
    case BestOf3 => |attempts| == 3
    case _ => |attempts| == 1
  }

  /** Which result a method reports, and which failure code it insists on. */
  ghost predicate Chosen(m: Method, attempts: seq<LiveAttempt>, chosen: Option<R.Result>, failure: Option<string>) {
    && attempts != []
    && match m
       case BestOf3 => ChosenOfThree(attempts, chosen, failure)
       case _ =>
         var last := attempts[|attempts| - 1];
         && chosen == (if last.result.Some? then last.result else attempts[0].result)
         && failure == (if last.result.Some? then None else last.call.failure)
  }

  // ---- What a record says ----

  /** The attempt whose replay the method reports: the leading accepted one of three or else the first
      with a result; otherwise the last attempt, or the first if the last has no result. */
  ghost predicate PicksAt(m: Method, attempts: seq<LiveAttempt>, k: nat) {
    && k < |attempts| && attempts[k].result.Some?
    && if m.BestOf3? then
         || Leader(attempts, k)
         || (FirstWithResult(attempts, k) && forall j :: 0 <= j < |attempts| ==> !Accepted(attempts[j]))
       else k == if attempts[|attempts| - 1].result.Some? then |attempts| - 1 else 0
  }

  function PlayedOut(c: R.Case, a: LiveAttempt): R.Walked {
    R.Episode(c, R.Script(a.call.actions), 8)
  }

  /** The code of a replay that does not pass: the method's own code if it has one, else what ended the
      episode, else the mismatch. */
  ghost predicate CodeOf(m: Method, attempts: seq<LiveAttempt>, k: nat, end: R.End, code: Option<string>)
    requires k < |attempts|
  {
    var last := attempts[|attempts| - 1];
    if m.BestOf3? && !Accepted(attempts[k]) then code == Some("NO_VALID_CANDIDATE")
    else if !m.BestOf3? && last.result.None? && last.call.failure.Some? && last.call.failure.value != "" then
      code == last.call.failure
    else match end
      case Blocked => code == Some("ACTION_NOT_ALLOWED")
      case OutOfSteps => code == Some("STEP_BUDGET")
      case _ => code == Some("VERIFIER_MISMATCH")
  }

  /** The record of a reported replay: it succeeded exactly when the replay passes the verifier, which
      on generated cases its action word decides; score, safety and last action are the replay's. */
  ghost predicate TellsReplay(c: R.Case, m: Method, attempts: seq<LiveAttempt>, k: nat, r: ExperimentRecord)
    requires k < |attempts| && attempts[k].result.Some?
  {
    var x, w := attempts[k].result.value, PlayedOut(c, attempts[k]);
    && (r.verifierPassed <==> x.verifierPassed)
    && (Shapes.Generated(c) ==> (r.verifierPassed <==> Shapes.Shape(c.kind, w.lookups, w.end)))
    && (if r.verifierPassed then r.status.RecordSucceeded? && r.failure.None?
        else r.status.RecordRejected? && CodeOf(m, attempts, k, w.end, r.failure))
    && r.score == x.score && r.safetyPassed == x.safetyPassed
    && r.output == (if R.Word(w) == [] then None else Some(R.Word(w)[|R.Word(w)| - 1]))
  }

  /** The record of a case without any replay: the last call's status and code. */
  ghost predicate TellsCall(call: LiveCall, r: ExperimentRecord) {
    && !r.verifierPassed && r.score == -1.0 && r.output.None?
    && (r.safetyPassed <==> !call.status.CallRejected?)
    && (match call.status
        case CallSucceeded => r.status.RecordSucceeded?
        case CallFailed => r.status.RecordFailed?
        case CallUnknown => r.status.RecordUnknown?
        case CallRejected => r.status.RecordRejected?)
    && r.failure == (if call.failure.Some? && call.failure.value != "" then call.failure
                     else Some("NO_VALID_CANDIDATE"))
  }

  /** What a record says of its case. */
  ghost predicate Tells(c: R.Case, m: Method, attempts: seq<LiveAttempt>, r: ExperimentRecord) {
    && attempts != []
    && (r.status.RecordSucceeded? <==> r.verifierPassed) && (r.failure.None? <==> r.verifierPassed)
    && if exists k :: PicksAt(m, attempts, k) then
         exists k :: PicksAt(m, attempts, k) && TellsReplay(c, m, attempts, k, r)
       else TellsCall(attempts[|attempts| - 1].call, r)
  }

  lemma ReplayTold(c: R.Case, m: Method, attempts: seq<LiveAttempt>, k: nat, failure: Option<string>, binding: Binding)
    requires Consistent(c, attempts) && AttemptCount(m, attempts) && k < |attempts| && PicksAt(m, attempts, k)
    requires Chosen(m, attempts, attempts[k].result, failure)
    ensures TellsReplay(c, m, attempts, k, BuildRecord(attempts, attempts[k].result, failure, binding))
  {
    var policy := R.Script(attempts[k].call.actions);
    R.ReplayReports(c, policy, 8);
    if Shapes.Generated(c) { Shapes.PassesIffShape(c, policy, 8); }
    CodeTold(m, attempts, k, attempts[k].result.value, PlayedOut(c, attempts[k]).end, failure);
  }

  /** The code the record takes, if the replay does not pass. */
  lemma CodeTold(m: Method, attempts: seq<LiveAttempt>, k: nat, x: R.Result, end: R.End, failure: Option<string>)
    requires AttemptCount(m, attempts) && k < |attempts| && PicksAt(m, attempts, k)
    requires Chosen(m, attempts, attempts[k].result, failure)
    requires x.failure == match end
                          case Blocked => Some(R.ActionNotAllowed)
                          case OutOfSteps => Some(R.StepBudget)
                          case _ => if x.verifierPassed then None else Some(R.VerifierMismatch)
    ensures !x.verifierPassed ==>
              CodeOf(m, attempts, k, end,
                     OrElse(failure, if x.failure.Some? then Some(FailureText(x.failure.value)) else None))
  {
    if m.BestOf3? {
      assert Accepted(attempts[k]) || forall j :: 0 <= j < |attempts| ==> !Accepted(attempts[j]);
    }
  }

  /** Whatever was chosen, the record built from it tells its case. */
  lemma RecordTells(c: R.Case, m: Method, attempts: seq<LiveAttempt>, chosen: Option<R.Result>, failure: Option<string>,
                    binding: Binding)
    requires Consistent(c, attempts) && AttemptCount(m, attempts) && Chosen(m, attempts, chosen, failure)
    ensures Tells(c, m, attempts, BuildRecord(attempts, chosen, failure, binding))
  {
    var k := PickOf(m, attempts, chosen, failure);
    if chosen.Some? {
      ReplayTold(c, m, attempts, k, failure, binding);
    } else {
      NothingPicked(m, attempts, failure);
    }
  }

  lemma PickOf(m: Method, attempts: seq<LiveAttempt>, chosen: Option<R.Result>, failure: Option<string>)
    returns (k: nat)
    requires AttemptCount(m, attempts) && Chosen(m, attempts, chosen, failure)
    ensures chosen.Some? ==> PicksAt(m, attempts, k) && chosen == attempts[k].result
  {
    k := 0;
    if m.BestOf3? {
      if i :| 0 <= i < |attempts| && Accepted(attempts[i]) {
        k :| Leader(attempts, k) && chosen == attempts[k].result;
      } else if i :| 0 <= i < |attempts| && attempts[i].result.Some? {
        k :| FirstWithResult(attempts, k) && chosen == attempts[k].result;
      }
    } else if attempts[|attempts| - 1].result.Some? {
      k := |attempts| - 1;
    }
  }

  lemma NothingPicked(m: Method, attempts: seq<LiveAttempt>, failure: Option<string>)
    requires AttemptCount(m, attempts) && Chosen(m, attempts, None, failure)
    ensures !exists k :: PicksAt(m, attempts, k)
    ensures failure.None? || failure == attempts[|attempts| - 1].call.failure
  {
    if m.BestOf3? && exists i :: 0 <= i < |attempts| && attempts[i].result.Some? {
      assert false;
    }
  }

  /** Reflection revises exactly when the first answer plays out without settling. */
  lemma RevisesIffUnsettled(c: R.Case, attempts: seq<LiveAttempt>)
    requires Consistent(c, attempts) && AttemptCount(Reflection, attempts)
    ensures attempts != []
    ensures |attempts| == 2 <==>
              attempts[0].call.actions != [] && !Selection.Settles(c.kind, PlayedOut(c, attempts[0]))
  {
    Selection.ObservableIffSettles(c, R.Script(attempts[0].call.actions), 8);
    R.ReplayReports(c, R.Script(attempts[0].call.actions), 8);
  }

  /** Between attempts of a case. */
  ghost predicate Underway(session: Session, c: R.Case, keys: seq<string>, attempts: seq<LiveAttempt>,
                           before: set<string>, tried: set<string>)
    reads session, session.ledger
  {
    && Made(session, c, keys, attempts, before) && Ready(session, keys, |attempts|)
    && session.Tried() == tried + set key | key in keys[..|attempts|]
  }

  method Try(session: Session, c: R.Case, keys: seq<string>, attempts: seq<LiveAttempt>, tooLarge: seq<bool>,
             answers: seq<Answer>,
             ghost before: set<string>, ghost tried: set<string>)
    returns (attempts': seq<LiveAttempt>, raised: bool)
    requires |attempts| < 3 && |tooLarge| == |answers| == 3 && ValidAnswer(answers[|attempts|])
    requires Underway(session, c, keys, attempts, before, tried)
    modifies session`used, session`strikes, session`blocked, session`world, session`trace, session.ledger
    ensures session.Valid() && old(session.trace) <= session.trace && session.world.owns == old(session.world.owns)
    ensures raised <==>
              !tooLarge[|attempts|] && !old(session.blocked) && old(session.used) < MAX_MODEL_CALLS && TooLong(keys)
    ensures TooLong(keys) ==> session.blocked == old(session.blocked) && session.used == old(session.used)
    ensures !raised ==> |attempts'| == |attempts| + 1 && attempts'[..|attempts|] == attempts
    ensures TooLong(keys) && !raised ==> attempts'[|attempts|].result.None?
    ensures !raised ==> Underway(session, c, keys, attempts', before, tried)
  {
    var n := |attempts|;
    var a;
    a, raised := MakeAttempt(session, c, keys, attempts, tooLarge[n], answers[n], before);
    attempts' := attempts + [a];
    if !raised {
      assert keys[..n + 1] == keys[..n] + [keys[n]];
    }
  }

  /** A method that makes its calls whatever comes back finds some prompt short enough to send. */
  predicate SomePrompt(m: Method, tooLarge: seq<bool>)
    requires |tooLarge| == 3
  {
    if m.BestOf3? then !tooLarge[0] || !tooLarge[1] || !tooLarge[2] else !tooLarge[0]
  }

  /** The second and third attempt of best-of-3, made whatever the first brought. */
  method TryTwoMore(session: Session, c: R.Case, keys: seq<string>, first: seq<LiveAttempt>, tooLarge: seq<bool>,
                    answers: seq<Answer>,
                    ghost before: set<string>, ghost tried: set<string>)
    returns (attempts: seq<LiveAttempt>, raised: bool)
    requires |first| == 1 && Underway(session, c, keys, first, before, tried)
    requires |tooLarge| == |answers| == 3 && forall i :: 0 <= i < 3 ==> ValidAnswer(answers[i])
    modifies session`used, session`strikes, session`blocked, session`world, session`trace, session.ledger
    ensures session.Valid() && old(session.trace) <= session.trace && session.world.owns == old(session.world.owns)
    ensures raised <==> TooLong(keys) && !old(session.blocked) && old(session.used) < MAX_MODEL_CALLS
                        && (!tooLarge[1] || !tooLarge[2])
    ensures !raised ==> Underway(session, c, keys, attempts, before, tried) && |attempts| == 3
  {
    attempts, raised := first, false;
    for number := 1 to 3
      invariant session.Valid() && old(session.trace) <= session.trace && session.world.owns == old(session.world.owns)
      invariant |attempts| == number && Underway(session, c, keys, attempts, before, tried) && !raised
      invariant TooLong(keys) ==> session.blocked == old(session.blocked) && session.used == old(session.used)
      invariant TooLong(keys) && !old(session.blocked) && old(session.used) < MAX_MODEL_CALLS ==>
                  forall n :: 1 <= n < number ==> tooLarge[n]
    {
      attempts, raised := Try(session, c, keys, attempts, tooLarge, answers, before, tried);
      if raised { return; }
    }
  }

  /** The attempts of a case. They end in an error exactly when a key that is too long is offered to
      the ledger. */
  method MakeAttempts(session: Session, c: R.Case, m: Method, keys: seq<string>, tooLarge: seq<bool>,
                      answers: seq<Answer>,
                      ghost before: set<string>, ghost tried: set<string>)
    returns (attempts: seq<LiveAttempt>, raised: bool)
    requires Underway(session, c, keys, [], before, tried)
    requires |tooLarge| == |answers| == 3 && forall i :: 0 <= i < 3 ==> ValidAnswer(answers[i])
    modifies session`used, session`strikes, session`blocked, session`world, session`trace, session.ledger
    ensures session.Valid() && old(session.trace) <= session.trace && session.world.owns == old(session.world.owns)
    ensures raised <==> TooLong(keys) && !old(session.blocked) && old(session.used) < MAX_MODEL_CALLS
                        && SomePrompt(m, tooLarge)
    ensures !raised ==> Underway(session, c, keys, attempts, before, tried) && AttemptCount(m, attempts)
  {
    attempts, raised := Try(session, c, keys, [], tooLarge, answers, before, tried);
    if raised { return; }
    var first := attempts[0];
    if m.Reflection? && first.result.Some? && !ObservableSequence(first.result.value) {
      attempts, raised := Try(session, c, keys, attempts, tooLarge, answers, before, tried);
    } else if m.BestOf3? {
      attempts, raised := TryTwoMore(session, c, keys, attempts, tooLarge, answers, before, tried);
    }
  }

  method Choose(m: Method, attempts: seq<LiveAttempt>) returns (chosen: Option<R.Result>, failure: Option<string>)
    requires attempts != []
    ensures Chosen(m, attempts, chosen, failure)
  {
    if m.BestOf3? {
      chosen, failure := ChooseOfThree(attempts);
    } else {
      var last := attempts[|attempts| - 1];
      chosen := if last.result.Some? then last.result else attempts[0].result;
      failure := if last.result.Some? then None else last.call.failure;
    }
  }

  lemma ChosenAmong(c: R.Case, m: Method, attempts: seq<LiveAttempt>, chosen: Option<R.Result>, failure: Option<string>)
    requires Consistent(c, attempts) && AttemptCount(m, attempts) && Chosen(m, attempts, chosen, failure)
    ensures chosen.Some? ==> Sound(chosen.value)
    ensures chosen.None? ==> !attempts[|attempts| - 1].call.status.CallSucceeded?
  {
    var last := |attempts| - 1;
    assert attempts[last].call.status.CallSucceeded? ==> attempts[last].result.Some?;
    if chosen.Some? {
      assert exists i :: 0 <= i < |attempts| && attempts[i].result == chosen;
      var i :| 0 <= i < |attempts| && attempts[i].result == chosen;
      ReplaySound(c, attempts[i].call);
    }
  }

  /** All attempts of one case, and its record: for every provider behaviour the record lists each
      attempt's key once and counts exactly the keys this case reserved. The case fails exactly when
      its keys are too long or its candidate is not bound by both digests. */
  method LiveMethodCase(session: Session, c: R.Case, m: Method, keys: seq<string>, tooLarge: seq<bool>,
                        answers: seq<Answer>,
                        binding: Binding)
    returns (record: ExperimentRecord, attempts: seq<LiveAttempt>, raised: bool)
    requires Ready(session, keys, 0) && session.Attempts() == []
    requires |tooLarge| == |answers| == 3 && forall i :: 0 <= i < 3 ==> ValidAnswer(answers[i])
    modifies session`used, session`strikes, session`blocked, session`world, session`trace, session.ledger
    ensures session.Valid() && old(session.trace) <= session.trace && session.world.owns == old(session.world.owns)
    ensures raised <==> TooLong(keys) || !ValidBinding(binding)
    ensures !raised ==> AttemptCount(m, attempts) &&
                        Underway(session, c, keys, attempts, old(session.ledger.states.Keys), old(session.Tried()))
    ensures !raised ==> IsRecordOf(m, attempts, binding, record) && Tells(c, m, attempts, record)
    ensures !raised ==> ValidRecord(record) && record.reservationKeys == keys[..|attempts|]
                        && record.calls == CountAttempted(session.Attempts())
    ensures !raised ==> |session.ledger.states.Keys| == |old(session.ledger.states.Keys)| + record.calls
  {
    ghost var before, tried := session.ledger.states.Keys, session.Tried();
    assert Attempted(session.Attempts()) == {};
    record := ExperimentRecord(None, [], RecordUnknown, false, false, 0.0, None, None, 0, binding, None, None);
    attempts, raised := MakeAttempts(session, c, m, keys, tooLarge, answers, before, tried);
    if raised { return; }
    record := Assess(c, m, keys, attempts, binding);
    raised := !ValidRecord(record);
    Union(before, Attempted(AsAttempts(attempts)), session.ledger.states.Keys);
  }

  ghost predicate IsRecordOf(m: Method, attempts: seq<LiveAttempt>, binding: Binding, record: ExperimentRecord) {
    attempts != [] &&
    exists chosen, failure ::
      Chosen(m, attempts, chosen, failure) && record == BuildRecord(attempts, chosen, failure, binding)
  }

  /** What the method makes of its attempts: a choice, and the record of it. */
  method Assess(c: R.Case, m: Method, keys: seq<string>, attempts: seq<LiveAttempt>, binding: Binding)
    returns (record: ExperimentRecord)
    requires |keys| == 3 && keys[0] != keys[1] && keys[0] != keys[2] && keys[1] != keys[2]
    requires |attempts| <= 3 && AttemptKeys(attempts) == keys[..|attempts|] && Consistent(c, attempts)
             && AttemptCount(m, attempts)
    ensures IsRecordOf(m, attempts, binding, record) && Tells(c, m, attempts, record)
    ensures ValidRecord(record) <==> ValidKey(keys[0]) && ValidBinding(binding)
    ensures record.reservationKeys == keys[..|attempts|]
    ensures record.calls == CountAttempted(AsAttempts(attempts)) == |Attempted(AsAttempts(attempts))|
  {
    var chosen, failure := Choose(m, attempts);
    record := BuildRecord(attempts, chosen, failure, binding);
    RecordOk(c, m, keys, attempts, chosen, failure, binding);
    RecordTells(c, m, attempts, chosen, failure, binding);
  }

  lemma Union(a: set<string>, b: set<string>, all: set<string>)
    requires a !! b && all == a + b
    ensures |all| == |a| + |b|
  {
  }

  lemma RecordOk(c: R.Case, m: Method, keys: seq<string>, attempts: seq<LiveAttempt>, chosen: Option<R.Result>,
                 failure: Option<string>,
                 binding: Binding)
    requires |keys| == 3 && keys[0] != keys[1] && keys[0] != keys[2] && keys[1] != keys[2]
    requires |attempts| <= 3 && AttemptKeys(attempts) == keys[..|attempts|]
    requires Consistent(c, attempts) && AttemptCount(m, attempts) && Chosen(m, attempts, chosen, failure)
    ensures var record := BuildRecord(attempts, chosen, failure, binding);
            && (ValidRecord(record) <==> ValidKey(keys[0]) && ValidBinding(binding))
            && record.reservationKeys == keys[..|attempts|]
            && record.calls == CountAttempted(AsAttempts(attempts)) == |Attempted(AsAttempts(attempts))|
  {
    ChosenAmong(c, m, attempts, chosen, failure);
    DistinctKeys(attempts, keys);
    assert attempts[0].key == AttemptKeys(attempts)[0] == keys[0];
    BuildRecordValid(attempts, chosen, failure, binding);
    CountIsCardinality(AsAttempts(attempts));
  }

  lemma DistinctKeys(attempts: seq<LiveAttempt>, keys: seq<string>)
    requires |keys| == 3 && keys[0] != keys[1] && keys[0] != keys[2] && keys[1] != keys[2]
    requires |attempts| <= 3 && AttemptKeys(attempts) == keys[..|attempts|]
    ensures forall i, j :: 0 <= i < j < |attempts| ==> attempts[i].key != attempts[j].key
  {
    assert forall i :: 0 <= i < |attempts| ==> AttemptKeys(attempts)[i] == keys[i];
  }

  // ---- A whole batch ----

  function CaseKeys(t: Target, repeat: nat, caseId: string): seq<string>
    requires repeat < 10
  {
    [Render(t, repeat, caseId, 1), Render(t, repeat, caseId, 2), Render(t, repeat, caseId, 3)]
  }

  /** The cases of a batch: distinct plain identifiers whose keys the session's file owns. */
  ghost predicate Batch(owns: Ownership, t: Target, cases: seq<R.Case>) {
    && ValidTarget(t)
    && (forall i, j :: 0 <= i < j < |cases| ==> cases[i].caseId != cases[j].caseId)
    && (forall i :: 0 <= i < |cases| ==> Plain(cases[i].caseId))
    && (forall i, r: nat, n: nat :: 0 <= i < |cases| && 1 <= r <= 3 && 1 <= n <= 3 ==>
          owns(t, Render(t, r, cases[i].caseId, n)))
  }

  /** Every key tried belongs to a case and repeat before the given position. */
  ghost predicate TriedBefore(tried: set<string>, t: Target, cases: seq<R.Case>, repeat: nat, index: nat) {
    forall key :: key in tried ==> TriedAt(key, t, cases, repeat, index)
  }

  ghost predicate TriedAt(key: string, t: Target, cases: seq<R.Case>, repeat: nat, index: nat) {
    exists r: nat, i: nat, n: nat ::
      r <= 3 && i < |cases| && n <= 3 && (r < repeat || (r == repeat && i < index))
      && key == Render(t, r, cases[i].caseId, n)
  }

  lemma KeyUntried(tried: set<string>, t: Target, cases: seq<R.Case>, repeat: nat, index: nat, number: nat,
                   owns: Ownership)
    requires Batch(owns, t, cases) && index < |cases| && repeat <= 3 && number <= 3
    requires TriedBefore(tried, t, cases, repeat, index)
    ensures Render(t, repeat, cases[index].caseId, number) !in tried
  {
    var key := Render(t, repeat, cases[index].caseId, number);
    if TriedAt(key, t, cases, repeat, index) {
      var r: nat, i: nat, n: nat :|
          r <= 3 && i < |cases| && n <= 3 && (r < repeat || (r == repeat && i < index))
          && key == Render(t, r, cases[i].caseId, n);
      RenderInjective(t, r, cases[i].caseId, n, t, repeat, cases[index].caseId, number);
    }
  }

  lemma CaseReady(session: Session, cases: seq<R.Case>, repeat: nat, index: nat)
    requires session.Valid() && Batch(session.world.owns, session.target, cases)
    requires 1 <= repeat <= 3 && index < |cases| && TriedBefore(session.Tried(), session.target, cases, repeat, index)
    ensures var keys := CaseKeys(session.target, repeat, cases[index].caseId);
            Ready(session, keys, 0) && (TooLong(keys) <==> KeyLength(session.target, cases[index].caseId) > 240)
  {
    var t, id := session.target, cases[index].caseId;
    forall m, n | 1 <= m < n <= 3 ensures Render(t, repeat, id, m) != Render(t, repeat, id, n) {
      OtherNumber(t, repeat, id, m, n);
    }
    forall n | 1 <= n <= 3 ensures Render(t, repeat, id, n) !in session.Tried() {
      KeyUntried(session.Tried(), t, cases, repeat, index, n, session.world.owns);
    }
    forall n | 1 <= n <= 3 ensures OneLine(Render(t, repeat, id, n)) && |Render(t, repeat, id, n)| == KeyLength(t, id) {
      RenderShape(t, repeat, id, n);
    }
  }

  lemma OtherNumber(t: Target, r: nat, c: string, m: nat, n: nat)
    requires r < 10 && 1 <= m < n < 10 && ValidTarget(t) && Plain(c)
    ensures Render(t, r, c, m) != Render(t, r, c, n)
  {
    if Render(t, r, c, m) == Render(t, r, c, n) {
      RenderInjective(t, r, c, m, t, r, c, n);
    }
  }

  lemma TriedGrowsBy(tried: set<string>, t: Target, cases: seq<R.Case>, repeat: nat, index: nat, count: nat)
    requires 1 <= repeat <= 3 && index < |cases| && count <= 3 && TriedBefore(tried, t, cases, repeat, index)
    ensures TriedBefore(tried + (set key | key in CaseKeys(t, repeat, cases[index].caseId)[..count]),
                        t, cases, repeat, index + 1)
  {
    var keys := CaseKeys(t, repeat, cases[index].caseId);
    var all := tried + (set k | k in keys[..count]);
    forall key | key in all ensures TriedAt(key, t, cases, repeat, index + 1) {
      if key in tried {
        assert TriedAt(key, t, cases, repeat, index);
        var r: nat, i: nat, n: nat :|
            r <= 3 && i < |cases| && n <= 3 && (r < repeat || (r == repeat && i < index))
            && key == Render(t, r, cases[i].caseId, n);
      } else {
        var n :| 0 <= n < count && keys[n] == key;
        assert key == Render(t, repeat, cases[index].caseId, n + 1);
      }
    }
  }

  lemma NextRepeat(tried: set<string>, t: Target, cases: seq<R.Case>, repeat: nat)
    requires TriedBefore(tried, t, cases, repeat, |cases|)
    ensures TriedBefore(tried, t, cases, repeat + 1, 0)
  {
    forall key | key in tried ensures TriedAt(key, t, cases, repeat + 1, 0) {
      assert TriedAt(key, t, cases, repeat, |cases|);
      var r: nat, i: nat, n: nat :|
          r <= 3 && i < |cases| && n <= 3 && (r < repeat || (r == repeat && i < |cases|))
          && key == Render(t, r, cases[i].caseId, n);
    }
  }

  function SumCalls(records: seq<ExperimentRecord>): nat {
    if records == [] then 0 else SumCalls(records[..|records| - 1]) + records[|records| - 1].calls
  }

  /** The session between two cases of a batch. */
  ghost predicate AtCase(session: Session, cases: seq<R.Case>, repeat: nat, index: nat)
    reads session, session.ledger
  {
    && session.Valid() && session.Attempts() == [] && Batch(session.world.owns, session.target, cases)
    && TriedBefore(session.Tried(), session.target, cases, repeat, index)
  }

  /** The record of a case on disk, and its keys marked. */
  method FileRecord(session: Session, c: R.Case, keys: seq<string>, attempts: seq<LiveAttempt>,
                    record: ExperimentRecord, duplicateId: bool,
                    ghost before: set<string>, ghost tried: set<string>) returns (raised: bool)
    requires attempts != [] && Underway(session, c, keys, attempts, before, tried)
    requires record.reservationKeys == keys[..|attempts|] && record.calls == CountAttempted(session.Attempts())
    modifies session`records, session`world, session`trace, session.ledger
    ensures session.Valid() && old(session.trace) <= session.trace && session.world.owns == old(session.world.owns)
    ensures raised == duplicateId && session.ledger.states.Keys == old(session.ledger.states.Keys)
    ensures session.Tried() == tried + set key | key in keys[..|attempts|]
    ensures !raised ==> session.Attempts() == []
    ensures !raised ==>
              session.records == old(session.records) + [Record(session.target, record.reservationKeys, record.calls)]
  {
    KeysOfAttempts(attempts);
    raised := session.Persist(record.reservationKeys, record.calls, duplicateId);
  }

  /** The record tells what the attempts under its keys came to. */
  ghost predicate Honest(c: R.Case, m: Method, r: ExperimentRecord) {
    exists attempts ::
      && AttemptCount(m, attempts) && Consistent(c, attempts) && AttemptKeys(attempts) == r.reservationKeys
      && Tells(c, m, attempts, r)
  }

  /** One case of the batch: its attempts, its record, the record on disk, its keys marked. */
  method RunCase(session: Session, cases: seq<R.Case>, m: Method, repeat: nat, index: nat,
                 tooLarge: seq<bool>, answers: seq<Answer>, duplicateId: bool, binding: Binding)
    returns (record: ExperimentRecord, raised: bool)
    requires 1 <= repeat <= 3 && index < |cases| && AtCase(session, cases, repeat, index)
    requires |tooLarge| == |answers| == 3 && forall i :: 0 <= i < 3 ==> ValidAnswer(answers[i])
    modifies session, session.ledger
    ensures session.Valid() && old(session.trace) <= session.trace
    ensures raised <==> KeyLength(session.target, cases[index].caseId) > 240 || !ValidBinding(binding) || duplicateId
    ensures !raised ==>
              AtCase(session, cases, repeat, index + 1) && ValidRecord(record) && Honest(cases[index], m, record)
    ensures !raised ==> |session.ledger.states.Keys| == |old(session.ledger.states.Keys)| + record.calls
    ensures !raised ==>
              session.records == old(session.records) + [Record(session.target, record.reservationKeys, record.calls)]
  {
    var keys := KeysFor(session, cases, repeat, index);
    var attempts;
    record, attempts, raised := LiveMethodCase(session, cases[index], m, keys, tooLarge, answers, binding);
    if raised { return; }
    raised := FileRecord(session, cases[index], keys, attempts, record, duplicateId, old(session.ledger.states.Keys),
                         old(session.Tried()));
  }

  /** The keys of a case, and where trying some of them leaves the batch. */
  method KeysFor(session: Session, cases: seq<R.Case>, repeat: nat, index: nat) returns (keys: seq<string>)
    requires 1 <= repeat <= 3 && index < |cases| && AtCase(session, cases, repeat, index)
    ensures Ready(session, keys, 0) && (TooLong(keys) <==> KeyLength(session.target, cases[index].caseId) > 240)
    ensures forall count :: 0 <= count <= 3 ==>
              TriedBefore(session.Tried() + (set key | key in keys[..count]), session.target, cases, repeat, index + 1)
  {
    CaseReady(session, cases, repeat, index);
    keys := CaseKeys(session.target, repeat, cases[index].caseId);
    forall count | 0 <= count <= 3
      ensures TriedBefore(session.Tried() + (set key | key in keys[..count]), session.target, cases, repeat, index + 1)
    {
      TriedGrowsBy(session.Tried(), session.target, cases, repeat, index, count);
    }
  }

  lemma KeysOfAttempts(attempts: seq<LiveAttempt>)
    ensures Keys(AsAttempts(attempts)) == AttemptKeys(attempts)
  {
  }

  lemma SumCallsAppend(records: seq<ExperimentRecord>, r: ExperimentRecord)
    ensures SumCalls(records + [r]) == SumCalls(records) + r.calls
  {
    assert (records + [r])[..|records|] == records;
  }

  /** What the records made so far account for. */
  ghost predicate Accounted(session: Session, filed: seq<Record>, reserved: nat, records: seq<ExperimentRecord>)
    reads session, session.ledger
  {
    AccountedOf(|session.ledger.states.Keys|, session.records, filed, reserved, records)
  }

  ghost predicate AccountedOf(keys: nat, onFile: seq<Record>, filed: seq<Record>, reserved: nat,
                              records: seq<ExperimentRecord>) {
    && keys == reserved + SumCalls(records)
    && filed <= onFile && |onFile| == |filed| + |records|
    && forall i :: 0 <= i < |records| ==> ValidRecord(records[i])
  }

  lemma AccountedOneMore(keys: nat, onFile: seq<Record>, filed: seq<Record>, reserved: nat,
                         records: seq<ExperimentRecord>,
                         record: ExperimentRecord, line: Record)
    requires AccountedOf(keys, onFile, filed, reserved, records) && ValidRecord(record)
    ensures AccountedOf(keys + record.calls, onFile + [line], filed, reserved, records + [record])
  {
    SumCallsAppend(records, record);
  }

  /** What the outside world does during a batch: prompts that come out too long, provider answers,
      and record files that refuse an identifier. */
  datatype Weather = Weather(tooLarge: (nat, nat) -> seq<bool>, answers: (nat, nat) -> seq<Answer>,
                             duplicateId: (nat, nat) -> bool)

  ghost predicate ValidWeather(o: Weather) {
    forall r: nat, i: nat :: |o.tooLarge(r, i)| == |o.answers(r, i)| == 3 &&
      forall n :: 0 <= n < 3 ==> ValidAnswer(o.answers(r, i)[n])
  }

  /** The case at this position ends the batch. */
  predicate StopsAt(t: Target, cases: seq<R.Case>, o: Weather, binding: Binding, repeat: nat, index: nat)
    requires index < |cases|
  {
    KeyLength(t, cases[index].caseId) > 240 || !ValidBinding(binding) || o.duplicateId(repeat, index)
  }

  /** One position of the batch: its case run and its record counted. */
  method RunPosition(session: Session, cases: seq<R.Case>, m: Method, repeat: nat, index: nat, o: Weather,
                     binding: Binding, given: seq<ExperimentRecord>, ghost filed: seq<Record>, ghost reserved: nat)
    returns (records: seq<ExperimentRecord>, raised: bool)
    requires 1 <= repeat <= 3 && index < |cases| && ValidWeather(o)
    requires AtCase(session, cases, repeat, index) && Accounted(session, filed, reserved, given)
    modifies session, session.ledger
    ensures session.Valid() && old(session.trace) <= session.trace
    ensures raised <==> StopsAt(session.target, cases, o, binding, repeat, index)
    ensures !raised ==> AtCase(session, cases, repeat, index + 1) && Accounted(session, filed, reserved, records)
    ensures !raised ==> |records| == |given| + 1 && given <= records && Honest(cases[index], m, records[|given|])
  {
    ghost var keys, onFile := |session.ledger.states.Keys|, session.records;
    var record;
    record, raised := RunCase(session, cases, m, repeat, index, o.tooLarge(repeat, index), o.answers(repeat, index),
                              o.duplicateId(repeat, index), binding);
    records := given + [record];
    if !raised {
      AccountedOneMore(keys, onFile, filed, reserved, given, record,
                       Record(session.target, record.reservationKeys, record.calls));
    }
  }

  /** The first positions of a repeat do not end the batch. */
  ghost predicate Clear(t: Target, cases: seq<R.Case>, o: Weather, binding: Binding, repeat: nat, index: nat)
    requires index <= |cases|
  {
    forall i :: 0 <= i < index ==> !StopsAt(t, cases, o, binding, repeat, i)
  }

  /** So do whole repeats. */
  ghost predicate AllClear(t: Target, cases: seq<R.Case>, o: Weather, binding: Binding, repeats: nat) {
    forall r: nat :: 1 <= r <= repeats ==> Clear(t, cases, o, binding, r, |cases|)
  }

  lemma ClearRepeats(t: Target, cases: seq<R.Case>, o: Weather, binding: Binding, done: nat, repeats: nat)
    requires done < repeats && AllClear(t, cases, o, binding, done)
    ensures AllClear(t, cases, o, binding, done + 1) <==> Clear(t, cases, o, binding, done + 1, |cases|)
    ensures !Clear(t, cases, o, binding, done + 1, |cases|) ==> !AllClear(t, cases, o, binding, repeats)
  {
  }

  lemma ClearOneMore(t: Target, cases: seq<R.Case>, o: Weather, binding: Binding, repeat: nat, index: nat)
    requires index < |cases| && Clear(t, cases, o, binding, repeat, index)
    ensures Clear(t, cases, o, binding, repeat, index + 1) <==> !StopsAt(t, cases, o, binding, repeat, index)
    ensures StopsAt(t, cases, o, binding, repeat, index) ==> !Clear(t, cases, o, binding, repeat, |cases|)
  {
  }

  type Told = (R.Case, ExperimentRecord) -> bool

  ghost function TellingOf(m: Method): Told {
    (c: R.Case, r: ExperimentRecord) => Honest(c, m, r)
  }

  /** Whatever tells its case by the method is told. */
  ghost predicate Covers(told: Told, m: Method) {
    forall c, r :: Honest(c, m, r) ==> told(c, r)
  }

  /** The records of a repeat so far, behind those of the repeats before it, each telling its case. */
  ghost predicate Adds(told: Told, cases: seq<R.Case>, given: seq<ExperimentRecord>, records: seq<ExperimentRecord>,
                       index: nat)
    requires index <= |cases|
  {
    && |records| == |given| + index && given <= records
    && forall i :: 0 <= i < index ==> told(cases[i], records[|given| + i])
  }

  lemma AddsOneMore(told: Told, cases: seq<R.Case>, given: seq<ExperimentRecord>, records: seq<ExperimentRecord>,
                    index: nat,
                    more: seq<ExperimentRecord>)
    requires index < |cases| && Adds(told, cases, given, records, index)
    requires |more| == |records| + 1 && records <= more && told(cases[index], more[|records|])
    ensures Adds(told, cases, given, more, index + 1)
  {
  }

  method RunRepeat(session: Session, cases: seq<R.Case>, m: Method, repeat: nat, o: Weather, binding: Binding,
                   given: seq<ExperimentRecord>, ghost filed: seq<Record>, ghost reserved: nat, ghost told: Told)
    returns (records: seq<ExperimentRecord>, raised: bool)
    requires 1 <= repeat <= 3 && ValidWeather(o) && Covers(told, m)
    requires AtCase(session, cases, repeat, 0) && Accounted(session, filed, reserved, given)
    modifies session, session.ledger
    ensures session.Valid() && old(session.trace) <= session.trace
    ensures raised <==> !Clear(session.target, cases, o, binding, repeat, |cases|)
    ensures !raised ==> AtCase(session, cases, repeat + 1, 0) && Accounted(session, filed, reserved, records)
    ensures !raised ==> Adds(told, cases, given, records, |cases|)
  {
    records, raised := given, false;
    for index := 0 to |cases|
      invariant AtCase(session, cases, repeat, index) && old(session.trace) <= session.trace && !raised
      invariant Clear(session.target, cases, o, binding, repeat, index)
      invariant Accounted(session, filed, reserved, records) && Adds(told, cases, given, records, index)
    {
      ghost var before := records;
      records, raised := RunPosition(session, cases, m, repeat, index, o, binding, records, filed, reserved);
      ClearOneMore(session.target, cases, o, binding, repeat, index);
      if raised { return; }
      AddsOneMore(told, cases, given, before, index, records);
    }
    NextRepeat(session.Tried(), session.target, cases, repeat);
  }

  predicate NeedsCandidate(m: Method) {
    m.PromptCandidate? || m.SkillCandidate?
  }

  /** The batch is refused at once, or some case ends it. */
  ghost predicate BatchRaises(t: Target, cases: seq<R.Case>, m: Method, repeats: int, contentMissing: bool, o: Weather,
                              binding: Binding) {
    || repeats < 1 || repeats > 3 || (NeedsCandidate(m) && contentMissing)
    || !AllClear(t, cases, o, binding, repeats)
  }

  /** Every case of a batch, every repeat: one record each, and the ledger grows by exactly the calls
      the records count. A refused argument makes no call at all; an error on the way stops the
      batch after the steps its trace shows. */
  method RunLiveMethods(session: Session, cases: seq<R.Case>, m: Method, repeats: int, contentMissing: bool, o: Weather,
                        binding: Binding)
    returns (records: seq<ExperimentRecord>, raised: bool)
    requires ValidWeather(o) && AtCase(session, cases, 1, 0)
    modifies session, session.ledger
    ensures session.Valid() && old(session.trace) <= session.trace
    ensures raised <==> BatchRaises(session.target, cases, m, repeats, contentMissing, o, binding)
    ensures repeats < 1 || repeats > 3 ==> session.trace == old(session.trace)
    ensures !raised ==> |records| == repeats * |cases| && TellsBatch(TellingOf(m), cases, repeats, records)
    ensures !raised ==> Accounted(session, old(session.records), |old(session.ledger.states.Keys)|, records)
  {
    records, raised := [], true;
    if repeats < 1 || repeats > 3 || (NeedsCandidate(m) && contentMissing) { return; }
    records, raised := RunRepeats(session, cases, m, repeats, o, binding, TellingOf(m));
  }

  method RunRepeats(session: Session, cases: seq<R.Case>, m: Method, repeats: nat, o: Weather, binding: Binding,
                    ghost told: Told)
    returns (records: seq<ExperimentRecord>, raised: bool)
    requires ValidWeather(o) && AtCase(session, cases, 1, 0) && repeats <= 3 && Covers(told, m)
    modifies session, session.ledger
    ensures session.Valid() && old(session.trace) <= session.trace
    ensures raised <==> !AllClear(session.target, cases, o, binding, repeats)
    ensures !raised ==> Filled(told, cases, repeats, records)
    ensures !raised ==> Accounted(session, old(session.records), |old(session.ledger.states.Keys)|, records)
  {
    records, raised := [], false;
    var done: nat := 0;
    ghost var filed, reserved := session.records, |session.ledger.states.Keys|;
    assert Filled(told, cases, 0, records);
    while done < repeats
      invariant done <= repeats && !raised && MidBatch(session, cases, filed, reserved, told, done, records)
      invariant AllClear(session.target, cases, o, binding, done) && old(session.trace) <= session.trace
    {
      records, raised := RunNextRepeat(session, cases, m, done, o, binding, records, filed, reserved, told);
      ClearRepeats(session.target, cases, o, binding, done, repeats);
      if raised { return; }
      done := done + 1;
    }
  }

  /** Between two repeats. */
  ghost predicate MidBatch(session: Session, cases: seq<R.Case>, filed: seq<Record>, reserved: nat, told: Told,
                           done: nat,
                           records: seq<ExperimentRecord>)
    reads session, session.ledger
  {
    && AtCase(session, cases, done + 1, 0)
    && Accounted(session, filed, reserved, records) && Filled(told, cases, done, records)
  }

  method RunNextRepeat(session: Session, cases: seq<R.Case>, m: Method, done: nat, o: Weather, binding: Binding,
                       given: seq<ExperimentRecord>, ghost filed: seq<Record>, ghost reserved: nat, ghost told: Told)
    returns (records: seq<ExperimentRecord>, raised: bool)
    requires done < 3 && ValidWeather(o) && Covers(told, m)
             && MidBatch(session, cases, filed, reserved, told, done, given)
    modifies session, session.ledger
    ensures session.Valid() && old(session.trace) <= session.trace
    ensures raised <==> !Clear(session.target, cases, o, binding, done + 1, |cases|)
    ensures !raised ==> MidBatch(session, cases, filed, reserved, told, done + 1, records)
  {
    records, raised := RunRepeat(session, cases, m, done + 1, o, binding, given, filed, reserved, told);
    if !raised { OneRepeatMore(told, cases, done, given, records); }
  }

  ghost predicate Filled(told: Told, cases: seq<R.Case>, repeats: nat, records: seq<ExperimentRecord>) {
    |records| == repeats * |cases| && TellsBatch(told, cases, repeats, records)
  }

  /** Repeat by repeat and case by case, every record tells its own case. */
  ghost predicate TellsBatch(told: Told, cases: seq<R.Case>, repeats: nat, records: seq<ExperimentRecord>) {
    forall r: nat, i: nat :: r < repeats && i < |cases| ==> TellsAt(told, cases, records, r, i)
  }

  ghost predicate TellsAt(told: Told, cases: seq<R.Case>, records: seq<ExperimentRecord>, r: nat, i: nat)
    requires i < |cases|
  {
    r * |cases| + i < |records| && told(cases[i], records[r * |cases| + i])
  }

  lemma OneRepeatMore(told: Told, cases: seq<R.Case>, repeats: nat, given: seq<ExperimentRecord>,
                      records: seq<ExperimentRecord>)
    requires Filled(told, cases, repeats, given) && Adds(told, cases, given, records, |cases|)
    ensures Filled(told, cases, repeats + 1, records)
  {
    forall r: nat, i: nat | r < repeats + 1 && i < |cases| ensures TellsAt(told, cases, records, r, i) {
      if r < repeats { assert TellsAt(told, cases, given, r, i); }
    }
  }

  // ---- The whole command ----

  function MethodName(m: Method): string {
    match m
    case Baseline => "baseline"
    case Reflection => "reflection"
    case BestOf3 => "best-of-3"
    case PromptCandidate => "prompt-candidate"
    case SkillCandidate => "skill-candidate"
  }

  datatype Candidate = Candidate(id: string, content: string, contentDigest: string, boundaryDigest: string)

  function BindingOf(m: Method, candidate: Option<Candidate>): Binding {
    if NeedsCandidate(m) && candidate.Some? then
      Binding(Some(candidate.value.id), Some(candidate.value.contentDigest), Some(candidate.value.boundaryDigest))
    else Binding(None, None, None)
  }

  /** Everything that can end the command before its last record: its arguments, its candidate, the
      ledger file, the budget, the record file, a key that is too long, an identifier that is taken. */
  ghost predicate CommandRaises(file: seq<Entry>, filed: seq<Record>, target: Target, cases: seq<R.Case>, m: Method,
                                repeats: int,
                                candidate: Option<Candidate>, o: Weather) {
    || !ValidBatchId(target.batch)
    || (NeedsCandidate(m) && (candidate.None? || candidate.value.content == ""))
    || Fold(file).Refused? || UsedAtStart(Fold(file).states, filed) > MAX_MODEL_CALLS || HasFile(filed, target)
    || repeats < 1 || repeats > 3
    || (exists i :: 0 <= i < |cases| && KeyLength(target, cases[i].caseId) > 240)
    || (exists r, i :: 1 <= r <= repeats && 0 <= i < |cases| && o.duplicateId(r, i))
  }

  /** The live evaluation command: open, recover, run the batch. Its durable writes and provider
      calls are a run of the session machine from the state it found. */
  method EvaluateLive(file: seq<Entry>, filed: seq<Record>, target: Target, cases: seq<R.Case>, m: Method, repeats: int,
                      candidate: Option<Candidate>, o: Weather, ghost start: World)
    returns (records: seq<ExperimentRecord>, raised: bool, ghost trace: seq<Step>, ghost w: World)
    requires start.phase.Down? && start.records == filed && (Fold(file).Accepted? ==> start.ledger == Fold(file).states)
    requires target.methodName == MethodName(m) && ValidWeather(o)
    requires ValidBatchId(target.batch) ==> Batch(start.owns, target, cases)
    ensures Runs(start, trace, w)
    ensures raised <==> CommandRaises(file, filed, target, cases, m, repeats, candidate, o)
    ensures !raised ==> |records| == repeats * |cases| && forall i :: 0 <= i < |records| ==> ValidRecord(records[i])
    ensures !raised ==> TellsBatch(TellingOf(m), cases, repeats, records)
    ensures !raised ==> |w.ledger.Keys| == |start.ledger.Keys| + SumCalls(records)
  {
    records, raised, trace, w := [], true, [], start;
    if !ValidBatchId(target.batch) { return; }
    if NeedsCandidate(m) && candidate.None? { return; }
    var session, error;
    session, error, trace, w := OpenSession(file, filed, target, start);
    if session == null { return; }
    var contentMissing := candidate.None? || candidate.value.content == "";
    CommandStops(target, cases, m, repeats, contentMissing, candidate, o);
    records, raised := RunLiveMethods(session, cases, m, repeats, contentMissing, o, BindingOf(m, candidate));
    trace, w := session.trace, session.world;
  }

  /** The command binds its records properly, so only a key or an identifier can stop the batch. */
  lemma CommandStops(t: Target, cases: seq<R.Case>, m: Method, repeats: int, contentMissing: bool,
                     candidate: Option<Candidate>, o: Weather)
    ensures BatchRaises(t, cases, m, repeats, contentMissing, o, BindingOf(m, candidate)) <==>
              || repeats < 1 || repeats > 3 || (NeedsCandidate(m) && contentMissing)
              || (exists i :: 0 <= i < |cases| && KeyLength(t, cases[i].caseId) > 240)
              || (exists r, i :: 1 <= r <= repeats && 0 <= i < |cases| && o.duplicateId(r, i))
  {
    var b := BindingOf(m, candidate);
    if i :| 0 <= i < |cases| && KeyLength(t, cases[i].caseId) > 240 {
      assert StopsAt(t, cases, o, b, 1, i) && (repeats >= 1 ==> !Clear(t, cases, o, b, 1, |cases|));
    }
    if r, i :| 1 <= r <= repeats && 0 <= i < |cases| && o.duplicateId(r, i) {
      assert StopsAt(t, cases, o, b, r, i) && !Clear(t, cases, o, b, r, |cases|);
    }
  }

  /** With the longest batch and case identifiers, only the two shortest method names leave the keys
      within bounds. */
  lemma LongestNames(t: Target, m: Method, caseId: string)
    requires |t.batch| == 81 && |caseId| == 120 && t.methodName == MethodName(m)
    ensures KeyLength(t, caseId) > 240 <==> !m.Baseline? && !m.BestOf3?
  {
  }

  /** A command killed after any of its steps extends the history of the sessions before it: what
      holds of every run holds of the two together. */
  lemma KilledCommandExtendsHistory(w0: World, past: seq<Step>, start: World, trace: seq<Step>, w: World, n: nat)
    returns (v: World)
    requires Initial(w0) && Exclusive(w0.owns) && Runs(w0, past, start) && Runs(start, trace, w) && n <= |trace|
    ensures Runs(w0, past + (trace[..n] + [Crash]), v) && v.phase.Down?
    ensures |v.called| <= |v.ledger.Keys| <= 1200 + |Leaked(v)|
  {
    v := CrashAnywhere(start, trace, w, n);
    RunsConcat(w0, past, start, trace[..n] + [Crash], v);
    ProviderCallsBounded(w0, past + (trace[..n] + [Crash]), v);
  }
}
