/** Reservation keys: the text written to the ledger names batch, method, repeat, case and call,
    and no two calls share it. */
module ReservationKeys {

  /** No separator and no line break, as the patterns for batch and case identifiers have it. */
  predicate Plain(s: string) {
    ':' !in s && '\n' !in s && '\r' !in s
  }

  function Digit(n: nat): string
    requires n < 10
  {
    ["0123456789"[n]]
  }

  datatype Target = Target(methodName: string, split: string, batch: string)

  predicate ValidTarget(t: Target) {
    Plain(t.methodName) && Plain(t.batch) && 3 <= |t.batch| <= 81
  }

  predicate LowerOrDigit(c: char) {
    'a' <= c <= 'z' || '0' <= c <= '9'
  }

  /** The pattern a batch identifier must match. */
  predicate ValidBatchId(s: string) {
    3 <= |s| <= 81 && LowerOrDigit(s[0]) && forall i :: 0 <= i < |s| ==> LowerOrDigit(s[i]) || s[i] == '-'
  }

  function Render(t: Target, repeat: nat, caseId: string, number: nat): string
    requires repeat < 10 && number < 10
  {
    var call := caseId + ":" + ("call:" + Digit(number));
    t.batch + ":" + ("method:" + (t.methodName + ":" + ("repeat:" + (Digit(repeat) + ":" + ("case:" + call)))))
  }

  function KeyLength(t: Target, caseId: string): nat {
    |t.batch| + |t.methodName| + |caseId| + 30
  }

  predicate OneLine(s: string) {
    '\n' !in s && '\r' !in s
  }

  /** A key's length depends on batch, method and case alone, and it never breaks the line. */
  lemma RenderShape(t: Target, repeat: nat, caseId: string, number: nat)
    requires repeat < 10 && number < 10 && ValidTarget(t) && Plain(caseId)
    ensures |Render(t, repeat, caseId, number)| == KeyLength(t, caseId) && OneLine(Render(t, repeat, caseId, number))
  {
    LiteralsOneLine(repeat);
    LiteralsOneLine(number);
    var call := caseId + ":" + ("call:" + Digit(number));
    assert OneLine(call) && |call| == |caseId| + 7;
    var rest := Digit(repeat) + ":" + ("case:" + call);
    assert OneLine(rest) && |rest| == |caseId| + 14;
  }

  /** The text of a key, as it is written to the ledger. */
  lemma RenderText(t: Target, repeat: nat, caseId: string, number: nat)
    requires repeat < 10 && number < 10
    ensures Render(t, repeat, caseId, number) ==
            t.batch + (":method:" + (t.methodName + (":repeat:" + (Digit(repeat) +
            (":case:" + (caseId + (":call:" + Digit(number))))))))
    ensures Digit(1) == "1" && Digit(2) == "2" && Digit(3) == "3"
  {
    var call := caseId + (":call:" + Digit(number));
    Label(caseId, "call:", ":call:", Digit(number));
    var named := Digit(repeat) + (":case:" + call);
    Label(Digit(repeat), "case:", ":case:", call);
    Label(t.methodName, "repeat:", ":repeat:", named);
    Label(t.batch, "method:", ":method:", t.methodName + (":repeat:" + named));
  }

  lemma Label(a: string, word: string, marked: string, b: string)
    requires marked == ":" + word
    ensures a + ":" + (word + b) == a + (marked + b)
  {
  }

  lemma LiteralsOneLine(n: nat)
    requires n < 10
    ensures OneLine(":") && OneLine("method:") && OneLine("repeat:") && OneLine("case:") && OneLine("call:")
            && OneLine(Digit(n))
  {
    var digits := "0123456789";
    assert Digit(n) == [digits[n]];
    assert '0' <= digits[n] <= '9';
  }

  lemma SplitAtColon(a: string, x: string, b: string, y: string)
    requires Plain(a) && Plain(b)
    requires a + ":" + x == b + ":" + y
    ensures a == b && x == y
  {
    var s := a + ":" + x;
    assert s[|a|] == ':' && s[|b|] == ':';
    assert (b + ":" + y)[..|b|] == b && (a + ":" + x)[..|a|] == a;
    assert |a| == |b|;
    assert s[..|a|] == a && s[..|b|] == b;
    assert s[|a| + 1..] == x && s[|b| + 1..] == y;
  }

  lemma Cancel(p: string, x: string, y: string)
    requires p + x == p + y
    ensures x == y
  {
    assert (p + x)[|p|..] == x && (p + y)[|p|..] == y;
  }

  lemma DigitInjective(m: nat, n: nat)
    requires m < 10 && n < 10 && Digit(m) == Digit(n)
    ensures m == n
  {
    var digits := "0123456789";
    assert digits[m] == digits[n];
  }

  /** Two calls with the same key text are the same call of the same batch and method. */
  lemma RenderInjective(t: Target, r: nat, c: string, n: nat, t': Target, r': nat, c': string, n': nat)
    requires r < 10 && n < 10 && r' < 10 && n' < 10
    requires ValidTarget(t) && ValidTarget(t') && Plain(c) && Plain(c')
    requires Render(t, r, c, n) == Render(t', r', c', n')
    ensures t.batch == t'.batch && t.methodName == t'.methodName && r == r' && c == c' && n == n'
  {
    var e, e' := "call:" + Digit(n), "call:" + Digit(n');
    var d, d' := c + ":" + e, c' + ":" + e';
    var b, b' := Digit(r) + ":" + ("case:" + d), Digit(r') + ":" + ("case:" + d');
    var a, a' := t.methodName + ":" + ("repeat:" + b), t'.methodName + ":" + ("repeat:" + b');
    SplitAtColon(t.batch, "method:" + a, t'.batch, "method:" + a');
    Cancel("method:", a, a');
    SplitAtColon(t.methodName, "repeat:" + b, t'.methodName, "repeat:" + b');
    Cancel("repeat:", b, b');
    SplitAtColon(Digit(r), "case:" + d, Digit(r'), "case:" + d');
    Cancel("case:", d, d');
    SplitAtColon(c, e, c', e');
    Cancel("call:", Digit(n), Digit(n'));
    DigitInjective(r, r');
    DigitInjective(n, n');
  }

  /** Case identifiers of the dataset, each with its split. */
  type Cases = map<string, string>

  ghost predicate PlainCases(cases: Cases) {
    forall c :: c in cases ==> Plain(c)
  }

  /** The key belongs to the batch, method and split of a record file. */
  ghost predicate Owns(cases: Cases, t: Target, key: string) {
    exists r: nat, c: string, n: nat ::
      1 <= r <= 3 && 1 <= n <= 3 && c in cases && cases[c] == t.split && key == Render(t, r, c, n)
  }

  lemma OwnerUnique(cases: Cases, t: Target, t': Target, key: string)
    requires PlainCases(cases) && ValidTarget(t) && ValidTarget(t')
    requires Owns(cases, t, key) && Owns(cases, t', key)
    ensures t == t'
  {
    var r: nat, c: string, n: nat :|
      1 <= r <= 3 && 1 <= n <= 3 && c in cases && cases[c] == t.split && key == Render(t, r, c, n);
    var r': nat, c': string, n': nat :|
      1 <= r' <= 3 && 1 <= n' <= 3 && c' in cases && cases[c'] == t'.split && key == Render(t', r', c', n');
    RenderInjective(t, r, c, n, t', r', c', n');
  }

  type Ownership = (Target, string) -> bool

  /** No key belongs to two record files. */
  ghost predicate Exclusive(owns: Ownership) {
    forall t, t', key :: ValidTarget(t) && ValidTarget(t') && owns(t, key) && owns(t', key) ==> t == t'
  }

  /** The ownership the rendered keys induce is exclusive. */
  lemma RenderedKeysExclusive(cases: Cases)
    requires PlainCases(cases)
    ensures Exclusive((t, key) => Owns(cases, t, key))
  {
    forall t, t', key | ValidTarget(t) && ValidTarget(t') && Owns(cases, t, key) && Owns(cases, t', key)
      ensures t == t'
    {
      OwnerUnique(cases, t, t', key);
    }
  }
}

/** Live sessions over one ledger and one set of record files: opened, recovered, run, killed
    between any two durable writes, and opened again. One step is at most one durable write. */
module Sessions {
  import opened Ledger
  import opened ReservationKeys

  const MAX_MODEL_CALLS: nat := 1200

  datatype Record = Record(target: Target, keys: seq<string>, calls: nat)

  datatype Attempt = Attempt(key: string, attempted: bool)

  /** The state of a running session. `tried` and `missed` are history: the keys this session
      has attempted, and by how much `used` fell short of the reserved keys when it started. */
  datatype Live = Live(target: Target, used: nat, strikes: nat, blocked: bool,
                       attempts: seq<Attempt>, tried: set<string>, missed: nat)

  datatype Phase =
    | Down
    | Reconciling(target: Target)
    | Matching(target: Target)
    | Idle(live: Live)
    | Holding(live: Live, key: string)
    | Calling(live: Live, key: string)
    | Sinking(live: Live, todo: set<string>)

  /** `ledger` and `records` are durable, `phase` is not. `counted` (keys some record's `calls`
      counts), `called` (keys the provider was called for) and `reused` (keys a record lists that an
      earlier session had reserved) are history. */
  datatype World = World(owns: Ownership, ledger: States, records: seq<Record>, phase: Phase,
                         counted: set<string>, called: seq<string>, reused: set<string>)

  datatype Step =
    | Open(target: Target)
    | Reconcile(key: string)
    | Reconciled
    | Match(key: string)
    | Start
    | Decline(key: string, tooLarge: bool)
    | Reserve(key: string)
    | Call
    | Finish(state: State, blocking: bool)
    | Persist
    | Mark(key: string)
    | Sunk
    | Crash

  // ---- Quantities ----

  function OpenKeys(ledger: States): set<string> {
    set key | key in ledger && ledger[key].state != Recorded
  }

  function DoneKeys(ledger: States): set<string> {
    set key | key in ledger && ledger[key].state == Recorded
  }

  function Calls(records: seq<Record>): nat {
    if records == [] then 0 else Calls(records[..|records| - 1]) + records[|records| - 1].calls
  }

  /** Listed by a record that counts at least one call: what recovery matches. */
  ghost predicate Wanted(records: seq<Record>, key: string) {
    exists i :: 0 <= i < |records| && records[i].calls > 0 && key in records[i].keys
  }

  ghost predicate Listed(records: seq<Record>, key: string) {
    exists i :: 0 <= i < |records| && key in records[i].keys
  }

  ghost predicate HasFile(records: seq<Record>, t: Target) {
    exists i :: 0 <= i < |records| && records[i].target == t
  }

  function Keys(attempts: seq<Attempt>): seq<string> {
    seq(|attempts|, i requires 0 <= i < |attempts| => attempts[i].key)
  }

  function Attempted(attempts: seq<Attempt>): set<string> {
    set i | 0 <= i < |attempts| && attempts[i].attempted :: attempts[i].key
  }

  /** Keys of declined attempts that were already reserved, by an earlier session. */
  function Reused(ledger: States, attempts: seq<Attempt>): set<string> {
    set i | 0 <= i < |attempts| && !attempts[i].attempted && attempts[i].key in ledger :: attempts[i].key
  }

  function CountAttempted(attempts: seq<Attempt>): nat {
    if attempts == [] then 0
    else CountAttempted(attempts[..|attempts| - 1]) + if attempts[|attempts| - 1].attempted then 1 else 0
  }

  /** Keys recorded in the ledger that no record counts as a call. */
  function LeakedKeys(ledger: States, counted: set<string>): set<string> {
    DoneKeys(ledger) - counted
  }

  function Leaked(w: World): set<string> {
    LeakedKeys(w.ledger, w.counted)
  }

  // ---- Steps ----

  ghost predicate Matchable(w: World, key: string) {
    key in w.ledger && Terminal(w.ledger[key].state) && Wanted(w.records, key)
  }

  ghost predicate Enabled(w: World, s: Step) {
    match s
    case Open(t) => w.phase.Down? && ValidTarget(t)
    case Reconcile(key) => w.phase.Reconciling? && key in w.ledger && w.ledger[key].state == Reserved
    case Reconciled => w.phase.Reconciling? && NoneReserved(w.ledger)
    case Match(key) => w.phase.Matching? && Matchable(w, key)
    case Start => w.phase.Matching? && forall key :: key in w.ledger ==> !Matchable(w, key)
    case Decline(key, tooLarge) =>
      && w.phase.Idle?
      && var l := w.phase.live;
      && w.owns(l.target, key) && key !in l.tried
      && (tooLarge || l.blocked || l.used >= MAX_MODEL_CALLS || key in w.ledger)
    case Reserve(key) =>
      && w.phase.Idle?
      && var l := w.phase.live;
      && w.owns(l.target, key) && key !in l.tried
      && !l.blocked && l.used < MAX_MODEL_CALLS && key !in w.ledger
    case Call => w.phase.Holding?
    case Finish(state, _) => w.phase.Calling? && Terminal(state) && w.phase.key in w.ledger
    case Persist => w.phase.Idle? && w.phase.live.attempts != []
    case Mark(key) => w.phase.Sinking? && key in w.phase.todo && key in w.ledger && Terminal(w.ledger[key].state)
    case Sunk =>
      && w.phase.Sinking?
      && forall key :: key in w.phase.todo && key in w.ledger ==> !Terminal(w.ledger[key].state)
    case Crash => true
  }

  function Set(ledger: States, key: string, state: State): States
    requires key in ledger
  {
    ledger[key := ledger[key].(state := state)]
  }

  ghost function Next(w: World, s: Step): World
    requires Enabled(w, s)
  {
    match s
    case Open(t) => w.(phase := Reconciling(t))
    case Reconcile(key) => w.(ledger := Set(w.ledger, key, Unknown))
    case Reconciled => w.(phase := Matching(w.phase.target))
    case Match(key) => w.(ledger := Set(w.ledger, key, Recorded))
    case Start =>
      var used := Calls(w.records) + |OpenKeys(w.ledger)|;
      if used > MAX_MODEL_CALLS || HasFile(w.records, w.phase.target) then w.(phase := Down)
      else w.(phase := Idle(Live(w.phase.target, used, 0, false, [], {}, |Leaked(w)|)))
    case Decline(key, _) =>
      var l := w.phase.live;
      w.(phase := Idle(l.(attempts := l.attempts + [Attempt(key, false)], tried := l.tried + {key})))
    case Reserve(key) =>
      var l := w.phase.live;
      w.(ledger := w.ledger[key := Slot(l.target.batch, Reserved)],
         phase := Holding(l.(used := l.used + 1, tried := l.tried + {key}), key))
    case Call => w.(phase := Calling(w.phase.live, w.phase.key), called := w.called + [w.phase.key])
    case Finish(state, blocking) =>
      var l := w.phase.live;
      var strikes := if blocking then l.strikes + 1 else 0;
      w.(ledger := Set(w.ledger, w.phase.key, state),
         phase := Idle(l.(strikes := strikes, blocked := l.blocked || strikes >= 3,
                          attempts := l.attempts + [Attempt(w.phase.key, true)])))
    case Persist =>
      var l := w.phase.live;
      w.(records := w.records + [Record(l.target, Keys(l.attempts), CountAttempted(l.attempts))],
         counted := w.counted + Attempted(l.attempts), reused := w.reused + Reused(w.ledger, l.attempts),
         phase := Sinking(l.(attempts := []), set key | key in Keys(l.attempts)))
    case Mark(key) => w.(ledger := Set(w.ledger, key, Recorded))
    case Sunk => w.(phase := Idle(w.phase.live))
    case Crash => w.(phase := Down)
  }

  ghost predicate Runs(w: World, steps: seq<Step>, w': World)
    decreases |steps|
  {
    if steps == [] then w' == w
    else Enabled(w, steps[0]) && Runs(Next(w, steps[0]), steps[1..], w')
  }

  // ---- The invariant ----

  ghost predicate RecordsOwned(owns: Ownership, records: seq<Record>) {
    forall i, key :: 0 <= i < |records| && key in records[i].keys ==>
         ValidTarget(records[i].target) && owns(records[i].target, key)
  }

  ghost predicate CountsExact(ledger: States, records: seq<Record>, counted: set<string>) {
    && Calls(records) == |counted|
    && forall key :: key in counted ==>
         key in ledger && ledger[key].state != Reserved && Wanted(records, key)
  }

  ghost predicate DoneListed(ledger: States, records: seq<Record>) {
    forall key :: key in DoneKeys(ledger) ==> Listed(records, key)
  }

  ghost predicate CalledOnce(ledger: States, called: seq<string>) {
    && (forall i, j :: 0 <= i < j < |called| ==> called[i] != called[j])
    && (forall key :: key in called ==> key in ledger)
  }

  ghost predicate WithinBudget(ledger: States, counted: set<string>) {
    |ledger.Keys| <= MAX_MODEL_CALLS + |LeakedKeys(ledger, counted)|
  }

  /** `used` counts every key ever reserved but for those leaked before the session started, and
      three blocking failures in a row are exactly what closes the breaker. */
  ghost predicate MeterOk(ledger: States, counted: set<string>, l: Live) {
    && ValidTarget(l.target)
    && l.used <= MAX_MODEL_CALLS
    && l.used + l.missed == |ledger.Keys|
    && l.missed <= |LeakedKeys(ledger, counted)|
    && l.strikes <= 3 && (l.blocked <==> l.strikes == 3)
  }

  /** Keys this session tried, those it already wrote records for among them. */
  ghost predicate TriedOk(owns: Ownership, records: seq<Record>, l: Live) {
    && (forall key :: key in l.tried ==> owns(l.target, key))
    && (forall i, key :: 0 <= i < |records| && records[i].target == l.target && key in records[i].keys ==>
          key in l.tried)
  }

  ghost predicate AttemptsOk(ledger: States, counted: set<string>, l: Live) {
    && (forall i :: 0 <= i < |l.attempts| ==> l.attempts[i].key in l.tried)
    && (forall i, j :: 0 <= i < j < |l.attempts| ==> l.attempts[i].key != l.attempts[j].key)
    && (forall key :: key in Attempted(l.attempts) ==>
          key in ledger && Terminal(ledger[key].state) && key !in counted)
  }

  ghost predicate LiveOk(w: World, l: Live) {
    MeterOk(w.ledger, w.counted, l) && TriedOk(w.owns, w.records, l) && AttemptsOk(w.ledger, w.counted, l)
  }

  ghost predicate Held(ledger: States, l: Live, key: string) {
    && key in ledger && ledger[key].state == Reserved && !l.blocked
    && key in l.tried && forall i :: 0 <= i < |l.attempts| ==> l.attempts[i].key != key
  }

  ghost predicate NoneReserved(ledger: States) {
    forall key :: key in ledger ==> ledger[key].state != Reserved
  }

  predicate HasLive(p: Phase) {
    p.Idle? || p.Holding? || p.Calling? || p.Sinking?
  }

  ghost predicate PhaseOk(w: World) {
    && (w.phase.Reconciling? || w.phase.Matching? ==> ValidTarget(w.phase.target))
    && (w.phase.Matching? ==> NoneReserved(w.ledger))
    && (HasLive(w.phase) ==> LiveOk(w, w.phase.live))
    && (w.phase.Holding? || w.phase.Calling? ==> Held(w.ledger, w.phase.live, w.phase.key))
    && (w.phase.Holding? ==> w.phase.key !in w.called)
    && (w.phase.Sinking? ==>
          w.phase.live.attempts == [] && forall key :: key in w.phase.todo ==> Listed(w.records, key))
  }

  ghost predicate Inv(w: World) {
    && RecordsOwned(w.owns, w.records)
    && CountsExact(w.ledger, w.records, w.counted)
    && DoneListed(w.ledger, w.records)
    && CalledOnce(w.ledger, w.called)
    && WithinBudget(w.ledger, w.counted)
    && PhaseOk(w)
  }

  ghost predicate Initial(w: World) {
    w.ledger == map[] && w.records == [] && w.phase.Down? && w.counted == {} && w.called == [] && w.reused == {}
  }

  // ---- Counting ----

  lemma Partition(ledger: States)
    ensures |DoneKeys(ledger)| + |OpenKeys(ledger)| == |ledger.Keys|
  {
    assert ledger.Keys == DoneKeys(ledger) + OpenKeys(ledger);
    assert DoneKeys(ledger) !! OpenKeys(ledger);
  }

  lemma CallsAppend(records: seq<Record>, r: Record)
    ensures Calls(records + [r]) == Calls(records) + r.calls
  {
    assert (records + [r])[..|records|] == records;
  }

  lemma WantedAppend(records: seq<Record>, r: Record, key: string)
    ensures Wanted(records + [r], key) <==> Wanted(records, key) || (r.calls > 0 && key in r.keys)
  {
    var all := records + [r];
    assert all[|records|] == r;
    if Wanted(records, key) {
      var i :| 0 <= i < |records| && records[i].calls > 0 && key in records[i].keys;
      assert all[i] == records[i];
    }
  }

  lemma ListedAppend(records: seq<Record>, r: Record, key: string)
    ensures Listed(records + [r], key) <==> Listed(records, key) || key in r.keys
  {
    var all := records + [r];
    assert all[|records|] == r;
    if Listed(records, key) {
      var i :| 0 <= i < |records| && key in records[i].keys;
      assert all[i] == records[i];
    }
  }

  /** With distinct keys, counting attempts is counting keys. */
  lemma {:induction false} CountIsCardinality(attempts: seq<Attempt>)
    requires forall i, j :: 0 <= i < j < |attempts| ==> attempts[i].key != attempts[j].key
    ensures CountAttempted(attempts) == |Attempted(attempts)|
  {
    if attempts != [] {
      var front, last := attempts[..|attempts| - 1], attempts[|attempts| - 1];
      CountIsCardinality(front);
      AttemptedAppend(front, last);
      assert attempts == front + [last];
      NotAttempted(front, last.key);
    }
  }

  lemma NotAttempted(attempts: seq<Attempt>, key: string)
    requires forall i :: 0 <= i < |attempts| ==> attempts[i].key != key
    ensures key !in Attempted(attempts) && |Attempted(attempts) + {key}| == |Attempted(attempts)| + 1
  {
  }

  lemma AttemptedAppend(attempts: seq<Attempt>, a: Attempt)
    ensures Attempted(attempts + [a]) == Attempted(attempts) + if a.attempted then {a.key} else {}
  {
    var all := attempts + [a];
    assert all[|attempts|] == a;
    forall key | key in Attempted(attempts) ensures key in Attempted(all) {
      var i :| 0 <= i < |attempts| && attempts[i].attempted && attempts[i].key == key;
      assert all[i] == attempts[i];
    }
  }

  lemma {:induction false} DistinctWithin(keys: seq<string>, universe: set<string>)
    requires forall i, j :: 0 <= i < j < |keys| ==> keys[i] != keys[j]
    requires forall key :: key in keys ==> key in universe
    ensures |keys| <= |universe|
  {
    if keys != [] {
      var last := keys[|keys| - 1];
      DistinctWithin(keys[..|keys| - 1], universe - {last});
    }
  }

  lemma SubsetSize(a: set<string>, b: set<string>)
    requires a <= b
    ensures |a| <= |b|
  {
    assert b == a + (b - a);
  }

  // ---- Every step keeps the invariant ----

  lemma SetKeys(ledger: States, key: string, state: State)
    requires key in ledger && ledger[key].state != Recorded
    ensures Set(ledger, key, state).Keys == ledger.Keys
    ensures DoneKeys(Set(ledger, key, state)) == DoneKeys(ledger) + if state.Recorded? then {key} else {}
  {
  }

  lemma SetKeepsExact(ledger: States, records: seq<Record>, counted: set<string>, key: string, state: State)
    requires CountsExact(ledger, records, counted) && key in ledger && !state.Reserved?
    ensures CountsExact(Set(ledger, key, state), records, counted)
  {
  }

  lemma SetKeepsCalled(ledger: States, called: seq<string>, key: string, state: State)
    requires CalledOnce(ledger, called) && key in ledger
    ensures CalledOnce(Set(ledger, key, state), called)
  {
  }

  /** A reserved key finalized, by recovery or after its call. */
  lemma FinalizeLedger(ledger: States, records: seq<Record>, counted: set<string>, called: seq<string>, key: string,
                       state: State)
    requires CountsExact(ledger, records, counted) && DoneListed(ledger, records)
    requires CalledOnce(ledger, called) && WithinBudget(ledger, counted)
    requires key in ledger && ledger[key].state == Reserved && Terminal(state)
    ensures var ledger' := Set(ledger, key, state);
            && ledger'.Keys == ledger.Keys && DoneKeys(ledger') == DoneKeys(ledger)
            && CountsExact(ledger', records, counted) && DoneListed(ledger', records)
            && CalledOnce(ledger', called) && WithinBudget(ledger', counted)
  {
    SetKeys(ledger, key, state);
    SetKeepsExact(ledger, records, counted, key, state);
    SetKeepsCalled(ledger, called, key, state);
  }

  /** A finalized key marked, by recovery or after its record was appended. */
  lemma RecordLedger(ledger: States, records: seq<Record>, counted: set<string>, called: seq<string>, key: string)
    requires CountsExact(ledger, records, counted) && DoneListed(ledger, records)
    requires CalledOnce(ledger, called) && WithinBudget(ledger, counted)
    requires key in ledger && Terminal(ledger[key].state) && Listed(records, key)
    ensures var ledger' := Set(ledger, key, Recorded);
            && ledger'.Keys == ledger.Keys && DoneKeys(ledger') == DoneKeys(ledger) + {key}
            && |LeakedKeys(ledger, counted)| <= |LeakedKeys(ledger', counted)|
            && CountsExact(ledger', records, counted) && DoneListed(ledger', records)
            && CalledOnce(ledger', called) && WithinBudget(ledger', counted)
  {
    SetKeys(ledger, key, Recorded);
    SetKeepsExact(ledger, records, counted, key, Recorded);
    SetKeepsCalled(ledger, called, key, Recorded);
    SubsetSize(LeakedKeys(ledger, counted), LeakedKeys(Set(ledger, key, Recorded), counted));
  }

  lemma MatchKeepsInv(w: World, key: string)
    requires Inv(w) && Enabled(w, Match(key))
    ensures Inv(Next(w, Match(key)))
  {
    var i :| 0 <= i < |w.records| && w.records[i].calls > 0 && key in w.records[i].keys;
    RecordLedger(w.ledger, w.records, w.counted, w.called, key);
  }

  lemma MarkKeepsInv(w: World, key: string)
    requires Inv(w) && Enabled(w, Mark(key))
    ensures Inv(Next(w, Mark(key)))
  {
    RecordLedger(w.ledger, w.records, w.counted, w.called, key);
    var w' := Next(w, Mark(key));
    assert MeterOk(w'.ledger, w.counted, w.phase.live);
  }

  /** What recovery establishes: nothing reserved, every finalized key of a counted record marked. */
  ghost predicate Recovered(w: World) {
    NoneReserved(w.ledger) && forall key :: key in w.ledger ==> !Matchable(w, key)
  }

  /** The conservation law. After recovery every key ever reserved is in exactly one of three
      places: counted by a record, open in the ledger, or leaked. */
  lemma Conservation(w: World)
    requires Inv(w) && Recovered(w)
    ensures Calls(w.records) + |OpenKeys(w.ledger)| + |Leaked(w)| == |w.ledger.Keys|
  {
    Partition(w.ledger);
    forall key | key in w.counted ensures key in DoneKeys(w.ledger) {
      assert !Matchable(w, key);
    }
    DifferenceSize(DoneKeys(w.ledger), w.counted);
  }

  lemma DifferenceSize(done: set<string>, counted: set<string>)
    requires counted <= done
    ensures |counted| + |done - counted| == |done|
  {
    assert done == counted + (done - counted);
  }

  lemma StartTried(owns: Ownership, records: seq<Record>, l: Live)
    requires !HasFile(records, l.target) && l.tried == {}
    ensures TriedOk(owns, records, l)
  {
  }

  lemma StartKeepsInv(w: World)
    requires Inv(w) && Enabled(w, Start)
    ensures Inv(Next(w, Start))
  {
    Conservation(w);
    var used := Calls(w.records) + |OpenKeys(w.ledger)|;
    if used > MAX_MODEL_CALLS || HasFile(w.records, w.phase.target) {
      PhaseChangeKeepsInv(w, Down);
    } else {
      var l := Live(w.phase.target, used, 0, false, [], {}, |Leaked(w)|);
      StartTried(w.owns, w.records, l);
      NoAttempts(w.ledger, w.counted, l);
      PhaseChangeKeepsInv(w, Idle(l));
    }
  }

  lemma PhaseChangeKeepsInv(w: World, phase: Phase)
    requires Inv(w) && PhaseOk(w.(phase := phase))
    ensures Inv(w.(phase := phase))
  {
  }

  /** One more attempt: a key not attempted before, and finalized in the ledger if it was called. */
  lemma AttemptsGrow(ledger: States, counted: set<string>, l: Live, l': Live, a: Attempt)
    requires AttemptsOk(ledger, counted, l)
    requires l'.attempts == l.attempts + [a] && l.tried <= l'.tried && a.key in l'.tried
    requires forall i :: 0 <= i < |l.attempts| ==> l.attempts[i].key != a.key
    requires a.attempted ==> a.key in ledger && Terminal(ledger[a.key].state) && a.key !in counted
    ensures AttemptsOk(ledger, counted, l')
  {
    AttemptedAppend(l.attempts, a);
    forall i | 0 <= i < |l'.attempts|
      ensures l'.attempts[i].key in l'.tried
      ensures forall j :: 0 <= j < i ==> l'.attempts[j].key != l'.attempts[i].key
    {
      if i < |l.attempts| {
        assert l'.attempts[i] == l.attempts[i] && forall j :: 0 <= j < i ==> l'.attempts[j] == l.attempts[j];
      } else {
        assert l'.attempts[i] == a && forall j :: 0 <= j < i ==> l'.attempts[j] == l.attempts[j];
      }
    }
  }

  /** A ledger that keeps every finalized key as it is keeps the attempts sound. */
  lemma AttemptsKeep(ledger: States, ledger': States, counted: set<string>, l: Live)
    requires AttemptsOk(ledger, counted, l)
    requires forall key :: key in ledger && Terminal(ledger[key].state) ==>
               key in ledger' && ledger'[key] == ledger[key]
    ensures AttemptsOk(ledger', counted, l)
  {
  }

  lemma DeclineKeepsInv(w: World, key: string, tooLarge: bool)
    requires Inv(w) && Enabled(w, Decline(key, tooLarge))
    ensures Inv(Next(w, Decline(key, tooLarge)))
  {
    var l, w' := w.phase.live, Next(w, Decline(key, tooLarge));
    AttemptsGrow(w.ledger, w.counted, l, w'.phase.live, Attempt(key, false));
    TriedGrows(w.owns, w.records, l, w'.phase.live, key);
  }

  lemma TriedGrows(owns: Ownership, records: seq<Record>, l: Live, l': Live, key: string)
    requires TriedOk(owns, records, l) && owns(l.target, key)
    requires l'.target == l.target && l'.tried == l.tried + {key}
    ensures TriedOk(owns, records, l')
  {
  }

  lemma ReserveLedger(ledger: States, records: seq<Record>, counted: set<string>, called: seq<string>, l: Live,
                      key: string)
    requires CountsExact(ledger, records, counted) && DoneListed(ledger, records)
    requires CalledOnce(ledger, called) && MeterOk(ledger, counted, l)
    requires key !in ledger && l.used < MAX_MODEL_CALLS
    ensures var ledger' := ledger[key := Slot(l.target.batch, Reserved)];
            && |ledger'.Keys| == |ledger.Keys| + 1 && DoneKeys(ledger') == DoneKeys(ledger)
            && CountsExact(ledger', records, counted) && DoneListed(ledger', records)
            && CalledOnce(ledger', called) && WithinBudget(ledger', counted)
  {
    var ledger' := ledger[key := Slot(l.target.batch, Reserved)];
    assert ledger'.Keys == ledger.Keys + {key};
    assert DoneKeys(ledger') == DoneKeys(ledger);
  }

  lemma ReserveKeepsInv(w: World, key: string)
    requires Inv(w) && Enabled(w, Reserve(key))
    ensures Inv(Next(w, Reserve(key)))
  {
    var l, w' := w.phase.live, Next(w, Reserve(key));
    ReserveLedger(w.ledger, w.records, w.counted, w.called, l, key);
    TriedGrows(w.owns, w.records, l, w'.phase.live, key);
    AttemptsKeep(w.ledger, w'.ledger, w.counted, l);
  }

  lemma FinishKeepsInv(w: World, state: State, blocking: bool)
    requires Inv(w) && Enabled(w, Finish(state, blocking))
    ensures Inv(Next(w, Finish(state, blocking)))
  {
    var l, key, w' := w.phase.live, w.phase.key, Next(w, Finish(state, blocking));
    FinalizeLedger(w.ledger, w.records, w.counted, w.called, key, state);
    AttemptsKeep(w.ledger, w'.ledger, w.counted, l);
    AttemptsGrow(w'.ledger, w.counted, l, w'.phase.live, Attempt(key, true));
    assert TriedOk(w.owns, w.records, w'.phase.live) by {
      assert TriedOk(w.owns, w.records, l);
    }
  }

  /** The record of a case: its calls are the keys attempted, counted for the first time. */
  lemma PersistCounts(ledger: States, records: seq<Record>, counted: set<string>, l: Live)
    requires CountsExact(ledger, records, counted) && AttemptsOk(ledger, counted, l)
    ensures var r := Record(l.target, Keys(l.attempts), CountAttempted(l.attempts));
            CountsExact(ledger, records + [r], counted + Attempted(l.attempts))
  {
    var r := Record(l.target, Keys(l.attempts), CountAttempted(l.attempts));
    CallsAppend(records, r);
    CountIsCardinality(l.attempts);
    assert Attempted(l.attempts) !! counted;
    forall key | key in counted + Attempted(l.attempts)
      ensures key in ledger && ledger[key].state != Reserved && Wanted(records + [r], key)
    {
      WantedAppend(records, r, key);
      if key in Attempted(l.attempts) {
        var i :| 0 <= i < |l.attempts| && l.attempts[i].attempted && l.attempts[i].key == key;
        assert r.keys[i] == key;
      }
    }
  }

  lemma PersistOwners(owns: Ownership, records: seq<Record>, ledger: States, counted: set<string>, l: Live, l': Live)
    requires RecordsOwned(owns, records) && TriedOk(owns, records, l) && AttemptsOk(ledger, counted, l)
    requires ValidTarget(l.target) && l'.target == l.target && l'.tried == l.tried
    ensures var records' := records + [Record(l.target, Keys(l.attempts), CountAttempted(l.attempts))];
            RecordsOwned(owns, records') && TriedOk(owns, records', l')
  {
    var records' := records + [Record(l.target, Keys(l.attempts), CountAttempted(l.attempts))];
    forall i, key | 0 <= i < |records'| && key in records'[i].keys
      ensures ValidTarget(records'[i].target) && owns(records'[i].target, key)
      ensures records'[i].target == l.target ==> key in l.tried
    {
      if i == |records| {
        var j :| 0 <= j < |l.attempts| && l.attempts[j].key == key;
      } else {
        assert records'[i] == records[i];
      }
    }
  }

  lemma PersistLeaksNothing(ledger: States, counted: set<string>, l: Live)
    requires AttemptsOk(ledger, counted, l)
    ensures LeakedKeys(ledger, counted + Attempted(l.attempts)) == LeakedKeys(ledger, counted)
  {
    forall key | key in DoneKeys(ledger) ensures key !in Attempted(l.attempts) {
    }
  }

  lemma ListedGrows(ledger: States, records: seq<Record>, r: Record)
    requires DoneListed(ledger, records)
    ensures DoneListed(ledger, records + [r])
    ensures forall key :: key in r.keys ==> Listed(records + [r], key)
  {
    forall key ensures Listed(records + [r], key) <==> Listed(records, key) || key in r.keys {
      ListedAppend(records, r, key);
    }
  }

  lemma NoAttempts(ledger: States, counted: set<string>, l: Live)
    requires l.attempts == []
    ensures AttemptsOk(ledger, counted, l)
  {
  }

  lemma PersistKeepsInv(w: World)
    requires Inv(w) && Enabled(w, Persist)
    ensures Inv(Next(w, Persist))
  {
    var l, w' := w.phase.live, Next(w, Persist);
    var r := Record(l.target, Keys(l.attempts), CountAttempted(l.attempts));
    PersistCounts(w.ledger, w.records, w.counted, l);
    PersistOwners(w.owns, w.records, w.ledger, w.counted, l, w'.phase.live);
    ListedGrows(w.ledger, w.records, r);
    PersistLeaksNothing(w.ledger, w.counted, l);
    NoAttempts(w'.ledger, w'.counted, w'.phase.live);
  }

  lemma QuietKeepsInv(w: World, s: Step)
    requires Inv(w) && Enabled(w, s)
    requires s.Open? || s.Reconciled? || s.Sunk? || s.Crash?
    ensures Inv(Next(w, s))
  {
  }

  lemma CallKeepsInv(w: World)
    requires Inv(w) && Enabled(w, Call)
    ensures Inv(Next(w, Call))
  {
  }

  lemma ReconcileKeepsInv(w: World, key: string)
    requires Inv(w) && Enabled(w, Reconcile(key))
    ensures Inv(Next(w, Reconcile(key)))
  {
    FinalizeLedger(w.ledger, w.records, w.counted, w.called, key, Unknown);
  }

  lemma StepKeepsInv(w: World, s: Step)
    requires Inv(w) && Enabled(w, s)
    ensures Inv(Next(w, s))
  {
    match s
    case Reconcile(key) => ReconcileKeepsInv(w, key);
    case Match(key) => MatchKeepsInv(w, key);
    case Start => StartKeepsInv(w);
    case Decline(key, tooLarge) => DeclineKeepsInv(w, key, tooLarge);
    case Reserve(key) => ReserveKeepsInv(w, key);
    case Finish(state, blocking) => FinishKeepsInv(w, state, blocking);
    case Persist => PersistKeepsInv(w);
    case Mark(key) => MarkKeepsInv(w, key);
    case Call => CallKeepsInv(w);
    case _ => QuietKeepsInv(w, s);
  }

  /** Every run, however often it was killed and reopened, keeps the invariant. */
  lemma {:induction false} RunKeepsInv(w: World, steps: seq<Step>, w': World)
    requires Inv(w) && Runs(w, steps, w')
    ensures Inv(w')
    decreases |steps|
  {
    if steps != [] {
      StepKeepsInv(w, steps[0]);
      RunKeepsInv(Next(w, steps[0]), steps[1..], w');
    }
  }

  // ---- What follows for every run ----

  /** Provider calls never repeat a key, so they number at most the keys reserved; the budget
      bounds those by 1,200 and the leaked keys. While a session runs, `used` and the keys leaked
      before it make up the keys reserved. */
  lemma ProviderCallsBounded(w: World, steps: seq<Step>, w': World)
    requires Initial(w) && Runs(w, steps, w')
    ensures |w'.called| <= |w'.ledger.Keys| <= 1200 + |Leaked(w')|
    ensures HasLive(w'.phase) ==> w'.phase.live.used + w'.phase.live.missed == |w'.ledger.Keys|
    ensures Recovered(w') ==> Calls(w'.records) + |OpenKeys(w'.ledger)| + |Leaked(w')| == |w'.ledger.Keys|
  {
    InitialInv(w);
    RunKeepsInv(w, steps, w');
    DistinctWithin(w'.called, w'.ledger.Keys);
    if Recovered(w') {
      Conservation(w');
    }
  }

  lemma InitialInv(w: World)
    requires Initial(w)
    ensures Inv(w)
  {
    assert w.ledger.Keys == {};
  }

  // ---- Runs that reuse no key ----

  /** No attempt ever meets a key that is already in the ledger. */
  ghost predicate NoReuse(w: World, steps: seq<Step>)
    decreases |steps|
  {
    steps != [] ==>
      && Enabled(w, steps[0])
      && (steps[0].Decline? ==> steps[0].key !in w.ledger)
      && NoReuse(Next(w, steps[0]), steps[1..])
  }

  /** Whenever a session starts, the ledger holds no key of its record file. A caller can test
      this before the session makes its first call. */
  ghost predicate FreshStarts(w: World, steps: seq<Step>)
    decreases |steps|
  {
    steps != [] ==>
      && Enabled(w, steps[0])
      && (steps[0].Start? ==> forall key :: key in w.ledger ==> !w.owns(w.phase.target, key))
      && FreshStarts(Next(w, steps[0]), steps[1..])
  }

  /** Every listed key that was ever reserved is counted, and no declined attempt waits for a
      record with a key that was. */
  ghost predicate Tight(w: World) {
    && (forall key :: key in w.ledger && Listed(w.records, key) ==> key in w.counted)
    && (HasLive(w.phase) ==> DeclinedUnreserved(w.ledger, w.phase.live))
  }

  ghost predicate DeclinedUnreserved(ledger: States, l: Live) {
    forall i :: 0 <= i < |l.attempts| && !l.attempts[i].attempted ==> l.attempts[i].key !in ledger
  }

  lemma TightLeaksNothing(w: World)
    requires Inv(w) && Tight(w)
    ensures Leaked(w) == {}
  {
    forall key | key in DoneKeys(w.ledger) ensures key in w.counted {
      assert Listed(w.records, key);
    }
  }

  lemma UnownedUnlisted(owns: Ownership, records: seq<Record>, l: Live, key: string)
    requires Exclusive(owns) && RecordsOwned(owns, records) && TriedOk(owns, records, l) && ValidTarget(l.target)
    requires owns(l.target, key) && key !in l.tried
    ensures !Listed(records, key)
  {
  }

  /** A key this session has not tried is in no record: it could only be in the session's own file. */
  lemma UntriedUnlisted(w: World, key: string)
    requires Inv(w) && Exclusive(w.owns) && HasLive(w.phase)
    requires w.owns(w.phase.live.target, key) && key !in w.phase.live.tried
    ensures !Listed(w.records, key)
  {
    UnownedUnlisted(w.owns, w.records, w.phase.live, key);
  }

  lemma PersistKeepsTight(w: World)
    requires Inv(w) && Tight(w) && Enabled(w, Persist)
    ensures Tight(Next(w, Persist))
  {
    var l := w.phase.live;
    PersistListed(w.ledger, w.records, w.counted, l, Record(l.target, Keys(l.attempts), CountAttempted(l.attempts)));
  }

  lemma PersistListed(ledger: States, records: seq<Record>, counted: set<string>, l: Live, r: Record)
    requires forall key :: key in ledger && Listed(records, key) ==> key in counted
    requires DeclinedUnreserved(ledger, l) && r.keys == Keys(l.attempts)
    ensures forall key :: key in ledger && Listed(records + [r], key) ==> key in counted + Attempted(l.attempts)
  {
    forall key | key in ledger && Listed(records + [r], key) ensures key in counted + Attempted(l.attempts) {
      ListedAppend(records, r, key);
      if key in r.keys {
        var i :| 0 <= i < |l.attempts| && l.attempts[i].key == key;
        assert l.attempts[i].attempted;
      }
    }
  }

  lemma QuietKeepsTight(w: World, s: Step)
    requires Tight(w) && Enabled(w, s) && !s.Persist? && !s.Reserve?
    requires s.Decline? ==> s.key !in w.ledger
    ensures Tight(Next(w, s))
  {
    var w' := Next(w, s);
    assert w'.ledger.Keys == w.ledger.Keys;
    assert w'.records == w.records && w'.counted == w.counted;
  }

  ghost predicate TightInv(w: World) {
    Inv(w) && Tight(w) && Exclusive(w.owns)
  }

  lemma StepKeepsTight(w: World, s: Step)
    requires TightInv(w) && Enabled(w, s)
    requires s.Decline? ==> s.key !in w.ledger
    ensures TightInv(Next(w, s))
  {
    StepKeepsInv(w, s);
    if s.Persist? {
      PersistKeepsTight(w);
    } else if s.Reserve? {
      ReserveKeepsTight(w, s.key);
    } else {
      QuietKeepsTight(w, s);
    }
  }

  lemma ReserveKeepsTight(w: World, key: string)
    requires Inv(w) && Tight(w) && Exclusive(w.owns) && Enabled(w, Reserve(key))
    ensures Tight(Next(w, Reserve(key)))
  {
    UntriedUnlisted(w, key);
    ReserveKeepsDeclined(w.ledger, w.counted, w.phase.live, key);
  }

  lemma ReserveKeepsDeclined(ledger: States, counted: set<string>, l: Live, key: string)
    requires AttemptsOk(ledger, counted, l) && DeclinedUnreserved(ledger, l) && key !in l.tried
    ensures DeclinedUnreserved(ledger[key := Slot(l.target.batch, Reserved)],
                               l.(used := l.used + 1, tried := l.tried + {key}))
  {
  }

  lemma {:induction false} NoReuseKeepsTight(w: World, steps: seq<Step>, w': World)
    requires TightInv(w) && Runs(w, steps, w') && NoReuse(w, steps)
    ensures TightInv(w')
    decreases |steps|
  {
    if steps != [] {
      StepKeepsTight(w, steps[0]);
      NoReuseKeepsTight(Next(w, steps[0]), steps[1..], w');
    }
  }

  /** If no session reuses a key, nothing leaks: after recovery the recorded calls and the open
      keys are exactly the keys ever reserved, a running session's `used` is exactly that number,
      and the provider is called at most 1,200 times over all sessions. */
  lemma NoReuseConserves(w: World, steps: seq<Step>, w': World)
    requires Initial(w) && Exclusive(w.owns) && Runs(w, steps, w') && NoReuse(w, steps)
    ensures Leaked(w') == {}
    ensures HasLive(w'.phase) ==> w'.phase.live.used == |w'.ledger.Keys|
    ensures Recovered(w') ==> Calls(w'.records) + |OpenKeys(w'.ledger)| == |w'.ledger.Keys|
    ensures |w'.called| <= |w'.ledger.Keys| <= 1200
  {
    InitialInv(w);
    NoReuseKeepsTight(w, steps, w');
    TightLeaksNothing(w');
    ProviderCallsBounded(w, steps, w');
  }

  /** In a session that started fresh, every reserved key of its file was tried by itself. */
  ghost predicate OwnKeysTried(w: World) {
    HasLive(w.phase) ==> forall key :: key in w.ledger && w.owns(w.phase.live.target, key) ==> key in w.phase.live.tried
  }

  lemma StepKeepsOwnKeysTried(w: World, s: Step)
    requires OwnKeysTried(w) && Enabled(w, s)
    requires s.Start? ==> forall key :: key in w.ledger ==> !w.owns(w.phase.target, key)
    ensures OwnKeysTried(Next(w, s))
  {
    if s.Finish? {
      assert Set(w.ledger, w.phase.key, s.state).Keys == w.ledger.Keys;
    } else if s.Mark? {
      assert Set(w.ledger, s.key, Recorded).Keys == w.ledger.Keys;
    }
  }

  /** Starting only on fresh record files is enough to reuse no key. */
  lemma {:induction false} FreshStartsReuseNothing(w: World, steps: seq<Step>)
    requires OwnKeysTried(w) && FreshStarts(w, steps)
    ensures NoReuse(w, steps)
    decreases |steps|
  {
    if steps != [] {
      StepKeepsOwnKeysTried(w, steps[0]);
      FreshStartsReuseNothing(Next(w, steps[0]), steps[1..]);
    }
  }

  /** Sessions that only ever start on fresh record files conserve every key. */
  lemma FreshStartsConserve(w: World, steps: seq<Step>, w': World)
    requires Initial(w) && Exclusive(w.owns) && Runs(w, steps, w') && FreshStarts(w, steps)
    ensures Leaked(w') == {} && |w'.called| <= |w'.ledger.Keys| <= 1200
    ensures Recovered(w') ==> Calls(w'.records) + |OpenKeys(w'.ledger)| == |w'.ledger.Keys|
  {
    FreshStartsReuseNothing(w, steps);
    NoReuseConserves(w, steps, w');
  }

  // ---- What a reused key costs, exactly ----

  /** Only the call in flight is reserved, and what is waiting for a record is in none yet. */
  ghost predicate Unwritten(w: World) {
    HasLive(w.phase) ==>
      && (forall key :: key in w.ledger && w.ledger[key].state == Reserved ==> InFlight(w.phase, key))
      && (forall i :: 0 <= i < |w.phase.live.attempts| ==> !Listed(w.records, w.phase.live.attempts[i].key))
      && (w.phase.Holding? || w.phase.Calling? ==> !Listed(w.records, w.phase.key))
  }

  predicate InFlight(p: Phase, key: string) {
    (p.Holding? || p.Calling?) && p.key == key
  }

  ghost predicate UnwrittenInv(w: World) {
    Inv(w) && Unwritten(w) && Exclusive(w.owns)
  }

  lemma StepKeepsUnwritten(w: World, s: Step)
    requires UnwrittenInv(w) && Enabled(w, s)
    ensures UnwrittenInv(Next(w, s))
  {
    StepKeepsInv(w, s);
    NewKeyUnlisted(w, s);
    UnwrittenStep(w, s);
  }

  lemma NewKeyUnlisted(w: World, s: Step)
    requires Inv(w) && Exclusive(w.owns) && Enabled(w, s)
    ensures w.phase.Matching? ==> NoneReserved(w.ledger)
    ensures s.Decline? || s.Reserve? ==> !Listed(w.records, s.key)
  {
    if s.Decline? || s.Reserve? {
      UntriedUnlisted(w, s.key);
    }
  }

  lemma UnwrittenStep(w: World, s: Step)
    requires Unwritten(w) && Enabled(w, s)
    requires w.phase.Matching? ==> NoneReserved(w.ledger)
    requires s.Decline? || s.Reserve? ==> !Listed(w.records, s.key)
    ensures Unwritten(Next(w, s)) && Next(w, s).owns == w.owns
  {
  }

  lemma {:induction false} RunKeepsUnwritten(w: World, steps: seq<Step>, w': World)
    requires UnwrittenInv(w) && Runs(w, steps, w')
    ensures UnwrittenInv(w')
    decreases |steps|
  {
    if steps != [] {
      StepKeepsUnwritten(w, steps[0]);
      RunKeepsUnwritten(Next(w, steps[0]), steps[1..], w');
    }
  }

  /** What reuse does to the accounts, over every run: a listed key that was ever reserved is counted
      or reused, and never both. */
  ghost predicate ReuseOk(ledger: States, records: seq<Record>, counted: set<string>, reused: set<string>) {
    && reused !! counted && reused <= ledger.Keys
    && (forall key :: key in reused ==> Listed(records, key))
    && (forall key :: key in ledger && Listed(records, key) ==> key in counted || key in reused)
  }

  ghost predicate ReuseInv(w: World) {
    UnwrittenInv(w) && ReuseOk(w.ledger, w.records, w.counted, w.reused)
  }

  lemma PersistKeepsReuse(ledger: States, records: seq<Record>, counted: set<string>, reused: set<string>, l: Live,
                          r: Record)
    requires ReuseOk(ledger, records, counted, reused) && AttemptsOk(ledger, counted, l) && r.keys == Keys(l.attempts)
    requires forall i :: 0 <= i < |l.attempts| ==> !Listed(records, l.attempts[i].key)
    requires forall key :: key in counted ==> Wanted(records, key)
    ensures ReuseOk(ledger, records + [r], counted + Attempted(l.attempts), reused + Reused(ledger, l.attempts))
  {
    ReachedKeys(ledger, counted, l);
    forall key ensures Listed(records + [r], key) <==> Listed(records, key) || key in r.keys {
      ListedAppend(records, r, key);
    }
    forall i | 0 <= i < |l.attempts| ensures l.attempts[i].key !in counted && l.attempts[i].key !in reused {
      assert !Wanted(records, l.attempts[i].key);
    }
    forall key | key in Reused(ledger, l.attempts) ensures key in r.keys {
      assert key in (set k | k in Keys(l.attempts)) * ledger.Keys;
    }
    forall key | key in ledger && key in r.keys ensures key in Attempted(l.attempts) + Reused(ledger, l.attempts) {
      assert key in (set k | k in Keys(l.attempts)) * ledger.Keys;
    }
  }

  lemma ReserveKeepsReuse(ledger: States, records: seq<Record>, counted: set<string>, reused: set<string>, key: string,
                          slot: Slot)
    requires ReuseOk(ledger, records, counted, reused) && !Listed(records, key)
    ensures ReuseOk(ledger[key := slot], records, counted, reused)
  {
  }

  /** Every other step leaves records and history alone, and the ledger its keys. */
  lemma QuietKeepsReuse(w: World, s: Step)
    requires Enabled(w, s) && !s.Persist? && !s.Reserve?
    ensures var w' := Next(w, s);
            && w'.ledger.Keys == w.ledger.Keys && w'.records == w.records && w'.counted == w.counted
            && w'.reused == w.reused
  {
  }

  lemma StepKeepsReuse(w: World, s: Step)
    requires ReuseInv(w) && Enabled(w, s)
    ensures ReuseInv(Next(w, s))
  {
    StepKeepsUnwritten(w, s);
    if s.Persist? {
      var l := w.phase.live;
      PersistKeepsReuse(w.ledger, w.records, w.counted, w.reused, l,
                        Record(l.target, Keys(l.attempts), CountAttempted(l.attempts)));
    } else if s.Reserve? {
      NewKeyUnlisted(w, s);
      ReserveKeepsReuse(w.ledger, w.records, w.counted, w.reused, s.key, Slot(w.phase.live.target.batch, Reserved));
    } else {
      QuietKeepsReuse(w, s);
      SameAccounts(w.ledger, Next(w, s).ledger, w.records, w.counted, w.reused);
    }
  }

  lemma SameAccounts(ledger: States, ledger': States, records: seq<Record>, counted: set<string>, reused: set<string>)
    requires ReuseOk(ledger, records, counted, reused) && ledger'.Keys == ledger.Keys
    ensures ReuseOk(ledger', records, counted, reused)
  {
    assert forall key :: key in ledger' <==> key in ledger.Keys;
  }

  lemma {:induction false} RunKeepsReuse(w: World, steps: seq<Step>, w': World)
    requires ReuseInv(w) && Runs(w, steps, w')
    ensures ReuseInv(w')
    decreases |steps|
  {
    if steps != [] {
      StepKeepsReuse(w, steps[0]);
      RunKeepsReuse(Next(w, steps[0]), steps[1..], w');
    }
  }

  /** Over every run, wherever it was cut off, what leaked is exactly the reused keys that were marked:
      all of those that a record with a call lists once recovery is through, and of the others those
      whose record was marked before a crash. So after recovery conservation holds if and only if no
      reused key is marked. */
  lemma LeakedExactly(w: World, steps: seq<Step>, w': World)
    requires Initial(w) && Exclusive(w.owns) && Runs(w, steps, w')
    ensures Leaked(w') == w'.reused * DoneKeys(w'.ledger)
    ensures Recovered(w') ==> forall key :: key in w'.reused && Wanted(w'.records, key) ==> key in Leaked(w')
    ensures Recovered(w') ==>
              (Calls(w'.records) + |OpenKeys(w'.ledger)| == |w'.ledger.Keys| <==> w'.reused !! DoneKeys(w'.ledger))
  {
    InitialInv(w);
    RunKeepsReuse(w, steps, w');
    LeakIsMarkedReuse(w'.ledger, w'.records, w'.counted, w'.reused);
    if Recovered(w') {
      Conservation(w');
      RecoveryMarksReuse(w');
    }
  }

  lemma LeakIsMarkedReuse(ledger: States, records: seq<Record>, counted: set<string>, reused: set<string>)
    requires ReuseOk(ledger, records, counted, reused) && DoneListed(ledger, records)
    ensures LeakedKeys(ledger, counted) == reused * DoneKeys(ledger)
    ensures |LeakedKeys(ledger, counted)| == 0 <==> reused !! DoneKeys(ledger)
  {
    var leaked := LeakedKeys(ledger, counted);
    assert leaked == reused * DoneKeys(ledger);
    EmptyMeet(reused, DoneKeys(ledger));
  }

  lemma EmptyMeet(a: set<string>, b: set<string>)
    ensures |a * b| == 0 <==> a !! b
  {
    if a * b == {} {
      forall key | key in a ensures key !in b {
        assert key in b ==> key in a * b;
      }
    } else {
      var key :| key in a * b;
    }
  }

  lemma RecoveryMarksReuse(w: World)
    requires ReuseOk(w.ledger, w.records, w.counted, w.reused) && Recovered(w)
    ensures forall key :: key in w.reused && Wanted(w.records, key) ==> key in Leaked(w)
  {
    forall key | key in w.reused && Wanted(w.records, key) ensures key in Leaked(w) {
      assert !Matchable(w, key);
    }
  }

  function MarkSteps(keys: seq<string>): seq<Step> {
    seq(|keys|, i requires 0 <= i < |keys| => Mark(keys[i]))
  }

  lemma {:induction false} MarksOnlyRecord(w: World, keys: seq<string>, w': World)
    requires w.phase.Sinking? && Runs(w, MarkSteps(keys), w')
    ensures w' == w.(ledger := w'.ledger) && w'.ledger.Keys == w.ledger.Keys
    ensures forall key :: key in w.ledger ==>
              w'.ledger[key] == w.ledger[key] ||
              (key in w.phase.todo && w'.ledger[key].state == Recorded)
    decreases |keys|
  {
    if keys != [] {
      assert MarkSteps(keys)[1..] == MarkSteps(keys[1..]);
      MarksOnlyRecord(Next(w, Mark(keys[0])), keys[1..], w');
    }
  }

  /** The keys a record's marks reach: those it attempted and those it reused. */
  lemma ReachedKeys(ledger: States, counted: set<string>, l: Live)
    requires AttemptsOk(ledger, counted, l)
    ensures (set key | key in Keys(l.attempts)) * ledger.Keys == Attempted(l.attempts) + Reused(ledger, l.attempts)
    ensures Attempted(l.attempts) !! Reused(ledger, l.attempts)
    ensures Attempted(l.attempts) !! DoneKeys(ledger)
  {
    forall i | 0 <= i < |l.attempts| ensures Keys(l.attempts)[i] == l.attempts[i].key {
    }
  }

  lemma ReusedUnlisted(w: World)
    requires Inv(w) && Unwritten(w) && w.phase.Idle?
    ensures var reused := Reused(w.ledger, w.phase.live.attempts);
            reused !! w.counted && reused !! DoneKeys(w.ledger)
  {
    forall key | key in Reused(w.ledger, w.phase.live.attempts)
      ensures !Listed(w.records, key) && !Wanted(w.records, key)
    {
    }
  }

  lemma MarksReach(w: World, keys: seq<string>, w': World)
    requires w.phase.Sinking? && NoneReserved(w.ledger)
    requires Runs(w, MarkSteps(keys), w') && Enabled(w', Sunk)
    ensures DoneKeys(w'.ledger) == DoneKeys(w.ledger) + w.phase.todo * w.ledger.Keys
    ensures w'.counted == w.counted
  {
    MarksOnlyRecord(w, keys, w');
    forall key | key in w.ledger
      ensures key in DoneKeys(w'.ledger) <==> key in DoneKeys(w.ledger) || key in w.phase.todo
    {
      assert key in w.phase.todo ==> !Terminal(w'.ledger[key].state);
    }
  }

  lemma LeakSets(done: set<string>, counted: set<string>, attempted: set<string>, reused: set<string>)
    requires attempted !! reused && attempted !! done && reused !! counted && reused !! done
    ensures (done + (attempted + reused)) - (counted + attempted) == (done - counted) + reused
  {
  }

  /** Once a record is appended and its keys marked, the leak has grown by exactly the reused keys
      it lists; so conservation survives a record if and only if it lists none. */
  lemma PersistLeaksReused(w: World, keys: seq<string>, w': World)
    requires Inv(w) && Unwritten(w) && Enabled(w, Persist)
    requires Runs(Next(w, Persist), MarkSteps(keys), w') && Enabled(w', Sunk)
    ensures var reused := Reused(w.ledger, w.phase.live.attempts);
            && Leaked(w') == Leaked(w) + reused && Leaked(w) !! reused
            && (Leaked(w') == Leaked(w) <==> reused == {})
  {
    var l, w1 := w.phase.live, Next(w, Persist);
    var reused := Reused(w.ledger, l.attempts);
    ReusedUnlisted(w);
    assert Leaked(w') == Leaked(w) + reused by {
      ReachedKeys(w.ledger, w.counted, l);
      MarksReach(w1, keys, w');
      LeakSets(DoneKeys(w.ledger), w.counted, Attempted(l.attempts), reused);
    }
  }

  // ---- The hypothesis is needed ----

  lemma {:induction false} RunsAppend(w: World, steps: seq<Step>, w': World, s: Step)
    requires Runs(w, steps, w') && Enabled(w', s)
    ensures Runs(w, steps + [s], Next(w', s))
    decreases |steps|
  {
    if steps == [] {
      assert Runs(Next(w, s), [], Next(w', s));
      assert ([] + [s])[1..] == [];
    } else {
      assert (steps + [s])[1..] == steps[1..] + [s];
      RunsAppend(Next(w, steps[0]), steps[1..], w', s);
    }
  }

  lemma {:induction false} RunsConcat(w: World, steps: seq<Step>, v: World, more: seq<Step>, w': World)
    requires Runs(w, steps, v) && Runs(v, more, w')
    ensures Runs(w, steps + more, w')
    decreases |more|
  {
    if more == [] {
      assert steps + more == steps;
    } else {
      RunsAppend(w, steps, v, more[0]);
      RunsConcat(w, steps + [more[0]], Next(v, more[0]), more[1..], w');
      assert steps + [more[0]] + more[1..] == steps + more;
    }
  }

  /** Whatever prefix of a run a crash leaves behind is a run, and ends down. */
  lemma {:induction false} CrashAnywhere(w: World, steps: seq<Step>, w': World, n: nat) returns (v: World)
    requires Runs(w, steps, w') && n <= |steps|
    ensures Runs(w, steps[..n] + [Crash], v) && v.phase.Down?
    decreases n
  {
    if n == 0 {
      v := Next(w, Crash);
      RunsAppend(w, [], w, Crash);
      assert steps[..0] + [Crash] == [] + [Crash];
    } else {
      v := CrashAnywhere(Next(w, steps[0]), steps[1..], w', n - 1);
      assert (steps[..n] + [Crash])[1..] == steps[1..][..n - 1] + [Crash];
    }
  }

  /** A batch killed during its first call, before its first record. */
  lemma KilledBeforeFirstRecord(w: World, t: Target, key: string) returns (steps: seq<Step>, w': World)
    requires Initial(w) && ValidTarget(t) && w.owns(t, key)
    ensures Runs(w, steps, w')
    ensures w' == w.(ledger := map[key := Slot(t.batch, Reserved)], called := [key])
  {
    var w3;
    steps, w3 := FirstStart(w, t);
    RunsAppend(w, steps, w3, Reserve(key));
    var w4 := Next(w3, Reserve(key));
    steps := steps + [Reserve(key)];
    RunsAppend(w, steps, w4, Call);
    var w5 := Next(w4, Call);
    steps := steps + [Call];
    RunsAppend(w, steps, w5, Crash);
    steps, w' := steps + [Crash], Next(w5, Crash);
  }

  /** The first session of all. */
  lemma FirstStart(w: World, t: Target) returns (steps: seq<Step>, w': World)
    requires Initial(w) && ValidTarget(t)
    ensures Runs(w, steps, w') && w' == w.(phase := Idle(Live(t, 0, 0, false, [], {}, 0)))
  {
    var w1 := Next(w, Open(t));
    var w2 := Next(w1, Reconciled);
    assert OpenKeys(w2.ledger) == {} && Leaked(w2) == {};
    w' := Next(w2, Start);
    RunsAppend(w, [], w, Open(t));
    RunsAppend(w, [] + [Open(t)], w1, Reconciled);
    RunsAppend(w, [] + [Open(t)] + [Reconciled], w2, Start);
    steps := [] + [Open(t)] + [Reconciled] + [Start];
  }

  /** The same batch opened again: the key is finalized as unknown and the session starts. */
  lemma OpenedAgain(w: World, t: Target, key: string) returns (steps: seq<Step>, w': World)
    requires w.phase.Down? && w.records == [] && w.counted == {} && ValidTarget(t) && w.owns(t, key)
    requires w.ledger == map[key := Slot(t.batch, Reserved)]
    ensures Runs(w, steps, w')
    ensures w'.ledger == map[key := Slot(t.batch, Unknown)]
    ensures w' == w.(ledger := w'.ledger, phase := Idle(Live(t, 1, 0, false, [], {}, 0)))
  {
    var w1 := Next(w, Open(t));
    var w2 := Next(w1, Reconcile(key));
    var w3 := Next(w2, Reconciled);
    assert OpenKeys(w3.ledger) == {key} && Leaked(w3) == {};
    w' := Next(w3, Start);
    RunsAppend(w, [], w, Open(t));
    RunsAppend(w, [] + [Open(t)], w1, Reconcile(key));
    RunsAppend(w, [] + [Open(t)] + [Reconcile(key)], w2, Reconciled);
    RunsAppend(w, [] + [Open(t)] + [Reconcile(key)] + [Reconciled], w3, Start);
    steps := [] + [Open(t)] + [Reconcile(key)] + [Reconciled] + [Start];
  }

  /** The key is declined, and persisting the record marks it. */
  lemma DeclinedAndMarked(w: World, t: Target, key: string) returns (steps: seq<Step>, w': World)
    requires w.phase == Idle(Live(t, 1, 0, false, [], {}, 0)) && w.owns(t, key) && w.records == [] && w.counted == {}
    requires w.ledger == map[key := Slot(t.batch, Unknown)]
    ensures Runs(w, steps, w')
    ensures w'.ledger == map[key := Slot(t.batch, Recorded)] && w'.records == [Record(t, [key], 0)]
  {
    var w1 := Next(w, Decline(key, false));
    var a := w1.phase.live.attempts;
    assert a == [Attempt(key, false)] && a[..0] == [];
    assert Keys(a) == [key];
    var w2 := Next(w1, Persist);
    assert CountAttempted(a) == CountAttempted([]) + 0;
    assert key in Keys(a);
    w' := Next(w2, Mark(key));
    RunsAppend(w, [], w, Decline(key, false));
    RunsAppend(w, [] + [Decline(key, false)], w1, Persist);
    RunsAppend(w, [] + [Decline(key, false)] + [Persist], w2, Mark(key));
    steps := [] + [Decline(key, false)] + [Persist] + [Mark(key)];
  }

  /** Without the hypothesis conservation fails: one key was reserved and called, yet after
      recovery neither a record nor an open reservation accounts for it. */
  lemma ReuseBreaksConservation(w: World, t: Target, key: string) returns (steps: seq<Step>, w': World)
    requires Initial(w) && ValidTarget(t) && w.owns(t, key)
    ensures Runs(w, steps, w') && Recovered(w')
    ensures Calls(w'.records) + |OpenKeys(w'.ledger)| == 0 && |w'.ledger.Keys| == 1
  {
    var first, v := KilledBeforeFirstRecord(w, t, key);
    var second, u := OpenedAgain(v, t, key);
    var third, z := DeclinedAndMarked(u, t, key);
    RunsConcat(w, first, v, second, u);
    RunsConcat(w, first + second, u, third, z);
    steps, w' := first + second + third, z;
    assert w'.ledger.Keys == {key} && OpenKeys(w'.ledger) == {};
    assert w'.records[..0] == [];
    assert Calls(w'.records) == Calls([]) + 0;
  }
}
