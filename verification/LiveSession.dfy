/** The live session of labs/self_improvement/cli.py and the provider calls of
    labs/self_improvement/evaluation.py, as code over the ledger, the budget and the record files.
    Every durable write and every provider call it makes is one step of `Sessions`, so whatever
    prefix of its steps a crash leaves behind is a run of that machine. */
module LiveSession {
  import opened Basics
  import opened Ledger
  import opened ReservationKeys
  import opened Sessions
  import Replay

  const BLOCKING_FAILURES: set<string> := {
    "AUTHENTICATION_ERROR", "AUTH_FAILED", "CONNECTION_ERROR", "NETWORK_ERROR", "PROTOCOL_ERROR",
    "PROVIDER_UNAVAILABLE", "TRANSPORT_ERROR", "TIMEOUT", "MODEL_CALL_TIMEOUT"
  }

  const CONTENT_FAILURES: set<string> := {
    "RESPONSE_SCHEMA", "RESPONSE_NO_CHOICES", "RESPONSE_CONTENT_MISSING", "RESPONSE_INCOMPLETE",
    "USAGE_MISSING", "USAGE_INVALID", "BUDGET_EXCEEDED"
  }

  /** What the provider did: anything it may do short of killing the process. */
  datatype Answer =
    | Actions(actions: seq<Replay.Action>)
    | Unparseable(reason: string)
    | EmptyText
    | ProviderError(code: string)
    | Cancelled
    | TimedOut
    | SystemError(code: string)

  /** Parsed answers hold one to eight actions, refusals to parse name one of two reasons. */
  predicate ValidAnswer(a: Answer) {
    && (a.Actions? ==> 1 <= |a.actions| <= 8)
    && (a.Unparseable? ==> a.reason != "")
  }

  datatype CallStatus = CallSucceeded | CallFailed | CallUnknown | CallRejected

  datatype LiveCall = LiveCall(status: CallStatus, failure: Option<string>, attempted: bool,
                               actions: seq<Replay.Action>)

  /** The call an answer amounts to, with the ledger state it is finalized as. */
  function Settle(a: Answer): (LiveCall, State) {
    match a
    case Actions(actions) => (LiveCall(CallSucceeded, None, true, actions), Completed)
    case Unparseable(reason) => (LiveCall(CallFailed, Some(reason), true, []), Failed)
    case EmptyText => (LiveCall(CallUnknown, Some("MODEL_RESPONSE_EMPTY"), true, []), Unknown)
    case ProviderError(code) =>
      if code in CONTENT_FAILURES then (LiveCall(CallFailed, Some(code), true, []), Failed)
      else (LiveCall(CallUnknown, Some(code), true, []), Unknown)
    case Cancelled => (LiveCall(CallUnknown, Some("MODEL_CALL_CANCELLED"), true, []), Unknown)
    case TimedOut => (LiveCall(CallUnknown, Some("MODEL_CALL_TIMEOUT"), true, []), Unknown)
    case SystemError(code) => (LiveCall(CallUnknown, Some(code), true, []), Unknown)
  }

  /** A call that was never made: it names why. */
  predicate Declined(call: LiveCall) {
    && !call.attempted && call.actions == [] && call.failure.Some? && call.failure.value != ""
    && (call.status.CallRejected? || call.status.CallUnknown?)
  }

  /** Why a call is not made. A bad name is a ValueError that no caller catches. */
  datatype Refusal = NotRefused | BatchBlocked | CallBudget | InvalidName | ReservationExists

  function RefusalText(r: Refusal): string {
    match r
    case BatchBlocked => "MODEL_BATCH_BLOCKED"
    case CallBudget => "MODEL_CALL_BUDGET"
    case ReservationExists => "CALL_RESERVATION_EXISTS"
    case _ => "reservation name is invalid"
  }

  predicate Blocking(failure: Option<string>) {
    failure.Some? && failure.value in BLOCKING_FAILURES
  }

  /** How every answer is reported and finalized, code by code. */
  lemma AnswersSettle(a: Answer)
    ensures var (call, state) := Settle(a);
            && call.attempted && (call.actions != [] ==> a.Actions? && call.actions == a.actions)
            && (state == Completed <==> a.Actions?)
            && (state == Failed <==> a.Unparseable? || (a.ProviderError? && IsContentCode(a.code)))
            && (state == Unknown <==> !a.Actions? && state != Failed)
            && (call.status.CallSucceeded? <==> state == Completed) && (call.status.CallFailed? <==> state == Failed)
            && (call.status.CallUnknown? <==> state == Unknown)
            && match a
               case Actions(actions) => call.failure.None? && call.actions == actions
               case Unparseable(reason) => call.failure == Some(reason)
               case EmptyText => call.failure == Some("MODEL_RESPONSE_EMPTY")
               case ProviderError(code) => call.failure == Some(code)
               case Cancelled => call.failure == Some("MODEL_CALL_CANCELLED")
               case TimedOut => call.failure == Some("MODEL_CALL_TIMEOUT")
               case SystemError(code) => call.failure == Some(code)
  {
  }

  /** The provider answered, but what it answered is not usable. */
  ghost predicate IsContentCode(code: string) {
    || code == "RESPONSE_SCHEMA" || code == "RESPONSE_NO_CHOICES" || code == "RESPONSE_CONTENT_MISSING"
    || code == "RESPONSE_INCOMPLETE" || code == "USAGE_MISSING" || code == "USAGE_INVALID" || code == "BUDGET_EXCEEDED"
  }

  /** The codes that count against the breaker: authentication, connection, protocol and time. */
  lemma BlockingCodes(code: string)
    ensures Blocking(Some(code)) <==>
              || code == "AUTHENTICATION_ERROR" || code == "AUTH_FAILED" || code == "CONNECTION_ERROR"
              || code == "NETWORK_ERROR" || code == "PROTOCOL_ERROR" || code == "PROVIDER_UNAVAILABLE"
              || code == "TRANSPORT_ERROR" || code == "TIMEOUT" || code == "MODEL_CALL_TIMEOUT"
    ensures !Blocking(None)
  {
  }

  /** Three calls that time out in a row close the batch, whatever came before. */
  method ThreeTimeouts(session: Session, keys: seq<string>)
    requires session.Valid() && !session.blocked && session.used + 3 <= MAX_MODEL_CALLS
    requires |keys| == 3 && keys[0] != keys[1] && keys[0] != keys[2] && keys[1] != keys[2]
    requires forall i :: 0 <= i < 3 ==> session.Callable(keys[i])
    modifies session`used, session`strikes, session`blocked, session`world, session`trace, session.ledger
    ensures session.Valid() && session.blocked
  {
    for i := 0 to 3
      invariant session.Valid() && session.strikes >= i && (i > 0 ==> session.blocked == (session.strikes >= 3))
      invariant session.used + 3 - i <= MAX_MODEL_CALLS
      invariant !session.blocked ==> forall j :: i <= j < 3 ==> session.Callable(keys[j])
    {
      if session.blocked { return; }
      var _, _ := session.CallProvider(keys[i], false, TimedOut);
    }
  }

  class Session {
    const target: Target
    const ledger: ReservationLedger
    var records: seq<Record>
    var used: nat
    var strikes: nat
    var blocked: bool

    ghost const start: World
    ghost var world: World
    ghost var trace: seq<Step>

    /** The steps taken so far lead from `start` to `world`. */
    ghost predicate Traced()
      reads this
    {
      Runs(start, trace, world)
    }

    /** Disk and memory are what the machine says, between two provider calls. */
    ghost predicate Valid()
      reads this, ledger
    {
      && Traced() && ledger.Valid() && world.ledger == ledger.states && world.records == records
      && world.phase.Idle?
      && var l := world.phase.live;
         l.target == target && l.used == used && l.strikes == strikes && l.blocked == blocked
    }

    ghost function Attempts(): seq<Attempt>
      requires world.phase.Idle?
      reads this
    {
      world.phase.live.attempts
    }

    ghost function Tried(): set<string>
      requires world.phase.Idle?
      reads this
    {
      world.phase.live.tried
    }

    /** Batch and key are names the ledger takes. */
    predicate Named(key: string) {
      ValidName(target.batch, 120) && ValidName(key, 240)
    }

    /** A key of this session that can still be called. */
    ghost predicate Callable(key: string)
      requires world.phase.Idle?
      reads this, ledger
    {
      world.owns(target, key) && key !in Tried() && Named(key) && key !in ledger.states
    }

    constructor (target: Target, ledger: ReservationLedger, records: seq<Record>, used: nat,
                 ghost start: World, ghost world: World, ghost trace: seq<Step>)
      requires Runs(start, trace, world) && ledger.Valid()
      requires world.ledger == ledger.states && world.records == records
      requires world.phase.Idle? && world.phase.live == Live(target, used, 0, false, [], {}, world.phase.live.missed)
      ensures Valid() && this.target == target && this.ledger == ledger && this.start == start
      ensures this.world == world && this.trace == trace && this.records == records && this.used == used
    {
      this.target, this.ledger, this.records := target, ledger, records;
      this.used, this.strikes, this.blocked := used, 0, false;
      this.start, this.world, this.trace := start, world, trace;
    }

    ghost method Take(s: Step)
      requires Traced() && Enabled(world, s)
      modifies this`world, this`trace
      ensures Traced() && trace == old(trace) + [s] && world == Next(old(world), s)
    {
      RunsAppend(start, trace, world, s);
      trace, world := trace + [s], Next(world, s);
    }

    /** One provider call. `raised` is the error that ends the session when the key or the batch
        id is malformed; every other trouble is an outcome. */
    method CallProvider(key: string, promptTooLarge: bool, answer: Answer) returns (call: LiveCall, raised: bool)
      requires Valid() && world.owns(target, key) && key !in Tried() && ValidAnswer(answer)
      modifies this`used, this`strikes, this`blocked, this`world, this`trace, ledger
      ensures Valid() && old(trace) <= trace && world.owns == old(world.owns)
      ensures raised <==> !promptTooLarge && !old(blocked) && old(used) < MAX_MODEL_CALLS && !Named(key)
      ensures raised ==> world == old(world)
      ensures !raised ==>
                Attempts() == old(Attempts()) + [Attempt(key, call.attempted)] && Tried() == old(Tried()) + {key}
      ensures call.attempted <==> !promptTooLarge && !old(blocked) && old(used) < MAX_MODEL_CALLS
                                  && Named(key) && key !in old(ledger.states)
      ensures used == old(used) + if call.attempted then 1 else 0
      ensures !call.attempted ==> strikes == old(strikes) && blocked == old(blocked)
      ensures call.attempted ==> key in ledger.states && ledger.states[key].state == Settle(answer).1
      ensures call.attempted ==> strikes == if Blocking(call.failure) then old(strikes) + 1 else 0
      ensures call.attempted ==> blocked == (strikes >= 3)
      ensures if call.attempted then call == Settle(answer).0 else Declined(call)
      ensures promptTooLarge ==> call.status.CallRejected? && call.failure == Some("INPUT_TOO_LARGE")
      ensures !promptTooLarge && !call.attempted && !raised ==>
                && call.status.CallUnknown?
                && call.failure == Some(if old(blocked) then "MODEL_BATCH_BLOCKED"
                                        else if old(used) >= MAX_MODEL_CALLS then "MODEL_CALL_BUDGET"
                                        else "CALL_RESERVATION_EXISTS")
      ensures ledger.states.Keys == old(ledger.states.Keys) + if call.attempted then {key} else {}
    {
      if promptTooLarge {
        Take(Decline(key, true));
        return LiveCall(CallRejected, Some("INPUT_TOO_LARGE"), false, []), false;
      }
      var refusal := Reserve(key);
      if !refusal.NotRefused? {
        return LiveCall(CallUnknown, Some(RefusalText(refusal)), false, []), refusal.InvalidName?;
      }
      call := CallReserved(key, answer);
      return call, false;
    }

    /** The budget's reservation: refused by the breaker, the budget, a bad name or the ledger, in
        that order. */
    method Reserve(key: string) returns (refusal: Refusal)
      requires Valid() && world.owns(target, key) && key !in Tried()
      modifies this`used, this`world, this`trace, ledger
      ensures Traced() && ledger.Valid() && old(trace) <= trace && world.owns == old(world.owns)
      ensures refusal == (if old(blocked) then BatchBlocked
                          else if old(used) >= MAX_MODEL_CALLS then CallBudget
                          else if !Named(key) then InvalidName
                          else if key in old(ledger.states) then Refusal.ReservationExists
                          else NotRefused)
      ensures !refusal.NotRefused? ==> Valid() && used == old(used)
      ensures refusal.InvalidName? ==> world == old(world)
      ensures !refusal.NotRefused? && !refusal.InvalidName? ==>
                Attempts() == old(Attempts()) + [Attempt(key, false)] && Tried() == old(Tried()) + {key}
      ensures refusal.NotRefused? ==> Reserved(old(world), key)
      ensures ledger.states.Keys == old(ledger.states.Keys) + if refusal.NotRefused? then {key} else {}
    {
      if blocked {
        Take(Decline(key, false));
        return BatchBlocked;
      }
      if used >= MAX_MODEL_CALLS {
        Take(Decline(key, false));
        return CallBudget;
      }
      var reserved := ledger.Reserve(target.batch, key);
      if reserved.ReservationExists? {
        Take(Decline(key, false));
        return Refusal.ReservationExists;
      }
      if !reserved.Done? {
        return InvalidName;
      }
      Take(Step.Reserve(key));
      used := used + 1;
      return NotRefused;
    }

    /** The state right after a reservation made in `before`. */
    ghost predicate Reserved(before: World, key: string)
      reads this, ledger
    {
      && before.phase.Idle? && world.phase.Holding? && world.phase.key == key
      && ledger.Valid() && world.ledger == ledger.states && world.records == records
      && key in ledger.states && ledger.states[key].state == State.Reserved
      && var l := world.phase.live;
      && l == before.phase.live.(used := l.used, tried := before.phase.live.tried + {key})
      && l.target == target && l.used == used && l.strikes == strikes && l.blocked == blocked
      && used == before.phase.live.used + 1
    }

    /** The call itself, its final ledger state, and the breaker. */
    method CallReserved(key: string, answer: Answer) returns (call: LiveCall)
      requires Traced() && world.phase.Holding? && ValidAnswer(answer)
      requires exists before :: Reserved(before, key)
      modifies this`strikes, this`blocked, this`world, this`trace, ledger
      ensures Valid() && old(trace) <= trace && world.owns == old(world.owns)
      ensures Attempts() == old(world.phase.live.attempts) + [Attempt(key, true)]
              && Tried() == old(world.phase.live.tried)
      ensures call == Settle(answer).0 && ledger.states.Keys == old(ledger.states.Keys)
      ensures key in ledger.states && ledger.states[key].state == Settle(answer).1
      ensures strikes == if Blocking(call.failure) then old(strikes) + 1 else 0
      ensures blocked == (old(blocked) || strikes >= 3)
    {
      Take(Call);
      var (settled, state) := Settle(answer);
      call := settled;
      var finished := ledger.Finish(key, state);
      Take(Step.Finish(state, Blocking(call.failure)));
      Note(call.failure);
    }

    /** Three blocking failures in a row close the batch. */
    method Note(failure: Option<string>)
      modifies this`strikes, this`blocked
      ensures strikes == if Blocking(failure) then old(strikes) + 1 else 0
      ensures blocked == (old(blocked) || strikes >= 3)
    {
      if Blocking(failure) {
        strikes := strikes + 1;
        if strikes >= 3 { blocked := true; }
        return;
      }
      strikes := 0;
    }

    /** The record sink: append the record, then mark its keys. `duplicateId` is the append refusing
        an experiment id the file already has, which ends the session. */
    method Persist(keys: seq<string>, calls: nat, duplicateId: bool) returns (raised: bool)
      requires Valid() && Attempts() != []
      requires keys == Keys(Attempts()) && calls == CountAttempted(Attempts())
      modifies this`records, this`world, this`trace, ledger
      ensures Valid() && old(trace) <= trace && world.owns == old(world.owns) && Tried() == old(Tried())
      ensures raised == duplicateId && ledger.states.Keys == old(ledger.states.Keys)
      ensures raised ==> world == old(world) && records == old(records)
      ensures !raised ==> Attempts() == [] && records == old(records) + [Record(target, keys, calls)]
      ensures !raised ==> forall key :: key in keys && key in ledger.states ==> !Terminal(ledger.states[key].state)
    {
      if duplicateId { return true; }
      records := records + [Record(target, keys, calls)];
      Take(Step.Persist);
      var marked := ledger.MarkRecordedMatching(set key | key in keys);
      TakePass(MarkPass, marked, Recorded, ledger.states);
      Take(Sunk);
      return false;
    }

    ghost method TakePass(pass: Pass, keys: seq<string>, to: State, states: States)
      requires Traced() && PassOpen(world, pass, keys, to) && Moved(world.ledger, keys, to, states)
      modifies this`world, this`trace
      ensures Traced() && trace == old(trace) + PassSteps(pass, keys) && world == old(world).(ledger := states)
    {
      AdvanceRuns(world, pass, keys, to, states);
      RunsConcat(start, trace, world, PassSteps(pass, keys), world.(ledger := states));
      trace, world := trace + PassSteps(pass, keys), world.(ledger := states);
    }
  }

  // ---- Runs of one kind of ledger event ----

  datatype Pass = ReconcilePass | MatchPass | MarkPass

  function PassStep(pass: Pass, key: string): Step {
    match pass
    case ReconcilePass => Reconcile(key)
    case MatchPass => Match(key)
    case MarkPass => Mark(key)
  }

  function PassSteps(pass: Pass, keys: seq<string>): seq<Step> {
    seq(|keys|, i requires 0 <= i < |keys| => PassStep(pass, keys[i]))
  }

  ghost predicate PassOpen(w: World, pass: Pass, keys: seq<string>, to: State) {
    match pass
    case ReconcilePass => w.phase.Reconciling? && to == Unknown
    case MatchPass => w.phase.Matching? && to == Recorded && forall key :: key in keys ==> Wanted(w.records, key)
    case MarkPass => w.phase.Sinking? && to == Recorded && forall key :: key in keys ==> key in w.phase.todo
  }

  ghost predicate Moved(states: States, keys: seq<string>, to: State, states': States) {
    && (forall i, j :: 0 <= i < j < |keys| ==> keys[i] != keys[j])
    && (forall key :: key in keys ==> key in states && Follows(states[key].state, to))
    && states'.Keys == states.Keys
    && (forall key :: key in states ==>
          states'[key] == if key in keys then Slot(states[key].batch, to) else states[key])
  }

  /** Events appended one after another are as many steps of the machine. */
  lemma {:induction false} AdvanceRuns(w: World, pass: Pass, keys: seq<string>, to: State, states: States)
    requires PassOpen(w, pass, keys, to) && Moved(w.ledger, keys, to, states)
    ensures Runs(w, PassSteps(pass, keys), w.(ledger := states))
    decreases |keys|
  {
    if keys == [] {
      assert states == w.ledger;
    } else {
      var key, rest := keys[0], keys[1..];
      var s := PassStep(pass, key);
      var w1 := Next(w, s);
      assert w1.ledger == w.ledger[key := Slot(w.ledger[key].batch, to)];
      assert Moved(w1.ledger, rest, to, states) by {
        assert forall k :: k in keys <==> k == key || k in rest;
      }
      AdvanceRuns(w1, pass, rest, to, states);
      assert PassSteps(pass, keys)[1..] == PassSteps(pass, rest);
      assert w1.(ledger := states) == w.(ledger := states);
    }
  }

  // ---- Opening a session ----

  method ExistingCalls(records: seq<Record>) returns (total: nat)
    ensures total == Calls(records)
  {
    total := 0;
    for i := 0 to |records|
      invariant total == Calls(records[..i])
    {
      assert records[..i + 1][..i] == records[..i];
      total := total + records[i].calls;
    }
    assert records[..|records|] == records;
  }

  method LiveRecordKeys(records: seq<Record>) returns (keys: set<string>)
    ensures forall key :: key in keys <==> Wanted(records, key)
  {
    keys := {};
    for i := 0 to |records|
      invariant forall key :: key in keys <==> exists j :: 0 <= j < i && records[j].calls > 0 && key in records[j].keys
    {
      if records[i].calls > 0 {
        keys := keys + set key | key in records[i].keys;
      }
    }
  }

  method FileExists(records: seq<Record>, target: Target) returns (found: bool)
    ensures found == HasFile(records, target)
  {
    for i := 0 to |records|
      invariant forall j :: 0 <= j < i ==> records[j].target != target
    {
      if records[i].target == target { return true; }
    }
    return false;
  }

  /** Keys that recovery leaves open: neither marked before nor listed by a record with a call. */
  ghost function Unaccounted(ledger: States, records: seq<Record>): set<string> {
    set key | key in ledger && ledger[key].state != Recorded && !Wanted(records, key)
  }

  /** What a session finds used up: the recorded calls and the keys left open. */
  ghost function UsedAtStart(ledger: States, records: seq<Record>): nat {
    Calls(records) + |Unaccounted(ledger, records)|
  }

  lemma LeftOpen(log0: seq<Entry>, states0: States, stale: seq<string>, log1: seq<Entry>, states1: States,
                 wanted: set<string>, marked: seq<string>, log2: seq<Entry>, states2: States, records: seq<Record>)
    requires Advanced(log0, states0, stale, Unknown, log1, states1)
             && Advanced(log1, states1, marked, Recorded, log2, states2)
    requires forall key :: key in states1 ==> states1[key].state != Reserved
    requires forall key :: key in wanted <==> Wanted(records, key)
    requires forall key :: key in marked <==> key in wanted && key in states1 && Terminal(states1[key].state)
    ensures OpenKeys(states2) == Unaccounted(states0, records)
  {
    forall key | key in states0 ensures states1[key].state == Recorded <==> states0[key].state == Recorded {
    }
    forall key | key in states0
      ensures states2[key].state == Recorded <==> states0[key].state == Recorded || Wanted(records, key) {
    }
  }

  /** Recovery, as far as the ledger goes: the stale reservations, then the recorded keys. */
  method Recover(ledger: ReservationLedger, records: seq<Record>, target: Target, ghost start: World)
    returns (ghost trace: seq<Step>, ghost w: World)
    requires ledger.Valid() && start.phase.Down? && start.ledger == ledger.states && start.records == records
    requires ValidTarget(target)
    modifies ledger
    ensures ledger.Valid() && Runs(start, trace, w)
    ensures w == start.(ledger := ledger.states, phase := Matching(target)) && Recovered(w)
    ensures w.ledger.Keys == start.ledger.Keys && OpenKeys(w.ledger) == Unaccounted(start.ledger, records)
  {
    ghost var log, states := ledger.log, ledger.states;
    ghost var stale;
    trace, w, stale := FinalizeStale(ledger, target, start);
    trace, w := MarkCounted(ledger, records, target, start, trace, w, log, states, stale);
  }

  /** Whatever a killed session left reserved becomes unknown. */
  method FinalizeStale(ledger: ReservationLedger, target: Target, ghost start: World)
    returns (ghost trace: seq<Step>, ghost w: World, ghost stale: seq<string>)
    requires ledger.Valid() && start.phase.Down? && start.ledger == ledger.states && ValidTarget(target)
    modifies ledger
    ensures ledger.Valid() && Runs(start, trace, w)
    ensures w == start.(ledger := ledger.states, phase := Matching(target)) && NoneReserved(ledger.states)
    ensures Advanced(old(ledger.log), old(ledger.states), stale, Unknown, ledger.log, ledger.states)
  {
    RunsAppend(start, [], start, Open(target));
    w, trace := Next(start, Open(target)), [] + [Open(target)];
    stale := ledger.ReconcileReserved();
    trace, w := Followed(start, trace, w, ReconcilePass, stale, Unknown, ledger.states);
    RunsAppend(start, trace, w, Reconciled);
    trace, w := trace + [Reconciled], Next(w, Reconciled);
  }

  /** Whatever a record with a call lists is marked. */
  method MarkCounted(ledger: ReservationLedger, records: seq<Record>, target: Target, ghost start: World,
                     ghost before: seq<Step>, ghost v: World, ghost log: seq<Entry>, ghost states: States,
                     ghost stale: seq<string>)
    returns (ghost trace: seq<Step>, ghost w: World)
    requires ledger.Valid() && Runs(start, before, v) && v == start.(ledger := ledger.states, phase := Matching(target))
    requires start.records == records && start.ledger == states && NoneReserved(ledger.states)
    requires Advanced(log, states, stale, Unknown, ledger.log, ledger.states)
    modifies ledger
    ensures ledger.Valid() && Runs(start, trace, w)
    ensures w == start.(ledger := ledger.states, phase := Matching(target)) && Recovered(w)
    ensures w.ledger.Keys == start.ledger.Keys && OpenKeys(w.ledger) == Unaccounted(start.ledger, records)
  {
    ghost var log1, states1 := ledger.log, ledger.states;
    var wanted := LiveRecordKeys(records);
    var marked := ledger.MarkRecordedMatching(wanted);
    LeftOpen(log, states, stale, log1, states1, wanted, marked, ledger.log, ledger.states, records);
    trace, w := Followed(start, before, v, MatchPass, marked, Recorded, ledger.states);
  }

  lemma Followed(start: World, trace: seq<Step>, w: World, pass: Pass, keys: seq<string>, to: State, states: States)
    returns (trace': seq<Step>, w': World)
    requires Runs(start, trace, w) && PassOpen(w, pass, keys, to) && Moved(w.ledger, keys, to, states)
    ensures Runs(start, trace', w') && w' == w.(ledger := states)
  {
    AdvanceRuns(w, pass, keys, to, states);
    trace', w' := trace + PassSteps(pass, keys), w.(ledger := states);
    RunsConcat(start, trace, w, PassSteps(pass, keys), w');
  }

  ghost predicate Started(session: Session, start: World, trace: seq<Step>, w: World, target: Target,
                          records: seq<Record>)
    reads session, session.ledger
  {
    && session.Valid() && session.start == start && session.trace == trace && session.world == w
    && session.target == target && session.Attempts() == [] && session.Tried() == {}
    && session.used == Calls(records) + |OpenKeys(w.ledger)| && !HasFile(records, target)
  }

  datatype OpenError = LedgerUnreadable | BudgetExceeded | OutputExists

  /** Recovery, then the budget and the record file. */
  method Begin(ledger: ReservationLedger, records: seq<Record>, target: Target, ghost start: World)
    returns (used: nat, error: Option<OpenError>, ghost trace: seq<Step>, ghost w: World)
    requires ledger.Valid() && start.phase.Down? && start.ledger == ledger.states && start.records == records
    requires ValidTarget(target)
    modifies ledger
    ensures ledger.Valid() && Runs(start, trace, w) && w.ledger == ledger.states && w.ledger.Keys == start.ledger.Keys
    ensures w.owns == start.owns && w.records == records
    ensures used == UsedAtStart(start.ledger, records) == Calls(records) + |OpenKeys(w.ledger)|
    ensures error == (if used > MAX_MODEL_CALLS then Some(BudgetExceeded)
                      else if HasFile(records, target) then Some(OutputExists) else None)
    ensures error.Some? ==> w.phase.Down?
    ensures error.None? ==> w.phase.Idle? && w.phase.live == Live(target, used, 0, false, [], {}, w.phase.live.missed)
  {
    trace, w := Recover(ledger, records, target, start);
    var existing := ExistingCalls(records);
    used := existing + |OpenKeys(ledger.states)|;
    trace, w := StartFrom(start, trace, w);
    if used > MAX_MODEL_CALLS { return used, Some(BudgetExceeded), trace, w; }
    var found := FileExists(records, target);
    error := if found then Some(OutputExists) else None;
  }

  lemma StartFrom(start: World, trace: seq<Step>, w: World) returns (trace': seq<Step>, w': World)
    requires Runs(start, trace, w) && w.phase.Matching? && Recovered(w)
    ensures Runs(start, trace', w')
    ensures var used := Calls(w.records) + |OpenKeys(w.ledger)|;
            w' == w.(phase := if used > MAX_MODEL_CALLS || HasFile(w.records, w.phase.target) then Down
                              else Idle(Live(w.phase.target, used, 0, false, [], {}, |Leaked(w)|)))
  {
    RunsAppend(start, trace, w, Start);
    trace', w' := trace + [Start], Next(w, Start);
  }

  /** A live evaluation up to its first call: read the ledger, recover, count what is used, refuse
      an exhausted budget or an existing record file. The steps taken hold even when it refuses. */
  method OpenSession(file: seq<Entry>, records: seq<Record>, target: Target, ghost start: World)
    returns (session: Session?, error: Option<OpenError>, ghost trace: seq<Step>, ghost w: World)
    requires ValidTarget(target) && start.phase.Down? && start.records == records
    requires Fold(file).Accepted? ==> start.ledger == Fold(file).states
    ensures Runs(start, trace, w) && w.owns == start.owns && w.ledger.Keys == start.ledger.Keys
    ensures session == null <==> error.Some?
    ensures error == Some(LedgerUnreadable) <==> Fold(file).Refused?
    ensures error.Some? && error.value != LedgerUnreadable ==> w.phase.Down?
    ensures Fold(file).Accepted? ==>
              (error == Some(BudgetExceeded) <==> UsedAtStart(start.ledger, records) > MAX_MODEL_CALLS)
    ensures Fold(file).Accepted? ==>
              (error == Some(OutputExists) <==>
                 UsedAtStart(start.ledger, records) <= MAX_MODEL_CALLS && HasFile(records, target))
    ensures session != null ==> Started(session, start, trace, w, target, records)
    ensures session != null ==> fresh(session) && fresh(session.ledger)
  {
    session, trace, w := null, [], start;
    var read := Read(file);
    if read.Refused? { return null, Some(LedgerUnreadable), [], start; }
    var ledger := new ReservationLedger(file, read.states);
    var used;
    used, error, trace, w := Begin(ledger, records, target, start);
    if error.Some? { return null, error, trace, w; }
    session := new Session(target, ledger, records, used, start, w, trace);
  }
}
