/** The A2A reviewer of labs/protocols/phase9_a2a.py: any number of `execute` and `cancel`
    coroutines on one task, interleaved at their await points.

    The registry lock is never held across an await, so what runs under it is one step. The
    task's terminal lock is held across awaits and is modelled. */
module Reviewer {
  import opened Basics

  datatype TerminalState = Unsettled | Completed | Canceled

  /** What the message turns out to be when it is read. */
  datatype Payload = Reviewable | Unusable

  /** Where an `execute` stands; each is one await point. */
  datatype ExecPc = Begin | Submit | Work | Check | WantLock | Decide | Emit | Recheck | Complete | Write | Leave
      | ExecDone

  datatype CancelPc = CancelWant | CancelDecide | CancelEmit | CancelRelease | Emitted | Silent | Raised | Unreported
      | Aborted

  datatype Proc =
    | Exec(pc: ExecPc, event: nat, payload: Payload, killed: bool)
    | Canceler(cpc: CancelPc)

  datatype Update = SubmittedBy(p: nat) | WorkingBy(p: nat) | ArtifactBy(p: nat) | CompletedBy(p: nat)
      | CanceledBy(p: nat)

  /** The executor's tables for the task, its coroutines, and the updates enqueued so far. Events
      are numbered as they are created; `current` is the one in the table. `late` counts the kills
      that fell between enqueueing completion and writing the terminal state. */
  datatype Sys = Sys(procs: seq<Proc>, lock: Option<nat>, terminal: TerminalState, cancelled: bool,
                     current: Option<nat>, raised: set<nat>, events: nat, trace: seq<Update>, late: nat)

  datatype Step =
    | SpawnExec(payload: Payload)
    | SpawnCancel
    | Run(p: nat)
    /** The coroutine is cancelled at its await point. */
    | Kill(p: nat)
    /** The same between enqueueing completion and writing the terminal state. */
    | KillBeforeWrite(p: nat)

  predicate Done(proc: Proc) {
    match proc
    case Exec(pc, _, _, _) => pc.ExecDone?
    case Canceler(c) => c.Emitted? || c.Silent? || c.Raised? || c.Unreported? || c.Aborted?
  }

  /** Inside the terminal lock. */
  predicate Holds(proc: Proc) {
    match proc
    case Exec(pc, _, _, _) => pc.Decide? || pc.Emit? || pc.Recheck? || pc.Complete? || pc.Write?
    case Canceler(c) => c.CancelDecide? || c.CancelEmit? || c.CancelRelease?
  }

  predicate Waits(proc: Proc) {
    match proc
    case Exec(pc, _, _, _) => pc.WantLock?
    case Canceler(c) => c.CancelWant?
  }

  predicate Enabled(s: Sys, step: Step) {
    match step
    case SpawnExec(_) => true
    case SpawnCancel => true
    case Run(p) => p < |s.procs| && !Done(s.procs[p]) && (Waits(s.procs[p]) ==> s.lock.None?)
    case Kill(p) => p < |s.procs| && !Done(s.procs[p])
                    && (s.procs[p].Exec? ==> !s.procs[p].pc.Write? && !s.procs[p].pc.Leave?)
    case KillBeforeWrite(p) => p < |s.procs| && s.procs[p].Exec? && s.procs[p].pc.Write?
  }

  function ExecTo(s: Sys, p: nat, pc: ExecPc): Sys
    requires p < |s.procs| && s.procs[p].Exec?
  {
    s.(procs := s.procs[p := s.procs[p].(pc := pc)])
  }

  function Release(s: Sys): Sys {
    s.(lock := None)
  }

  function Say(s: Sys, u: Update): Sys {
    s.(trace := s.trace + [u])
  }

  function RunExec(s: Sys, p: nat): Sys
    requires p < |s.procs| && s.procs[p].Exec?
  {
    var e := s.procs[p];
    match e.pc
    case Begin =>
      var event := if s.current.Some? then s.current.value else s.events;
      s.(procs := s.procs[p := e.(pc := Submit, event := event)], current := Some(event),
         events := if s.current.Some? then s.events else s.events + 1)
    case Submit => Say(ExecTo(s, p, Work), SubmittedBy(p))
    case Work => Say(ExecTo(s, p, Check), WorkingBy(p))
    case Check => if e.event in s.raised || e.payload.Unusable? then ExecTo(s, p, Leave) else ExecTo(s, p, WantLock)
    case WantLock => ExecTo(s, p, Decide).(lock := Some(p))
    case Decide =>
      if !s.terminal.Unsettled? || e.event in s.raised then Release(ExecTo(s, p, Leave)) else ExecTo(s, p, Emit)
    case Emit => Say(ExecTo(s, p, Recheck), ArtifactBy(p))
    case Recheck => if e.event in s.raised then Release(ExecTo(s, p, Leave)) else ExecTo(s, p, Complete)
    case Complete => Say(ExecTo(s, p, Write), CompletedBy(p))
    case Write => Release(ExecTo(s, p, Leave)).(terminal := Completed)
    case Leave => ExecTo(s, p, ExecDone).(current := None, cancelled := false)
    case ExecDone => s
  }

  function CancelTo(s: Sys, p: nat, c: CancelPc): Sys
    requires p < |s.procs|
  {
    s.(procs := s.procs[p := Canceler(c)])
  }

  function RunCancel(s: Sys, p: nat): Sys
    requires p < |s.procs| && s.procs[p].Canceler?
  {
    match s.procs[p].cpc
    case CancelWant => CancelTo(s, p, CancelDecide).(lock := Some(p))
    case CancelDecide =>
      if s.terminal == Completed then Release(CancelTo(s, p, Raised))
      else if s.terminal == Canceled || s.cancelled then Release(CancelTo(s, p, Silent))
      else
        var event := if s.current.Some? then s.current.value else s.events;
        CancelTo(s, p, CancelEmit).(cancelled := true, terminal := Canceled, current := Some(event),
                                    raised := s.raised + {event},
                                    events := if s.current.Some? then s.events else s.events + 1)
    case CancelEmit => Say(CancelTo(s, p, CancelRelease), CanceledBy(p))
    case CancelRelease => Release(CancelTo(s, p, Emitted))
    case _ => s
  }

  /** Unwinding releases the lock and, past the first await of an `execute`, runs its final block. */
  function Killed(s: Sys, p: nat): Sys
    requires p < |s.procs|
  {
    var freed := if Holds(s.procs[p]) then Release(s) else s;
    match s.procs[p]
    case Exec(pc, event, payload, _) =>
      freed.(procs := s.procs[p := Exec(if pc.Begin? then ExecDone else Leave, event, payload, true)])
    case Canceler(c) => CancelTo(freed, p, if c.CancelEmit? then Unreported else Aborted)
  }

  function Next(s: Sys, step: Step): Sys
    requires Enabled(s, step)
  {
    match step
    case SpawnExec(payload) => s.(procs := s.procs + [Exec(Begin, 0, payload, false)])
    case SpawnCancel => s.(procs := s.procs + [Canceler(CancelWant)])
    case Run(p) => if s.procs[p].Exec? then RunExec(s, p) else RunCancel(s, p)
    case Kill(p) => Killed(s, p)
    case KillBeforeWrite(p) => Killed(s, p).(late := s.late + 1)
  }

  const IDLE := Sys([], None, Unsettled, false, None, {}, 0, [], 0)

  predicate Runs(s: Sys, steps: seq<Step>, s': Sys)
    decreases |steps|
  {
    if steps == [] then s' == s
    else Enabled(s, steps[0]) && Runs(Next(s, steps[0]), steps[1..], s')
  }

  /** Coroutines killed between enqueueing completion and writing the terminal state. */
  function LateKills(steps: seq<Step>): nat {
    if steps == [] then 0 else (if steps[0].KillBeforeWrite? then 1 else 0) + LateKills(steps[1..])
  }

  /** No coroutine is killed there. */
  predicate Orderly(steps: seq<Step>) {
    forall i :: 0 <= i < |steps| ==> !steps[i].KillBeforeWrite?
  }

  // ---- The invariant ----

  function Completions(trace: seq<Update>): nat {
    if trace == [] then 0 else Completions(trace[..|trace| - 1]) + if trace[|trace| - 1].CompletedBy? then 1 else 0
  }

  function Cancellations(trace: seq<Update>): nat {
    if trace == [] then 0 else Cancellations(trace[..|trace| - 1]) + if trace[|trace| - 1].CanceledBy? then 1 else 0
  }

  /** The lock is held by exactly the coroutine inside it. */
  predicate LockOk(procs: seq<Proc>, lock: Option<nat>) {
    && (lock.Some? ==> lock.value < |procs| && Holds(procs[lock.value]))
    && (forall p :: 0 <= p < |procs| && Holds(procs[p]) ==> lock == Some(p))
  }

  /** The coroutine inside the lock, if any. */
  function Holder(procs: seq<Proc>, lock: Option<nat>): Option<Proc> {
    if lock.Some? && lock.value < |procs| then Some(procs[lock.value]) else None
  }

  /** The `execute` inside the lock has decided to report. */
  predicate Reporting(h: Option<Proc>) {
    h.Some? && h.value.Exec? && (h.value.pc.Emit? || h.value.pc.Recheck? || h.value.pc.Complete? || h.value.pc.Write?)
  }

  predicate AtExec(h: Option<Proc>, pc: ExecPc) {
    h.Some? && h.value.Exec? && h.value.pc == pc
  }

  predicate AtCancel(h: Option<Proc>, c: CancelPc) {
    h.Some? && h.value == Canceler(c)
  }

  /** An `execute` that has decided to report sees no terminal state and no cancellation until it
      gives up the lock; a `cancel` that has decided has written its terminal state; the terminal
      updates enqueued are exactly those the terminal state, the lock's holder and the late kills
      account for. */
  predicate Accounted(h: Option<Proc>, terminal: TerminalState, cancelled: bool, raised: set<nat>,
                      completions: nat, cancellations: nat, late: nat) {
    && (Reporting(h) ==> terminal.Unsettled?)
    && (AtCancel(h, CancelEmit) || AtCancel(h, CancelRelease) ==> terminal.Canceled?)
    && (raised != {} || cancelled ==> terminal.Canceled?)
    && match terminal
       case Unsettled => cancellations == 0 && completions == late + (if AtExec(h, Write) then 1 else 0)
       case Completed => cancellations == 0 && completions == late + 1
       case Canceled => completions == late && cancellations <= 1 && (AtCancel(h, CancelEmit) ==> cancellations == 0)
  }

  predicate Inv(s: Sys) {
    && LockOk(s.procs, s.lock)
    && Accounted(Holder(s.procs, s.lock), s.terminal, s.cancelled, s.raised,
                 Completions(s.trace), Cancellations(s.trace), s.late)
  }

  lemma CountsAppend(trace: seq<Update>, u: Update)
    ensures Completions(trace + [u]) == Completions(trace) + if u.CompletedBy? then 1 else 0
    ensures Cancellations(trace + [u]) == Cancellations(trace) + if u.CanceledBy? then 1 else 0
  {
    assert (trace + [u])[..|trace|] == trace;
  }

  /** One coroutine moves, and takes, keeps or gives up the lock with it. */
  lemma LockStep(procs: seq<Proc>, lock: Option<nat>, p: nat, q: Proc, lock': Option<nat>)
    requires LockOk(procs, lock) && p < |procs|
    requires Holds(q) && !Holds(procs[p]) ==> lock.None?
    requires lock' == if Holds(q) then Some(p) else if Holds(procs[p]) then None else lock
    ensures LockOk(procs[p := q], lock')
    ensures Holder(procs[p := q], lock') ==
            if Holds(q) then Some(q) else if Holds(procs[p]) then None else Holder(procs, lock)
    ensures Holds(procs[p]) ==> Holder(procs, lock) == Some(procs[p])
  {
  }

  /** Outside the lock nothing the invariant reads changes, but for a forgotten flag. */
  lemma OutsideChanges(s: Sys, p: nat)
    requires p < |s.procs| && s.procs[p].Exec? && !Holds(s.procs[p]) && !Waits(s.procs[p])
    ensures var s' := RunExec(s, p);
            && |s'.procs| == |s.procs| && !Holds(s'.procs[p]) && s'.procs == s.procs[p := s'.procs[p]]
            && s'.lock == s.lock
            && s'.terminal == s.terminal && s'.raised == s.raised && (s'.cancelled ==> s.cancelled) && s'.late == s.late
            && Completions(s'.trace) == Completions(s.trace) && Cancellations(s'.trace) == Cancellations(s.trace)
  {
    match s.procs[p].pc
    case Submit => CountsAppend(s.trace, SubmittedBy(p));
    case Work => CountsAppend(s.trace, WorkingBy(p));
    case _ =>
  }

  lemma OutsideKeepsInv(s: Sys, p: nat)
    requires Inv(s) && Enabled(s, Run(p)) && s.procs[p].Exec? && !Holds(s.procs[p]) && !Waits(s.procs[p])
    ensures Inv(RunExec(s, p))
  {
    OutsideChanges(s, p);
    var s' := RunExec(s, p);
    LockStep(s.procs, s.lock, p, s'.procs[p], s'.lock);
  }

  lemma InsideKeepsInv(s: Sys, p: nat)
    requires Inv(s) && Enabled(s, Run(p)) && s.procs[p].Exec? && (Holds(s.procs[p]) || Waits(s.procs[p]))
    ensures Inv(RunExec(s, p))
  {
    var s' := RunExec(s, p);
    InsideChanges(s, p);
    LockStep(s.procs, s.lock, p, s'.procs[p], s'.lock);
  }

  /** What a step inside the lock, or into it, does to each component the invariant reads. */
  lemma InsideChanges(s: Sys, p: nat)
    requires p < |s.procs| && s.procs[p].Exec? && (Holds(s.procs[p]) || Waits(s.procs[p]))
    requires LockOk(s.procs, s.lock) && (Waits(s.procs[p]) ==> s.lock.None?)
    ensures var s', pc := RunExec(s, p), s.procs[p].pc;
            && |s'.procs| == |s.procs| && s'.procs == s.procs[p := s'.procs[p]] && s'.procs[p].Exec?
            && s'.lock == (if Holds(s'.procs[p]) then Some(p) else None)
            && s'.terminal == (if pc.Write? then TerminalState.Completed else s.terminal)
            && s'.raised == s.raised && s'.cancelled == s.cancelled && s'.late == s.late
            && Completions(s'.trace) == Completions(s.trace) + (if pc.Complete? then 1 else 0)
            && Cancellations(s'.trace) == Cancellations(s.trace)
            && (Reporting(Some(s'.procs[p])) ==> Reporting(Some(s.procs[p])) || s.terminal.Unsettled?)
            && (s'.procs[p].pc.Write? <==> pc.Complete?)
  {
    match s.procs[p].pc
    case Emit => CountsAppend(s.trace, ArtifactBy(p));
    case Complete => CountsAppend(s.trace, CompletedBy(p));
    case _ =>
  }

  lemma RunExecKeepsInv(s: Sys, p: nat)
    requires Inv(s) && Enabled(s, Run(p)) && s.procs[p].Exec?
    ensures Inv(RunExec(s, p))
  {
    if Holds(s.procs[p]) || Waits(s.procs[p]) {
      InsideKeepsInv(s, p);
    } else {
      OutsideKeepsInv(s, p);
    }
  }

  lemma RunCancelKeepsInv(s: Sys, p: nat)
    requires Inv(s) && Enabled(s, Run(p)) && s.procs[p].Canceler?
    ensures Inv(RunCancel(s, p))
  {
    var s' := RunCancel(s, p);
    LockStep(s.procs, s.lock, p, s'.procs[p], s'.lock);
    CountsAppend(s.trace, CanceledBy(p));
  }

  lemma KillKeepsInv(s: Sys, p: nat)
    requires Inv(s) && Enabled(s, Kill(p))
    ensures Inv(Killed(s, p))
  {
    var s' := Killed(s, p);
    LockStep(s.procs, s.lock, p, s'.procs[p], s'.lock);
  }

  /** A late kill leaves a completion behind that no terminal state will name. */
  lemma LateKillKeepsInv(s: Sys, p: nat)
    requires Inv(s) && Enabled(s, KillBeforeWrite(p))
    ensures Inv(Next(s, KillBeforeWrite(p)))
  {
    var s' := Killed(s, p);
    LockStep(s.procs, s.lock, p, s'.procs[p], s'.lock);
  }

  lemma SpawnKeepsInv(s: Sys, proc: Proc)
    requires Inv(s) && !Holds(proc)
    ensures Inv(s.(procs := s.procs + [proc]))
  {
    var procs := s.procs + [proc];
    forall p | 0 <= p < |procs| && Holds(procs[p]) ensures s.lock == Some(p) {
      assert p < |s.procs| && procs[p] == s.procs[p];
    }
    assert Holder(procs, s.lock) == Holder(s.procs, s.lock);
  }

  lemma StepKeepsInv(s: Sys, step: Step)
    requires Inv(s) && Enabled(s, step)
    ensures Inv(Next(s, step))
  {
    match step
    case SpawnExec(payload) => SpawnKeepsInv(s, Exec(Begin, 0, payload, false));
    case SpawnCancel => SpawnKeepsInv(s, Canceler(CancelWant));
    case Run(p) =>
      if s.procs[p].Exec? {
        RunExecKeepsInv(s, p);
      } else {
        RunCancelKeepsInv(s, p);
      }
    case Kill(p) => KillKeepsInv(s, p);
    case KillBeforeWrite(p) => LateKillKeepsInv(s, p);
  }

  lemma {:induction false} RunKeepsInv(s: Sys, steps: seq<Step>, s': Sys)
    requires Inv(s) && Runs(s, steps, s')
    ensures Inv(s') && s'.late == s.late + LateKills(steps)
    decreases |steps|
  {
    if steps != [] {
      StepKeepsInv(s, steps[0]);
      LateStep(s, steps[0]);
      RunKeepsInv(Next(s, steps[0]), steps[1..], s');
    }
  }

  lemma LateStep(s: Sys, step: Step)
    requires Enabled(s, step)
    ensures Next(s, step).late == s.late + if step.KillBeforeWrite? then 1 else 0
  {
  }

  // ---- Every artifact is followed by completion ----

  predicate ClosedAfter(trace: seq<Update>, i: nat, p: nat) {
    exists j :: i < j < |trace| && trace[j] == CompletedBy(p)
  }

  /** The artifact's coroutine has completed, is on its way to, or was killed. */
  predicate ArtifactOk(s: Sys, i: nat, p: nat) {
    && p < |s.procs| && s.procs[p].Exec?
    && (s.procs[p].killed || s.procs[p].pc.Recheck? || s.procs[p].pc.Complete? || ClosedAfter(s.trace, i, p))
  }

  predicate ArtifactsOk(s: Sys) {
    forall i :: 0 <= i < |s.trace| && s.trace[i].ArtifactBy? ==> ArtifactOk(s, i, s.trace[i].p)
  }

  lemma ClosedStays(trace: seq<Update>, u: Update, i: nat, p: nat)
    requires ClosedAfter(trace, i, p)
    ensures ClosedAfter(trace + [u], i, p)
  {
    var j :| i < j < |trace| && trace[j] == CompletedBy(p);
    assert (trace + [u])[j] == CompletedBy(p);
  }

  predicate Owing(proc: Proc) {
    proc.Exec? && (proc.killed || proc.pc.Recheck? || proc.pc.Complete?)
  }

  lemma HolderAt(s: Sys, p: nat)
    requires Inv(s) && p < |s.procs| && s.procs[p].Exec? && s.procs[p].pc.Recheck?
    ensures s.procs[p].event !in s.raised
  {
    assert s.lock == Some(p);
  }

  predicate Grows(s: Sys, s': Sys) {
    && (s'.trace == s.trace || (|s'.trace| == |s.trace| + 1 && s'.trace == s.trace + [s'.trace[|s.trace|]]))
    && |s.procs| <= |s'.procs|
    && forall p :: 0 <= p < |s.procs| ==> (s.procs[p].Exec? <==> s'.procs[p].Exec?)
  }

  lemma ExecGrows(s: Sys, p: nat)
    requires p < |s.procs| && s.procs[p].Exec?
    ensures Grows(s, RunExec(s, p))
  {
    match s.procs[p].pc
    case Submit => case Work => case Emit => case Complete =>
    case Begin => case Check => case Decide => case Recheck => case Write => case Leave =>
    case _ =>
  }

  lemma CancelGrows(s: Sys, p: nat)
    requires p < |s.procs| && s.procs[p].Canceler?
    ensures Grows(s, RunCancel(s, p))
  {
    match s.procs[p].cpc
    case CancelWant => case CancelDecide => case CancelEmit => case CancelRelease =>
    case _ =>
  }

  lemma KillGrows(s: Sys, p: nat)
    requires p < |s.procs|
    ensures Grows(s, Killed(s, p))
  {
  }

  /** The trace only grows, by one update at most. */
  lemma TraceGrows(s: Sys, step: Step)
    requires Enabled(s, step)
    ensures Grows(s, Next(s, step))
  {
    match step
    case Run(p) =>
      if s.procs[p].Exec? {
        ExecGrows(s, p);
      } else {
        CancelGrows(s, p);
      }
    case Kill(p) => KillGrows(s, p);
    case KillBeforeWrite(p) => KillGrows(s, p);
    case _ =>
  }

  /** Only the coroutine that takes the step moves. */
  lemma OthersStay(s: Sys, step: Step, q: nat)
    requires Enabled(s, step) && q < |s.procs| && (step.SpawnExec? || step.SpawnCancel? || q != step.p)
    ensures q < |Next(s, step).procs| && Next(s, step).procs[q] == s.procs[q]
  {
    if !step.SpawnExec? && !step.SpawnCancel? {
      if step.Run? {
        if s.procs[step.p].Exec? {
          ExecUpdates(s, step.p);
        } else {
          CancelUpdates(s, step.p);
        }
      }
    }
  }

  lemma ExecUpdates(s: Sys, p: nat)
    requires p < |s.procs| && s.procs[p].Exec?
    ensures var s' := RunExec(s, p);
            |s'.procs| == |s.procs| && s'.procs == s.procs[p := s'.procs[p]] && s'.procs[p].Exec?
  {
    match s.procs[p].pc
    case Begin => case Submit => case Work => case Check => case WantLock => case Decide =>
    case Emit => case Recheck => case Complete => case Write => case Leave => case ExecDone =>
  }

  lemma CancelUpdates(s: Sys, p: nat)
    requires p < |s.procs| && s.procs[p].Canceler?
    ensures var s' := RunCancel(s, p);
            |s'.procs| == |s.procs| && s'.procs == s.procs[p := s'.procs[p]] && s'.procs[p].Canceler?
  {
    match s.procs[p].cpc
    case CancelWant => case CancelDecide => case CancelEmit => case CancelRelease =>
    case _ =>
  }

  lemma OwingRuns(s: Sys, p: nat)
    requires Inv(s) && Enabled(s, Run(p)) && Owing(s.procs[p])
    ensures var s' := RunExec(s, p);
            p < |s'.procs| && (Owing(s'.procs[p]) || s'.trace == s.trace + [CompletedBy(p)])
  {
    ExecUpdates(s, p);
    match s.procs[p].pc
    case Recheck => HolderAt(s, p);
    case Complete =>
    case _ =>
  }

  /** A coroutine that owes a completion pays it, still owes it, or is killed. */
  lemma OwingStep(s: Sys, step: Step, p: nat)
    requires Inv(s) && Enabled(s, step) && p < |s.procs| && Owing(s.procs[p])
    ensures var s' := Next(s, step);
            p < |s'.procs| && (Owing(s'.procs[p]) || s'.trace == s.trace + [CompletedBy(p)])
  {
    if step.SpawnExec? || step.SpawnCancel? || step.p != p {
      OthersStay(s, step, p);
    } else if step.Run? {
      OwingRuns(s, p);
    }
  }

  lemma StepKeepsArtifact(s: Sys, step: Step, i: nat)
    requires Inv(s) && Enabled(s, step)
    requires i < |s.trace| && s.trace[i].ArtifactBy? && ArtifactOk(s, i, s.trace[i].p)
    ensures ArtifactOk(Next(s, step), i, s.trace[i].p)
  {
    var p, s' := s.trace[i].p, Next(s, step);
    TraceGrows(s, step);
    if ClosedAfter(s.trace, i, p) {
      if s'.trace != s.trace {
        ClosedStays(s.trace, s'.trace[|s.trace|], i, p);
      }
    } else {
      OwingStep(s, step, p);
      if !Owing(s'.procs[p]) {
        assert s'.trace[|s.trace|] == CompletedBy(p);
      }
    }
  }

  lemma NewArtifact(s: Sys, step: Step)
    requires Enabled(s, step) && |Next(s, step).trace| == |s.trace| + 1 && Next(s, step).trace[|s.trace|].ArtifactBy?
    ensures ArtifactOk(Next(s, step), |s.trace|, Next(s, step).trace[|s.trace|].p)
  {
  }

  lemma StepKeepsArtifacts(s: Sys, step: Step)
    requires Inv(s) && ArtifactsOk(s) && Enabled(s, step)
    ensures ArtifactsOk(Next(s, step))
  {
    var s' := Next(s, step);
    TraceGrows(s, step);
    forall i | 0 <= i < |s'.trace| && s'.trace[i].ArtifactBy? ensures ArtifactOk(s', i, s'.trace[i].p) {
      if i < |s.trace| {
        StepKeepsArtifact(s, step, i);
      } else {
        NewArtifact(s, step);
      }
    }
  }

  lemma {:induction false} RunKeepsArtifacts(s: Sys, steps: seq<Step>, s': Sys)
    requires Inv(s) && ArtifactsOk(s) && Runs(s, steps, s')
    ensures Inv(s') && ArtifactsOk(s')
    decreases |steps|
  {
    if steps != [] {
      StepKeepsInv(s, steps[0]);
      StepKeepsArtifacts(s, steps[0]);
      RunKeepsArtifacts(Next(s, steps[0]), steps[1..], s');
    }
  }

  /** An artifact whose coroutine has run to its end without being killed is followed by that
      coroutine's completion. */
  lemma ArtifactsComplete(steps: seq<Step>, s: Sys, i: nat)
    requires Runs(IDLE, steps, s)
    requires i < |s.trace| && s.trace[i].ArtifactBy?
    ensures var p := s.trace[i].p;
            p < |s.procs| && s.procs[p].Exec? && (Done(s.procs[p]) && !s.procs[p].killed ==> ClosedAfter(s.trace, i, p))
  {
    assert Inv(IDLE) && ArtifactsOk(IDLE);
    RunKeepsArtifacts(IDLE, steps, s);
    assert ArtifactOk(s, i, s.trace[i].p);
  }

  // ---- Every coroutine reports in order ----

  /** The updates of one coroutine. */
  function Own(trace: seq<Update>, p: nat): seq<Update> {
    if trace == [] then []
    else Own(trace[..|trace| - 1], p) + if trace[|trace| - 1].p == p then [trace[|trace| - 1]] else []
  }

  lemma OwnAppend(trace: seq<Update>, u: Update, p: nat)
    ensures Own(trace + [u], p) == if u.p == p then Own(trace, p) + [u] else Own(trace, p)
  {
    assert (trace + [u])[..|trace|] == trace;
  }

  /** What an `execute` has to report, in this order. */
  function Reports(p: nat): seq<Update> {
    [SubmittedBy(p), WorkingBy(p), ArtifactBy(p), CompletedBy(p)]
  }

  function Reported(pc: ExecPc): nat {
    match pc
    case Begin => 0 case Submit => 0 case Work => 1 case Check => 2 case WantLock => 2 case Decide => 2
    case Emit => 2 case Recheck => 3 case Complete => 3 case Write => 4 case Leave => 4 case ExecDone => 4
  }

  /** An `execute` has reported as far as it has come, or where it was cut off; a `cancel` reports at
      most once. */
  predicate InOrder(proc: Proc, p: nat, own: seq<Update>) {
    match proc
    case Exec(pc, _, _, _) =>
      if pc.Leave? || pc.ExecDone? then own <= Reports(p) else own == Reports(p)[..Reported(pc)]
    case Canceler(c) =>
      if c.CancelRelease? || c.Emitted? then own == [CanceledBy(p)]
      else if c.Aborted? then own <= [CanceledBy(p)]
      else own == []
  }

  ghost predicate OrderOk(procs: seq<Proc>, trace: seq<Update>) {
    && (forall p: nat :: p < |procs| ==> InOrder(procs[p], p, Own(trace, p)))
    && (forall p: nat :: p >= |procs| ==> Own(trace, p) == [])
  }

  function Says(pc: ExecPc, p: nat): Option<Update> {
    match pc
    case Submit => Some(SubmittedBy(p))
    case Work => Some(WorkingBy(p))
    case Emit => Some(ArtifactBy(p))
    case Complete => Some(CompletedBy(p))
    case _ => None
  }

  lemma ExecSpeaks(s: Sys, p: nat)
    requires p < |s.procs| && s.procs[p].Exec?
    ensures var s', pc := RunExec(s, p), s.procs[p].pc;
            && s'.trace == (if Says(pc, p).Some? then s.trace + [Says(pc, p).value] else s.trace)
            && |s'.procs| == |s.procs| && s'.procs[p].Exec?
            && (pc.Leave? || pc.ExecDone? ==> s'.procs[p].pc.ExecDone?)
            && (s'.procs[p].pc.Leave? || s'.procs[p].pc.ExecDone?
                || Reported(s'.procs[p].pc) == Reported(pc) + if Says(pc, p).Some? then 1 else 0)
            && (s'.procs[p].pc.Leave? ==> Says(pc, p).None?)
  {
    match s.procs[p].pc
    case Begin => case Submit => case Work => case Check => case WantLock => case Decide =>
    case Emit => case Recheck => case Complete => case Write => case Leave => case ExecDone =>
  }

  lemma ExecInOrder(s: Sys, p: nat)
    requires p < |s.procs| && s.procs[p].Exec? && InOrder(s.procs[p], p, Own(s.trace, p))
    ensures p < |RunExec(s, p).procs| && InOrder(RunExec(s, p).procs[p], p, Own(RunExec(s, p).trace, p))
    ensures forall q :: q != p ==> Own(RunExec(s, p).trace, q) == Own(s.trace, q)
  {
    ExecSpeaks(s, p);
    var said := Says(s.procs[p].pc, p);
    if said.Some? {
      forall q: nat
        ensures Own(s.trace + [said.value], q) == if q == p then Own(s.trace, q) + [said.value] else Own(s.trace, q)
      {
        OwnAppend(s.trace, said.value, q);
      }
      NextReport(s.procs[p].pc, p);
    }
  }

  lemma NextReport(pc: ExecPc, p: nat)
    requires Says(pc, p).Some?
    ensures Reported(pc) < 4 && Reports(p)[..Reported(pc)] + [Says(pc, p).value] == Reports(p)[..Reported(pc) + 1]
  {
    assert Reports(p)[Reported(pc)] == Says(pc, p).value;
  }

  lemma CancelSpeaks(s: Sys, p: nat)
    requires p < |s.procs| && s.procs[p].Canceler?
    ensures var s', c := RunCancel(s, p), s.procs[p].cpc;
            && s'.trace == (if c.CancelEmit? then s.trace + [CanceledBy(p)] else s.trace)
            && |s'.procs| == |s.procs| && s'.procs[p].Canceler?
            && match c
               case CancelEmit => s'.procs[p].cpc.CancelRelease?
               case CancelRelease => s'.procs[p].cpc.Emitted?
               case CancelWant => s'.procs[p].cpc.CancelDecide?
               case CancelDecide => s'.procs[p].cpc.CancelEmit? || s'.procs[p].cpc.Silent? || s'.procs[p].cpc.Raised?
               case _ => s'.procs[p].cpc == c
  {
    match s.procs[p].cpc
    case CancelWant => case CancelDecide => case CancelEmit => case CancelRelease =>
    case _ =>
  }

  lemma CancelInOrder(s: Sys, p: nat)
    requires p < |s.procs| && s.procs[p].Canceler? && InOrder(s.procs[p], p, Own(s.trace, p))
    ensures p < |RunCancel(s, p).procs| && InOrder(RunCancel(s, p).procs[p], p, Own(RunCancel(s, p).trace, p))
    ensures forall q :: q != p ==> Own(RunCancel(s, p).trace, q) == Own(s.trace, q)
  {
    CancelSpeaks(s, p);
    if s.procs[p].cpc.CancelEmit? {
      forall q
        ensures Own(s.trace + [CanceledBy(p)], q) ==
                if q == p then Own(s.trace, q) + [CanceledBy(p)] else Own(s.trace, q)
      {
        OwnAppend(s.trace, CanceledBy(p), q);
      }
    }
  }

  lemma KilledInOrder(s: Sys, p: nat)
    requires p < |s.procs| && !Done(s.procs[p]) && InOrder(s.procs[p], p, Own(s.trace, p))
    ensures p < |Killed(s, p).procs| && InOrder(Killed(s, p).procs[p], p, Own(Killed(s, p).trace, p))
    ensures Killed(s, p).trace == s.trace
  {
  }

  lemma StepKeepsOrder(s: Sys, step: Step)
    requires OrderOk(s.procs, s.trace) && Enabled(s, step)
    ensures OrderOk(Next(s, step).procs, Next(s, step).trace)
  {
    if !step.SpawnExec? && !step.SpawnCancel? {
      var p, s' := step.p, Next(s, step);
      CountStays(s, step);
      if step.Run? {
        if s.procs[p].Exec? {
          ExecInOrder(s, p);
        } else {
          CancelInOrder(s, p);
        }
      } else {
        KilledInOrder(s, p);
      }
      forall q: nat | q < |s'.procs| ensures InOrder(s'.procs[q], q, Own(s'.trace, q)) {
        if q != p { OthersStay(s, step, q); }
      }
    }
  }

  lemma {:induction false} RunKeepsOrder(s: Sys, steps: seq<Step>, s': Sys)
    requires OrderOk(s.procs, s.trace) && Runs(s, steps, s')
    ensures OrderOk(s'.procs, s'.trace)
    decreases |steps|
  {
    if steps != [] {
      StepKeepsOrder(s, steps[0]);
      RunKeepsOrder(Next(s, steps[0]), steps[1..], s');
    }
  }

  /** Over every run each `execute` reports submitted, working, artifact and completed, in this order,
      once each, and as far as it has come; each `cancel` reports at most one cancellation. */
  lemma ReportsInOrder(steps: seq<Step>, s: Sys, p: nat)
    requires Runs(IDLE, steps, s) && p < |s.procs|
    ensures match s.procs[p]
            case Exec(pc, _, _, _) =>
              && Own(s.trace, p) <= [SubmittedBy(p), WorkingBy(p), ArtifactBy(p), CompletedBy(p)]
              && (pc.Work? ==> Own(s.trace, p) == [SubmittedBy(p)])
              && (pc.WantLock? || pc.Decide? ==> Own(s.trace, p) == [SubmittedBy(p), WorkingBy(p)])
              && (pc.Write? ==> |Own(s.trace, p)| == 4)
            case Canceler(c) =>
              Own(s.trace, p) <= [CanceledBy(p)] && (c.Emitted? ==> Own(s.trace, p) == [CanceledBy(p)])
  {
    RunKeepsOrder(IDLE, steps, s);
    assert InOrder(s.procs[p], p, Own(s.trace, p));
  }

  // ---- No deadlock ----

  function Rank(proc: Proc): nat {
    match proc
    case Exec(pc, _, _, _) => (
      match pc
      case Begin => 11 case Submit => 10 case Work => 9 case Check => 8 case WantLock => 7 case Decide => 6
      case Emit => 5 case Recheck => 4 case Complete => 3 case Write => 2 case Leave => 1 case ExecDone => 0)
    case Canceler(c) => (
      match c
      case CancelWant => 4 case CancelDecide => 3 case CancelEmit => 2 case CancelRelease => 1 case _ => 0)
  }

  function Remaining(procs: seq<Proc>): nat {
    if procs == [] then 0 else Remaining(procs[..|procs| - 1]) + Rank(procs[|procs| - 1])
  }

  lemma {:induction false} RemainingUpdate(procs: seq<Proc>, p: nat, q: Proc)
    requires p < |procs|
    ensures Remaining(procs[p := q]) == Remaining(procs) - Rank(procs[p]) + Rank(q)
  {
    var n := |procs| - 1;
    if p == n {
      assert procs[p := q][..n] == procs[..n];
    } else {
      assert procs[p := q][..n] == procs[..n][p := q];
      RemainingUpdate(procs[..n], p, q);
    }
  }

  predicate Moves(s: Sys, p: nat, s': Sys) {
    && p < |s.procs| == |s'.procs| && s'.procs == s.procs[p := s'.procs[p]]
    && Rank(s'.procs[p]) < Rank(s.procs[p])
  }

  lemma ExecMoves(s: Sys, p: nat)
    requires p < |s.procs| && s.procs[p].Exec? && !Done(s.procs[p])
    ensures Moves(s, p, RunExec(s, p))
  {
    match s.procs[p].pc
    case Begin => case Submit => case Work => case Check => case WantLock => case Decide =>
    case Emit => case Recheck => case Complete => case Write => case Leave => case ExecDone =>
  }

  lemma CancelMoves(s: Sys, p: nat)
    requires p < |s.procs| && s.procs[p].Canceler? && !Done(s.procs[p])
    ensures Moves(s, p, RunCancel(s, p))
  {
    match s.procs[p].cpc
    case CancelWant => case CancelDecide => case CancelEmit => case CancelRelease => case _ =>
  }

  lemma KillMoves(s: Sys, p: nat)
    requires p < |s.procs| && !Done(s.procs[p]) && (s.procs[p].Exec? ==> !s.procs[p].pc.Leave?)
    ensures Moves(s, p, Killed(s, p))
  {
  }

  /** Every step of a coroutine brings it closer to its end. */
  lemma StepsCount(s: Sys, step: Step)
    requires Enabled(s, step) && !step.SpawnExec? && !step.SpawnCancel?
    ensures Remaining(Next(s, step).procs) < Remaining(s.procs)
  {
    var p := step.p;
    if step.Run? {
      if s.procs[p].Exec? {
        ExecMoves(s, p);
      } else {
        CancelMoves(s, p);
      }
    } else {
      KillMoves(s, p);
    }
    RemainingUpdate(s.procs, p, Next(s, step).procs[p]);
  }

  /** A run that starts no further coroutine is no longer than the steps left at its start. */
  lemma {:induction false} RunsEnd(s: Sys, steps: seq<Step>, s': Sys)
    requires Runs(s, steps, s') && forall i :: 0 <= i < |steps| ==> !steps[i].SpawnExec? && !steps[i].SpawnCancel?
    ensures |steps| <= Remaining(s.procs)
    decreases |steps|
  {
    if steps != [] {
      StepsCount(s, steps[0]);
      RunsEnd(Next(s, steps[0]), steps[1..], s');
    }
  }

  /** If a coroutine is not done, some coroutine can move: the lock's holder, or else anyone. */
  lemma SomeoneCanMove(s: Sys, p: nat) returns (q: nat)
    requires Inv(s) && p < |s.procs| && !Done(s.procs[p])
    ensures Enabled(s, Run(q))
  {
    q := if s.lock.Some? then s.lock.value else p;
  }

  predicate AllDone(s: Sys) {
    forall p :: 0 <= p < |s.procs| ==> Done(s.procs[p])
  }

  /** No deadlock is reachable: from every reachable state the coroutines can all be run to their
      ends, within as many steps as they have left. */
  lemma {:induction false} CanFinish(s: Sys) returns (steps: seq<Step>, s': Sys)
    requires Inv(s)
    ensures Runs(s, steps, s') && Orderly(steps) && AllDone(s') && |steps| <= Remaining(s.procs)
    decreases Remaining(s.procs)
  {
    if AllDone(s) {
      return [], s;
    }
    var p :| 0 <= p < |s.procs| && !Done(s.procs[p]);
    var q := SomeoneCanMove(s, p);
    StepsCount(s, Run(q));
    StepKeepsInv(s, Run(q));
    var rest, last := CanFinish(Next(s, Run(q)));
    steps, s' := [Run(q)] + rest, last;
    assert steps[1..] == rest;
  }

  // ---- How it ends ----

  /** A `cancel` was killed after deciding and before reporting. */
  predicate Unsaid(procs: seq<Proc>) {
    exists p :: 0 <= p < |procs| && procs[p] == Canceler(Unreported)
  }

  /** What a coroutine that is through says about the terminal state. */
  predicate Verdict(proc: Proc, terminal: TerminalState) {
    match proc
    case Exec(pc, _, payload, killed) =>
      (pc.Leave? || pc.ExecDone?) && payload.Reviewable? && !killed ==> !terminal.Unsettled?
    case Canceler(c) => (c.Raised? ==> terminal.Completed?)
                        && (c.Silent? || c.Emitted? || c.CancelRelease? ==> terminal.Canceled?)
  }

  predicate VerdictsOk(s: Sys) {
    forall p :: 0 <= p < |s.procs| ==> Verdict(s.procs[p], s.terminal)
  }

  /** A canceled task is unreported exactly while its `cancel` is about to report, or if that was
      killed first. */
  predicate CancelReported(s: Sys) {
    && (Unsaid(s.procs) ==> s.terminal.Canceled? && !AtCancel(Holder(s.procs, s.lock), CancelEmit))
    && (s.terminal.Canceled? ==>
          (Cancellations(s.trace) == 0 <==> AtCancel(Holder(s.procs, s.lock), CancelEmit) || Unsaid(s.procs)))
  }

  /** The terminal state, once written, stands. */
  lemma TerminalStands(s: Sys, step: Step)
    requires Inv(s) && Enabled(s, step) && !s.terminal.Unsettled?
    ensures Next(s, step).terminal == s.terminal
  {
  }

  lemma MoverVerdict(s: Sys, step: Step)
    requires Inv(s) && VerdictsOk(s) && Enabled(s, step) && !step.SpawnExec? && !step.SpawnCancel?
    ensures step.p < |Next(s, step).procs| && Verdict(Next(s, step).procs[step.p], Next(s, step).terminal)
  {
    var p := step.p;
    CountStays(s, step);
    assert Verdict(s.procs[p], s.terminal);
    assert Holds(s.procs[p]) ==> s.lock == Some(p);
    if step.Run? {
      if s.procs[p].Exec? {
        ExecVerdict(s, p);
      } else {
        CancelVerdict(s, p);
      }
    }
  }

  lemma ExecVerdict(s: Sys, p: nat)
    requires Inv(s) && Enabled(s, Run(p)) && s.procs[p].Exec? && Verdict(s.procs[p], s.terminal)
    ensures p < |RunExec(s, p).procs| && Verdict(RunExec(s, p).procs[p], RunExec(s, p).terminal)
  {
    ExecUpdates(s, p);
    match s.procs[p].pc
    case Check => case Decide => case Recheck => case Write => case Leave =>
    case _ =>
  }

  lemma CancelVerdict(s: Sys, p: nat)
    requires Inv(s) && Enabled(s, Run(p)) && s.procs[p].Canceler? && Verdict(s.procs[p], s.terminal)
    ensures p < |RunCancel(s, p).procs| && Verdict(RunCancel(s, p).procs[p], RunCancel(s, p).terminal)
  {
    CancelUpdates(s, p);
    match s.procs[p].cpc
    case CancelDecide => case CancelEmit => case CancelRelease =>
    case _ =>
  }

  lemma StepKeepsVerdicts(s: Sys, step: Step)
    requires Inv(s) && VerdictsOk(s) && Enabled(s, step)
    ensures VerdictsOk(Next(s, step))
  {
    forall q | 0 <= q < |Next(s, step).procs| ensures Verdict(Next(s, step).procs[q], Next(s, step).terminal) {
      StepKeepsVerdict(s, step, q);
    }
  }

  lemma StepKeepsVerdict(s: Sys, step: Step, q: nat)
    requires Inv(s) && VerdictsOk(s) && Enabled(s, step) && q < |Next(s, step).procs|
    ensures Verdict(Next(s, step).procs[q], Next(s, step).terminal)
  {
    if step.SpawnExec? || step.SpawnCancel? {
      if q < |s.procs| { OthersVerdict(s, step, q); }
    } else if q == step.p {
      MoverVerdict(s, step);
    } else {
      CountStays(s, step);
      OthersStay(s, step, q);
      OthersVerdict(s, step, q);
    }
  }

  lemma CountStays(s: Sys, step: Step)
    requires Enabled(s, step) && !step.SpawnExec? && !step.SpawnCancel?
    ensures |Next(s, step).procs| == |s.procs|
  {
    if step.Run? {
      if s.procs[step.p].Exec? {
        ExecUpdates(s, step.p);
      } else {
        CancelUpdates(s, step.p);
      }
    }
  }

  lemma OthersVerdict(s: Sys, step: Step, q: nat)
    requires Inv(s) && VerdictsOk(s) && Enabled(s, step) && q < |s.procs|
    ensures Verdict(s.procs[q], Next(s, step).terminal)
  {
    assert Verdict(s.procs[q], s.terminal);
    if !s.terminal.Unsettled? {
      TerminalStands(s, step);
    }
  }

  lemma UnsaidUpdate(procs: seq<Proc>, p: nat, q: Proc)
    requires p < |procs| && procs[p] != Canceler(Unreported)
    ensures Unsaid(procs[p := q]) <==> Unsaid(procs) || q == Canceler(Unreported)
  {
    if r :| 0 <= r < |procs| && procs[r] == Canceler(Unreported) {
      assert procs[p := q][r] == procs[r];
    }
    assert procs[p := q][p] == q;
  }

  lemma SpawnKeepsReported(s: Sys, proc: Proc)
    requires LockOk(s.procs, s.lock) && CancelReported(s) && proc != Canceler(Unreported)
    ensures CancelReported(s.(procs := s.procs + [proc]))
  {
    var procs := s.procs + [proc];
    assert Holder(procs, s.lock) == Holder(s.procs, s.lock);
    if r :| 0 <= r < |s.procs| && s.procs[r] == Canceler(Unreported) {
      assert procs[r] == s.procs[r];
    }
  }

  lemma StepKeepsReported(s: Sys, step: Step)
    requires Inv(s) && CancelReported(s) && Enabled(s, step)
    ensures CancelReported(Next(s, step))
  {
    match step
    case SpawnExec(payload) => SpawnKeepsReported(s, Exec(Begin, 0, payload, false));
    case SpawnCancel => SpawnKeepsReported(s, Canceler(CancelWant));
    case Run(p) =>
      if s.procs[p].Exec? {
        ExecKeepsReported(s, p);
      } else {
        CancelKeepsReported(s, p);
      }
    case Kill(p) => KillKeepsReported(s, p);
    case KillBeforeWrite(p) => KillKeepsReported(s, p);
  }

  lemma KillKeepsReported(s: Sys, p: nat)
    requires Inv(s) && CancelReported(s) && p < |s.procs| && !Done(s.procs[p])
    ensures CancelReported(Killed(s, p))
  {
    var s' := Killed(s, p);
    LockStep(s.procs, s.lock, p, s'.procs[p], s'.lock);
    UnsaidUpdate(s.procs, p, s'.procs[p]);
  }

  lemma CancelKeepsReported(s: Sys, p: nat)
    requires Inv(s) && CancelReported(s) && Enabled(s, Run(p)) && s.procs[p].Canceler?
    ensures CancelReported(RunCancel(s, p))
  {
    var s' := RunCancel(s, p);
    CancelUpdates(s, p);
    LockStep(s.procs, s.lock, p, s'.procs[p], s'.lock);
    UnsaidUpdate(s.procs, p, s'.procs[p]);
    CountsAppend(s.trace, CanceledBy(p));
  }

  lemma ExecKeepsReported(s: Sys, p: nat)
    requires Inv(s) && CancelReported(s) && Enabled(s, Run(p)) && s.procs[p].Exec?
    ensures CancelReported(RunExec(s, p))
  {
    var s' := RunExec(s, p);
    ExecUpdates(s, p);
    UnsaidUpdate(s.procs, p, s'.procs[p]);
    if Holds(s.procs[p]) || Waits(s.procs[p]) {
      InsideChanges(s, p);
    } else {
      OutsideChanges(s, p);
    }
    LockStep(s.procs, s.lock, p, s'.procs[p], s'.lock);
  }

  /** A late kill leaves a killed coroutine behind. */
  predicate LateMarked(s: Sys) {
    s.late > 0 ==> SomeKilled(s.procs)
  }

  predicate SomeKilled(procs: seq<Proc>) {
    exists p :: 0 <= p < |procs| && procs[p].Exec? && procs[p].killed
  }

  lemma StepKeepsMark(s: Sys, step: Step)
    requires LateMarked(s) && Enabled(s, step)
    ensures LateMarked(Next(s, step))
  {
    var s' := Next(s, step);
    LateStep(s, step);
    if step.KillBeforeWrite? {
      assert s'.procs[step.p].killed;
    } else if s.late > 0 {
      var p :| 0 <= p < |s.procs| && s.procs[p].Exec? && s.procs[p].killed;
      KilledStays(s, step, p);
    }
  }

  lemma KilledStays(s: Sys, step: Step, p: nat)
    requires Enabled(s, step) && p < |s.procs| && s.procs[p].Exec? && s.procs[p].killed
    ensures p < |Next(s, step).procs| && Next(s, step).procs[p].Exec? && Next(s, step).procs[p].killed
  {
    if step.SpawnExec? || step.SpawnCancel? || step.p != p {
      OthersStay(s, step, p);
    } else if step.Run? {
      match s.procs[p].pc
      case Begin => case Submit => case Work => case Check => case WantLock => case Decide =>
      case Emit => case Recheck => case Complete => case Write => case Leave => case ExecDone =>
    }
  }

  ghost predicate Settled(s: Sys) {
    Inv(s) && VerdictsOk(s) && CancelReported(s) && LateMarked(s)
  }

  lemma {:induction false} RunKeepsSettled(s: Sys, steps: seq<Step>, s': Sys)
    requires Settled(s) && Runs(s, steps, s')
    ensures Settled(s')
    decreases |steps|
  {
    if steps != [] {
      StepKeepsInv(s, steps[0]);
      StepKeepsVerdicts(s, steps[0]);
      StepKeepsReported(s, steps[0]);
      StepKeepsMark(s, steps[0]);
      RunKeepsSettled(Next(s, steps[0]), steps[1..], s');
    }
  }

  // ---- How many terminal updates there are, exactly ----

  /** The terminal state was reported, or will be written by the coroutine that has just reported. */
  predicate ReportStands(s: Sys) {
    || s.terminal.Completed?
    || AtExec(Holder(s.procs, s.lock), Write)
    || (s.terminal.Canceled? && !AtCancel(Holder(s.procs, s.lock), CancelEmit) && !Unsaid(s.procs))
  }

  /** Over every run, whatever is killed and when, the terminal updates are one for each late kill
      and one for the terminal state once it is reported. So there is at most one if and only if
      those are at most one together. */
  lemma TerminalUpdatesExactly(steps: seq<Step>, s: Sys)
    requires Runs(IDLE, steps, s)
    ensures Completions(s.trace) + Cancellations(s.trace) == LateKills(steps) + if ReportStands(s) then 1 else 0
    ensures Cancellations(s.trace) <= 1 && (Cancellations(s.trace) == 1 ==> s.terminal.Canceled?)
    ensures Completions(s.trace) + Cancellations(s.trace) <= 1
            <==> LateKills(steps) == 0 || (LateKills(steps) == 1 && !ReportStands(s))
  {
    assert Settled(IDLE);
    RunKeepsInv(IDLE, steps, s);
    RunKeepsSettled(IDLE, steps, s);
  }

  /** However the coroutines interleave, without a late kill at most one terminal update is ever
      enqueued, and it is the one the terminal state names. */
  lemma AtMostOneTerminalUpdate(steps: seq<Step>, s: Sys)
    requires Runs(IDLE, steps, s) && Orderly(steps)
    ensures Completions(s.trace) + Cancellations(s.trace) <= 1
    ensures s.terminal.Completed? ==> Completions(s.trace) == 1
    ensures s.terminal.Canceled? ==> Completions(s.trace) == 0
  {
    TerminalUpdatesExactly(steps, s);
    NoLateKills(steps);
    assert Inv(IDLE);
    RunKeepsInv(IDLE, steps, s);
  }

  lemma {:induction false} NoLateKills(steps: seq<Step>)
    requires Orderly(steps)
    ensures LateKills(steps) == 0
  {
    if steps != [] { NoLateKills(steps[1..]); }
  }

  predicate Untouched(proc: Proc) {
    match proc
    case Exec(_, _, _, killed) => !killed
    case Canceler(c) => !c.Aborted? && !c.Unreported?
  }

  /** When every coroutine is through and none was killed, and a `cancel` or a usable `execute` was
      among them, exactly one terminal update was enqueued: completion, and then every `cancel`
      raised; or cancellation, and then every `cancel` reported it or kept silent. */
  lemma ExactlyOneTerminalUpdate(steps: seq<Step>, s: Sys, p: nat)
    requires Runs(IDLE, steps, s) && AllDone(s)
    requires forall q :: 0 <= q < |s.procs| ==> Untouched(s.procs[q])
    requires p < |s.procs| && (s.procs[p].Canceler? || s.procs[p].payload.Reviewable?)
    ensures Completions(s.trace) + Cancellations(s.trace) == 1
    ensures s.terminal.Completed? <==> Completions(s.trace) == 1
    ensures forall q :: 0 <= q < |s.procs| && s.procs[q].Canceler? ==>
              if s.terminal.Completed? then s.procs[q].cpc.Raised?
              else s.procs[q].cpc.Emitted? || s.procs[q].cpc.Silent?
  {
    assert Settled(IDLE);
    RunKeepsSettled(IDLE, steps, s);
    assert s.lock.None?;
    assert !Unsaid(s.procs) && !SomeKilled(s.procs);
    assert Verdict(s.procs[p], s.terminal);
    forall q | 0 <= q < |s.procs| && s.procs[q].Canceler?
      ensures if s.terminal.Completed? then s.procs[q].cpc.Raised?
              else s.procs[q].cpc.Emitted? || s.procs[q].cpc.Silent?
    {
      assert Verdict(s.procs[q], s.terminal);
    }
  }

  // ---- A late kill can be reported twice ----

  lemma {:induction false} RunsAppend(s: Sys, steps: seq<Step>, s': Sys, step: Step)
    requires Runs(s, steps, s') && Enabled(s', step)
    ensures Runs(s, steps + [step], Next(s', step))
    decreases |steps|
  {
    if steps == [] {
      assert Runs(Next(s, step), [], Next(s', step));
      assert ([] + [step])[1..] == [];
    } else {
      assert (steps + [step])[1..] == steps[1..] + [step];
      RunsAppend(Next(s, steps[0]), steps[1..], s', step);
    }
  }

  function Progress(pc: ExecPc): nat {
    match pc
    case Begin => 0 case Submit => 1 case Work => 2 case Check => 3 case WantLock => 4 case Decide => 5
    case Emit => 6 case Recheck => 7 case Complete => 8 case Write => 9 case Leave => 10 case ExecDone => 11
  }

  /** One `execute` alone, i steps on its way to completion. */
  predicate Alone(s: Sys, i: nat) {
    && |s.procs| == 1 && s.procs[0].Exec? && Progress(s.procs[0].pc) == i
    && s.procs[0].payload.Reviewable? && s.terminal.Unsettled? && s.raised == {} && !s.cancelled
    && (i <= 4 ==> s.lock.None?)
  }

  lemma AloneStep(s: Sys, i: nat)
    requires i < 9 && Alone(s, i)
    ensures Enabled(s, Run(0)) && Alone(RunExec(s, 0), i + 1)
  {
    match s.procs[0].pc
    case Begin => case Submit => case Work => case Check => case WantLock => case Decide =>
    case Emit => case Recheck => case Complete =>
  }

  lemma AloneCounts(s: Sys)
    requires |s.procs| == 1 && s.procs[0].Exec?
    ensures var s' := RunExec(s, 0);
            && Completions(s'.trace) == Completions(s.trace) + (if s.procs[0].pc.Complete? then 1 else 0)
            && Cancellations(s'.trace) == Cancellations(s.trace)
  {
    match s.procs[0].pc
    case Submit => CountsAppend(s.trace, SubmittedBy(0));
    case Work => CountsAppend(s.trace, WorkingBy(0));
    case Emit => CountsAppend(s.trace, ArtifactBy(0));
    case Complete => CountsAppend(s.trace, CompletedBy(0));
    case _ =>
  }

  lemma ReachWrite() returns (steps: seq<Step>, s: Sys)
    ensures Runs(IDLE, steps, s) && Alone(s, 9) && Completions(s.trace) == 1 && Cancellations(s.trace) == 0
  {
    s := Next(IDLE, SpawnExec(Reviewable));
    RunsAppend(IDLE, [], IDLE, SpawnExec(Reviewable));
    steps := [] + [SpawnExec(Reviewable)];
    for i := 0 to 9
      invariant Runs(IDLE, steps, s) && Alone(s, i)
      invariant Completions(s.trace) == (if i == 9 then 1 else 0) && Cancellations(s.trace) == 0
    {
      AloneStep(s, i);
      AloneCounts(s);
      RunsAppend(IDLE, steps, s, Run(0));
      steps, s := steps + [Run(0)], RunExec(s, 0);
    }
  }

  /** A `cancel` on a task that nothing has settled. */
  lemma CancelAfter(steps: seq<Step>, s: Sys) returns (more: seq<Step>, s': Sys)
    requires Runs(IDLE, steps, s) && |s.procs| == 1 && s.lock.None? && s.terminal.Unsettled? && !s.cancelled
    ensures Runs(IDLE, more, s') && Completions(s'.trace) == Completions(s.trace)
            && Cancellations(s'.trace) == Cancellations(s.trace) + 1
  {
    RunsAppend(IDLE, steps, s, SpawnCancel);
    more, s' := steps + [SpawnCancel], Next(s, SpawnCancel);
    RunsAppend(IDLE, more, s', Run(1));
    more, s' := more + [Run(1)], RunCancel(s', 1);
    RunsAppend(IDLE, more, s', Run(1));
    more, s' := more + [Run(1)], RunCancel(s', 1);
    RunsAppend(IDLE, more, s', Run(1));
    CountsAppend(s'.trace, CanceledBy(1));
    more, s' := more + [Run(1)], RunCancel(s', 1);
  }

  /** An `execute` killed after enqueueing completion leaves the task unsettled, and a later
      `cancel` reports the same task canceled as well. */
  lemma LateKillReportsTwice() returns (steps: seq<Step>, s: Sys)
    ensures Runs(IDLE, steps, s) && Completions(s.trace) == 1 && Cancellations(s.trace) == 1
  {
    steps, s := ReachWrite();
    RunsAppend(IDLE, steps, s, KillBeforeWrite(0));
    steps, s := CancelAfter(steps + [KillBeforeWrite(0)], Next(s, KillBeforeWrite(0)));
  }
}
