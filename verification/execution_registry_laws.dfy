// What every run of the execution registry keeps: capacity accounting, which
// registrations can still be reached, and identity data across resumptions.
module ExecutionRegistryLaws {
  import opened Common
  import opened ExecutionRegistry

  // ---------- exact accounting ----------

  function IsGranted(mode: ExecutionMode): Capacity -> bool { c => c == Granted(mode) }

  function IsSkipped(mode: ExecutionMode): Capacity -> bool { c => c == Skipped(mode) }

  function IsReleased(mode: ExecutionMode): Capacity -> bool { c => c == Released(mode) }

  function IsOpen(mode: ExecutionMode): Registration -> bool { (r: Registration) => r.mode == mode && !r.finalized }

  function IsHolding(mode: ExecutionMode): Add -> bool {
    (a: Add) => a.mode == mode && (a.phase == Admitted || a.phase == WriteFailed)
  }

  /**
   * What was admitted in a mode is released, or held by a registration whose finalizer has not run,
   * or by an `add` between admission and commit, or lost with an `add` whose write failed.
   */
  ghost predicate Accounted(s: State, mode: ExecutionMode) {
    Count(s.log, IsGranted(mode)) + Count(s.log, IsSkipped(mode))
    == Count(s.log, IsReleased(mode)) + Count(s.regs, IsOpen(mode)) + Count(s.adds, IsHolding(mode))
  }

  lemma LogAppend(log: seq<Capacity>, c: Capacity, mode: ExecutionMode)
    ensures Count(log + [c], IsGranted(mode)) == Count(log, IsGranted(mode)) + if c == Granted(mode) then 1 else 0
    ensures Count(log + [c], IsSkipped(mode)) == Count(log, IsSkipped(mode)) + if c == Skipped(mode) then 1 else 0
    ensures Count(log + [c], IsReleased(mode)) == Count(log, IsReleased(mode)) + if c == Released(mode) then 1 else 0
  {
    CountAppend(log, c, IsGranted(mode));
    CountAppend(log, c, IsSkipped(mode));
    CountAppend(log, c, IsReleased(mode));
  }

  lemma CallAccounted(s: State, e: Event, mode: ExecutionMode)
    requires WellFormed(s) && IsCall(e) && Accounted(s, mode)
    ensures Accounted(Call(s, e), mode)
  {
    CallFrame(s, e);
    if e.id in s.entries {
      var r := s.entries[e.id];
      CountUpdate(s.regs, r, Call(s, e).regs[r], IsOpen(mode));
    }
  }

  lemma BeginAccounted(s: State, id: ExecutionId, m: ExecutionMode, existing: bool, mode: ExecutionMode)
    requires WellFormed(s) && Accounted(s, mode)
    ensures Accounted(AddStep(s, BeginAdd(id, m, existing)), mode)
  {
    var throttled := existing || s.regular;
    var add := Add(id, m, throttled, if throttled then Throttling else Admitted);
    var log := if throttled then s.log else s.log + [Skipped(m)];
    assert AddStep(s, BeginAdd(id, m, existing)) == s.(adds := s.adds + [add], log := log);
    CountAppend(s.adds, add, IsHolding(mode));
    LogAppend(s.log, Skipped(m), mode);
  }

  lemma GrantAccounted(s: State, e: Event, mode: ExecutionMode)
    requires WellFormed(s) && Enabled(s, e) && Accounted(s, mode)
    requires e.ThrottleGranted? || e.WriteFails?
    ensures Accounted(AddStep(s, e), mode)
  {
    var t, before := AddStep(s, e), s.adds[e.add];
    var after := t.adds[e.add];
    assert after.mode == before.mode && t.adds == s.adds[e.add := after] && t.regs == s.regs;
    CountUpdate(s.adds, e.add, after, IsHolding(mode));
    LogAppend(s.log, Granted(before.mode), mode);
  }

  lemma CommitAccounted(s: State, a: nat, now: int, mode: ExecutionMode)
    requires WellFormed(s) && Enabled(s, Commit(a, now)) && Accounted(s, mode)
    ensures Accounted(AddStep(s, Commit(a, now)), mode)
  {
    var t := AddStep(s, Commit(a, now));
    CountUpdate(s.adds, a, t.adds[a], IsHolding(mode));
    CountAppend(s.regs, NewRegistration(s, s.adds[a], now), IsOpen(mode));
  }

  lemma FinalizerAccounted(s: State, r: nat, mode: ExecutionMode)
    requires WellFormed(s) && Enabled(s, RunFinalizer(r)) && Accounted(s, mode)
    ensures Accounted(Finalizer(s, r), mode)
  {
    var t, after := Finalizer(s, r), Finalizer(s, r).regs[r];
    assert after.mode == s.regs[r].mode && after.finalized && !s.regs[r].finalized;
    assert t.regs == s.regs[r := after] && t.adds == s.adds && t.log == s.log + [Released(after.mode)];
    CountUpdate(s.regs, r, after, IsOpen(mode));
    LogAppend(s.log, Released(after.mode), mode);
  }

  lemma AccountingStep(s: State, e: Event, mode: ExecutionMode)
    requires WellFormed(s) && Enabled(s, e) && Accounted(s, mode)
    ensures Accounted(Step(s, e), mode)
  {
    match e {
      case BeginAdd(id, m, existing) => BeginAccounted(s, id, m, existing, mode);
      case ThrottleGranted(_) => GrantAccounted(s, e, mode);
      case WriteFails(_) => GrantAccounted(s, e, mode);
      case Commit(a, now) => CommitAccounted(s, a, now, mode);
      case RunFinalizer(r) => FinalizerAccounted(s, r, mode);
      case _ => CallAccounted(s, e, mode);
    }
  }

  lemma {:induction false} AccountingRun(s: State, es: seq<Event>, mode: ExecutionMode)
    requires WellFormed(s) && Feasible(s, es) && Accounted(s, mode)
    ensures Accounted(Run(s, es), mode)
    decreases |es|
  {
    if es != [] {
      StepWellFormed(s, es[0]);
      AccountingStep(s, es[0], mode);
      AccountingRun(Step(s, es[0]), es[1..], mode);
    }
  }

  /** A call of `add` that asks for no capacity: a new execution in queue mode. */
  function IsUnasked(regular: bool, mode: ExecutionMode): Event -> bool {
    (e: Event) => !regular && e.BeginAdd? && e.mode == mode && !e.existing
  }

  lemma SkippedStep(s: State, e: Event, mode: ExecutionMode)
    requires WellFormed(s) && Enabled(s, e)
    ensures Step(s, e).regular == s.regular
    ensures Count(Step(s, e).log, IsSkipped(mode))
      == Count(s.log, IsSkipped(mode)) + if IsUnasked(s.regular, mode)(e) then 1 else 0
  {
    match e {
      case ThrottleGranted(a) => LogAppend(s.log, Granted(s.adds[a].mode), mode);
      case RunFinalizer(r) => LogAppend(s.log, Released(s.regs[r].mode), mode);
      case BeginAdd(_, m, _) => LogAppend(s.log, Skipped(m), mode);
      case WriteFails(_) =>
      case Commit(_, _) =>
      case _ => CallFrame(s, e);
    }
  }

  lemma {:induction false} SkippedRun(s: State, es: seq<Event>, mode: ExecutionMode)
    requires WellFormed(s) && Feasible(s, es)
    ensures Count(Run(s, es).log, IsSkipped(mode))
      == Count(s.log, IsSkipped(mode)) + Count(es, IsUnasked(s.regular, mode))
    decreases |es|
  {
    if es != [] {
      StepWellFormed(s, es[0]);
      SkippedStep(s, es[0], mode);
      SkippedRun(Step(s, es[0]), es[1..], mode);
      CountFirst(es, IsUnasked(s.regular, mode));
    }
  }

  /** In regular mode every granted throttle is accounted for, in every run and for every mode. */
  lemma ExactAccounting(es: seq<Event>, mode: ExecutionMode)
    requires Feasible(Initial(true), es)
    ensures var s := Run(Initial(true), es);
      Count(s.log, IsGranted(mode))
      == Count(s.log, IsReleased(mode)) + Count(s.regs, IsOpen(mode)) + Count(s.adds, IsHolding(mode))
  {
    GrantedAccountExactly(true, es, mode);
  }

  /**
   * In either mode the account of granted throttles is off by the number of executions that were
   * added without asking, so it is exact exactly when there is none: in regular mode always, in queue
   * mode when only existing executions are added.
   */
  lemma GrantedAccountExactly(regular: bool, es: seq<Event>, mode: ExecutionMode)
    requires Feasible(Initial(regular), es)
    ensures var s := Run(Initial(regular), es);
      var held := Count(s.log, IsReleased(mode)) + Count(s.regs, IsOpen(mode)) + Count(s.adds, IsHolding(mode));
      && Count(s.log, IsGranted(mode)) + Count(es, IsUnasked(regular, mode)) == held
      && (Count(s.log, IsGranted(mode)) == held <==>
          regular || forall i :: 0 <= i < |es| && es[i].BeginAdd? && es[i].mode == mode ==> es[i].existing)
  {
    AccountingRun(Initial(regular), es, mode);
    SkippedRun(Initial(regular), es, mode);
    CountZero(es, IsUnasked(regular, mode));
    assert forall i :: 0 <= i < |es| ==>
      (IsUnasked(regular, mode)(es[i]) <==> !(regular || (es[i].BeginAdd? && es[i].mode == mode ==> es[i].existing)));
  }

  lemma QueueModeSkips(id: ExecutionId, mode: ExecutionMode)
    ensures Feasible(Initial(false), [BeginAdd(id, mode, false)])
    ensures Count(Run(Initial(false), [BeginAdd(id, mode, false)]).log, IsSkipped(mode)) == 1
  {
    var e := BeginAdd(id, mode, false);
    StepWellFormed(Initial(false), e);
    FirstStep(Initial(false), e, []);
    assert [e] + [] == [e];
    assert Step(Initial(false), e).log == [] + [Skipped(mode)];
    LogAppend([], Skipped(mode), mode);
  }

  lemma {:induction false} FirstStep(s: State, e: Event, es: seq<Event>)
    requires WellFormed(s) && Enabled(s, e) && WellFormed(Step(s, e)) && Feasible(Step(s, e), es)
    ensures Feasible(s, [e] + es) && Run(s, [e] + es) == Run(Step(s, e), es)
  {
    assert ([e] + es)[1..] == es;
  }

  // ---------- which registrations can still be finished ----------

  /**
   * A registration whose promise is unsettled, and one whose finalizer is still to delete by id,
   * is what the map holds under its id.
   */
  ghost predicate Tracked(s: State) {
    forall r :: 0 <= r < |s.regs| && NeedsEntry(s.regs[r]) ==> Current(s, r)
  }

  predicate NeedsEntry(r: Registration) {
    r.postExecute.Pending? || (!r.finalized && !r.status.Waiting?)
  }

  /**
   * What the comment in `stopExecution` relies on and no code enforces: an entry marked waiting is
   * settled before it is stopped, and `add` commits over an entry only when that entry is settled
   * and its finalizer has run or will not delete.
   */
  predicate Disciplined(s: State, e: Event)
    requires Keyed(s) && Enabled(s, e)
  {
    match e
    case StopExecution(id) =>
      id in s.entries && s.regs[s.entries[id]].status.Waiting? ==> !s.regs[s.entries[id]].postExecute.Pending?
    case Commit(a, _) =>
      s.adds[a].id in s.entries ==> !NeedsEntry(s.regs[s.entries[s.adds[a].id]])
    case _ => true
  }

  lemma CallTracked(s: State, e: Event)
    requires WellFormed(s) && Tracked(s) && IsCall(e)
    ensures Tracked(Call(s, e)) <==> Disciplined(s, e)
  {
    var t := Call(s, e);
    CallFrame(s, e);
    if e.id in s.entries {
      var k := s.entries[e.id];
      if e.StopExecution? {
        StopFrame(s, e.id);
      }
      if Disciplined(s, e) {
        forall r | 0 <= r < |t.regs| && NeedsEntry(t.regs[r]) ensures Current(t, r) {
          assert r != k ==> t.regs[r] == s.regs[r];
        }
      } else {
        assert NeedsEntry(t.regs[k]) && !Current(t, k);
      }
    }
  }

  lemma CommitTracked(s: State, a: nat, now: int)
    requires WellFormed(s) && Tracked(s) && Enabled(s, Commit(a, now))
    ensures Tracked(AddStep(s, Commit(a, now))) <==> Disciplined(s, Commit(a, now))
  {
    var t, id := AddStep(s, Commit(a, now)), s.adds[a].id;
    if Disciplined(s, Commit(a, now)) {
      forall r | 0 <= r < |t.regs| && NeedsEntry(t.regs[r]) ensures Current(t, r) {
        assert r < |s.regs| ==> t.regs[r] == s.regs[r] && Current(s, r);
      }
    } else {
      assert t.regs[s.entries[id]] == s.regs[s.entries[id]];
      assert NeedsEntry(t.regs[s.entries[id]]) && !Current(t, s.entries[id]);
    }
  }

  /** A finalizer deletes by id, and still removes no entry but its own. */
  lemma FinalizerRemovesOnlyItself(s: State, r: nat)
    requires WellFormed(s) && Tracked(s) && Enabled(s, RunFinalizer(r))
    ensures Tracked(Finalizer(s, r))
    ensures forall id :: id in s.entries && s.entries[id] != r ==>
      id in Finalizer(s, r).entries && Finalizer(s, r).entries[id] == s.entries[id]
    ensures s.regs[r].status.Waiting? ==> Finalizer(s, r).entries == s.entries
  {
    var t := Finalizer(s, r);
    forall q | 0 <= q < |t.regs| && NeedsEntry(t.regs[q]) ensures Current(t, q) {
      assert q != r && t.regs[q] == s.regs[q] && Current(s, q);
    }
  }

  /** The discipline is what it takes, step by step, to lose track of no registration: no more and no less. */
  lemma TrackedExactlyWhenDisciplined(s: State, e: Event)
    requires WellFormed(s) && Tracked(s) && Enabled(s, e)
    ensures Tracked(Step(s, e)) <==> Disciplined(s, e)
  {
    if IsCall(e) {
      CallTracked(s, e);
    } else if e.Commit? {
      CommitTracked(s, e.add, e.now);
    } else if e.RunFinalizer? {
      FinalizerRemovesOnlyItself(s, e.reg);
    } else {
      assert forall r :: 0 <= r < |s.regs| ==> Current(Step(s, e), r) == Current(s, r);
    }
  }

  ghost predicate DisciplinedRun(s: State, es: seq<Event>)
    requires WellFormed(s) && Feasible(s, es)
    decreases |es|
  {
    es == [] || (Disciplined(s, es[0]) && (StepWellFormed(s, es[0]); DisciplinedRun(Step(s, es[0]), es[1..])))
  }

  /** In every run that keeps the discipline, every registration that still needs its entry is reachable by id. */
  lemma {:induction false} DisciplinedRunsTrack(s: State, es: seq<Event>)
    requires WellFormed(s) && Feasible(s, es) && Tracked(s) && DisciplinedRun(s, es)
    ensures Tracked(Run(s, es))
    decreases |es|
  {
    if es != [] {
      StepWellFormed(s, es[0]);
      TrackedExactlyWhenDisciplined(s, es[0]);
      DisciplinedRunsTrack(Step(s, es[0]), es[1..]);
    }
  }

  // ---------- lost for good, or not ----------

  ghost predicate CanFinish(s: State, r: nat)
    requires WellFormed(s) && r < |s.regs|
  {
    exists es :: Feasible(s, es) && r < |Run(s, es).regs| && Run(s, es).regs[r].finalized
  }

  ghost predicate Lost(s: State, r: nat) {
    r < |s.regs| && s.regs[r].postExecute.Pending? && !s.regs[r].finalized && !Current(s, r)
  }

  lemma LostStaysLost(s: State, r: nat, e: Event)
    requires WellFormed(s) && Lost(s, r) && Enabled(s, e)
    ensures Lost(Step(s, e), r)
  {
    if IsCall(e) {
      CallFrame(s, e);
    }
  }

  lemma {:induction false} LostForever(s: State, r: nat, es: seq<Event>)
    requires WellFormed(s) && Lost(s, r) && Feasible(s, es)
    ensures Lost(Run(s, es), r)
    decreases |es|
  {
    if es != [] {
      StepWellFormed(s, es[0]);
      LostStaysLost(s, r, es[0]);
      LostForever(Step(s, es[0]), r, es[1..]);
    }
  }

  /** Finishing one registration: settle it if need be, then its finalizer runs. */
  function Finish(s: State, r: nat): seq<Event>
    requires r < |s.regs|
  {
    if s.regs[r].finalized then []
    else if s.regs[r].postExecute.Pending? then [FinalizeExecution(s.regs[r].id), RunFinalizer(r)]
    else [RunFinalizer(r)]
  }

  lemma OneStepRun(s: State, e: Event)
    requires WellFormed(s) && Enabled(s, e) && WellFormed(Step(s, e))
    ensures Feasible(s, [e]) && Run(s, [e]) == Step(s, e)
  {
    FirstStep(s, e, []);
    assert [e] + [] == [e];
  }

  lemma SettledFinishes(s: State, r: nat)
    requires WellFormed(s) && Enabled(s, RunFinalizer(r))
    ensures Feasible(s, [RunFinalizer(r)])
    ensures var t := Run(s, [RunFinalizer(r)]);
      && Finished(s, t, r)
      && (Tracked(s) ==> Tracked(t))
  {
    FinalizerWellFormed(s, r);
    OneStepRun(s, RunFinalizer(r));
    if Tracked(s) {
      FinalizerRemovesOnlyItself(s, r);
    }
  }

  /** `r` is finished and no other registration is touched. */
  ghost predicate Finished(s: State, t: State, r: nat)
    requires r < |s.regs|
  {
    && |t.regs| == |s.regs| && t.regs[r].finalized && t.adds == s.adds
    && forall q :: 0 <= q < |s.regs| && q != r ==> t.regs[q] == s.regs[q]
  }

  lemma FinishRuns(s: State, r: nat)
    requires WellFormed(s) && r < |s.regs| && !Lost(s, r) && !s.regs[r].finalized
    ensures Feasible(s, Finish(s, r)) && Finished(s, Run(s, Finish(s, r)), r)
    ensures Tracked(s) ==> Tracked(Run(s, Finish(s, r)))
  {
    if s.regs[r].postExecute.Pending? {
      var finalize := FinalizeExecution(s.regs[r].id);
      var t := Call(s, finalize);
      CallWellFormed(s, finalize);
      SettledFinishes(t, r);
      FirstStep(s, finalize, [RunFinalizer(r)]);
      assert [finalize] + [RunFinalizer(r)] == Finish(s, r);
      if Tracked(s) {
        CallTracked(s, finalize);
      }
    } else {
      SettledFinishes(s, r);
    }
  }

  /** A registration can still give its capacity back exactly when it is settled or the map holds it. */
  lemma CanFinishExactly(s: State, r: nat)
    requires WellFormed(s) && r < |s.regs|
    ensures CanFinish(s, r) <==> !s.regs[r].postExecute.Pending? || Current(s, r)
  {
    if Lost(s, r) {
      forall es | Feasible(s, es) ensures Lost(Run(s, es), r) {
        LostForever(s, r, es);
      }
    } else if s.regs[r].finalized {
      assert Feasible(s, []) && Run(s, []) == s;
    } else {
      FinishRuns(s, r);
    }
  }

  /** From a tracked state all capacity comes back: some run finishes every registration. */
  lemma {:induction false} AllCanFinish(s: State, k: nat) returns (es: seq<Event>)
    requires WellFormed(s) && Tracked(s) && k <= |s.regs|
    ensures Feasible(s, es)
    ensures var t := Run(s, es);
      && Tracked(t) && |t.regs| == |s.regs| && t.adds == s.adds
      && (forall r :: 0 <= r < |s.regs| && (r < k || s.regs[r].finalized) ==> t.regs[r].finalized)
  {
    if k == 0 {
      es := [];
    } else {
      es := AllCanFinish(s, k - 1);
      var t := Run(s, es);
      if !t.regs[k - 1].finalized {
        FinishRuns(t, k - 1);
        RunThenRun(s, es, Finish(t, k - 1));
        es := es + Finish(t, k - 1);
      }
    }
  }

  /**
   * No capacity is lost: after any disciplined run some continuation releases, mode by mode, all
   * that was admitted, but for what `add` calls still hold or lost with a failed write.
   */
  lemma NoCapacityIsLost(regular: bool, es: seq<Event>) returns (more: seq<Event>)
    requires Feasible(Initial(regular), es) && DisciplinedRun(Initial(regular), es)
    ensures Feasible(Run(Initial(regular), es), more)
    ensures var t := Run(Run(Initial(regular), es), more);
      forall mode :: Count(t.log, IsGranted(mode)) + Count(t.log, IsSkipped(mode))
                     == Count(t.log, IsReleased(mode)) + Count(t.adds, IsHolding(mode))
  {
    var s := Run(Initial(regular), es);
    DisciplinedRunsTrack(Initial(regular), es);
    more := AllCanFinish(s, |s.regs|);
    var t := Run(s, more);
    forall mode
      ensures Count(t.log, IsGranted(mode)) + Count(t.log, IsSkipped(mode))
              == Count(t.log, IsReleased(mode)) + Count(t.adds, IsHolding(mode))
    {
      AccountingRun(Initial(regular), es, mode);
      AccountingRun(s, more, mode);
      CountZero(t.regs, IsOpen(mode));
    }
  }

  /** Without the discipline: an entry marked waiting and stopped before it settles is lost with its capacity. */
  lemma UndisciplinedStopLosesCapacity(s: State, id: ExecutionId)
    requires WellFormed(s) && id in s.entries && s.regs[s.entries[id]].postExecute.Pending?
    ensures var marked := Step(s, SetStatus(id, Waiting));
      && WellFormed(marked)
      && WellFormed(Step(marked, StopExecution(id)))
      && !CanFinish(Step(marked, StopExecution(id)), s.entries[id])
  {
    var marked := Step(s, SetStatus(id, Waiting));
    StepWellFormed(s, SetStatus(id, Waiting));
    StepWellFormed(marked, StopExecution(id));
    CanFinishExactly(Step(marked, StopExecution(id)), s.entries[id]);
  }

  // ---------- what a resumed execution keeps ----------

  /** `id` is in the map before, during and after the run. */
  ghost predicate NeverRemoved(s: State, es: seq<Event>, id: ExecutionId)
    requires WellFormed(s) && Feasible(s, es)
    decreases |es|
  {
    id in s.entries
    && (es == [] || (StepWellFormed(s, es[0]); NeverRemoved(Step(s, es[0]), es[1..], id)))
  }

  /** The response promise attached last to `id`, or `response` if the run attaches none. */
  function LastAttached(es: seq<Event>, id: ExecutionId, response: Option<Handle>): Option<Handle> {
    if es == [] then response
    else LastAttached(es[1..], id,
                      if es[0].AttachResponsePromise? && es[0].id == id then Some(es[0].handle) else response)
  }

  lemma IdentityCall(s: State, e: Event, id: ExecutionId)
    requires WellFormed(s) && IsCall(e) && id in s.entries && id in Call(s, e).entries
    ensures SameIdentity(s, Call(s, e), e, id)
  {
    CallFrame(s, e);
    if e.StopExecution? && e.id in s.entries {
      StopFrame(s, e.id);
    }
  }

  lemma IdentityCommit(s: State, a: nat, now: int, id: ExecutionId)
    requires WellFormed(s) && Enabled(s, Commit(a, now)) && id in s.entries
    ensures SameIdentity(s, AddStep(s, Commit(a, now)), Commit(a, now), id)
  {
  }

  /** One step keeps the start time of `id`, and its response promise unless the step attaches one. */
  predicate SameIdentity(s: State, t: State, e: Event, id: ExecutionId)
    requires Keyed(s) && id in s.entries
  {
    && id in t.entries && t.entries[id] < |t.regs|
    && var before, after := s.regs[s.entries[id]], t.regs[t.entries[id]];
      && after.startedAt == before.startedAt
      && after.response == if e.AttachResponsePromise? && e.id == id then Some(e.handle) else before.response
  }

  lemma IdentityStep(s: State, e: Event, id: ExecutionId)
    requires WellFormed(s) && Enabled(s, e) && id in s.entries && id in Step(s, e).entries
    ensures SameIdentity(s, Step(s, e), e, id)
  {
    if IsCall(e) {
      IdentityCall(s, e, id);
    } else if e.Commit? {
      IdentityCommit(s, e.add, e.now, id);
    }
  }

  /**
   * However often an execution waits and is resumed: its start time stays, its response promise is the
   * one attached last.
   */
  lemma {:induction false} ResumptionsKeepIdentity(s: State, es: seq<Event>, id: ExecutionId)
    requires WellFormed(s) && Feasible(s, es) && NeverRemoved(s, es, id)
    ensures var t, before := Run(s, es), s.regs[s.entries[id]];
      && id in t.entries
      && t.regs[t.entries[id]].startedAt == before.startedAt
      && t.regs[t.entries[id]].response == LastAttached(es, id, before.response)
    decreases |es|
  {
    if es != [] {
      StepWellFormed(s, es[0]);
      IdentityStep(s, es[0], id);
      ResumptionsKeepIdentity(Step(s, es[0]), es[1..], id);
    }
  }
}
