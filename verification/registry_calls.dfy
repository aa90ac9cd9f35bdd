// What the steps of the execution registry do, each told from the fields before
// and after it and over whole runs: settled promises, commits, stops, answers.
module RegistryCalls {
  import opened Common
  import opened ExecutionRegistry
  import opened ExecutionRegistryLaws

  // ---------- promises settle once ----------

  /** Settled promises keep their outcomes. */
  predicate OutcomesKept(s: State, t: State) {
    && |s.regs| <= |t.regs|
    && (forall r :: 0 <= r < |s.regs| && s.regs[r].postExecute != Pending ==>
        t.regs[r].postExecute == s.regs[r].postExecute)
    && (forall h :: h in s.responses ==> h in t.responses && t.responses[h] == s.responses[h])
  }

  lemma StopKeepsOutcomes(s: State, id: ExecutionId)
    requires WellFormed(s) && id in s.entries
    ensures OutcomesKept(s, Stop(s, id))
  {
    StopRejects(s, id);
  }

  lemma CallKeepsOutcomes(s: State, e: Event)
    requires WellFormed(s) && IsCall(e)
    ensures OutcomesKept(s, Call(s, e))
  {
    if e.StopExecution? && e.id in s.entries {
      StopKeepsOutcomes(s, e.id);
    }
  }

  lemma StepKeepsOutcomes(s: State, e: Event)
    requires WellFormed(s) && Enabled(s, e)
    ensures OutcomesKept(s, Step(s, e))
  {
    if IsCall(e) {
      CallKeepsOutcomes(s, e);
    }
  }

  /** In every run a promise, of an execution or of a response, keeps the first outcome it gets. */
  lemma {:induction false} FirstOutcomeWins(s: State, es: seq<Event>)
    requires WellFormed(s) && Feasible(s, es)
    ensures OutcomesKept(s, Run(s, es))
    decreases |es|
  {
    if es != [] {
      StepWellFormed(s, es[0]);
      StepKeepsOutcomes(s, es[0]);
      FirstOutcomeWins(Step(s, es[0]), es[1..]);
    }
  }

  // ---------- the steps of add ----------

  /** A new execution in queue mode is let through at once; every other has to wait for capacity. */
  lemma AddBegins(s: State, id: ExecutionId, mode: ExecutionMode, existing: bool)
    requires WellFormed(s)
    ensures var (t, a) := (Step(s, BeginAdd(id, mode, existing)), |s.adds|);
      && |t.adds| == a + 1 && t.adds[..a] == s.adds && t.adds[a].id == id && t.adds[a].mode == mode
      && (if s.regular || existing
          then t.adds[a].phase == Throttling && t.log == s.log && !Enabled(t, Commit(a, 0))
          else t.adds[a].phase == Admitted && t.log == s.log + [Skipped(mode)] && !Enabled(t, WriteFails(a)))
      && t.regs == s.regs && t.entries == s.entries
  {
  }

  /** Granting capacity lets one waiting call through; a failed write ends a call without a registration. */
  lemma AddGoesOn(s: State, a: nat)
    requires WellFormed(s) && a < |s.adds|
    ensures s.adds[a].phase == Throttling ==>
      && Enabled(s, ThrottleGranted(a))
      && var t := Step(s, ThrottleGranted(a));
         t == s.(adds := s.adds[a := s.adds[a].(phase := Admitted)], log := s.log + [Granted(s.adds[a].mode)])
    ensures s.adds[a].phase == Admitted && s.adds[a].throttled ==>
      && Enabled(s, WriteFails(a))
      && var t := Step(s, WriteFails(a));
         t == s.(adds := s.adds[a := s.adds[a].(phase := WriteFailed)])
         && !Enabled(t, Commit(a, 0)) && !Enabled(t, ThrottleGranted(a)) && !Enabled(t, WriteFails(a))
  {
  }

  /**
   * A commit makes a running object with a fresh promise, whatever was under its id: no status, promise
   * or workflow execution is taken over from a resumed execution, but its start time and response are.
   */
  lemma CommitStoresFresh(s: State, a: nat, now: int)
    requires WellFormed(s) && Enabled(s, Commit(a, now))
    ensures var (t, id, n) := (Step(s, Commit(a, now)), s.adds[a].id, |s.regs|);
      && |t.regs| == n + 1 && t.regs[..n] == s.regs
      && t.entries.Keys == s.entries.Keys + {id} && t.entries[id] == n
      && (forall x :: x in s.entries && x != id ==> t.entries[x] == s.entries[x])
      && t.regs[n].id == id && t.regs[n].mode == s.adds[a].mode
      && t.regs[n].status == Running && t.regs[n].postExecute == Pending
      && t.regs[n].workflowExecution == None && !t.regs[n].finalized
      && (if id in s.entries
          then t.regs[n].startedAt == s.regs[s.entries[id]].startedAt
               && t.regs[n].response == s.regs[s.entries[id]].response
          else t.regs[n].startedAt == now && t.regs[n].response == None)
      && t.log == s.log && t.responses == s.responses && t.cancelRequests == s.cancelRequests
      && !Enabled(t, Commit(a, now))
  {
  }

  /** An execution stopped right after its commit, resumed or not, gives its capacity back. */
  lemma CommittedCanBeStopped(s: State, a: nat, now: int)
    requires WellFormed(s) && Enabled(s, Commit(a, now))
    ensures var (t, id, n) := (Step(s, Commit(a, now)), s.adds[a].id, |s.regs|);
      && WellFormed(t) && WellFormed(Step(t, StopExecution(id))) && n < |Step(t, StopExecution(id)).regs|
      && Step(t, StopExecution(id)).regs[n].postExecute == Rejected
      && Enabled(Step(t, StopExecution(id)), RunFinalizer(n)) && CanFinish(Step(t, StopExecution(id)), n)
  {
    var t := Step(s, Commit(a, now));
    CommitStoresFresh(s, a, now);
    StepWellFormed(s, Commit(a, now));
    StepWellFormed(t, StopExecution(s.adds[a].id));
    StopRejects(t, s.adds[a].id);
    CanFinishExactly(Step(t, StopExecution(s.adds[a].id)), |s.regs|);
  }

  // ---------- stopping ----------

  /** What a response promise is after it has been rejected, and after it has been resolved. */
  predicate ResponseSettled(s: State, t: State, response: Option<Handle>, outcome: Promise) {
    match response
    case None => t.responses == s.responses
    case Some(h) => t.responses == if h in s.responses then s.responses else s.responses[h := outcome]
  }

  /**
   * A stop rejects the response promise. A waiting entry is removed, and its promise is not touched;
   * of any other the workflow is asked to stop and the promise is rejected, and the entry stays.
   */
  lemma StopRejects(s: State, id: ExecutionId)
    requires WellFormed(s) && id in s.entries
    ensures var (t, k) := (Step(s, StopExecution(id)), s.entries[id]);
      var e := s.regs[k];
      && ResponseSettled(s, t, e.response, Rejected) && t.log == s.log && t.adds == s.adds
      && (if e.status == Waiting then
            t.entries == s.entries - {id} && t.regs == s.regs && t.cancelRequests == s.cancelRequests
          else
            && t.entries == s.entries
            && t.regs == s.regs[k := e.(postExecute := if e.postExecute == Pending then Rejected else e.postExecute)]
            && t.cancelRequests
               == s.cancelRequests + match e.workflowExecution case None => {} case Some(h) => {h})
  {
    StopFrame(s, id);
  }

  // ---------- the other calls ----------

  /** The run of an execution ends with its promise resolved, unless that was settled before. */
  lemma FinalizeResolves(s: State, id: ExecutionId)
    requires WellFormed(s) && id in s.entries
    ensures var (t, k) := (Step(s, FinalizeExecution(id)), s.entries[id]);
      && t == s.(regs := t.regs) && |t.regs| == |s.regs|
      && (forall r :: 0 <= r < |s.regs| && r != k ==> t.regs[r] == s.regs[r])
      && t.regs[k].postExecute == (if s.regs[k].postExecute == Pending then Resolved else s.regs[k].postExecute)
      && t.regs[k] == s.regs[k].(postExecute := t.regs[k].postExecute)
  {
  }

  /** A response is resolved; the variant for forms leaves that of a waiting execution open. */
  lemma ResponsesResolve(s: State, id: ExecutionId)
    requires WellFormed(s) && id in s.entries
    ensures var (t, e) := (Step(s, ResolveResponsePromise(id)), s.regs[s.entries[id]]);
      t == s.(responses := t.responses) && ResponseSettled(s, t, e.response, Resolved)
    ensures var (t, e) := (Step(s, ResolveExecutionResponsePromise(id)), s.regs[s.entries[id]]);
      if e.status == Waiting then t == s
      else t == s.(responses := t.responses) && ResponseSettled(s, t, e.response, Resolved)
  {
  }

  /** Status, workflow execution and response promise can be set on the object of a known id, one at a time. */
  lemma FieldsAreSet(s: State, id: ExecutionId, h: Handle, status: ExecutionStatus)
    requires WellFormed(s) && id in s.entries
    ensures var k := s.entries[id];
      && Step(s, SetStatus(id, status)) == s.(regs := s.regs[k := s.regs[k].(status := status)])
      && Step(s, AttachWorkflowExecution(id, h)) == s.(regs := s.regs[k := s.regs[k].(workflowExecution := Some(h))])
      && Step(s, AttachResponsePromise(id, h)) == s.(regs := s.regs[k := s.regs[k].(response := Some(h))])
  {
  }

  // ---------- the continuation of a promise ----------

  /** A finalizer runs once, reports one release, and drops the workflow execution or the entry. */
  lemma FinalizerReleases(s: State, r: nat)
    requires WellFormed(s) && Enabled(s, RunFinalizer(r))
    ensures var (t, e) := (Step(s, RunFinalizer(r)), s.regs[r]);
      && t.log == s.log + [Released(e.mode)] && !Enabled(t, RunFinalizer(r))
      && t.responses == s.responses && t.cancelRequests == s.cancelRequests && t.adds == s.adds
      && (if e.status == Waiting
          then t.entries == s.entries && t.regs == s.regs[r := e.(finalized := true, workflowExecution := None)]
          else t.entries == s.entries - {e.id} && t.regs == s.regs[r := e.(finalized := true)])
  {
  }
}
