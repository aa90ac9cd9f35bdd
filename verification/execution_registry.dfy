// The registry of active executions as a state machine: what each call of
// `ActiveExecutions`, each step of its asynchronous `add` and each deferred
// finalizer does to the state.
module ExecutionRegistry {
  import opened Common

  type ExecutionId = string

  /** A deferred response promise or a cancelable workflow execution that a caller attached. */
  type Handle = nat

  datatype ExecutionStatus = Canceled | Crashed | Errored | New | Running | Success | Unknown | Waiting

  datatype ExecutionMode = Cli | Error | Integrated | Internal | Manual | Retry | Trigger | Webhook | Evaluation

  /** A promise settles at most once. */
  datatype Promise = Pending | Resolved | Rejected

  function Settle(promise: Promise, outcome: Promise): Promise {
    if promise.Pending? then outcome else promise
  }

  /** One object stored by `add`, with what its finalizer captured. Its place in `regs` is its identity. */
  datatype Registration = Registration(
    id: ExecutionId, mode: ExecutionMode, startedAt: int, status: ExecutionStatus,
    postExecute: Promise, response: Option<Handle>, workflowExecution: Option<Handle>,
    finalized: bool)

  datatype AddPhase = Throttling | Admitted | WriteFailed | Committed

  /** A running call of `add`. A call without throttle is a new execution in queue mode. */
  datatype Add = Add(id: ExecutionId, mode: ExecutionMode, throttled: bool, phase: AddPhase)

  /** What the concurrency control service is told: an admission (asked for or not), a release. */
  datatype Capacity = Granted(mode: ExecutionMode) | Skipped(mode: ExecutionMode) | Released(mode: ExecutionMode)

  datatype State = State(
    regular: bool,
    regs: seq<Registration>,
    entries: map<ExecutionId, nat>,
    adds: seq<Add>,
    log: seq<Capacity>,
    responses: map<Handle, Promise>,
    cancelRequests: set<Handle>)

  datatype Event =
    | BeginAdd(id: ExecutionId, mode: ExecutionMode, existing: bool)
    | ThrottleGranted(add: nat)
    | WriteFails(add: nat)
    | Commit(add: nat, now: int)
    | AttachWorkflowExecution(id: ExecutionId, handle: Handle)
    | AttachResponsePromise(id: ExecutionId, handle: Handle)
    | ResolveResponsePromise(id: ExecutionId)
    | ResolveExecutionResponsePromise(id: ExecutionId)
    | StopExecution(id: ExecutionId)
    | FinalizeExecution(id: ExecutionId)
    | SetStatus(id: ExecutionId, status: ExecutionStatus)
    | RunFinalizer(reg: nat)

  function Initial(regular: bool): State {
    State(regular, [], map[], [], [], map[], {})
  }

  // ---------- well-formed states ----------

  /** `reg` is what the map holds under its id. */
  predicate Current(s: State, reg: nat)
    requires reg < |s.regs|
  {
    s.regs[reg].id in s.entries && s.entries[s.regs[reg].id] == reg
  }

  predicate Keyed(s: State) {
    forall id :: id in s.entries ==> s.entries[id] < |s.regs| && s.regs[s.entries[id]].id == id
  }

  predicate FinalizedAreSettled(s: State) {
    forall r :: 0 <= r < |s.regs| && s.regs[r].finalized ==> !s.regs[r].postExecute.Pending?
  }

  predicate WellFormed(s: State) {
    Keyed(s) && FinalizedAreSettled(s)
  }

  // ---------- steps ----------

  /** The continuations that can run; a call of the interface always can. */
  predicate Enabled(s: State, e: Event) {
    match e
    case ThrottleGranted(a) => a < |s.adds| && s.adds[a].phase == Throttling
    case WriteFails(a) => a < |s.adds| && s.adds[a].phase == Admitted && s.adds[a].throttled
    case Commit(a, _) => a < |s.adds| && s.adds[a].phase == Admitted
    case RunFinalizer(r) => r < |s.regs| && !s.regs[r].postExecute.Pending? && !s.regs[r].finalized
    case _ => true
  }

  /** Settles a response promise, if there is one. */
  function SettleResponse(s: State, response: Option<Handle>, outcome: Promise): State {
    if response.Some? && response.value !in s.responses then
      s.(responses := s.responses[response.value := outcome])
    else s
  }

  /** The object that the last step of `add` stores. */
  function NewRegistration(s: State, add: Add, now: int): Registration
    requires Keyed(s)
  {
    if add.id in s.entries then
      var resuming := s.regs[s.entries[add.id]];
      Registration(add.id, add.mode, resuming.startedAt, Running, Pending, resuming.response, None, false)
    else
      Registration(add.id, add.mode, now, Running, Pending, None, None, false)
  }

  /** Replaces the object under an id of the map. */
  function Update(s: State, id: ExecutionId, execution: Registration): State
    requires Keyed(s) && id in s.entries
  {
    s.(regs := s.regs[s.entries[id] := execution])
  }

  function Delete(s: State, id: ExecutionId): State {
    s.(entries := s.entries - {id})
  }

  function RequestCancel(s: State, workflowExecution: Option<Handle>): State {
    s.(cancelRequests := s.cancelRequests + if workflowExecution.Some? then {workflowExecution.value} else {})
  }

  function Reject(s: State, id: ExecutionId): State
    requires Keyed(s) && id in s.entries
  {
    var execution := s.regs[s.entries[id]];
    Update(s, id, execution.(postExecute := Settle(execution.postExecute, Rejected)))
  }

  function Stop(s: State, id: ExecutionId): State
    requires Keyed(s)
  {
    if id !in s.entries then s else
      var execution := s.regs[s.entries[id]];
      var answered := SettleResponse(s, execution.response, Rejected);
      if execution.status.Waiting? then Delete(answered, id)
      else Reject(RequestCancel(answered, execution.workflowExecution), id)
  }

  function Finalizer(s: State, r: nat): State
    requires r < |s.regs|
  {
    var execution := s.regs[r];
    var released := s.(log := s.log + [Released(execution.mode)]);
    if execution.status.Waiting? then
      released.(regs := s.regs[r := execution.(finalized := true, workflowExecution := None)])
    else
      released.(regs := s.regs[r := execution.(finalized := true)], entries := s.entries - {execution.id})
  }

  /** The calls of the interface that look their entry up by id. */
  predicate IsCall(e: Event) {
    !e.BeginAdd? && !e.ThrottleGranted? && !e.WriteFails? && !e.Commit? && !e.RunFinalizer?
  }

  // A call that knows no such id throws or returns: it changes nothing.

  function AttachExecution(s: State, id: ExecutionId, workflowExecution: Handle): State
    requires Keyed(s)
  {
    if id !in s.entries then s
    else Update(s, id, s.regs[s.entries[id]].(workflowExecution := Some(workflowExecution)))
  }

  function AttachResponse(s: State, id: ExecutionId, response: Handle): State
    requires Keyed(s)
  {
    if id !in s.entries then s else Update(s, id, s.regs[s.entries[id]].(response := Some(response)))
  }

  function Answer(s: State, id: ExecutionId): State
    requires Keyed(s)
  {
    if id !in s.entries then s else SettleResponse(s, s.regs[s.entries[id]].response, Resolved)
  }

  function AnswerUnlessWaiting(s: State, id: ExecutionId): State
    requires Keyed(s)
  {
    if id in s.entries && s.regs[s.entries[id]].status.Waiting? then s else Answer(s, id)
  }

  function Finalize(s: State, id: ExecutionId): State
    requires Keyed(s)
  {
    if id !in s.entries then s else
      var execution := s.regs[s.entries[id]];
      Update(s, id, execution.(postExecute := Settle(execution.postExecute, Resolved)))
  }

  function Mark(s: State, id: ExecutionId, status: ExecutionStatus): State
    requires Keyed(s)
  {
    if id !in s.entries then s else Update(s, id, s.regs[s.entries[id]].(status := status))
  }

  function Call(s: State, e: Event): State
    requires Keyed(s) && IsCall(e)
  {
    match e
    case AttachWorkflowExecution(id, handle) => AttachExecution(s, id, handle)
    case AttachResponsePromise(id, handle) => AttachResponse(s, id, handle)
    case ResolveResponsePromise(id) => Answer(s, id)
    case ResolveExecutionResponsePromise(id) => AnswerUnlessWaiting(s, id)
    case StopExecution(id) => Stop(s, id)
    case FinalizeExecution(id) => Finalize(s, id)
    case SetStatus(id, status) => Mark(s, id, status)
  }

  // The steps of a running `add`: it is asked for, admitted, may fail, and commits.

  function Begin(s: State, id: ExecutionId, mode: ExecutionMode, existing: bool): State {
    var throttled := existing || s.regular;
    var add := Add(id, mode, throttled, if throttled then Throttling else Admitted);
    s.(adds := s.adds + [add], log := if throttled then s.log else s.log + [Skipped(mode)])
  }

  function SetPhase(s: State, add: nat, phase: AddPhase): State
    requires add < |s.adds|
  {
    s.(adds := s.adds[add := s.adds[add].(phase := phase)])
  }

  function Admit(s: State, add: nat): State
    requires add < |s.adds|
  {
    SetPhase(s.(log := s.log + [Granted(s.adds[add].mode)]), add, Admitted)
  }

  function Register(s: State, execution: Registration): State {
    s.(regs := s.regs + [execution], entries := s.entries[execution.id := |s.regs|])
  }

  function CommitAdd(s: State, add: nat, now: int): State
    requires Keyed(s) && add < |s.adds|
  {
    SetPhase(Register(s, NewRegistration(s, s.adds[add], now)), add, Committed)
  }

  function AddStep(s: State, e: Event): State
    requires Keyed(s) && Enabled(s, e) && !IsCall(e) && !e.RunFinalizer?
  {
    match e
    case BeginAdd(id, mode, existing) => Begin(s, id, mode, existing)
    case ThrottleGranted(a) => Admit(s, a)
    case WriteFails(a) => SetPhase(s, a, WriteFailed)
    case Commit(a, now) => CommitAdd(s, a, now)
  }

  function Step(s: State, e: Event): State
    requires Keyed(s) && Enabled(s, e)
  {
    if e.RunFinalizer? then Finalizer(s, e.reg)
    else if IsCall(e) then Call(s, e)
    else AddStep(s, e)
  }

  /** A call changes at most the object under its id, and removes at most that id. */
  lemma CallFrame(s: State, e: Event)
    requires Keyed(s) && IsCall(e)
    ensures var t := Call(s, e);
      && t.log == s.log && t.adds == s.adds && t.regular == s.regular && |t.regs| == |s.regs|
      && (t.entries == s.entries || t.entries == s.entries - {e.id})
      && (e.id !in s.entries ==> t == s)
      && (e.id in s.entries ==> var k := s.entries[e.id];
        && t.regs == s.regs[k := t.regs[k]]
        && SameOrigin(t.regs[k], s.regs[k])
        && (t.regs[k].postExecute.Pending? ==> s.regs[k].postExecute.Pending?))
  {
    if e.id in s.entries && e.StopExecution? {
      StopFrame(s, e.id);
    }
  }

  lemma StopFrame(s: State, id: ExecutionId)
    requires Keyed(s) && id in s.entries
    ensures var t, k := Stop(s, id), s.entries[id];
      && t.log == s.log && t.adds == s.adds && t.regular == s.regular && |t.regs| == |s.regs|
      && t.entries == (if s.regs[k].status.Waiting? then s.entries - {id} else s.entries)
      && t.regs == s.regs[k := t.regs[k]]
      && t.regs[k] == if s.regs[k].status.Waiting? then s.regs[k]
                      else s.regs[k].(postExecute := Settle(s.regs[k].postExecute, Rejected))
  {
  }

  /** What a registration is given when it is made, and the finalizer flag. */
  predicate SameOrigin(a: Registration, b: Registration) {
    a.id == b.id && a.mode == b.mode && a.startedAt == b.startedAt && a.finalized == b.finalized
  }

  lemma CallWellFormed(s: State, e: Event)
    requires WellFormed(s) && IsCall(e)
    ensures WellFormed(Call(s, e))
  {
    CallFrame(s, e);
  }

  lemma FinalizerWellFormed(s: State, r: nat)
    requires WellFormed(s) && Enabled(s, RunFinalizer(r))
    ensures WellFormed(Finalizer(s, r))
  {
  }

  lemma StepWellFormed(s: State, e: Event)
    requires WellFormed(s) && Enabled(s, e)
    ensures WellFormed(Step(s, e))
  {
    if IsCall(e) {
      CallWellFormed(s, e);
    } else if e.RunFinalizer? {
      FinalizerWellFormed(s, e.reg);
    }
  }

  // ---------- runs ----------

  predicate Feasible(s: State, es: seq<Event>)
    requires WellFormed(s)
    decreases |es|
  {
    es == [] || (Enabled(s, es[0]) && (StepWellFormed(s, es[0]); Feasible(Step(s, es[0]), es[1..])))
  }

  function Run(s: State, es: seq<Event>): (t: State)
    requires WellFormed(s) && Feasible(s, es)
    ensures WellFormed(t)
    decreases |es|
  {
    if es == [] then s else
      StepWellFormed(s, es[0]);
      Run(Step(s, es[0]), es[1..])
  }

  lemma {:induction false} RunThenRun(s: State, es: seq<Event>, more: seq<Event>)
    requires WellFormed(s) && Feasible(s, es) && Feasible(Run(s, es), more)
    ensures Feasible(s, es + more) && Run(s, es + more) == Run(Run(s, es), more)
    decreases |es|
  {
    if es == [] {
      assert es + more == more;
    } else {
      StepWellFormed(s, es[0]);
      assert (es + more)[1..] == es[1..] + more;
      RunThenRun(Step(s, es[0]), es[1..], more);
    }
  }
}
