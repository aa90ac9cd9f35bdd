// One instance of the workflow manager as a state machine: activating and
// removing workflows, the queue of retries with its timers, and the commands of
// a multi-main setup. What the services answer comes in as a parameter.
module WorkflowActivation {
  import opened Common
  import Webhooks = WebhookRegistration

  /** The handle of a timer. */
  type Timer = nat

  const INITIAL_TIMEOUT: nat := 1000
  const MAX_TIMEOUT: nat := 24 * 60 * 60 * 1000

  datatype ActivationMode = Init | Create | Update | Activate | Manual | LeadershipChange

  /** What a retry was queued with: the closure keeps the workflow it was given, and that one's `active` flag. */
  datatype Retry = Retry(id: WorkflowId, mode: ActivationMode, active: bool)

  datatype Queued = Queued(retry: Retry, lastTimeout: nat, timer: Timer)

  datatype Armed = Armed(retry: Retry, delay: nat)

  datatype Command =
    | AddWebhooksTriggersAndPollers(id: WorkflowId)
    | RemoveTriggersAndPollers(id: WorkflowId)
    | DisplayActivation(id: WorkflowId)
    | DisplayDeactivation(id: WorkflowId)
    | DisplayActivationError(id: WorkflowId, message: string)

  /**
   * `memory` are the workflows with running triggers, `flying` the retries that have begun and not
   * ended. `errors`, `active` and `outbox` are shared by all instances of a setup.
   */
  datatype Instance = Instance(
    multiMain: bool, leader: bool,
    memory: set<WorkflowId>,
    queue: map<WorkflowId, Queued>,
    armed: map<Timer, Armed>,
    flying: map<Timer, Retry>,
    nextTimer: Timer,
    errors: map<WorkflowId, string>,
    active: set<WorkflowId>,
    outbox: seq<Command>)

  /** What a failed start of triggers and pollers leaves in memory. */
  datatype Remains = AsBefore | Present | Absent

  /** What becomes of looking a workflow up in the database. */
  datatype Lookup = Found | NotFound | LookupFails(message: string)

  /**
   * What the services answer during one activation. A `setupError` is thrown once the workflow is
   * loaded and before anything is registered: it has no node to start it, or its additional data
   * cannot be read.
   */
  datatype Services = Services(
    lookup: Lookup, setupError: Option<string>, hooks: Webhooks.Hooks,
    hasTriggers: bool, triggerError: Option<string>, remains: Remains,
    countError: Option<string>, saveError: Option<string>)

  datatype Result = Added(webhooks: bool, triggersAndPollers: bool) | Failed(message: string)

  // ---------- guards ----------

  predicate ShouldAddWebhooks(s: Instance, mode: ActivationMode) {
    mode == Init || (mode != LeadershipChange && s.leader)
  }

  predicate ShouldAddTriggersAndPollers(s: Instance) {
    s.leader
  }

  /** The error that `addWebhooks` throws, if it throws. */
  function WebhookError(w: Services, mode: ActivationMode): Option<string> {
    Webhooks.MessageOf(Webhooks.OutcomeOf(w.hooks, mode == Init))
  }

  predicate WebhooksAdded(w: Services, mode: ActivationMode) {
    Webhooks.OutcomeOf(w.hooks, mode == Init).AllAdded?
  }

  predicate OnlyIfActive(mode: ActivationMode) {
    mode == Init || mode == LeadershipChange
  }

  // ---------- the queue ----------

  function RemoveQueued(s: Instance, id: WorkflowId): Instance {
    if id in s.queue then s.(armed := s.armed - {s.queue[id].timer}, queue := s.queue - {id}) else s
  }

  /** Arms a timer for `retry` and holds its handle in the queue entry. */
  function Arm(s: Instance, retry: Retry, delay: nat): Instance {
    s.(queue := s.queue[retry.id := Queued(retry, delay, s.nextTimer)],
       armed := s.armed[s.nextTimer := Armed(retry, delay)],
       nextTimer := s.nextTimer + 1)
  }

  function Enqueue(s: Instance, retry: Retry): Instance {
    Arm(RemoveQueued(s, retry.id), retry, INITIAL_TIMEOUT)
  }

  function Min(a: nat, b: nat): nat { if a < b then a else b }

  function NextTimeout(lastTimeout: nat): nat {
    if lastTimeout < MAX_TIMEOUT then Min(lastTimeout * 2, MAX_TIMEOUT) else lastTimeout
  }

  /** The catch block of a retry: without an entry it throws itself, and nothing is armed again. */
  function Rearm(s: Instance, retry: Retry): Instance {
    if retry.id !in s.queue then s else
      var entry := s.queue[retry.id];
      var timeout := NextTimeout(entry.lastTimeout);
      s.(queue := s.queue[retry.id := entry.(lastTimeout := timeout, timer := s.nextTimer)],
         armed := s.armed[s.nextTimer := Armed(retry, timeout)],
         nextTimer := s.nextTimer + 1)
  }

  // ---------- activation ----------

  function Fail(s: Instance, id: WorkflowId, message: string): (Instance, Result) {
    (s.(errors := s.errors[id := message]), Failed(message))
  }

  /** Triggers and pollers, if there are any: `None` or the error that ended their start. */
  function StartTriggers(s: Instance, id: WorkflowId, w: Services): (Instance, Option<string>) {
    if !w.hasTriggers then (s, None)
    else if w.triggerError.None? then (s.(memory := s.memory + {id}), None)
    else
      var memory := match w.remains
        case AsBefore => s.memory
        case Present => s.memory + {id}
        case Absent => s.memory - {id};
      (s.(memory := memory), w.triggerError)
  }

  /** Nothing is left in the queue, and no error is registered. */
  function Clear(s: Instance, id: WorkflowId): Instance {
    var t := RemoveQueued(s, id);
    t.(errors := t.errors - {id})
  }

  /** The end of a successful activation: the queue and the error are cleared, then the rest may fail. */
  function Complete(s: Instance, id: WorkflowId, webhooks: bool, w: Services): (Instance, Result) {
    var cleared := Clear(s, id);
    if w.countError.Some? then Fail(cleared, id, w.countError.value)
    else if w.saveError.Some? then (cleared, Failed(w.saveError.value))
    else (cleared, Added(webhooks, ShouldAddTriggersAndPollers(s) && w.hasTriggers))
  }

  /** The error, if any, that is thrown before triggers are started. */
  function Obstacle(s: Instance, mode: ActivationMode, w: Services): Option<string> {
    if w.setupError.Some? then w.setupError
    else if ShouldAddWebhooks(s, mode) then WebhookError(w, mode)
    else None
  }

  function StartAndComplete(s: Instance, id: WorkflowId, mode: ActivationMode, w: Services): (Instance, Result) {
    var (t, error) := if ShouldAddTriggersAndPollers(s) then StartTriggers(s, id, w) else (s, None);
    if error.Some? then Fail(t, id, error.value)
    else Complete(t, id, ShouldAddWebhooks(s, mode) && WebhooksAdded(w, mode), w)
  }

  function NotLoaded(id: WorkflowId, lookup: Lookup): string {
    if lookup.LookupFails? then lookup.message else "Failed to find workflow with ID \"" + id + "\""
  }

  /** An activation comes as far as adding webhooks. */
  predicate ReachesWebhooks(s: Instance, id: WorkflowId, mode: ActivationMode, existing: Option<bool>,
                            shouldPublish: bool, w: Services)
  {
    && !(s.multiMain && shouldPublish) && (existing.Some? || w.lookup.Found?)
    && (OnlyIfActive(mode) ==> if existing.Some? then existing.value else id in s.active)
    && w.setupError.None? && ShouldAddWebhooks(s, mode)
  }

  /** The webhook table after an activation: `addWebhooks` was called, or it was not. */
  function TableAfter(table: Webhooks.Table, id: WorkflowId, mode: ActivationMode, w: Services, reached: bool)
    : Webhooks.Table
  {
    if reached then Webhooks.Registered(table, id, w.hooks, mode == Init) else table
  }

  /** `existing` is the `active` flag of a workflow the caller hands over. */
  function Add(s: Instance, id: WorkflowId, mode: ActivationMode, existing: Option<bool>, shouldPublish: bool,
               w: Services): (Instance, Result)
  {
    if s.multiMain && shouldPublish then
      (s.(outbox := s.outbox + [AddWebhooksTriggersAndPollers(id)]), Added(false, false))
    else if existing.None? && !w.lookup.Found? then
      Fail(s, id, NotLoaded(id, w.lookup))
    else if OnlyIfActive(mode) && !(if existing.Some? then existing.value else id in s.active) then
      (s, Added(false, false))
    else
      var obstacle := Obstacle(s, mode, w);
      if obstacle.Some? then Fail(s, id, obstacle.value) else StartAndComplete(s, id, mode, w)
  }

  /**
   * Activation at the start or on a change of leadership: on failure a retry is queued, but for an
   * authorization error. A lookup that fails is thrown to the caller, and nothing is queued.
   */
  function ActivateWorkflow(s: Instance, id: WorkflowId, mode: ActivationMode, w: Services): Instance {
    if !w.lookup.Found? then s else
      var (t, result) := Add(s, id, mode, Some(id in s.active), false, w);
      if result.Failed? && !Includes(result.message, "Authorization") then
        Enqueue(t, Retry(id, Init, id in s.active))
      else t
  }

  // ---------- retries and failing triggers ----------

  function Fire(s: Instance, timer: Timer): Instance
    requires timer in s.armed
  {
    s.(armed := s.armed - {timer}, flying := s.flying[timer := s.armed[timer].retry])
  }

  function FinishRetry(s: Instance, timer: Timer, w: Services): Instance
    requires timer in s.flying
  {
    var retry := s.flying[timer];
    var (t, result) := Add(s.(flying := s.flying - {timer}), retry.id, retry.mode, Some(retry.active), true, w);
    if result.Failed? then Rearm(t, retry) else t
  }

  function StopTriggers(s: Instance, id: WorkflowId, closes: bool): Instance {
    if closes then s.(memory := s.memory - {id}) else s
  }

  /** A running trigger reports an error: it is stopped, the error is registered and a retry queued. */
  function EmitError(s: Instance, retry: Retry, message: string, closes: bool): Instance {
    var t := StopTriggers(s, retry.id, closes);
    Enqueue(t.(errors := t.errors[retry.id := message]), retry)
  }

  // ---------- removal ----------

  /** Webhooks apart, which are cleared first and whose failure is swallowed. */
  function Remove(s: Instance, id: WorkflowId, closes: bool): Instance {
    if s.multiMain then s.(outbox := s.outbox + [RemoveTriggersAndPollers(id)])
    else StopTriggers(RemoveQueued(s.(errors := s.errors - {id}), id), id, closes)
  }

  /** All triggers are stopped, but for those in `kept` whose closing fails. */
  function StopAllTriggers(s: Instance, kept: set<WorkflowId>): Instance {
    s.(memory := s.memory * kept)
  }

  function ClearQueue(s: Instance): Instance {
    s.(queue := map[],
       armed := map t | t in s.armed && (forall id :: id in s.queue ==> s.queue[id].timer != t) :: s.armed[t])
  }

  // ---------- commands, on the leader ----------

  function HandleAdd(s: Instance, id: WorkflowId, w: Services): Instance {
    var (t, result) := Add(s, id, Activate, None, false, w);
    match result
    case Added(_, _) => t.(outbox := t.outbox + [DisplayActivation(id)])
    case Failed(message) =>
      t.(active := t.active - {id}, outbox := t.outbox + [DisplayActivationError(id, message)])
  }

  function HandleRemove(s: Instance, id: WorkflowId, closes: bool): Instance {
    var t := StopTriggers(s.(errors := s.errors - {id}), id, closes);
    if closes || id !in s.memory then t.(outbox := t.outbox + [DisplayDeactivation(id)]) else t
  }

  // ---------- one instance ----------

  datatype Event =
    | CallAdd(id: WorkflowId, mode: ActivationMode, w: Services)
    | CallRemove(id: WorkflowId, closes: bool)
    | CallActivate(id: WorkflowId, mode: ActivationMode, w: Services)
    | TimerFires(timer: Timer)
    | RetryEnds(timer: Timer, w: Services)
    | TriggerFails(retry: Retry, message: string, closes: bool)
    | TriggersStop(kept: set<WorkflowId>)
    | QueueCleared
    | ErrorsCleared
    | SetActive(id: WorkflowId, flag: bool)

  predicate Enabled(s: Instance, e: Event) {
    match e
    case TimerFires(timer) => timer in s.armed
    case RetryEnds(timer, _) => timer in s.flying
    case _ => true
  }

  function Step(s: Instance, e: Event): Instance
    requires Enabled(s, e)
  {
    match e
    case CallAdd(id, mode, w) => Add(s, id, mode, None, true, w).0
    case CallRemove(id, closes) => Remove(s, id, closes)
    case CallActivate(id, mode, w) => ActivateWorkflow(s, id, mode, w)
    case TimerFires(timer) => Fire(s, timer)
    case RetryEnds(timer, w) => FinishRetry(s, timer, w)
    case TriggerFails(retry, message, closes) => EmitError(s, retry, message, closes)
    case TriggersStop(kept) => StopAllTriggers(s, kept)
    case QueueCleared => ClearQueue(s)
    case ErrorsCleared => s.(errors := map[])
    case SetActive(id, flag) => s.(active := if flag then s.active + {id} else s.active - {id})
  }

  predicate Feasible(s: Instance, es: seq<Event>)
    decreases |es|
  {
    es == [] || (Enabled(s, es[0]) && Feasible(Step(s, es[0]), es[1..]))
  }

  function Run(s: Instance, es: seq<Event>): Instance
    requires Feasible(s, es)
    decreases |es|
  {
    if es == [] then s else Run(Step(s, es[0]), es[1..])
  }
}
