// What every run of one instance keeps: one timer per workflow, a queue that
// forgets no workflow and agrees with the registered errors, removal that lasts.
module ActivationLaws {
  import opened Common
  import opened WorkflowActivation
  import Webhooks = WebhookRegistration

  // ---------- the invariant, timer by timer and workflow by workflow ----------

  /** An armed timer is the one held by its workflow's queue entry, with that entry's retry and delay. */
  predicate ArmedOk(s: Instance, t: Timer) {
    t in s.armed ==>
      var retry := s.armed[t].retry;
      && t < s.nextTimer && t !in s.flying
      && retry.id in s.queue && s.queue[retry.id] == Queued(retry, s.armed[t].delay, t)
  }

  /** While a retry flies, its workflow's entry, if there still is one, holds the handle that fired. */
  predicate FlyingOk(s: Instance, t: Timer) {
    t in s.flying ==>
      var retry := s.flying[t];
      && t < s.nextTimer
      && (retry.id in s.queue ==> s.queue[retry.id].timer == t && s.queue[retry.id].retry == retry)
  }

  predicate SoleFlight(s: Instance, t: Timer, u: Timer) {
    t in s.flying && u in s.flying && s.flying[t].id == s.flying[u].id ==> t == u
  }

  /** An entry is kept under its own id and was queued for a workflow that is not skipped. */
  predicate EntryOk(s: Instance, id: WorkflowId) {
    id in s.queue ==>
      && s.queue[id].retry.id == id && s.queue[id].timer < s.nextTimer
      && Plausible(s.queue[id].retry)
  }

  /** No queued workflow is forgotten: its timer is armed, or its retry flies. */
  predicate Pursued(s: Instance, id: WorkflowId) {
    id in s.queue ==>
      var t := s.queue[id].timer;
      (t in s.armed && s.armed[t].retry.id == id) || (t in s.flying && s.flying[t].id == id)
  }

  /** A retry in a mode for active workflows holds an active workflow. */
  predicate Plausible(retry: Retry) {
    OnlyIfActive(retry.mode) ==> retry.active
  }

  ghost predicate Invariant(s: Instance) {
    && (forall t {:trigger ArmedOk(s, t)} :: ArmedOk(s, t))
    && (forall t {:trigger FlyingOk(s, t)} :: FlyingOk(s, t))
    && (forall t, u {:trigger SoleFlight(s, t, u)} :: SoleFlight(s, t, u))
    && (forall id {:trigger EntryOk(s, id)} :: EntryOk(s, id))
    && (forall id {:trigger Pursued(s, id)} :: Pursued(s, id))
  }

  ghost predicate InFlight(s: Instance, id: WorkflowId) {
    exists t :: t in s.flying && s.flying[t].id == id
  }

  /** The activation fails in a way that queues the workflow. */
  predicate Requeues(s: Instance, id: WorkflowId, mode: ActivationMode, w: Services) {
    w.lookup.Found? &&
      var result := Add(s, id, mode, Some(id in s.active), false, w).1;
      result.Failed? && !Includes(result.message, "Authorization")
  }

  /**
   * What the manager relies on: a workflow is not queued anew while a retry of it flies, nor with a
   * mode for active workflows when it is not active.
   */
  ghost predicate Disciplined(s: Instance, e: Event) {
    match e
    case TriggerFails(retry, _, _) => !InFlight(s, retry.id) && Plausible(retry)
    case CallActivate(id, mode, w) => Requeues(s, id, mode, w) ==> !InFlight(s, id) && id in s.active
    case _ => true
  }

  // ---------- the queue operations ----------

  /** Only the queue part of a state matters to the invariant. */
  lemma InvariantElsewhere(s: Instance, t: Instance)
    requires Invariant(s)
    requires t.queue == s.queue && t.armed == s.armed && t.flying == s.flying && t.nextTimer == s.nextTimer
    ensures Invariant(t)
  {
    forall x ensures ArmedOk(t, x) && FlyingOk(t, x) {
      assert ArmedOk(s, x) && FlyingOk(s, x);
    }
    forall x, y ensures SoleFlight(t, x, y) {
      assert SoleFlight(s, x, y);
    }
    forall id ensures EntryOk(t, id) && Pursued(t, id) {
      assert EntryOk(s, id) && Pursued(s, id);
    }
  }

  lemma RemoveQueuedKeeps(s: Instance, id: WorkflowId)
    requires Invariant(s)
    ensures Invariant(RemoveQueued(s, id))
  {
    var t := RemoveQueued(s, id);
    forall x ensures ArmedOk(t, x) && FlyingOk(t, x) {
      assert ArmedOk(s, x) && FlyingOk(s, x);
    }
    forall x, y ensures SoleFlight(t, x, y) {
      assert SoleFlight(s, x, y);
    }
    forall x ensures EntryOk(t, x) && Pursued(t, x) {
      assert EntryOk(s, x) && Pursued(s, x) && Pursued(s, id);
      if x in t.queue && id in s.queue {
        assert ArmedOk(s, s.queue[x].timer);
      }
    }
  }

  /** Arming a workflow that has no armed timer and no retry in flight. */
  lemma ArmKeeps(s: Instance, retry: Retry, delay: nat)
    requires Invariant(s) && retry.id !in s.queue && !InFlight(s, retry.id)
    requires Plausible(retry)
    ensures Invariant(Arm(s, retry, delay))
  {
    var t := Arm(s, retry, delay);
    forall x ensures ArmedOk(t, x) && FlyingOk(t, x) {
      assert ArmedOk(s, x) && FlyingOk(s, x) && FlyingOk(s, s.nextTimer);
    }
    forall x, y ensures SoleFlight(t, x, y) {
      assert SoleFlight(s, x, y);
    }
    forall x ensures EntryOk(t, x) && Pursued(t, x) {
      assert EntryOk(s, x) && Pursued(s, x) && ArmedOk(s, s.nextTimer);
    }
  }

  lemma EnqueueKeeps(s: Instance, retry: Retry)
    requires Invariant(s) && !InFlight(s, retry.id) && Plausible(retry)
    ensures Invariant(Enqueue(s, retry))
  {
    RemoveQueuedKeeps(s, retry.id);
    ArmKeeps(RemoveQueued(s, retry.id), retry, INITIAL_TIMEOUT);
  }

  /** Queueing a workflow keeps the invariant exactly when no retry of it flies and it would not be skipped. */
  lemma EnqueueKeepsExactly(s: Instance, retry: Retry)
    requires Invariant(s)
    ensures Invariant(Enqueue(s, retry)) <==> !InFlight(s, retry.id) && Plausible(retry)
  {
    var t := Enqueue(s, retry);
    if !InFlight(s, retry.id) && Plausible(retry) {
      EnqueueKeeps(s, retry);
    } else if Invariant(t) {
      assert EntryOk(t, retry.id);
      var x :| x in s.flying && s.flying[x].id == retry.id;
      assert FlyingOk(s, x) && FlyingOk(t, x);
      assert false;
    }
  }

  // ---------- one activation ----------

  predicate SameFor(s: Instance, t: Instance, x: WorkflowId) {
    && (x in t.memory <==> x in s.memory)
    && (x in t.errors <==> x in s.errors)
    && (x in s.errors ==> t.errors[x] == s.errors[x])
  }

  /** What an activation of `id` never touches. */
  ghost predicate OnlyTouches(s: Instance, t: Instance, id: WorkflowId) {
    && t.flying == s.flying && t.nextTimer == s.nextTimer && t.multiMain == s.multiMain && t.leader == s.leader
    && t.outbox == s.outbox && t.active == s.active
    && forall x {:trigger SameFor(s, t, x)} :: x != id ==> SameFor(s, t, x)
  }

  /** The activation completed: the entry and its armed timer are gone. */
  ghost predicate Cleared(s: Instance, t: Instance, id: WorkflowId) {
    t.queue == RemoveQueued(s, id).queue && t.armed == RemoveQueued(s, id).armed
  }

  ghost predicate QueueKept(s: Instance, t: Instance) {
    t.queue == s.queue && t.armed == s.armed
  }

  lemma ClearTouches(s: Instance, id: WorkflowId)
    ensures var t := Clear(s, id);
      OnlyTouches(s, t, id) && Cleared(s, t, id) && t.memory == s.memory && id !in t.errors
  {
  }

  lemma CompleteClears(s: Instance, id: WorkflowId, webhooks: bool, w: Services)
    ensures var (t, result) := Complete(s, id, webhooks, w);
      OnlyTouches(s, t, id) && Cleared(s, t, id) && t.memory == s.memory && (result.Added? ==> id !in t.errors)
  {
    var t := Clear(s, id);
    ClearTouches(s, id);
    if w.countError.Some? {
      FailTouches(t, id, w.countError.value);
      TouchesTwice(s, t, Fail(t, id, w.countError.value).0, id);
    }
  }

  lemma StartTriggersTouches(s: Instance, id: WorkflowId, w: Services)
    ensures var (t, error) := StartTriggers(s, id, w);
      && OnlyTouches(s, t, id) && QueueKept(s, t) && t.errors == s.errors
      && (error.None? && w.hasTriggers ==> t.memory == s.memory + {id})
  {
  }

  lemma FailTouches(s: Instance, id: WorkflowId, message: string)
    ensures OnlyTouches(s, Fail(s, id, message).0, id)
  {
  }

  lemma TouchesTwice(s: Instance, t: Instance, u: Instance, id: WorkflowId)
    requires OnlyTouches(s, t, id) && OnlyTouches(t, u, id)
    ensures OnlyTouches(s, u, id)
  {
    forall x | x != id ensures SameFor(s, u, x) {
      assert SameFor(s, t, x) && SameFor(t, u, x);
    }
  }

  lemma StartAndCompleteEnds(s: Instance, id: WorkflowId, mode: ActivationMode, w: Services)
    ensures var (t, result) := StartAndComplete(s, id, mode, w);
      && OnlyTouches(s, t, id)
      && ((Cleared(s, t, id) && (result.Added? ==> id !in t.errors))
       || (QueueKept(s, t) && result.Failed? && id in t.errors))
      && (result.Added? ==> Cleared(s, t, id))
      && (result.Added? ==> t.memory == s.memory + if ShouldAddTriggersAndPollers(s) && w.hasTriggers then {id} else {})
  {
    if ShouldAddTriggersAndPollers(s) {
      var (t, error) := StartTriggers(s, id, w);
      StartTriggersTouches(s, id, w);
      if error.Some? {
        FailTouches(t, id, error.value);
        TouchesTwice(s, t, Fail(t, id, error.value).0, id);
      } else {
        var webhooks := ShouldAddWebhooks(s, mode) && WebhooksAdded(w, mode);
        CompleteClears(t, id, webhooks, w);
        TouchesTwice(s, t, Complete(t, id, webhooks, w).0, id);
      }
    } else {
      CompleteClears(s, id, ShouldAddWebhooks(s, mode) && WebhooksAdded(w, mode), w);
    }
  }

  /**
   * How an activation ends: completed, with the queue entry, its timer and on success the error gone;
   * or broken off, with the queue as it was and a failure registered; or skipped, with no change.
   */
  lemma AddEnds(s: Instance, id: WorkflowId, mode: ActivationMode, existing: Option<bool>, publish: bool, w: Services)
    requires !(s.multiMain && publish)
    ensures var (t, result) := Add(s, id, mode, existing, publish, w);
      && OnlyTouches(s, t, id)
      && ((Cleared(s, t, id) && (result.Added? ==> id !in t.errors))
       || (QueueKept(s, t) && result.Failed? && id in t.errors)
       || (t == s && result.Added?))
      && (existing.Some? && (OnlyIfActive(mode) ==> existing.value) && result.Added? ==> Cleared(s, t, id))
  {
    StartAndCompleteEnds(s, id, mode, w);
    FailTouches(s, id, NotLoaded(id, w.lookup));
    if Obstacle(s, mode, w).Some? {
      FailTouches(s, id, Obstacle(s, mode, w).value);
    }
  }

  /** However it ends, an activation keeps the invariant. */
  lemma AddKeeps(s: Instance, id: WorkflowId, mode: ActivationMode, existing: Option<bool>, publish: bool, w: Services)
    requires Invariant(s) && !(s.multiMain && publish)
    ensures Invariant(Add(s, id, mode, existing, publish, w).0)
  {
    AddEnds(s, id, mode, existing, publish, w);
    var t := Add(s, id, mode, existing, publish, w).0;
    if QueueKept(s, t) {
      InvariantElsewhere(s, t);
    } else {
      RemoveQueuedKeeps(s, id);
      InvariantElsewhere(RemoveQueued(s, id), t);
    }
  }

  lemma FireKeeps(s: Instance, timer: Timer)
    requires Invariant(s) && timer in s.armed
    ensures Invariant(Fire(s, timer))
  {
    var t := Fire(s, timer);
    assert ArmedOk(s, timer);
    forall x ensures ArmedOk(t, x) && FlyingOk(t, x) {
      assert ArmedOk(s, x) && FlyingOk(s, x);
    }
    forall x, y ensures SoleFlight(t, x, y) {
      assert SoleFlight(s, x, y) && FlyingOk(s, x) && FlyingOk(s, y);
    }
    forall id ensures EntryOk(t, id) && Pursued(t, id) {
      assert EntryOk(s, id) && Pursued(s, id);
    }
  }

  // ---------- the end of a retry ----------

  /** The invariant without the entry of `id`, whose handle is spent and whose retry has just come back. */
  ghost predicate InvariantBut(s: Instance, retry: Retry) {
    && (forall t {:trigger ArmedOk(s, t)} :: ArmedOk(s, t))
    && (forall t {:trigger FlyingOk(s, t)} :: FlyingOk(s, t))
    && (forall t, u {:trigger SoleFlight(s, t, u)} :: SoleFlight(s, t, u))
    && (forall id {:trigger EntryOk(s, id)} :: EntryOk(s, id))
    && (forall id {:trigger Pursued(s, id)} :: id != retry.id ==> Pursued(s, id))
    && !InFlight(s, retry.id)
    && (retry.id in s.queue ==> s.queue[retry.id].timer !in s.armed && s.queue[retry.id].retry == retry)
  }

  lemma LandingStarts(s: Instance, timer: Timer)
    requires Invariant(s) && timer in s.flying
    ensures InvariantBut(s.(flying := s.flying - {timer}), s.flying[timer])
  {
    var retry, t := s.flying[timer], s.(flying := s.flying - {timer});
    assert FlyingOk(s, timer) && ArmedOk(s, timer);
    forall x ensures ArmedOk(t, x) && FlyingOk(t, x) {
      assert ArmedOk(s, x) && FlyingOk(s, x);
    }
    forall x, y ensures SoleFlight(t, x, y) {
      assert SoleFlight(s, x, y);
    }
    forall id ensures EntryOk(t, id) && (id != retry.id ==> Pursued(t, id)) {
      assert EntryOk(s, id) && Pursued(s, id);
    }
    forall x | x in s.flying && s.flying[x].id == retry.id ensures x == timer {
      assert SoleFlight(s, x, timer);
    }
  }

  /** Taking the entry away restores the invariant. */
  lemma LandingClears(s: Instance, retry: Retry, t: Instance)
    requires InvariantBut(s, retry) && Cleared(s, t, retry.id) && OnlyTouches(s, t, retry.id)
    ensures Invariant(t)
  {
    forall x ensures ArmedOk(t, x) && FlyingOk(t, x) {
      assert ArmedOk(s, x) && FlyingOk(s, x);
    }
    forall x, y ensures SoleFlight(t, x, y) {
      assert SoleFlight(s, x, y);
    }
    forall id ensures EntryOk(t, id) && Pursued(t, id) {
      assert EntryOk(s, id) && (id != retry.id ==> Pursued(s, id));
    }
  }

  /** So does arming it again. */
  lemma RearmRestores(s: Instance, retry: Retry)
    requires InvariantBut(s, retry)
    ensures Invariant(Rearm(s, retry))
  {
    var t := Rearm(s, retry);
    assert EntryOk(s, retry.id) && ArmedOk(s, s.nextTimer) && FlyingOk(s, s.nextTimer);
    forall x ensures ArmedOk(t, x) && FlyingOk(t, x) {
      assert ArmedOk(s, x) && FlyingOk(s, x);
    }
    forall x, y ensures SoleFlight(t, x, y) {
      assert SoleFlight(s, x, y);
    }
    forall id ensures EntryOk(t, id) && Pursued(t, id) {
      assert EntryOk(s, id) && (id != retry.id ==> Pursued(s, id));
    }
  }

  lemma ButElsewhere(s: Instance, retry: Retry, t: Instance)
    requires InvariantBut(s, retry) && QueueKept(s, t) && OnlyTouches(s, t, retry.id)
    ensures InvariantBut(t, retry)
  {
    forall x ensures ArmedOk(t, x) && FlyingOk(t, x) {
      assert ArmedOk(s, x) && FlyingOk(s, x);
    }
    forall x, y ensures SoleFlight(t, x, y) {
      assert SoleFlight(s, x, y);
    }
    forall id ensures EntryOk(t, id) && (id != retry.id ==> Pursued(t, id)) {
      assert EntryOk(s, id) && (id != retry.id ==> Pursued(s, id));
    }
  }

  lemma RearmNothing(s: Instance, retry: Retry)
    requires retry.id !in s.queue
    ensures Rearm(s, retry) == s
  {
  }

  lemma FinishRetryKeeps(s: Instance, timer: Timer, w: Services)
    requires Invariant(s) && timer in s.flying && !s.multiMain
    ensures Invariant(FinishRetry(s, timer, w))
  {
    var retry, u := s.flying[timer], s.(flying := s.flying - {timer});
    LandingStarts(s, timer);
    assert FlyingOk(s, timer) && EntryOk(s, retry.id);
    AddEnds(u, retry.id, retry.mode, Some(retry.active), true, w);
    var (t, result) := Add(u, retry.id, retry.mode, Some(retry.active), true, w);
    if Cleared(u, t, retry.id) {
      LandingClears(u, retry, t);
      if result.Failed? {
        RearmNothing(t, retry);
      }
    } else if result.Failed? {
      ButElsewhere(u, retry, t);
      RearmRestores(t, retry);
    }
  }

  // ---------- every step, every run ----------

  lemma ActivateKeepsExactly(s: Instance, id: WorkflowId, mode: ActivationMode, w: Services)
    requires Invariant(s)
    ensures Invariant(ActivateWorkflow(s, id, mode, w))
      <==> (Requeues(s, id, mode, w) ==> !InFlight(s, id) && id in s.active)
  {
    if w.lookup.Found? {
      var active := id in s.active;
      AddKeeps(s, id, mode, Some(active), false, w);
      AddEnds(s, id, mode, Some(active), false, w);
      EnqueueKeepsExactly(Add(s, id, mode, Some(active), false, w).0, Retry(id, Init, active));
    }
  }

  lemma ClearQueueKeeps(s: Instance)
    requires Invariant(s)
    ensures Invariant(ClearQueue(s)) && ClearQueue(s).armed == map[]
  {
    var t := ClearQueue(s);
    forall x ensures ArmedOk(t, x) && FlyingOk(t, x) && x !in t.armed {
      assert ArmedOk(s, x) && FlyingOk(s, x);
    }
    forall x, y ensures SoleFlight(t, x, y) {
      assert SoleFlight(s, x, y);
    }
    assert forall id :: EntryOk(t, id) && Pursued(t, id);
  }

  /** In single-main a step keeps the invariant exactly when it is disciplined. */
  lemma StepKeepsExactly(s: Instance, e: Event)
    requires Invariant(s) && !s.multiMain && Enabled(s, e)
    ensures Invariant(Step(s, e)) <==> Disciplined(s, e)
  {
    match e {
      case CallAdd(id, mode, w) => AddKeeps(s, id, mode, None, true, w);
      case CallRemove(id, closes) =>
        var t := s.(errors := s.errors - {id});
        InvariantElsewhere(s, t);
        RemoveQueuedKeeps(t, id);
        InvariantElsewhere(RemoveQueued(t, id), Step(s, e));
      case CallActivate(id, mode, w) => ActivateKeepsExactly(s, id, mode, w);
      case TimerFires(timer) => FireKeeps(s, timer);
      case RetryEnds(timer, w) => FinishRetryKeeps(s, timer, w);
      case TriggerFails(retry, message, closes) =>
        var t := StopTriggers(s, retry.id, closes).(errors := s.errors[retry.id := message]);
        InvariantElsewhere(s, t);
        EnqueueKeepsExactly(t, retry);
      case QueueCleared => ClearQueueKeeps(s);
      case _ => InvariantElsewhere(s, Step(s, e));
    }
  }

  lemma RoleKept(s: Instance, e: Event)
    requires Enabled(s, e) && !s.multiMain
    ensures Step(s, e).multiMain == s.multiMain && Step(s, e).leader == s.leader
  {
    match e {
      case CallAdd(id, mode, w) => AddEnds(s, id, mode, None, true, w);
      case CallActivate(id, mode, w) => AddEnds(s, id, mode, Some(id in s.active), false, w);
      case RetryEnds(timer, w) =>
        var retry := s.flying[timer];
        AddEnds(s.(flying := s.flying - {timer}), retry.id, retry.mode, Some(retry.active), true, w);
      case _ =>
    }
  }

  ghost predicate DisciplinedRun(s: Instance, es: seq<Event>)
    requires Feasible(s, es)
    decreases |es|
  {
    es == [] || (Disciplined(s, es[0]) && DisciplinedRun(Step(s, es[0]), es[1..]))
  }

  function Fresh(leader: bool, errors: map<WorkflowId, string>, active: set<WorkflowId>): Instance {
    Instance(false, leader, {}, map[], map[], map[], 0, errors, active, [])
  }

  lemma {:induction false} RunKeeps(s: Instance, es: seq<Event>)
    requires Invariant(s) && !s.multiMain && Feasible(s, es) && DisciplinedRun(s, es)
    ensures Invariant(Run(s, es))
    decreases |es|
  {
    if es != [] {
      StepKeepsExactly(s, es[0]);
      RoleKept(s, es[0]);
      RunKeeps(Step(s, es[0]), es[1..]);
    }
  }

  /**
   * One timer per workflow: in every state of a disciplined single-main run two armed timers belong to
   * two workflows, each is the handle of its workflow's entry, and every entry's timer is armed or flies.
   */
  lemma OneTimerPerWorkflow(leader: bool, errors: map<WorkflowId, string>, active: set<WorkflowId>, es: seq<Event>)
    requires Feasible(Fresh(leader, errors, active), es) && DisciplinedRun(Fresh(leader, errors, active), es)
    ensures var s := Run(Fresh(leader, errors, active), es);
      && (forall t, u :: t in s.armed && u in s.armed && s.armed[t].retry.id == s.armed[u].retry.id ==> t == u)
      && (forall t :: t in s.armed ==> s.armed[t].retry.id in s.queue && s.queue[s.armed[t].retry.id].timer == t)
      && (forall id :: id in s.queue ==> s.queue[id].timer in s.armed || s.queue[id].timer in s.flying)
  {
    var s := Run(Fresh(leader, errors, active), es);
    RunKeeps(Fresh(leader, errors, active), es);
    forall t | t in s.armed
      ensures s.armed[t].retry.id in s.queue && s.queue[s.armed[t].retry.id].timer == t
    {
      assert ArmedOk(s, t);
    }
    forall id | id in s.queue ensures s.queue[id].timer in s.armed || s.queue[id].timer in s.flying {
      assert Pursued(s, id);
    }
  }

  // ---------- where one timer is lost: exactly ----------

  /** Armed timers and the entries that hold them belong to the same workflows. */
  ghost predicate OneTimer(s: Instance) {
    && (forall t :: t in s.armed ==> s.armed[t].retry.id in s.queue && s.queue[s.armed[t].retry.id].timer == t)
    && (forall id :: id in s.queue && s.queue[id].timer in s.armed ==> s.armed[s.queue[id].timer].retry.id == id)
  }

  /** The catch block overwrites the handle of the entry: that is harmless exactly when the handle is spent. */
  lemma RearmKeepsOneTimerExactly(s: Instance, retry: Retry)
    requires OneTimer(s) && s.nextTimer !in s.armed
    requires forall id :: id in s.queue ==> s.queue[id].timer != s.nextTimer
    ensures OneTimer(Rearm(s, retry)) <==> retry.id !in s.queue || s.queue[retry.id].timer !in s.armed
  {
    var t := Rearm(s, retry);
    if retry.id in s.queue {
      var handle := s.queue[retry.id].timer;
      if handle in s.armed {
        assert handle in t.armed && t.armed[handle].retry.id == retry.id && t.queue[retry.id].timer == s.nextTimer;
      } else {
        forall x | x in t.armed
          ensures t.armed[x].retry.id in t.queue && t.queue[t.armed[x].retry.id].timer == x
        {
          assert x != s.nextTimer ==> x in s.armed && s.armed[x].retry.id != retry.id;
        }
        forall id | id in t.queue && t.queue[id].timer in t.armed ensures t.armed[t.queue[id].timer].retry.id == id {
          assert id != retry.id ==> t.queue[id] == s.queue[id];
        }
      }
    }
  }

  /** Queueing a workflow while a retry of it flies, and that retry failing, arms two timers for it. */
  lemma QueueingInFlightArmsTwo(s: Instance, timer: Timer, message: string, w: Services) returns (u: Timer, v: Timer)
    requires Invariant(s) && !s.multiMain && timer in s.armed && Plausible(s.armed[timer].retry)
    requires w.setupError.Some?
    ensures var retry := s.armed[timer].retry;
      var es := [TimerFires(timer), TriggerFails(retry, message, true), RetryEnds(timer, w)];
      && Feasible(s, es)
      && u != v && u in Run(s, es).armed && v in Run(s, es).armed
      && Run(s, es).armed[u].retry.id == retry.id && Run(s, es).armed[v].retry.id == retry.id
  {
    var retry := s.armed[timer].retry;
    var es := [TimerFires(timer), TriggerFails(retry, message, true), RetryEnds(timer, w)];
    assert ArmedOk(s, timer);
    var fired := Fire(s, timer);
    var queued := EmitError(fired, retry, message, true);
    assert timer in queued.flying && queued.flying[timer] == retry;
    assert es[1..] == [TriggerFails(retry, message, true), RetryEnds(timer, w)];
    assert es[1..][1..] == [RetryEnds(timer, w)] && es[1..][1..][1..] == [];
    assert Feasible(queued, [RetryEnds(timer, w)]);
    u, v := s.nextTimer, s.nextTimer + 1;
    assert FinishRetry(queued, timer, w) == Run(queued, [RetryEnds(timer, w)]);
  }

  // ---------- one timer at every moment: exactly ----------

  /** All handles in use were given out. */
  ghost predicate HandlesBelow(s: Instance) {
    && (forall t :: t in s.armed ==> t < s.nextTimer)
    && (forall id :: id in s.queue ==> s.queue[id].timer < s.nextTimer)
  }

  predicate RetryFails(s: Instance, timer: Timer, w: Services)
    requires timer in s.flying
  {
    var retry := s.flying[timer];
    Add(s.(flying := s.flying - {timer}), retry.id, retry.mode, Some(retry.active), true, w).1.Failed?
  }

  /** Webhooks and triggers are up, whatever fails after that. */
  predicate Starts(s: Instance, mode: ActivationMode, w: Services) {
    Obstacle(s, mode, w).None? && (s.leader && w.hasTriggers ==> w.triggerError.None?)
  }

  /** A retry fails before its entry is removed, and finds that its workflow was queued anew meanwhile. */
  predicate RetryCollides(s: Instance, e: Event)
    requires Enabled(s, e)
  {
    e.RetryEnds? && RetryFails(s, e.timer, e.w)
    && var retry := s.flying[e.timer];
       !Starts(s, retry.mode, e.w) && retry.id in s.queue && s.queue[retry.id].timer in s.armed
  }

  /** What a failed retry meets in its catch block: its entry as it was, or none after a late failure. */
  lemma FailedRetryMeets(s: Instance, timer: Timer, w: Services)
    requires !s.multiMain && timer in s.flying && RetryFails(s, timer, w)
    ensures var (retry, u) := (s.flying[timer], s.(flying := s.flying - {timer}));
      var t := Add(u, retry.id, retry.mode, Some(retry.active), true, w).0;
      && OnlyTouches(u, t, retry.id)
      && (if Starts(s, retry.mode, w) then Cleared(u, t, retry.id) else QueueKept(u, t))
  {
    var (retry, u) := (s.flying[timer], s.(flying := s.flying - {timer}));
    AddEnds(u, retry.id, retry.mode, Some(retry.active), true, w);
    if Obstacle(u, retry.mode, w).None? {
      if u.leader {
        StartTriggersTouches(u, retry.id, w);
      }
      var (v, error) := if u.leader then StartTriggers(u, retry.id, w) else (u, None);
      if error.None? {
        CompleteClears(v, retry.id, ShouldAddWebhooks(u, retry.mode) && WebhooksAdded(w, retry.mode), w);
      }
    }
  }

  lemma RemoveQueuedKeepsOneTimer(s: Instance, id: WorkflowId)
    requires OneTimer(s) && HandlesBelow(s)
    ensures OneTimer(RemoveQueued(s, id)) && HandlesBelow(RemoveQueued(s, id))
  {
    var t := RemoveQueued(s, id);
    forall x | x in t.armed
      ensures t.armed[x].retry.id in t.queue && t.queue[t.armed[x].retry.id].timer == x
    {
      assert x in s.armed;
    }
  }

  lemma EnqueueKeepsOneTimer(s: Instance, retry: Retry)
    requires OneTimer(s) && HandlesBelow(s)
    ensures OneTimer(Enqueue(s, retry)) && HandlesBelow(Enqueue(s, retry))
  {
    RemoveQueuedKeepsOneTimer(s, retry.id);
    var u, t := RemoveQueued(s, retry.id), Enqueue(s, retry);
    forall x | x in t.armed
      ensures t.armed[x].retry.id in t.queue && t.queue[t.armed[x].retry.id].timer == x
    {
      assert x != s.nextTimer ==> x in u.armed && u.armed[x].retry.id in u.queue;
    }
  }

  /** Only queue and timers matter to it. */
  lemma OneTimerElsewhere(s: Instance, t: Instance)
    requires OneTimer(s) && HandlesBelow(s) && QueueKept(s, t) && t.nextTimer == s.nextTimer
    ensures OneTimer(t) && HandlesBelow(t)
  {
  }

  lemma AddKeepsOneTimer(s: Instance, id: WorkflowId, mode: ActivationMode, existing: Option<bool>, publish: bool,
                         w: Services)
    requires OneTimer(s) && HandlesBelow(s) && !(s.multiMain && publish)
    ensures var t := Add(s, id, mode, existing, publish, w).0;
      OneTimer(t) && HandlesBelow(t)
  {
    AddEnds(s, id, mode, existing, publish, w);
    var t := Add(s, id, mode, existing, publish, w).0;
    if QueueKept(s, t) {
      OneTimerElsewhere(s, t);
    } else {
      RemoveQueuedKeepsOneTimer(s, id);
      OneTimerElsewhere(RemoveQueued(s, id), t);
    }
  }

  lemma RetryKeepsOneTimerExactly(s: Instance, timer: Timer, w: Services)
    requires OneTimer(s) && HandlesBelow(s) && !s.multiMain && timer in s.flying
    ensures OneTimer(FinishRetry(s, timer, w)) <==> !RetryCollides(s, RetryEnds(timer, w))
    ensures HandlesBelow(FinishRetry(s, timer, w))
  {
    var (retry, u) := (s.flying[timer], s.(flying := s.flying - {timer}));
    OneTimerElsewhere(s, u);
    AddKeepsOneTimer(u, retry.id, retry.mode, Some(retry.active), true, w);
    if RetryFails(s, timer, w) {
      var t := Add(u, retry.id, retry.mode, Some(retry.active), true, w).0;
      FailedRetryMeets(s, timer, w);
      RearmKeepsOneTimerExactly(t, retry);
    }
  }

  /**
   * A single-main step keeps one armed timer per workflow, held by its entry, exactly when it is not a
   * retry that fails before its entry is removed while that entry holds an armed timer.
   */
  lemma StepKeepsOneTimerExactly(s: Instance, e: Event)
    requires OneTimer(s) && HandlesBelow(s) && !s.multiMain && Enabled(s, e)
    ensures OneTimer(Step(s, e)) <==> !RetryCollides(s, e)
    ensures HandlesBelow(Step(s, e))
  {
    match e {
      case CallAdd(id, mode, w) => AddKeepsOneTimer(s, id, mode, None, true, w);
      case CallRemove(id, closes) =>
        RemoveQueuedKeepsOneTimer(s, id);
        OneTimerElsewhere(RemoveQueued(s, id), Step(s, e));
      case CallActivate(id, mode, w) =>
        AddKeepsOneTimer(s, id, mode, Some(id in s.active), false, w);
        EnqueueKeepsOneTimer(Add(s, id, mode, Some(id in s.active), false, w).0, Retry(id, Init, id in s.active));
      case RetryEnds(timer, w) => RetryKeepsOneTimerExactly(s, timer, w);
      case TriggerFails(retry, message, closes) =>
        var t := StopTriggers(s, retry.id, closes).(errors := s.errors[retry.id := message]);
        OneTimerElsewhere(s, t);
        EnqueueKeepsOneTimer(t, retry);
      case TimerFires(timer) => FireKeepsOneTimer(s, timer);
      case QueueCleared => ClearQueueKeepsOneTimer(s);
      case _ => OneTimerElsewhere(s, Step(s, e));
    }
  }

  lemma FireKeepsOneTimer(s: Instance, timer: Timer)
    requires OneTimer(s) && HandlesBelow(s) && timer in s.armed
    ensures OneTimer(Fire(s, timer)) && HandlesBelow(Fire(s, timer))
  {
  }

  lemma ClearQueueKeepsOneTimer(s: Instance)
    requires OneTimer(s) && HandlesBelow(s)
    ensures OneTimer(ClearQueue(s)) && HandlesBelow(ClearQueue(s))
  {
    assert forall t :: t in s.armed ==> s.armed[t].retry.id in s.queue && s.queue[s.armed[t].retry.id].timer == t;
    assert ClearQueue(s).armed == map[];
  }

  ghost predicate OneTimerThroughout(s: Instance, es: seq<Event>)
    requires Feasible(s, es)
    decreases |es|
  {
    OneTimer(s) && (es == [] || OneTimerThroughout(Step(s, es[0]), es[1..]))
  }

  ghost predicate NeverCollides(s: Instance, es: seq<Event>)
    requires Feasible(s, es)
    decreases |es|
  {
    es == [] || (!RetryCollides(s, es[0]) && NeverCollides(Step(s, es[0]), es[1..]))
  }

  /** Over a whole single-main run there is one timer per workflow at every moment exactly when no retry collides. */
  lemma {:induction false} OneTimerThroughoutExactly(s: Instance, es: seq<Event>)
    requires OneTimer(s) && HandlesBelow(s) && !s.multiMain && Feasible(s, es)
    ensures OneTimerThroughout(s, es) <==> NeverCollides(s, es)
    decreases |es|
  {
    if es != [] {
      StepKeepsOneTimerExactly(s, es[0]);
      RoleKept(s, es[0]);
      if !RetryCollides(s, es[0]) {
        OneTimerThroughoutExactly(Step(s, es[0]), es[1..]);
      }
    }
  }

  /**
   * A failed retry is tried again exactly when its entry was still there and the failure came before
   * the entry is removed; after a late failure, or without an entry, no timer is armed for the workflow.
   */
  lemma RetriedAgainExactly(s: Instance, timer: Timer, w: Services)
    requires Invariant(s) && !s.multiMain && timer in s.flying && RetryFails(s, timer, w)
    ensures var (retry, t) := (s.flying[timer], FinishRetry(s, timer, w));
      var again := retry.id in s.queue && !Starts(s, retry.mode, w);
      && (retry.id in t.queue && t.queue[retry.id].timer in t.armed <==> again)
      && (!again ==> retry.id !in t.queue && forall x :: x in t.armed ==> t.armed[x].retry.id != retry.id)
  {
    var (retry, u) := (s.flying[timer], s.(flying := s.flying - {timer}));
    var t := Add(u, retry.id, retry.mode, Some(retry.active), true, w).0;
    FailedRetryMeets(s, timer, w);
    FinishRetryKeeps(s, timer, w);
    var v := FinishRetry(s, timer, w);
    if retry.id !in v.queue {
      forall x | x in v.armed ensures v.armed[x].retry.id != retry.id {
        assert ArmedOk(v, x);
      }
    }
  }

  // ---------- multi-main forgets ----------

  /**
   * A retry that ends leaves its workflow either out of the queue or pursued further exactly in
   * single-main. In multi-main it only publishes: the entry stays, with a timer that has fired.
   */
  lemma RetryPursuesExactly(s: Instance, timer: Timer, w: Services)
    requires Invariant(s) && timer in s.flying && s.flying[timer].id in s.queue
    ensures var id, t := s.flying[timer].id, FinishRetry(s, timer, w);
      && (Pursued(t, id) <==> !s.multiMain)
      && (s.multiMain ==>
          && id in t.queue && t.queue[id].timer !in t.armed && t.queue[id].timer !in t.flying
          && t.outbox == s.outbox + [AddWebhooksTriggersAndPollers(id)])
  {
    if s.multiMain {
      assert FlyingOk(s, timer) && ArmedOk(s, timer);
    } else {
      FinishRetryKeeps(s, timer, w);
    }
  }

  // ---------- the queue and the registered errors ----------

  ghost predicate ErrorsAgree(s: Instance) {
    forall id :: id in s.queue ==> id in s.errors
  }

  /** At the start of an instance: all went well but for the last write, and that failure was not an authorization. */
  predicate OnlySaveFails(s: Instance, id: WorkflowId, mode: ActivationMode, w: Services) {
    && w.lookup.Found? && (OnlyIfActive(mode) ==> id in s.active) && Obstacle(s, mode, w).None?
    && (s.leader && w.hasTriggers ==> w.triggerError.None?)
    && w.countError.None? && w.saveError.Some? && !Includes(w.saveError.value, "Authorization")
  }

  lemma AddAgrees(s: Instance, id: WorkflowId, mode: ActivationMode, existing: Option<bool>, publish: bool, w: Services)
    requires ErrorsAgree(s) && !(s.multiMain && publish)
    ensures ErrorsAgree(Add(s, id, mode, existing, publish, w).0)
  {
    AddEnds(s, id, mode, existing, publish, w);
    var t := Add(s, id, mode, existing, publish, w).0;
    forall x | x in t.queue ensures x in t.errors {
      assert x != id ==> SameFor(s, t, x);
    }
  }

  /** An activation at the start queues a workflow without an error exactly when only the last write fails. */
  lemma ActivateAgreesExactly(s: Instance, id: WorkflowId, mode: ActivationMode, w: Services)
    requires ErrorsAgree(s) && !s.multiMain
    ensures ErrorsAgree(ActivateWorkflow(s, id, mode, w)) <==> !OnlySaveFails(s, id, mode, w)
  {
    if w.lookup.Found? {
      AddAgrees(s, id, mode, Some(id in s.active), false, w);
      var (t, result) := Add(s, id, mode, Some(id in s.active), false, w);
      FailureRegistered(s, id, mode, w);
      var u := ActivateWorkflow(s, id, mode, w);
      if result.Failed? && !Includes(result.message, "Authorization") {
        assert u.errors == t.errors && forall x :: x in u.queue <==> x == id || x in t.queue;
      }
    }
  }

  lemma StartFailureRegistered(s: Instance, id: WorkflowId, mode: ActivationMode, w: Services)
    ensures var (t, result) := StartAndComplete(s, id, mode, w);
      var lastOnly := (s.leader && w.hasTriggers ==> w.triggerError.None?) && w.countError.None? && w.saveError.Some?;
      && (result.Failed? ==> (id !in t.errors <==> lastOnly))
      && (lastOnly ==> result == Failed(w.saveError.value))
  {
  }

  lemma FailureRegistered(s: Instance, id: WorkflowId, mode: ActivationMode, w: Services)
    requires w.lookup.Found?
    ensures var (t, result) := Add(s, id, mode, Some(id in s.active), false, w);
      result.Failed? && !Includes(result.message, "Authorization") ==>
        (id !in t.errors <==> OnlySaveFails(s, id, mode, w))
    ensures OnlySaveFails(s, id, mode, w) ==>
      Add(s, id, mode, Some(id in s.active), false, w).1 == Failed(w.saveError.value)
  {
    StartFailureRegistered(s, id, mode, w);
  }

  /** A start queues a workflow over a failed save, or all errors are cleared while some workflow is queued. */
  ghost predicate Disagrees(s: Instance, e: Event) {
    || (e.CallActivate? && OnlySaveFails(s, e.id, e.mode, e.w))
    || (e.ErrorsCleared? && s.queue != map[])
  }

  lemma StepAgreesExactly(s: Instance, e: Event)
    requires ErrorsAgree(s) && !s.multiMain && Enabled(s, e)
    ensures ErrorsAgree(Step(s, e)) <==> !Disagrees(s, e)
  {
    match e {
      case CallAdd(id, mode, w) => AddAgrees(s, id, mode, None, true, w);
      case CallActivate(id, mode, w) => ActivateAgreesExactly(s, id, mode, w);
      case RetryEnds(timer, w) =>
        var retry, u := s.flying[timer], s.(flying := s.flying - {timer});
        AddAgrees(u, retry.id, retry.mode, Some(retry.active), true, w);
        var t := Add(u, retry.id, retry.mode, Some(retry.active), true, w).0;
        assert Rearm(t, retry).errors == t.errors && Rearm(t, retry).queue.Keys == t.queue.Keys;
      case _ =>
    }
  }

  ghost predicate NeverDisagrees(s: Instance, es: seq<Event>)
    requires Feasible(s, es)
    decreases |es|
  {
    es == [] || (!Disagrees(s, es[0]) && NeverDisagrees(Step(s, es[0]), es[1..]))
  }

  /**
   * In single-main runs every queued workflow has a registered error, as long as no start queues one
   * over a failed save and the errors are not cleared over a queue.
   */
  lemma {:induction false} QueuedHaveErrors(s: Instance, es: seq<Event>)
    requires ErrorsAgree(s) && !s.multiMain && Feasible(s, es) && NeverDisagrees(s, es)
    ensures ErrorsAgree(Run(s, es))
    decreases |es|
  {
    if es != [] {
      StepAgreesExactly(s, es[0]);
      RoleKept(s, es[0]);
      QueuedHaveErrors(Step(s, es[0]), es[1..]);
    }
  }

  /** A workflow whose activation completed is neither queued nor in error, and in memory if it has triggers here. */
  lemma CompletedIsClean(s: Instance, id: WorkflowId, mode: ActivationMode, existing: Option<bool>, w: Services)
    requires !s.multiMain && Add(s, id, mode, existing, true, w).1.Added?
    requires OnlyIfActive(mode) ==> if existing.Some? then existing.value else id in s.active
    ensures var t := Add(s, id, mode, existing, true, w).0;
      && id !in t.queue && id !in t.errors
      && (s.leader && w.hasTriggers ==> id in t.memory)
  {
    StartAndCompleteEnds(s, id, mode, w);
  }

  // ---------- removed stays removed ----------

  /** Nothing of the workflow is left on the instance, and nothing that could bring it back. */
  ghost predicate Gone(s: Instance, id: WorkflowId) {
    && id !in s.memory && id !in s.queue && id !in s.errors && !InFlight(s, id)
    && forall t :: t in s.armed ==> s.armed[t].retry.id != id
  }

  /** Removal takes away everything, provided that no retry flies and the triggers close. */
  lemma RemoveLeavesNothing(s: Instance, id: WorkflowId, closes: bool)
    requires Invariant(s) && !s.multiMain && !InFlight(s, id)
    ensures Gone(Remove(s, id, closes), id) <==> closes || id !in s.memory
  {
    var t := Remove(s, id, closes);
    forall x | x in t.armed ensures t.armed[x].retry.id != id {
      assert ArmedOk(s, x);
    }
    assert forall x :: x in t.flying ==> x in s.flying;
  }

  predicate BringsBack(e: Event, id: WorkflowId) {
    || (e.CallAdd? && e.id == id)
    || (e.CallActivate? && e.id == id)
    || (e.TriggerFails? && e.retry.id == id)
  }

  lemma EnqueueSpares(s: Instance, retry: Retry, id: WorkflowId)
    requires Gone(s, id) && retry.id != id
    ensures Gone(Enqueue(s, retry), id)
  {
    var t := Enqueue(s, retry);
    assert t.flying == s.flying;
    assert forall y :: y in t.armed ==> y == s.nextTimer || (y in s.armed && t.armed[y] == s.armed[y]);
  }

  lemma RetrySpares(s: Instance, timer: Timer, w: Services, id: WorkflowId)
    requires Gone(s, id) && !s.multiMain && timer in s.flying
    ensures Gone(FinishRetry(s, timer, w), id)
  {
    var retry, u := s.flying[timer], s.(flying := s.flying - {timer});
    assert retry.id != id && forall x :: x in u.flying ==> x in s.flying;
    AddSpares(u, retry.id, retry.mode, Some(retry.active), true, w, id);
    var t := Add(u, retry.id, retry.mode, Some(retry.active), true, w).0;
    assert Rearm(t, retry).flying == t.flying;
  }

  lemma GoneStays(s: Instance, e: Event, id: WorkflowId)
    requires Gone(s, id) && !s.multiMain && Enabled(s, e) && !BringsBack(e, id)
    ensures Gone(Step(s, e), id)
  {
    match e {
      case CallAdd(x, mode, w) => AddSpares(s, x, mode, None, true, w, id);
      case CallActivate(x, mode, w) =>
        AddSpares(s, x, mode, Some(x in s.active), false, w, id);
        EnqueueSpares(Add(s, x, mode, Some(x in s.active), false, w).0, Retry(x, Init, x in s.active), id);
      case RetryEnds(timer, w) => RetrySpares(s, timer, w, id);
      case TriggerFails(retry, message, closes) =>
        EnqueueSpares(StopTriggers(s, retry.id, closes).(errors := s.errors[retry.id := message]), retry, id);
      case TimerFires(timer) =>
        assert s.armed[timer].retry.id != id;
      case _ =>
        assert Step(s, e).flying == s.flying;
    }
  }

  lemma AddSpares(s: Instance, x: WorkflowId, mode: ActivationMode, existing: Option<bool>, publish: bool, w: Services,
                  id: WorkflowId)
    requires Gone(s, id) && !(s.multiMain && publish) && x != id
    ensures Gone(Add(s, x, mode, existing, publish, w).0, id)
  {
    AddEnds(s, x, mode, existing, publish, w);
    var t := Add(s, x, mode, existing, publish, w).0;
    assert SameFor(s, t, id);
    assert forall y :: y in t.armed ==> y in s.armed && t.armed[y] == s.armed[y];
  }

  ghost predicate NeverBringsBack(es: seq<Event>, id: WorkflowId) {
    forall e :: e in es ==> !BringsBack(e, id)
  }

  /**
   * Once removed with no retry in flight, a workflow stays out of memory, queue, errors and timers,
   * whatever else is added, removed, fails or fires, until it is added again or one of its triggers fails.
   */
  lemma {:induction false} RemovedStaysRemoved(s: Instance, es: seq<Event>, id: WorkflowId)
    requires Gone(s, id) && !s.multiMain && Feasible(s, es) && NeverBringsBack(es, id)
    ensures Gone(Run(s, es), id)
    decreases |es|
  {
    if es != [] {
      assert es[0] in es && forall e :: e in es[1..] ==> e in es;
      GoneStays(s, es[0], id);
      RoleKept(s, es[0]);
      RemovedStaysRemoved(Step(s, es[0]), es[1..], id);
    }
  }

  // ---------- when a removal lasts, exactly ----------

  /** Whether a retry that ends tries to activate: in multi-main it always publishes that. */
  predicate Wakes(s: Instance, retry: Retry) {
    s.multiMain || Plausible(retry)
  }

  /** The workflow runs no triggers here, and no retry of it is armed or in flight that could start them. */
  ghost predicate Asleep(s: Instance, id: WorkflowId) {
    && id !in s.memory
    && (forall t :: t in s.armed && s.armed[t].retry.id == id ==> !Wakes(s, s.armed[t].retry))
    && (forall t :: t in s.flying && s.flying[t].id == id ==> !Wakes(s, s.flying[t]))
  }

  /** No activation of `id` is published, and the kind of setup stays. */
  predicate PublishesNone(s: Instance, t: Instance, id: WorkflowId) {
    t.multiMain == s.multiMain
    && (AddWebhooksTriggersAndPollers(id) in t.outbox ==> AddWebhooksTriggersAndPollers(id) in s.outbox)
  }

  lemma AddLetsSleep(s: Instance, x: WorkflowId, mode: ActivationMode, existing: Option<bool>, publish: bool,
                     w: Services, id: WorkflowId)
    requires Asleep(s, id) && x != id
    ensures var t := Add(s, x, mode, existing, publish, w).0;
      Asleep(t, id) && PublishesNone(s, t, id)
  {
    if !(s.multiMain && publish) {
      AddEnds(s, x, mode, existing, publish, w);
      var t := Add(s, x, mode, existing, publish, w).0;
      assert SameFor(s, t, id);
      assert forall y :: y in t.armed ==> y in s.armed && t.armed[y] == s.armed[y];
    }
  }

  lemma EnqueueLetsSleep(s: Instance, retry: Retry, id: WorkflowId)
    requires Asleep(s, id) && retry.id != id
    ensures Asleep(Enqueue(s, retry), id) && PublishesNone(s, Enqueue(s, retry), id)
  {
    var t := Enqueue(s, retry);
    assert forall y :: y in t.armed ==> y == s.nextTimer || (y in s.armed && t.armed[y] == s.armed[y]);
  }

  lemma ActivateLetsSleep(s: Instance, x: WorkflowId, mode: ActivationMode, w: Services, id: WorkflowId)
    requires Asleep(s, id) && x != id
    ensures Asleep(ActivateWorkflow(s, x, mode, w), id) && PublishesNone(s, ActivateWorkflow(s, x, mode, w), id)
  {
    AddLetsSleep(s, x, mode, Some(x in s.active), false, w, id);
    EnqueueLetsSleep(Add(s, x, mode, Some(x in s.active), false, w).0, Retry(x, Init, x in s.active), id);
  }

  lemma RetryLetsSleep(s: Instance, timer: Timer, w: Services, id: WorkflowId)
    requires Asleep(s, id) && timer in s.flying
    ensures Asleep(FinishRetry(s, timer, w), id) && PublishesNone(s, FinishRetry(s, timer, w), id)
  {
    var retry, u := s.flying[timer], s.(flying := s.flying - {timer});
    if retry.id == id {
      assert !Wakes(s, retry);
      assert Add(u, id, retry.mode, Some(retry.active), true, w) == (u, Added(false, false));
    } else {
      AddLetsSleep(u, retry.id, retry.mode, Some(retry.active), true, w, id);
      var t := Add(u, retry.id, retry.mode, Some(retry.active), true, w).0;
      var v := Rearm(t, retry);
      assert forall y :: y in v.armed ==> v.armed[y].retry == retry || (y in t.armed && v.armed[y] == t.armed[y]);
    }
  }

  lemma FireLetsSleep(s: Instance, timer: Timer, id: WorkflowId)
    requires Asleep(s, id) && timer in s.armed
    ensures Asleep(Fire(s, timer), id) && PublishesNone(s, Fire(s, timer), id)
  {
    assert s.armed[timer].retry.id == id ==> !Wakes(s, s.armed[timer].retry);
  }

  lemma RemoveLetsSleep(s: Instance, x: WorkflowId, closes: bool, id: WorkflowId)
    requires Asleep(s, id)
    ensures Asleep(Remove(s, x, closes), id) && PublishesNone(s, Remove(s, x, closes), id)
  {
    var t := Remove(s, x, closes);
    assert forall y :: y in t.armed ==> y in s.armed && t.armed[y] == s.armed[y];
  }

  /** No step that does not name the workflow wakes it, in single-main or in multi-main. */
  lemma StepLetsSleep(s: Instance, e: Event, id: WorkflowId)
    requires Asleep(s, id) && Enabled(s, e) && !BringsBack(e, id)
    ensures Asleep(Step(s, e), id) && PublishesNone(s, Step(s, e), id)
  {
    match e {
      case CallAdd(x, mode, w) => AddLetsSleep(s, x, mode, None, true, w, id);
      case CallActivate(x, mode, w) => ActivateLetsSleep(s, x, mode, w, id);
      case RetryEnds(timer, w) => RetryLetsSleep(s, timer, w, id);
      case TriggerFails(retry, message, closes) =>
        EnqueueLetsSleep(StopTriggers(s, retry.id, closes).(errors := s.errors[retry.id := message]), retry, id);
      case TimerFires(timer) => FireLetsSleep(s, timer, id);
      case QueueCleared => assert forall y :: y in Step(s, e).armed ==> y in s.armed;
      case CallRemove(x, closes) => RemoveLetsSleep(s, x, closes, id);
      case _ => assert Step(s, e).armed == s.armed && Step(s, e).flying == s.flying;
    }
  }

  lemma {:induction false} RunLetsSleep(s: Instance, es: seq<Event>, id: WorkflowId)
    requires Asleep(s, id) && Feasible(s, es) && NeverBringsBack(es, id)
    ensures Asleep(Run(s, es), id)
    decreases |es|
  {
    if es != [] {
      assert es[0] in es && forall e :: e in es[1..] ==> e in es;
      StepLetsSleep(s, es[0], id);
      RunLetsSleep(Step(s, es[0]), es[1..], id);
    }
  }

  /** A retry that is in flight while its workflow is removed starts the triggers again. */
  lemma RetryRevivesRemoved(s: Instance, timer: Timer, closes: bool, w: Services)
    requires !s.multiMain && s.leader && timer in s.flying && Plausible(s.flying[timer])
    requires w.setupError.None? && WebhookError(w, s.flying[timer].mode).None? && w.hasTriggers && w.triggerError.None?
    ensures var (id, t) := (s.flying[timer].id, Remove(s, s.flying[timer].id, closes));
      Feasible(t, [RetryEnds(timer, w)]) && id in Run(t, [RetryEnds(timer, w)]).memory
  {
    var id := s.flying[timer].id;
    var u := Remove(s, id, closes).(flying := s.flying - {timer});
    var (t, error) := StartTriggers(u, id, w);
    CompleteClears(t, id, ShouldAddWebhooks(u, s.flying[timer].mode) && WebhooksAdded(w, s.flying[timer].mode), w);
    assert Feasible(FinishRetry(Remove(s, id, closes), timer, w), [RetryEnds(timer, w)][1..]);
  }

  /** All services answer well. */
  const AllWell: Services :=
    Services(Found, None, Webhooks.Answers([], [], true, [], None), true, None, AsBefore, None, None)

  /**
   * A removed workflow stays out of memory in every run that does not name it exactly when its triggers
   * close, or none run, and no retry of it is in flight, but for one that would skip it as inactive.
   */
  lemma RemovalLastsExactly(s: Instance, id: WorkflowId, closes: bool)
    requires Invariant(s) && !s.multiMain && s.leader
    ensures (forall es :: Feasible(Remove(s, id, closes), es) && NeverBringsBack(es, id) ==>
               id !in Run(Remove(s, id, closes), es).memory)
      <==> (closes || id !in s.memory) && forall t :: t in s.flying && s.flying[t].id == id ==> !Plausible(s.flying[t])
  {
    var removed := Remove(s, id, closes);
    if !(closes || id !in s.memory) {
      assert Feasible(removed, []) && NeverBringsBack([], id) && id in Run(removed, []).memory;
    } else if t :| t in s.flying && s.flying[t].id == id && Plausible(s.flying[t]) {
      RetryRevivesRemoved(s, t, closes, AllWell);
      assert NeverBringsBack([RetryEnds(t, AllWell)], id);
    } else {
      forall x | x in removed.armed ensures removed.armed[x].retry.id != id {
        assert ArmedOk(s, x);
      }
      assert Asleep(removed, id);
      forall es | Feasible(removed, es) && NeverBringsBack(es, id) ensures id !in Run(removed, es).memory {
        RunLetsSleep(removed, es, id);
      }
    }
  }
}
