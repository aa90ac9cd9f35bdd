// `ActiveWorkflowManager` as an object: queue entries that retries update in
// place, timers, and the registries it shares. Every method is tied to the
// state machine of `WorkflowActivation`.
module ActiveWorkflowManager {
  import opened Common
  import opened WorkflowActivation
  import opened ActivationOrder
  import Webhooks = WebhookRegistration

  /** An entry of the activation queue. */
  class QueuedActivation {
    const retry: Retry
    var lastTimeout: nat
    var timeout: Timer

    constructor (retry: Retry, lastTimeout: nat, timeout: Timer)
      ensures View() == Queued(retry, lastTimeout, timeout) && this.retry == retry
    {
      this.retry, this.lastTimeout, this.timeout := retry, lastTimeout, timeout;
    }

    ghost function View(): Queued
      reads this
    {
      Queued(retry, lastTimeout, timeout)
    }
  }

  ghost predicate ClearsTo(s: Instance, start: Instance) {
    ClearQueue(s) == ClearQueue(start)
  }

  lemma ClearAfterRemove(s: Instance, id: WorkflowId, start: Instance)
    requires ClearsTo(s, start)
    ensures ClearsTo(RemoveQueued(s, id), start)
  {
    if id in s.queue {
      var t := RemoveQueued(s, id);
      forall timer ensures timer in ClearQueue(t).armed <==> timer in ClearQueue(s).armed {
        if timer in t.armed && timer !in ClearQueue(s).armed {
          var x :| x in s.queue && s.queue[x].timer == timer;
          assert x in t.queue && t.queue[x].timer == timer;
        }
      }
      assert ClearQueue(t).armed == ClearQueue(s).armed;
    }
  }

  lemma NothingToClear(s: Instance, start: Instance)
    requires ClearsTo(s, start) && s.queue == map[]
    ensures s == ClearQueue(start)
  {
    assert ClearQueue(s).armed == s.armed;
  }

  /** Every listed workflow ends as if it alone were activated from `s`, and every other is as in `s`. */
  ghost predicate EachAlone(s: Instance, t: Instance, ids: seq<WorkflowId>, mode: ActivationMode,
                            ws: WorkflowId -> Services)
  {
    forall x {:trigger AloneTo(s, t, ids, mode, ws, x)} :: AloneTo(s, t, ids, mode, ws, x)
  }

  lemma AllActivatedAlone(s: Instance, ids: seq<WorkflowId>, size: int, schedules: seq<seq<WorkflowId>>,
                          mode: ActivationMode, ws: WorkflowId -> Services)
    requires Distinct(ids) && |schedules| == |Chunk(ids, size)|
    ensures var batches := Chunk(ids, size);
      EachAlone(s, ActivateBatches(s, batches, schedules, mode, ws), Reached(batches, ws), mode, ws)
  {
    var (batches, t) := (Chunk(ids, size), ActivateBatches(s, Chunk(ids, size), schedules, mode, ws));
    forall x ensures AloneTo(s, t, Reached(batches, ws), mode, ws, x) {
      BatchesAndOrderDoNotMatter(s, ids, size, schedules, mode, ws, x);
    }
  }

  /** A row of a workflow that is not listed, under a path that no listed workflow uses. */
  ghost predicate Foreign(table: Webhooks.Table, key: (string, string), ids: seq<WorkflowId>,
                          ws: WorkflowId -> Services)
  {
    && (key in table ==> table[key].workflowId !in ids)
    && forall id :: id in ids ==> !Webhooks.Lists(ws(id).hooks, key)
  }

  /** Activating the listed workflows leaves foreign rows alone, and all rows on a change of leadership. */
  ghost predicate SparesRows(table: Webhooks.Table, after: Webhooks.Table, ids: seq<WorkflowId>, mode: ActivationMode,
                             ws: WorkflowId -> Services)
  {
    && (mode == LeadershipChange ==> after == table)
    && forall key {:trigger Foreign(table, key, ids, ws)} ::
      Foreign(table, key, ids, ws) ==> Webhooks.SameRow(table, after, key)
  }

  lemma SparesRowsTwice(a: Webhooks.Table, b: Webhooks.Table, c: Webhooks.Table, ids: seq<WorkflowId>,
                        mode: ActivationMode, ws: WorkflowId -> Services)
    requires SparesRows(a, b, ids, mode, ws) && SparesRows(b, c, ids, mode, ws)
    ensures SparesRows(a, c, ids, mode, ws)
  {
    forall key | Foreign(a, key, ids, ws) ensures Webhooks.SameRow(a, c, key) {
      assert Webhooks.SameRow(a, b, key) && Foreign(b, key, ids, ws);
    }
  }

  lemma ActivationSparesRows(table: Webhooks.Table, s: Instance, id: WorkflowId, ids: seq<WorkflowId>,
                             mode: ActivationMode, ws: WorkflowId -> Services)
    requires id in ids
    ensures SparesRows(table, TableAfter(table, id, mode, ws(id), BeginsWebhooks(s, id, mode, ws(id))), ids, mode, ws)
  {
    forall key | Foreign(table, key, ids, ws)
      ensures Webhooks.SameRow(table, Webhooks.Registered(table, id, ws(id).hooks, mode == Init), key)
    {
      Webhooks.RegisteredKeeps(table, id, ws(id).hooks, mode == Init, key);
    }
  }

  /** The first stretch of an activation comes as far as adding webhooks. */
  predicate BeginsWebhooks(s: Instance, id: WorkflowId, mode: ActivationMode, w: Services) {
    w.lookup.Found? && ReachesWebhooks(s, id, mode, Some(id in s.active), false, w)
  }

  lemma ChunkOfIds(ids: seq<WorkflowId>, size: int)
    ensures forall i, id :: 0 <= i < |Chunk(ids, size)| && id in Chunk(ids, size)[i] ==> id in ids
  {
    ChunkLosesNothing(ids, size);
    FlattenHasAll(Chunk(ids, size));
  }

  lemma {:induction false} FlattenHasAll(lists: seq<seq<WorkflowId>>)
    ensures forall i, id :: 0 <= i < |lists| && id in lists[i] ==> id in Flatten(lists)
  {
    if lists != [] {
      FlattenHasAll(lists[1..]);
      forall i, id | 0 <= i < |lists| && id in lists[i] ensures id in Flatten(lists) {
        assert i > 0 ==> lists[i] == lists[1..][i - 1];
      }
    }
  }

  class ActiveWorkflowManager {
    const multiMain: bool
    const registrar: Webhooks.WebhookRegistrar
    var leader: bool
    var activeWorkflows: set<WorkflowId>
    var queuedActivations: map<WorkflowId, QueuedActivation>
    var timers: map<Timer, Armed>
    var flying: map<Timer, Retry>
    var nextTimer: Timer
    var activationErrors: map<WorkflowId, string>
    var activeFlags: set<WorkflowId>
    var published: seq<Command>

    ghost predicate Valid()
      reads this, queuedActivations.Values
    {
      forall id :: id in queuedActivations ==> queuedActivations[id].retry.id == id
    }

    ghost function Queue(): map<WorkflowId, Queued>
      reads this, queuedActivations.Values
    {
      map id | id in queuedActivations :: queuedActivations[id].View()
    }

    ghost function View(): Instance
      reads this, queuedActivations.Values
    {
      Instance(multiMain, leader, activeWorkflows, Queue(), timers, flying, nextTimer,
               activationErrors, activeFlags, published)
    }

    constructor (multiMain: bool, leader: bool, activationErrors: map<WorkflowId, string>,
                 activeFlags: set<WorkflowId>, registrar: Webhooks.WebhookRegistrar)
      ensures Valid()
      ensures View() == Instance(multiMain, leader, {}, map[], map[], map[], 0, activationErrors, activeFlags, [])
      ensures this.registrar == registrar
    {
      this.multiMain, this.leader, this.registrar := multiMain, leader, registrar;
      activeWorkflows, queuedActivations := {}, map[];
      timers, flying, nextTimer := map[], map[], 0;
      this.activationErrors, this.activeFlags, published := activationErrors, activeFlags, [];
      new;
      assert Queue() == map[];
    }

    // ---------- the queue ----------

    method RemoveQueuedWorkflowActivation(id: WorkflowId)
      requires Valid()
      modifies this`queuedActivations, this`timers
      ensures Valid() && View() == RemoveQueued(old(View()), id)
      ensures queuedActivations == old(queuedActivations) - {id}
    {
      if id in queuedActivations {
        timers := timers - {queuedActivations[id].timeout};
        queuedActivations := queuedActivations - {id};
      } else {
        assert queuedActivations == queuedActivations - {id};
      }
      assert Queue() == RemoveQueued(old(View()), id).queue;
    }

    method SetTimeout(retry: Retry, delay: nat) returns (timer: Timer)
      requires Valid()
      modifies this`timers, this`nextTimer
      ensures Valid() && timer == old(nextTimer)
      ensures View() == old(View()).(armed := old(timers)[timer := Armed(retry, delay)], nextTimer := timer + 1)
    {
      timer := nextTimer;
      timers := timers[timer := Armed(retry, delay)];
      nextTimer := nextTimer + 1;
      assert Queue() == old(Queue());
    }

    method AddQueuedWorkflowActivation(retry: Retry)
      requires Valid()
      modifies this`queuedActivations, this`timers, this`nextTimer
      ensures Valid() && View() == Enqueue(old(View()), retry)
    {
      RemoveQueuedWorkflowActivation(retry.id);
      ghost var before := View();
      var timeout := SetTimeout(retry, INITIAL_TIMEOUT);
      var entry := new QueuedActivation(retry, INITIAL_TIMEOUT, timeout);
      queuedActivations := queuedActivations[retry.id := entry];
      assert Queue() == before.queue[retry.id := entry.View()];
    }

    /** The catch block of a retry, which updates its queue entry in place. */
    method RetryAgain(retry: Retry)
      requires Valid()
      modifies this`timers, this`nextTimer, queuedActivations.Values
      ensures Valid() && View() == Rearm(old(View()), retry)
    {
      if retry.id !in queuedActivations {
        return;
      }
      var entry := queuedActivations[retry.id];
      var lastTimeout := entry.lastTimeout;
      if lastTimeout < MAX_TIMEOUT {
        lastTimeout := Min(lastTimeout * 2, MAX_TIMEOUT);
      }
      var timeout := SetTimeout(retry, lastTimeout);
      UpdateEntry(retry.id, lastTimeout, timeout);
    }

    /** An entry is changed in place, and no other entry shares its object. */
    method UpdateEntry(id: WorkflowId, lastTimeout: nat, timeout: Timer)
      requires Valid() && id in queuedActivations
      modifies queuedActivations[id]
      ensures Valid()
      ensures View() == old(View()).(queue :=
        old(Queue())[id := old(Queue())[id].(lastTimeout := lastTimeout, timer := timeout)])
    {
      var entry := queuedActivations[id];
      entry.lastTimeout, entry.timeout := lastTimeout, timeout;
      assert Queue() == old(Queue())[id := entry.View()];
    }

    // ---------- activation ----------

    method RegisterError(id: WorkflowId, message: string) returns (result: Result)
      requires Valid()
      modifies this`activationErrors
      ensures Valid() && (View(), result) == Fail(old(View()), id, message)
    {
      activationErrors := activationErrors[id := message];
      result := Failed(message);
      assert Queue() == old(Queue());
    }

    method AddTriggersAndPollers(id: WorkflowId, w: Services) returns (error: Option<string>)
      requires Valid()
      modifies this`activeWorkflows
      ensures Valid() && (View(), error) == StartTriggers(old(View()), id, w)
    {
      error := None;
      if w.hasTriggers {
        error := w.triggerError;
        if error.None? || w.remains == Present {
          activeWorkflows := activeWorkflows + {id};
        } else if w.remains == Absent {
          activeWorkflows := activeWorkflows - {id};
        }
      }
      assert Queue() == old(Queue());
    }

    method FinishActivation(id: WorkflowId, webhooks: bool, w: Services) returns (result: Result)
      requires Valid()
      modifies this`queuedActivations, this`timers, this`activationErrors
      ensures Valid() && (View(), result) == Complete(old(View()), id, webhooks, w)
      ensures queuedActivations == old(queuedActivations) - {id}
    {
      RemoveQueuedWorkflowActivation(id);
      DeregisterError(id);
      if w.countError.Some? {
        result := RegisterError(id, w.countError.value);
      } else if w.saveError.Some? {
        result := Failed(w.saveError.value);
      } else {
        result := Added(webhooks, leader && w.hasTriggers);
      }
    }

    method DeregisterError(id: WorkflowId)
      requires Valid()
      modifies this`activationErrors
      ensures Valid() && View() == old(View()).(errors := old(activationErrors) - {id})
    {
      activationErrors := activationErrors - {id};
      assert Queue() == old(Queue());
    }

    method Publish(command: Command)
      requires Valid()
      modifies this`published
      ensures Valid() && View() == old(View()).(outbox := old(published) + [command])
    {
      published := published + [command];
      assert Queue() == old(Queue());
    }

    method AddWebhooks(id: WorkflowId, mode: ActivationMode, w: Services) returns (added: bool, error: Option<string>)
      requires Valid()
      modifies registrar
      ensures Valid() && View() == old(View())
      ensures added == WebhooksAdded(w, mode) && error == WebhookError(w, mode)
      ensures registrar.table == TableAfter(old(registrar.table), id, mode, w, true)
    {
      var outcome := registrar.AddWebhooks(id, w.hooks, mode == Init);
      assert Queue() == old(Queue());
      added, error := outcome.AllAdded?, Webhooks.MessageOf(outcome);
    }

    method StartAndFinish(id: WorkflowId, webhooks: bool, addTriggersAndPollers: bool, w: Services,
                          ghost mode: ActivationMode)
      returns (result: Result)
      requires Valid() && addTriggersAndPollers == leader
      requires webhooks == (ShouldAddWebhooks(View(), mode) && WebhooksAdded(w, mode))
      modifies this`activeWorkflows, this`queuedActivations, this`timers, this`activationErrors
      ensures Valid() && (View(), result) == StartAndComplete(old(View()), id, mode, w)
      ensures queuedActivations == old(queuedActivations) || queuedActivations == old(queuedActivations) - {id}
    {
      var error := None;
      if addTriggersAndPollers {
        error := AddTriggersAndPollers(id, w);
      }
      if error.Some? {
        result := RegisterError(id, error.value);
      } else {
        result := FinishActivation(id, webhooks, w);
      }
    }

    /** What is thrown before triggers start is registered; otherwise they start. */
    method Attempt(id: WorkflowId, addWebhooks: bool, addTriggersAndPollers: bool, mode: ActivationMode, w: Services)
      returns (result: Result)
      requires Valid() && addWebhooks == ShouldAddWebhooks(View(), mode) && addTriggersAndPollers == leader
      modifies registrar, this`activeWorkflows, this`queuedActivations, this`timers, this`activationErrors
      ensures Valid()
      ensures var obstacle := Obstacle(old(View()), mode, w);
        (View(), result)
          == if obstacle.Some? then Fail(old(View()), id, obstacle.value)
             else StartAndComplete(old(View()), id, mode, w)
      ensures registrar.table == TableAfter(old(registrar.table), id, mode, w, w.setupError.None? && addWebhooks)
      ensures queuedActivations == old(queuedActivations) || queuedActivations == old(queuedActivations) - {id}
    {
      if w.setupError.Some? {
        result := RegisterError(id, w.setupError.value);
        return;
      }
      var webhooks, error := false, None;
      if addWebhooks {
        webhooks, error := AddWebhooks(id, mode, w);
      }
      if error.Some? {
        result := RegisterError(id, error.value);
      } else {
        result := StartAndFinish(id, webhooks, addTriggersAndPollers, w, mode);
      }
    }

    method Add(id: WorkflowId, mode: ActivationMode, existing: Option<bool>, shouldPublish: bool, w: Services)
      returns (result: Result)
      requires Valid()
      modifies registrar, this`activeWorkflows, this`queuedActivations, this`timers, this`activationErrors
      modifies this`published
      ensures Valid() && (View(), result) == WorkflowActivation.Add(old(View()), id, mode, existing, shouldPublish, w)
      ensures registrar.table == TableAfter(old(registrar.table), id, mode, w,
                                            ReachesWebhooks(old(View()), id, mode, existing, shouldPublish, w))
      ensures queuedActivations == old(queuedActivations) || queuedActivations == old(queuedActivations) - {id}
    {
      if multiMain && shouldPublish {
        Publish(AddWebhooksTriggersAndPollers(id));
        result := Added(false, false);
      } else {
        result := AddHere(id, mode, existing, w);
      }
    }

    /** An activation that is not left to the leader by a command. */
    method AddHere(id: WorkflowId, mode: ActivationMode, existing: Option<bool>, w: Services) returns (result: Result)
      requires Valid()
      modifies registrar, this`activeWorkflows, this`queuedActivations, this`timers, this`activationErrors
      ensures Valid() && (View(), result) == WorkflowActivation.Add(old(View()), id, mode, existing, false, w)
      ensures registrar.table == TableAfter(old(registrar.table), id, mode, w,
                                            ReachesWebhooks(old(View()), id, mode, existing, false, w))
      ensures queuedActivations == old(queuedActivations) || queuedActivations == old(queuedActivations) - {id}
    {
      var shouldAddWebhooks := mode == Init || (mode != LeadershipChange && leader);
      var shouldAddTriggersAndPollers := leader;
      if existing.None? && !w.lookup.Found? {
        result := RegisterError(id, NotLoaded(id, w.lookup));
        return;
      }
      var active := if existing.Some? then existing.value else id in activeFlags;
      if (mode == Init || mode == LeadershipChange) && !active {
        return Added(false, false);
      }
      result := Attempt(id, shouldAddWebhooks, shouldAddTriggersAndPollers, mode, w);
    }

    // ---------- all active workflows ----------

    /** A lookup that fails is outside the `try` block: the call is rejected. */
    method ActivateWorkflow(id: WorkflowId, mode: ActivationMode, w: Services) returns (rejected: bool)
      requires Valid()
      modifies registrar, this`activeWorkflows, this`queuedActivations, this`timers, this`nextTimer
      modifies this`activationErrors, this`published
      ensures Valid() && View() == WorkflowActivation.ActivateWorkflow(old(View()), id, mode, w)
      ensures registrar.table
        == TableAfter(old(registrar.table), id, mode, w, BeginsWebhooks(old(View()), id, mode, w))
      ensures rejected <==> w.lookup.LookupFails?
    {
      rejected := w.lookup.LookupFails?;
      if !w.lookup.Found? {
        return;
      }
      var active := id in activeFlags;
      var result := Add(id, mode, Some(active), false, w);
      if result.Failed? && !Includes(result.message, "Authorization") {
        AddQueuedWorkflowActivation(Retry(id, Init, active));
      }
    }

    /** An activation runs on to where it waits next. */
    method Resume(id: WorkflowId, mode: ActivationMode, w: Services, stage: Stage) returns (next: Stage)
      requires Valid()
      modifies registrar, this`activeWorkflows, this`queuedActivations, this`timers, this`nextTimer
      modifies this`activationErrors
      ensures Valid() && (View(), next) == Stretch(old(View()), id, mode, w, stage)
      ensures registrar.table == TableAfter(old(registrar.table), id, mode, w,
                                            stage.Begun? && BeginsWebhooks(old(View()), id, mode, w))
    {
      if stage.Begun? {
        next := Begin(id, mode, w);
      } else {
        next := Continue(id, mode, w, stage);
      }
    }

    /** The stretches behind the first, which add no webhooks. */
    method Continue(id: WorkflowId, mode: ActivationMode, w: Services, stage: Stage) returns (next: Stage)
      requires Valid() && !stage.Begun?
      modifies this`activeWorkflows, this`queuedActivations, this`timers, this`nextTimer, this`activationErrors
      ensures Valid() && (View(), next) == Stretch(old(View()), id, mode, w, stage)
    {
      match stage {
        case Starting(active, triggers) =>
          var error := None;
          if triggers {
            error := AddTriggersAndPollers(id, w);
          }
          next := if error.Some? then Failing(active, error.value) else Started(active);
        case Started(active) =>
          RemoveQueuedWorkflowActivation(id);
          next := Dequeued(active);
        case Dequeued(active) =>
          DeregisterError(id);
          next := if w.countError.Some? then Failing(active, w.countError.value)
            else if w.saveError.Some? then Thrown(active, w.saveError.value)
            else Ended;
        case Failing(active, message) =>
          var _ := RegisterError(id, message);
          next := Thrown(active, message);
        case Thrown(active, message) =>
          if !Includes(message, "Authorization") {
            AddQueuedWorkflowActivation(Retry(id, Init, active));
          }
          next := Ended;
        case _ =>
          next := stage;
      }
    }

    /** The workflow is loaded and its webhooks are added. */
    method Begin(id: WorkflowId, mode: ActivationMode, w: Services) returns (next: Stage)
      requires Valid()
      modifies registrar
      ensures Valid() && (View(), next) == Stretch(old(View()), id, mode, w, Begun)
      ensures registrar.table
        == TableAfter(old(registrar.table), id, mode, w, BeginsWebhooks(old(View()), id, mode, w))
    {
      if w.lookup.LookupFails? {
        return Rejected;
      }
      var active := id in activeFlags;
      if w.lookup.NotFound? || ((mode == Init || mode == LeadershipChange) && !active) {
        return Ended;
      }
      if w.setupError.Some? {
        return Failing(active, w.setupError.value);
      }
      var error := None;
      if mode == Init || (mode != LeadershipChange && leader) {
        var _, thrown := AddWebhooks(id, mode, w);
        error := thrown;
      }
      next := if error.Some? then Failing(active, error.value) else Starting(active, leader);
    }

    method FinishActivating(id: WorkflowId, mode: ActivationMode, ws: WorkflowId -> Services, stage: Stage,
                            ghost ids: seq<WorkflowId>) returns (end: Stage)
      requires Valid() && id in ids && StageFits(ws(id), stage)
      modifies registrar, this`activeWorkflows, this`queuedActivations, this`timers, this`nextTimer
      modifies this`activationErrors
      ensures Valid() && View() == Finish(old(View()), id, mode, ws(id), stage)
      ensures end.Rejected? <==> ws(id).lookup.LookupFails?
      ensures SparesRows(old(registrar.table), registrar.table, ids, mode, ws)
    {
      ghost var before := View();
      end := stage;
      while !IsOver(end)
        invariant Valid() && Finish(View(), id, mode, ws(id), end) == Finish(before, id, mode, ws(id), stage)
        invariant StageFits(ws(id), end) && SparesRows(old(registrar.table), registrar.table, ids, mode, ws)
        decreases Rank(end)
      {
        end := ResumeOne(id, mode, ws, end, ids, old(registrar.table));
      }
    }

    /** One stretch, among the activations of all listed workflows. */
    method ResumeOne(id: WorkflowId, mode: ActivationMode, ws: WorkflowId -> Services, stage: Stage,
                     ghost ids: seq<WorkflowId>, ghost start: Webhooks.Table) returns (next: Stage)
      requires Valid() && id in ids && StageFits(ws(id), stage)
      requires SparesRows(start, registrar.table, ids, mode, ws)
      modifies registrar, this`activeWorkflows, this`queuedActivations, this`timers, this`nextTimer
      modifies this`activationErrors
      ensures Valid() && (View(), next) == Stretch(old(View()), id, mode, ws(id), stage)
      ensures StageFits(ws(id), next) && SparesRows(start, registrar.table, ids, mode, ws)
    {
      ActivationSparesRows(registrar.table, View(), id, ids, mode, ws);
      StretchFits(View(), id, mode, ws(id), stage);
      next := Resume(id, mode, ws(id), stage);
      if stage.Begun? {
        SparesRowsTwice(start, old(registrar.table), registrar.table, ids, mode, ws);
      }
    }

    /** The activations of one batch take turns, and all run to their ends; one that is rejected rejects the batch. */
    method ActivateBatch(batch: seq<WorkflowId>, schedule: seq<WorkflowId>, mode: ActivationMode,
                         ws: WorkflowId -> Services, ghost ids: seq<WorkflowId>, ghost start: Webhooks.Table)
      returns (rejected: bool)
      requires Valid() && forall id :: id in batch ==> id in ids
      requires SparesRows(start, registrar.table, ids, mode, ws)
      modifies registrar, this`activeWorkflows, this`queuedActivations, this`timers, this`nextTimer
      modifies this`activationErrors
      ensures Valid() && View() == ActivationOrder.ActivateBatch(old(View()), batch, schedule, mode, ws)
      ensures rejected == Rejects(batch, ws)
      ensures SparesRows(start, registrar.table, ids, mode, ws)
    {
      rejected := false;
      var stages := TakeTurns(batch, schedule, mode, ws, ids, start);
      ghost var before := View();
      assert batch[0..] == batch;
      for i := 0 to |batch|
        invariant Valid() && SparesRows(start, registrar.table, ids, mode, ws)
        invariant FinishAll(View(), stages, batch[i..], mode, ws) == FinishAll(before, stages, batch, mode, ws)
        invariant rejected == Rejects(batch[..i], ws)
      {
        assert batch[i..][1..] == batch[i + 1..] && batch[..i + 1] == batch[..i] + [batch[i]];
        ghost var table := registrar.table;
        var end := FinishActivating(batch[i], mode, ws, stages[batch[i]], ids);
        SparesRowsTwice(start, table, registrar.table, ids, mode, ws);
        rejected := rejected || end.Rejected?;
      }
      assert batch[..|batch|] == batch;
    }

    method TakeTurns(batch: seq<WorkflowId>, schedule: seq<WorkflowId>, mode: ActivationMode,
                     ws: WorkflowId -> Services, ghost ids: seq<WorkflowId>, ghost start: Webhooks.Table)
      returns (stages: Stages)
      requires Valid() && forall id :: id in batch ==> id in ids
      requires SparesRows(start, registrar.table, ids, mode, ws)
      modifies registrar, this`activeWorkflows, this`queuedActivations, this`timers, this`nextTimer
      modifies this`activationErrors
      ensures Valid() && (View(), stages) == Interleave(old(View()), AllBegun(batch), schedule, mode, ws)
      ensures stages.Keys == AllBegun(batch).Keys && forall id :: id in batch ==> StageFits(ws(id), stages[id])
      ensures SparesRows(start, registrar.table, ids, mode, ws)
    {
      ghost var before := View();
      stages := map id | id in batch :: Begun;
      assert schedule[0..] == schedule;
      for i := 0 to |schedule|
        invariant Valid() && SparesRows(start, registrar.table, ids, mode, ws)
        invariant stages.Keys == AllBegun(batch).Keys && forall id :: id in batch ==> StageFits(ws(id), stages[id])
        invariant Interleave(View(), stages, schedule[i..], mode, ws)
          == Interleave(before, AllBegun(batch), schedule, mode, ws)
      {
        assert schedule[i..][1..] == schedule[i + 1..];
        var id := schedule[i];
        if id in stages {
          var next := ResumeOne(id, mode, ws, stages[id], ids, start);
          stages := stages[id := next];
        }
      }
    }

    /**
     * `schedules` say how the activations of each batch take turns. However they do, each workflow that is
     * reached ends as if it were activated alone. The loop ends with the first batch that is rejected.
     */
    method AddActiveWorkflows(ids: seq<WorkflowId>, size: int, schedules: seq<seq<WorkflowId>>, mode: ActivationMode,
                              ws: WorkflowId -> Services) returns (rejected: bool)
      requires Valid() && Distinct(ids) && |schedules| == |Chunk(ids, size)|
      modifies registrar, this`activeWorkflows, this`queuedActivations, this`timers, this`nextTimer
      modifies this`activationErrors
      ensures Valid() && View() == ActivateBatches(old(View()), Chunk(ids, size), schedules, mode, ws)
      ensures EachAlone(old(View()), View(), Reached(Chunk(ids, size), ws), mode, ws)
      ensures rejected <==> size >= 1 && exists x :: x in ids && ws(x).lookup.LookupFails?
      ensures SparesRows(old(registrar.table), registrar.table, ids, mode, ws)
    {
      ghost var before := View();
      AllActivatedAlone(before, ids, size, schedules, mode, ws);
      ActivationOrder.ThrowsExactly(ids, size, ws);
      ChunkOfIds(ids, size);
      rejected := LoopOverBatches(Chunk(ids, size), schedules, mode, ws, ids);
    }

    method LoopOverBatches(batches: seq<seq<WorkflowId>>, schedules: seq<seq<WorkflowId>>, mode: ActivationMode,
                           ws: WorkflowId -> Services, ghost ids: seq<WorkflowId>) returns (rejected: bool)
      requires Valid() && |schedules| == |batches|
      requires forall i, id :: 0 <= i < |batches| && id in batches[i] ==> id in ids
      modifies registrar, this`activeWorkflows, this`queuedActivations, this`timers, this`nextTimer
      modifies this`activationErrors
      ensures Valid() && View() == ActivateBatches(old(View()), batches, schedules, mode, ws)
      ensures rejected == Throws(batches, ws)
      ensures SparesRows(old(registrar.table), registrar.table, ids, mode, ws)
    {
      ghost var before := View();
      assert batches[0..] == batches && schedules[0..] == schedules;
      for i := 0 to |batches|
        invariant Valid() && SparesRows(old(registrar.table), registrar.table, ids, mode, ws)
        invariant ActivateBatches(View(), batches[i..], schedules[i..], mode, ws)
          == ActivateBatches(before, batches, schedules, mode, ws)
        invariant Throws(batches, ws) == Throws(batches[i..], ws)
      {
        assert batches[i..][1..] == batches[i + 1..] && schedules[i..][1..] == schedules[i + 1..];
        rejected := ActivateBatch(batches[i], schedules[i], mode, ws, ids, old(registrar.table));
        if rejected {
          return;
        }
      }
      rejected := false;
    }

    method ClearAllActivationErrors()
      requires Valid()
      modifies this`activationErrors
      ensures Valid() && View() == Step(old(View()), ErrorsCleared)
    {
      activationErrors := map[];
      assert Queue() == old(Queue());
    }

    // ---------- retries and failing triggers ----------

    /** A timer goes off: its retry begins. */
    method Fire(timer: Timer)
      requires Valid() && timer in timers
      modifies this`timers, this`flying
      ensures Valid() && View() == WorkflowActivation.Fire(old(View()), timer)
    {
      flying := flying[timer := timers[timer].retry];
      timers := timers - {timer};
      assert Queue() == old(Queue());
    }

    /** A retry runs to its end. */
    method FinishRetry(timer: Timer, w: Services)
      requires Valid() && timer in flying
      modifies registrar, this`flying, this`activeWorkflows, this`queuedActivations, this`timers, this`nextTimer
      modifies this`activationErrors, this`published, queuedActivations.Values
      ensures Valid() && View() == WorkflowActivation.FinishRetry(old(View()), timer, w)
      ensures var retry := old(flying[timer]);
        registrar.table == TableAfter(old(registrar.table), retry.id, retry.mode, w,
                                      ReachesWebhooks(old(View()), retry.id, retry.mode, Some(retry.active), true, w))
    {
      var retry := flying[timer];
      flying := flying - {timer};
      assert Queue() == old(Queue());
      var result := Add(retry.id, retry.mode, Some(retry.active), true, w);
      if result.Failed? {
        RetryAgain(retry);
      }
    }

    method StopTriggers(id: WorkflowId, closes: bool)
      requires Valid()
      modifies this`activeWorkflows
      ensures Valid() && View() == WorkflowActivation.StopTriggers(old(View()), id, closes)
    {
      if id in activeWorkflows && closes {
        activeWorkflows := activeWorkflows - {id};
      }
      assert Queue() == old(Queue());
    }

    method EmitError(retry: Retry, message: string, closes: bool)
      requires Valid()
      modifies this`activeWorkflows, this`activationErrors, this`queuedActivations, this`timers, this`nextTimer
      ensures Valid() && View() == WorkflowActivation.EmitError(old(View()), retry, message, closes)
    {
      StopTriggers(retry.id, closes);
      var _ := RegisterError(retry.id, message);
      AddQueuedWorkflowActivation(retry);
    }

    // ---------- removal ----------

    /** `found` and `deletes` are what clearing the webhooks meets; a failure of it is swallowed. */
    method Remove(id: WorkflowId, found: bool, deletes: seq<bool>, closes: bool)
      requires Valid()
      modifies registrar, this`activeWorkflows, this`activationErrors, this`queuedActivations, this`timers
      modifies this`published
      ensures Valid() && View() == WorkflowActivation.Remove(old(View()), id, closes)
      ensures registrar.table
        == if Webhooks.RollBackSucceeds(found, deletes)
           then Webhooks.Others(old(registrar.table), id) else old(registrar.table)
    {
      var _ := registrar.ClearWebhooks(id, found, deletes);
      assert Queue() == old(Queue());
      if multiMain {
        Publish(RemoveTriggersAndPollers(id));
        return;
      }
      DeregisterError(id);
      RemoveQueuedWorkflowActivation(id);
      StopTriggers(id, closes);
    }

    method RemoveAllTriggerAndPollerBasedWorkflows(kept: set<WorkflowId>)
      requires Valid()
      modifies this`activeWorkflows
      ensures Valid() && View() == StopAllTriggers(old(View()), kept)
    {
      activeWorkflows := activeWorkflows * kept;
      assert Queue() == old(Queue());
    }

    /** One entry at a time, while the queue shrinks. */
    method RemoveAllQueuedWorkflowActivations()
      requires Valid()
      modifies this`queuedActivations, this`timers
      ensures Valid() && View() == ClearQueue(old(View()))
    {
      ghost var before := View();
      while queuedActivations != map[]
        invariant Valid() && ClearsTo(View(), before)
        decreases |queuedActivations|
      {
        var id :| id in queuedActivations;
        ClearAfterRemove(View(), id, before);
        RemoveQueuedWorkflowActivation(id);
      }
      assert Queue() == map[];
      NothingToClear(View(), before);
    }

    // ---------- commands ----------

    method Deactivate(id: WorkflowId)
      requires Valid()
      modifies this`activeFlags
      ensures Valid() && View() == old(View()).(active := old(activeFlags) - {id})
    {
      activeFlags := activeFlags - {id};
      assert Queue() == old(Queue());
    }

    method HandleAddWebhooksTriggersAndPollers(id: WorkflowId, w: Services)
      requires Valid()
      modifies registrar, this`activeWorkflows, this`queuedActivations, this`timers
      modifies this`activationErrors, this`activeFlags, this`published
      ensures Valid() && View() == HandleAdd(old(View()), id, w)
      ensures registrar.table == TableAfter(old(registrar.table), id, Activate, w,
                                            ReachesWebhooks(old(View()), id, Activate, None, false, w))
    {
      var result := Add(id, Activate, None, false, w);
      match result {
        case Added(_, _) =>
          Publish(DisplayActivation(id));
        case Failed(message) =>
          Deactivate(id);
          Publish(DisplayActivationError(id, message));
      }
    }

    method HandleRemoveTriggersAndPollers(id: WorkflowId, closes: bool)
      requires Valid()
      modifies this`activeWorkflows, this`activationErrors, this`published
      ensures Valid() && View() == HandleRemove(old(View()), id, closes)
    {
      var running := id in activeWorkflows;
      DeregisterError(id);
      StopTriggers(id, closes);
      if closes || !running {
        Publish(DisplayDeactivation(id));
      }
    }
  }
}
