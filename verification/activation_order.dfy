// Activating all active workflows at the start of an instance or on a change of
// leadership: batch by batch, the activations of a batch interleaved wherever
// they wait, with the same end for every workflow.
module ActivationOrder {
  import opened Common
  import opened WorkflowActivation
  import opened ActivationLaws

  // ---------- one activation, from wait to wait ----------

  /** How far an activation has come; `active` is the flag of the workflow that was loaded. */
  datatype Stage =
    | Begun
    | Starting(active: bool, triggers: bool)
    | Started(active: bool)
    | Dequeued(active: bool)
    | Failing(active: bool, message: string)
    | Thrown(active: bool, message: string)
    | Ended
    | Rejected

  function Rank(stage: Stage): nat {
    match stage
    case Begun => 6
    case Starting(_, _) => 5
    case Started(_) => 4
    case Dequeued(_) => 3
    case Failing(_, _) => 2
    case Thrown(_, _) => 1
    case Ended => 0
    case Rejected => 0
  }

  predicate IsOver(stage: Stage) {
    stage.Ended? || stage.Rejected?
  }

  /** From one wait of an activation to the next. */
  function Stretch(s: Instance, id: WorkflowId, mode: ActivationMode, w: Services, stage: Stage): (r: (Instance, Stage))
    ensures IsOver(stage) || Rank(r.1) < Rank(stage)
  {
    match stage
    case Begun =>
      var active := id in s.active;
      if w.lookup.LookupFails? then (s, Rejected)
      else if w.lookup.NotFound? || (OnlyIfActive(mode) && !active) then (s, Ended)
      else
        var obstacle := Obstacle(s, mode, w);
        (s, if obstacle.Some? then Failing(active, obstacle.value)
            else Starting(active, ShouldAddTriggersAndPollers(s)))
    case Starting(active, triggers) =>
      var (t, error) := if triggers then StartTriggers(s, id, w) else (s, None);
      (t, if error.Some? then Failing(active, error.value) else Started(active))
    case Started(active) => (RemoveQueued(s, id), Dequeued(active))
    case Dequeued(active) =>
      (s.(errors := s.errors - {id}),
       if w.countError.Some? then Failing(active, w.countError.value)
       else if w.saveError.Some? then Thrown(active, w.saveError.value)
       else Ended)
    case Failing(active, message) => (s.(errors := s.errors[id := message]), Thrown(active, message))
    case Thrown(active, message) =>
      (if Includes(message, "Authorization") then s else Enqueue(s, Retry(id, Init, active)), Ended)
    case Ended => (s, Ended)
    case Rejected => (s, Rejected)
  }

  /** An activation is rejected exactly when the lookup of its workflow fails. */
  predicate StageFits(w: Services, stage: Stage) {
    && (stage.Rejected? ==> w.lookup.LookupFails?)
    && (w.lookup.LookupFails? ==> stage.Begun? || stage.Rejected?)
  }

  lemma StretchFits(s: Instance, id: WorkflowId, mode: ActivationMode, w: Services, stage: Stage)
    requires StageFits(w, stage)
    ensures StageFits(w, Stretch(s, id, mode, w, stage).1)
  {
  }

  /** What each stretch may change: nothing, memory, queue and timers, errors, errors, queue and timers. */
  lemma StretchesTouch(s: Instance, id: WorkflowId, mode: ActivationMode, w: Services, stage: Stage)
    ensures var t := Stretch(s, id, mode, w, stage).0;
      match stage
      case Starting(_, _) => t == s.(memory := t.memory)
      case Started(_) => t == s.(queue := s.queue - {id}, armed := t.armed)
      case Dequeued(_) => t == s.(errors := s.errors - {id})
      case Failing(_, message) => t == s.(errors := s.errors[id := message])
      case Thrown(_, _) => t == s.(queue := t.queue, armed := t.armed, nextTimer := t.nextTimer)
      case _ => t == s
  {
    match stage {
      case Starting(_, _) => StartTriggersTouchMemory(s, id, w);
      case Started(_) => RemoveQueuedTouches(s, id);
      case Thrown(active, _) => EnqueueTouches(s, Retry(id, Init, active));
      case _ =>
    }
  }

  lemma StartTriggersTouchMemory(s: Instance, id: WorkflowId, w: Services)
    ensures var t := StartTriggers(s, id, w).0;
      t == s.(memory := t.memory)
  {
  }

  /** The stretches follow each other in this order, and a failure is registered before it is thrown. */
  lemma StagesInOrder(s: Instance, id: WorkflowId, mode: ActivationMode, w: Services, stage: Stage)
    ensures var next := Stretch(s, id, mode, w, stage).1;
      match stage
      case Begun => next.Ended? || next.Rejected? || next.Failing? || next.Starting?
      case Starting(active, _) => next.Failing? || next == Started(active)
      case Started(active) => next == Dequeued(active)
      case Dequeued(active) => next.Ended? || next.Failing? || next.Thrown?
      case Failing(active, message) => next == Thrown(active, message)
      case Thrown(_, _) => next.Ended?
      case _ => next == stage
  {
  }

  lemma RemoveQueuedTouches(s: Instance, id: WorkflowId)
    ensures var t := RemoveQueued(s, id);
      t == s.(queue := s.queue - {id}, armed := t.armed)
  {
    assert id !in s.queue ==> s.queue - {id} == s.queue;
  }

  lemma EnqueueTouches(s: Instance, retry: Retry)
    ensures var t := Enqueue(s, retry);
      t == s.(queue := t.queue, armed := t.armed, nextTimer := t.nextTimer)
  {
  }

  /** The rest of an activation, without interruption. */
  function Finish(s: Instance, id: WorkflowId, mode: ActivationMode, w: Services, stage: Stage): Instance
    decreases Rank(stage)
  {
    if IsOver(stage) then s else
      var (t, next) := Stretch(s, id, mode, w, stage);
      Finish(t, id, mode, w, next)
  }

  lemma FinishThrown(s: Instance, id: WorkflowId, mode: ActivationMode, w: Services, active: bool, message: string)
    ensures Finish(s, id, mode, w, Thrown(active, message))
      == if Includes(message, "Authorization") then s else Enqueue(s, Retry(id, Init, active))
  {
  }

  lemma FinishFailing(s: Instance, id: WorkflowId, mode: ActivationMode, w: Services, active: bool, message: string)
    ensures Finish(s, id, mode, w, Failing(active, message))
      == Finish(Fail(s, id, message).0, id, mode, w, Thrown(active, message))
  {
  }

  lemma FinishStarted(s: Instance, id: WorkflowId, mode: ActivationMode, w: Services, active: bool, webhooks: bool)
    ensures var (t, result) := Complete(s, id, webhooks, w);
      Finish(s, id, mode, w, Started(active))
        == if result.Failed? then Finish(t, id, mode, w, Thrown(active, result.message)) else t
  {
    var next := Stretch(RemoveQueued(s, id), id, mode, w, Dequeued(active)).1;
    assert Finish(s, id, mode, w, Started(active)) == Finish(RemoveQueued(s, id), id, mode, w, Dequeued(active));
    assert Finish(RemoveQueued(s, id), id, mode, w, Dequeued(active)) == Finish(Clear(s, id), id, mode, w, next);
    if w.countError.Some? {
      FinishFailing(Clear(s, id), id, mode, w, active, w.countError.value);
    }
  }

  /** An activation that nothing interrupts is `ActivateWorkflow`. */
  lemma FinishIsActivate(s: Instance, id: WorkflowId, mode: ActivationMode, w: Services)
    ensures Finish(s, id, mode, w, Begun) == ActivateWorkflow(s, id, mode, w)
  {
    var active := id in s.active;
    if w.lookup.Found? && (OnlyIfActive(mode) ==> active) {
      var (t, result) := Add(s, id, mode, Some(active), false, w);
      var obstacle := Obstacle(s, mode, w);
      if obstacle.Some? {
        FinishFailing(s, id, mode, w, active, obstacle.value);
      } else {
        var starting := Starting(active, ShouldAddTriggersAndPollers(s));
        assert Finish(s, id, mode, w, Begun) == Finish(s, id, mode, w, starting);
        StartingIsStart(s, id, mode, w, active);
      }
      if result.Failed? {
        FinishThrown(t, id, mode, w, active, result.message);
      }
    }
  }

  lemma StartingIsStart(s: Instance, id: WorkflowId, mode: ActivationMode, w: Services, active: bool)
    ensures var (t, result) := StartAndComplete(s, id, mode, w);
      Finish(s, id, mode, w, Starting(active, ShouldAddTriggersAndPollers(s)))
        == if result.Failed? then Finish(t, id, mode, w, Thrown(active, result.message)) else t
  {
    var (t, error) := if ShouldAddTriggersAndPollers(s) then StartTriggers(s, id, w) else (s, None);
    if error.Some? {
      FinishFailing(t, id, mode, w, active, error.value);
    } else {
      FinishStarted(t, id, mode, w, active, ShouldAddWebhooks(s, mode) && WebhooksAdded(w, mode));
    }
  }

  // ---------- what one workflow sees ----------

  /** The state of one workflow on an instance, but for the handle of its timer. */
  datatype Portrait = Portrait(inMemory: bool, queued: Option<(Retry, nat)>, error: Option<string>)

  function PortraitOf(s: Instance, id: WorkflowId): Portrait {
    Portrait(
      id in s.memory,
      if id in s.queue then Some((s.queue[id].retry, s.queue[id].lastTimeout)) else None,
      if id in s.errors then Some(s.errors[id]) else None)
  }

  predicate SameRole(s: Instance, t: Instance) {
    s.leader == t.leader && s.active == t.active
  }

  /** The states look the same to one workflow. */
  predicate SameTo(s: Instance, t: Instance, id: WorkflowId) {
    SameRole(s, t) && PortraitOf(s, id) == PortraitOf(t, id)
  }

  lemma StretchSparesOthers(s: Instance, id: WorkflowId, mode: ActivationMode, w: Services, stage: Stage, x: WorkflowId)
    requires x != id
    ensures SameTo(Stretch(s, id, mode, w, stage).0, s, x)
  {
    match stage {
      case Starting(_, _) => StartTriggersSparesOthers(s, id, w, x);
      case Started(_) => RemoveQueuedSparesOthers(s, id, x);
      case Thrown(active, _) => EnqueueSparesOthers(s, Retry(id, Init, active), x);
      case _ =>
    }
  }

  lemma StartTriggersSparesOthers(s: Instance, id: WorkflowId, w: Services, x: WorkflowId)
    requires x != id
    ensures SameTo(StartTriggers(s, id, w).0, s, x)
  {
  }

  lemma RemoveQueuedSparesOthers(s: Instance, id: WorkflowId, x: WorkflowId)
    requires x != id
    ensures SameTo(RemoveQueued(s, id), s, x)
  {
  }

  lemma EnqueueSparesOthers(s: Instance, retry: Retry, x: WorkflowId)
    requires x != retry.id
    ensures SameTo(Enqueue(s, retry), s, x)
  {
  }

  lemma StretchKeepsRole(s: Instance, id: WorkflowId, mode: ActivationMode, w: Services, stage: Stage)
    ensures SameRole(Stretch(s, id, mode, w, stage).0, s)
  {
  }

  lemma StretchIsLocal(s: Instance, t: Instance, id: WorkflowId, mode: ActivationMode, w: Services, stage: Stage)
    requires SameTo(s, t, id)
    ensures var ((u, a), (v, b)) := (Stretch(s, id, mode, w, stage), Stretch(t, id, mode, w, stage));
      a == b && SameTo(u, v, id)
  {
    match stage {
      case Starting(_, _) => StartTriggersIsLocal(s, t, id, w);
      case Started(_) => RemoveQueuedIsLocal(s, t, id);
      case Thrown(active, _) => EnqueueIsLocal(s, t, Retry(id, Init, active));
      case _ =>
    }
  }

  lemma StartTriggersIsLocal(s: Instance, t: Instance, id: WorkflowId, w: Services)
    requires SameTo(s, t, id)
    ensures var ((u, a), (v, b)) := (StartTriggers(s, id, w), StartTriggers(t, id, w));
      a == b && SameTo(u, v, id)
  {
  }

  lemma RemoveQueuedIsLocal(s: Instance, t: Instance, id: WorkflowId)
    requires SameTo(s, t, id)
    ensures SameTo(RemoveQueued(s, id), RemoveQueued(t, id), id)
  {
  }

  lemma EnqueueIsLocal(s: Instance, t: Instance, retry: Retry)
    requires SameTo(s, t, retry.id)
    ensures SameTo(Enqueue(s, retry), Enqueue(t, retry), retry.id)
  {
  }

  lemma {:induction false} FinishSparesOthers(s: Instance, id: WorkflowId, mode: ActivationMode, w: Services,
                                              stage: Stage, x: WorkflowId)
    ensures SameRole(Finish(s, id, mode, w, stage), s)
    ensures x != id ==> SameTo(Finish(s, id, mode, w, stage), s, x)
    decreases Rank(stage)
  {
    if !IsOver(stage) {
      var (t, next) := Stretch(s, id, mode, w, stage);
      StretchKeepsRole(s, id, mode, w, stage);
      if x != id {
        StretchSparesOthers(s, id, mode, w, stage, x);
      }
      FinishSparesOthers(t, id, mode, w, next, x);
    }
  }

  lemma {:induction false} FinishIsLocal(s: Instance, t: Instance, id: WorkflowId, mode: ActivationMode, w: Services,
                                         stage: Stage)
    requires SameTo(s, t, id)
    ensures SameTo(Finish(s, id, mode, w, stage), Finish(t, id, mode, w, stage), id)
    decreases Rank(stage)
  {
    if !IsOver(stage) {
      StretchIsLocal(s, t, id, mode, w, stage);
      var ((u, next), (v, _)) := (Stretch(s, id, mode, w, stage), Stretch(t, id, mode, w, stage));
      FinishIsLocal(u, v, id, mode, w, next);
    }
  }

  /** Activating one workflow leaves every other as it was. */
  lemma ActivateSparesOthers(s: Instance, id: WorkflowId, mode: ActivationMode, w: Services, x: WorkflowId)
    requires x != id
    ensures SameTo(ActivateWorkflow(s, id, mode, w), s, x)
  {
    FinishIsActivate(s, id, mode, w);
    FinishSparesOthers(s, id, mode, w, Begun, x);
  }

  /** What activating one workflow does to it depends on its own state only. */
  lemma ActivateIsLocal(s: Instance, t: Instance, id: WorkflowId, mode: ActivationMode, w: Services)
    requires SameTo(s, t, id)
    ensures SameTo(ActivateWorkflow(s, id, mode, w), ActivateWorkflow(t, id, mode, w), id)
  {
    FinishIsActivate(s, id, mode, w);
    FinishIsActivate(t, id, mode, w);
    FinishIsLocal(s, t, id, mode, w, Begun);
  }

  // ---------- one after the other ----------

  function ActivateAll(s: Instance, ids: seq<WorkflowId>, mode: ActivationMode, ws: WorkflowId -> Services): Instance
    decreases |ids|
  {
    if ids == [] then s
    else ActivateAll(ActivateWorkflow(s, ids[0], mode, ws(ids[0])), ids[1..], mode, ws)
  }

  /** `t` looks to `x` as if `x` alone had been activated from `s`, if it is listed, and nothing at all otherwise. */
  predicate AloneTo(s: Instance, t: Instance, ids: seq<WorkflowId>, mode: ActivationMode, ws: WorkflowId -> Services,
                    x: WorkflowId)
  {
    SameTo(t, if x in ids then ActivateWorkflow(s, x, mode, ws(x)) else s, x)
  }

  lemma DistinctRest(ids: seq<WorkflowId>, x: WorkflowId)
    requires Distinct(ids) && ids != []
    ensures Distinct(ids[1..]) && ids[0] !in ids[1..]
    ensures x in ids <==> x == ids[0] || x in ids[1..]
  {
  }

  /** Each listed workflow ends as if it were the only one, and no other changes. */
  lemma {:induction false} EachAsIfAlone(s: Instance, ids: seq<WorkflowId>, mode: ActivationMode,
                                         ws: WorkflowId -> Services, x: WorkflowId)
    requires Distinct(ids)
    ensures AloneTo(s, ActivateAll(s, ids, mode, ws), ids, mode, ws, x)
    decreases |ids|
  {
    if ids != [] {
      var id, rest := ids[0], ids[1..];
      var t := ActivateWorkflow(s, id, mode, ws(id));
      DistinctRest(ids, x);
      EachAsIfAlone(t, rest, mode, ws, x);
      if x != id {
        ActivateSparesOthers(s, id, mode, ws(id), x);
        ActivateIsLocal(t, s, x, mode, ws(x));
      }
    }
  }

  // ---------- interleaved ----------

  type Stages = map<WorkflowId, Stage>

  /** The activations in `stages` take turns as `schedule` says, each from one wait to the next. */
  function Interleave(s: Instance, stages: Stages, schedule: seq<WorkflowId>, mode: ActivationMode,
                      ws: WorkflowId -> Services): (Instance, Stages)
    decreases |schedule|
  {
    if schedule == [] then (s, stages)
    else if schedule[0] !in stages then Interleave(s, stages, schedule[1..], mode, ws)
    else
      var id := schedule[0];
      var (t, next) := Stretch(s, id, mode, ws(id), stages[id]);
      Interleave(t, stages[id := next], schedule[1..], mode, ws)
  }

  /** The activations that the schedule has left unfinished are finished. */
  function FinishAll(s: Instance, stages: Stages, ids: seq<WorkflowId>, mode: ActivationMode,
                     ws: WorkflowId -> Services): Instance
    requires forall id :: id in ids ==> id in stages
    decreases |ids|
  {
    if ids == [] then s
    else FinishAll(Finish(s, ids[0], mode, ws(ids[0]), stages[ids[0]]), stages, ids[1..], mode, ws)
  }

  /** A schedule that gives an activation six turns has brought it to its end: every turn is one stretch. */
  lemma {:induction false} TurnsAdvance(s: Instance, stages: Stages, schedule: seq<WorkflowId>, mode: ActivationMode,
                                        ws: WorkflowId -> Services, x: WorkflowId)
    requires x in stages
    ensures var after := Interleave(s, stages, schedule, mode, ws).1;
      x in after && (Rank(after[x]) + Count(schedule, y => y == x) <= Rank(stages[x]) || Rank(after[x]) == 0)
    decreases |schedule|
  {
    if schedule != [] {
      CountFirst(schedule, y => y == x);
      var id := schedule[0];
      if id in stages {
        var (t, next) := Stretch(s, id, mode, ws(id), stages[id]);
        TurnsAdvance(t, stages[id := next], schedule[1..], mode, ws, x);
      } else {
        TurnsAdvance(s, stages, schedule[1..], mode, ws, x);
      }
    }
  }

  /** What the workflow will look like when its activation is at its end, if it takes part. */
  function Outlook(s: Instance, stages: Stages, mode: ActivationMode, ws: WorkflowId -> Services,
                   x: WorkflowId): Instance
  {
    if x in stages then Finish(s, x, mode, ws(x), stages[x]) else s
  }

  /** Whoever's turn it is, what a workflow will look like stays the same. */
  lemma {:induction false} InterleaveKeepsOutlook(s: Instance, stages: Stages, schedule: seq<WorkflowId>,
                                                  mode: ActivationMode, ws: WorkflowId -> Services, x: WorkflowId)
    ensures var (t, after) := Interleave(s, stages, schedule, mode, ws);
      after.Keys == stages.Keys && SameTo(Outlook(t, after, mode, ws, x), Outlook(s, stages, mode, ws, x), x)
    decreases |schedule|
  {
    if schedule != [] {
      var id := schedule[0];
      if id in stages {
        var (t, next) := Stretch(s, id, mode, ws(id), stages[id]);
        InterleaveKeepsOutlook(t, stages[id := next], schedule[1..], mode, ws, x);
        if x != id {
          StretchSparesOthers(s, id, mode, ws(id), stages[id], x);
          if x in stages {
            FinishIsLocal(t, s, x, mode, ws(x), stages[x]);
          }
        }
      } else {
        InterleaveKeepsOutlook(s, stages, schedule[1..], mode, ws, x);
      }
    }
  }

  lemma {:induction false} FinishAllKeepsOutlook(s: Instance, stages: Stages, ids: seq<WorkflowId>,
                                                 mode: ActivationMode,
                                                 ws: WorkflowId -> Services, x: WorkflowId)
    requires Distinct(ids) && forall id :: id in ids ==> id in stages
    ensures SameTo(FinishAll(s, stages, ids, mode, ws), if x in ids then Outlook(s, stages, mode, ws, x) else s, x)
    decreases |ids|
  {
    if ids != [] {
      var id := ids[0];
      var t := Finish(s, id, mode, ws(id), stages[id]);
      DistinctRest(ids, x);
      FinishAllKeepsOutlook(t, stages, ids[1..], mode, ws, x);
      FinishSparesOthers(s, id, mode, ws(id), stages[id], x);
      if x != id && x in ids {
        FinishIsLocal(t, s, x, mode, ws(x), stages[x]);
      }
    }
  }

  function AllBegun(batch: seq<WorkflowId>): Stages {
    map id | id in batch :: Begun
  }

  /** One batch: its activations take turns, and all of them are awaited. */
  function ActivateBatch(s: Instance, batch: seq<WorkflowId>, schedule: seq<WorkflowId>, mode: ActivationMode,
                         ws: WorkflowId -> Services): Instance
  {
    var (t, stages) := Interleave(s, AllBegun(batch), schedule, mode, ws);
    InterleaveKeys(s, AllBegun(batch), schedule, mode, ws);
    FinishAll(t, stages, batch, mode, ws)
  }

  lemma {:induction false} InterleaveKeys(s: Instance, stages: Stages, schedule: seq<WorkflowId>, mode: ActivationMode,
                                          ws: WorkflowId -> Services)
    ensures Interleave(s, stages, schedule, mode, ws).1.Keys == stages.Keys
    decreases |schedule|
  {
    if schedule != [] {
      var id := schedule[0];
      if id in stages {
        var (t, next) := Stretch(s, id, mode, ws(id), stages[id]);
        InterleaveKeys(t, stages[id := next], schedule[1..], mode, ws);
      } else {
        InterleaveKeys(s, stages, schedule[1..], mode, ws);
      }
    }
  }

  lemma BatchAsIfAlone(s: Instance, batch: seq<WorkflowId>, schedule: seq<WorkflowId>, mode: ActivationMode,
                       ws: WorkflowId -> Services, x: WorkflowId)
    requires Distinct(batch)
    ensures AloneTo(s, ActivateBatch(s, batch, schedule, mode, ws), batch, mode, ws, x)
  {
    var (t, stages) := Interleave(s, AllBegun(batch), schedule, mode, ws);
    InterleaveKeepsOutlook(s, AllBegun(batch), schedule, mode, ws, x);
    FinishAllKeepsOutlook(t, stages, batch, mode, ws, x);
    FinishIsActivate(s, x, mode, ws(x));
  }

  // ---------- batches ----------

  /** `chunk` of lodash: a size below one gives no batch at all. */
  function Chunk<T>(list: seq<T>, size: int): seq<seq<T>> {
    if list == [] || size < 1 then []
    else if |list| <= size then [list]
    else [list[..size]] + Chunk(list[size..], size)
  }

  function Flatten<T>(lists: seq<seq<T>>): seq<T> {
    if lists == [] then [] else lists[0] + Flatten(lists[1..])
  }

  /** All batches are full but the last. */
  lemma {:induction false} BatchesAreFull<T>(list: seq<T>, size: int, i: nat)
    requires i < |Chunk(list, size)|
    ensures |Chunk(list, size)[i]| == size || (i == |Chunk(list, size)| - 1 && 0 < |Chunk(list, size)[i]| < size)
  {
    if |list| > size && i > 0 {
      BatchesAreFull(list[size..], size, i - 1);
    }
  }

  lemma {:induction false} ChunkLosesNothing<T>(list: seq<T>, size: int)
    ensures Flatten(Chunk(list, size)) == if size < 1 then [] else list
    ensures forall batch :: batch in Chunk(list, size) ==> 0 < |batch| <= size
  {
    if list != [] && size >= 1 && |list| > size {
      ChunkLosesNothing(list[size..], size);
      assert list == list[..size] + list[size..];
    } else if list != [] && size >= 1 {
      assert [list][1..] == [];
    }
  }

  /** Some activation of the batch is rejected, and with it the whole batch. */
  predicate Rejects(batch: seq<WorkflowId>, ws: WorkflowId -> Services) {
    exists x :: x in batch && ws(x).lookup.LookupFails?
  }

  /**
   * Batch after batch, the activations of each interleaved by a schedule of its own. The loop ends with
   * a batch that is rejected; the other activations of that batch still run to their ends.
   */
  function ActivateBatches(s: Instance, batches: seq<seq<WorkflowId>>, schedules: seq<seq<WorkflowId>>,
                           mode: ActivationMode, ws: WorkflowId -> Services): Instance
    requires |schedules| == |batches|
    decreases |batches|
  {
    if batches == [] then s else
      var t := ActivateBatch(s, batches[0], schedules[0], mode, ws);
      if Rejects(batches[0], ws) then t else ActivateBatches(t, batches[1..], schedules[1..], mode, ws)
  }

  /** The ids that the loop attempts: those of all batches up to and with the first that is rejected. */
  function Reached(batches: seq<seq<WorkflowId>>, ws: WorkflowId -> Services): seq<WorkflowId> {
    if batches == [] then []
    else batches[0] + if Rejects(batches[0], ws) then [] else Reached(batches[1..], ws)
  }

  /** The loop throws. */
  predicate Throws(batches: seq<seq<WorkflowId>>, ws: WorkflowId -> Services) {
    batches != [] && (Rejects(batches[0], ws) || Throws(batches[1..], ws))
  }

  lemma SplitDistinct(a: seq<WorkflowId>, b: seq<WorkflowId>, x: WorkflowId)
    requires Distinct(a + b)
    ensures Distinct(a) && Distinct(b) && !(x in a && x in b) && (x in a + b <==> x in a || x in b)
  {
    assert forall i :: 0 <= i < |a| ==> (a + b)[i] == a[i];
    assert forall i :: 0 <= i < |b| ==> (a + b)[|a| + i] == b[i];
  }

  lemma {:induction false} BatchesAsIfAlone(s: Instance, batches: seq<seq<WorkflowId>>, schedules: seq<seq<WorkflowId>>,
                                            mode: ActivationMode, ws: WorkflowId -> Services, x: WorkflowId)
    requires |schedules| == |batches| && Distinct(Reached(batches, ws))
    ensures AloneTo(s, ActivateBatches(s, batches, schedules, mode, ws), Reached(batches, ws), mode, ws, x)
    decreases |batches|
  {
    if batches != [] {
      var batch := batches[0];
      var later := if Rejects(batch, ws) then [] else Reached(batches[1..], ws);
      var t := ActivateBatch(s, batch, schedules[0], mode, ws);
      SplitDistinct(batch, later, x);
      BatchAsIfAlone(s, batch, schedules[0], mode, ws, x);
      if !Rejects(batch, ws) {
        BatchesAsIfAlone(t, batches[1..], schedules[1..], mode, ws, x);
        if x in later {
          ActivateIsLocal(t, s, x, mode, ws(x));
        }
      }
    }
  }

  lemma {:induction false} ReachedIsPrefix(batches: seq<seq<WorkflowId>>, ws: WorkflowId -> Services)
    ensures Reached(batches, ws) <= Flatten(batches)
  {
    if batches != [] && !Rejects(batches[0], ws) {
      ReachedIsPrefix(batches[1..], ws);
    }
  }

  lemma ReachedDistinct(ids: seq<WorkflowId>, size: int, ws: WorkflowId -> Services)
    requires Distinct(ids)
    ensures Distinct(Reached(Chunk(ids, size), ws))
    ensures forall x :: x in Reached(Chunk(ids, size), ws) ==> x in ids
  {
    ReachedIsPrefix(Chunk(ids, size), ws);
    ChunkLosesNothing(ids, size);
  }

  /**
   * Whatever the batch size, and wherever the activations of a batch wait for each other, every id that
   * is reached ends as if it were activated alone, and as if the reached ids were activated one after
   * the other; a workflow that is not reached is left alone.
   */
  lemma BatchesAndOrderDoNotMatter(s: Instance, ids: seq<WorkflowId>, size: int, schedules: seq<seq<WorkflowId>>,
                                   mode: ActivationMode, ws: WorkflowId -> Services, x: WorkflowId)
    requires Distinct(ids) && |schedules| == |Chunk(ids, size)|
    ensures var batches := Chunk(ids, size);
      var (t, reached) := (ActivateBatches(s, batches, schedules, mode, ws), Reached(batches, ws));
      AloneTo(s, t, reached, mode, ws, x) && SameTo(t, ActivateAll(s, reached, mode, ws), x)
  {
    ReachedDistinct(ids, size, ws);
    BatchesAsIfAlone(s, Chunk(ids, size), schedules, mode, ws, x);
    EachAsIfAlone(s, Reached(Chunk(ids, size), ws), mode, ws, x);
  }

  /**
   * Two batch sizes give a workflow the same end exactly when both reach it, or neither does, or its
   * activation would leave it as it was.
   */
  lemma BatchSizeMattersExactly(s: Instance, ids: seq<WorkflowId>, m: int, n: int, schedules: seq<seq<WorkflowId>>,
                                others: seq<seq<WorkflowId>>, mode: ActivationMode, ws: WorkflowId -> Services,
                                x: WorkflowId)
    requires Distinct(ids) && |schedules| == |Chunk(ids, m)| && |others| == |Chunk(ids, n)|
    ensures SameTo(ActivateBatches(s, Chunk(ids, m), schedules, mode, ws),
                   ActivateBatches(s, Chunk(ids, n), others, mode, ws), x)
      <==> (x in Reached(Chunk(ids, m), ws) <==> x in Reached(Chunk(ids, n), ws))
           || SameTo(ActivateWorkflow(s, x, mode, ws(x)), s, x)
  {
    var (t, u) := (ActivateBatches(s, Chunk(ids, m), schedules, mode, ws),
                   ActivateBatches(s, Chunk(ids, n), others, mode, ws));
    BatchesAndOrderDoNotMatter(s, ids, m, schedules, mode, ws, x);
    BatchesAndOrderDoNotMatter(s, ids, n, others, mode, ws, x);
    CompareEnds(s, t, u, Reached(Chunk(ids, m), ws), Reached(Chunk(ids, n), ws), mode, ws, x);
  }

  lemma CompareEnds(s: Instance, t: Instance, u: Instance, a: seq<WorkflowId>, b: seq<WorkflowId>,
                    mode: ActivationMode, ws: WorkflowId -> Services, x: WorkflowId)
    requires AloneTo(s, t, a, mode, ws, x) && AloneTo(s, u, b, mode, ws, x)
    ensures SameTo(t, u, x) <==> (x in a <==> x in b) || SameTo(ActivateWorkflow(s, x, mode, ws(x)), s, x)
  {
  }

  // ---------- which ids are attempted ----------

  /** The number of the batch into which position `i` falls. */
  function BatchOf(i: nat, size: int): nat
    requires size >= 1
  {
    if i < size then 0 else BatchOf(i - size, size) + 1
  }

  lemma {:induction false} BatchOfGrows(i: nat, j: nat, size: int)
    requires size >= 1 && i <= j
    ensures BatchOf(i, size) <= BatchOf(j, size)
  {
    if i >= size {
      BatchOfGrows(i - size, j - size, size);
    }
  }

  predicate LookupFailsAt(ids: seq<WorkflowId>, ws: WorkflowId -> Services, j: nat)
    requires j < |ids|
  {
    ws(ids[j]).lookup.LookupFails?
  }

  /** No lookup fails in a batch before that of position `i`. */
  ghost predicate NoneFailsBefore(ids: seq<WorkflowId>, size: int, ws: WorkflowId -> Services, i: nat)
    requires size >= 1
  {
    forall j {:trigger LookupFailsAt(ids, ws, j)} ::
      0 <= j < |ids| && LookupFailsAt(ids, ws, j) ==> BatchOf(i, size) <= BatchOf(j, size)
  }

  /** Leaving out a first batch in which no lookup fails changes nothing for the positions behind it. */
  lemma NoneFailsBehind(ids: seq<WorkflowId>, size: int, ws: WorkflowId -> Services, i: nat)
    requires size >= 1 && size <= i < |ids|
    ensures NoneFailsBefore(ids, size, ws, i)
      <==> !Rejects(ids[..size], ws) && NoneFailsBefore(ids[size..], size, ws, i - size)
  {
    var (batch, rest) := (ids[..size], ids[size..]);
    assert forall j :: 0 <= j < size ==> batch[j] == ids[j] && batch[j] in batch;
    if NoneFailsBefore(ids, size, ws, i) {
      forall j | 0 <= j < |batch| ensures !ws(batch[j]).lookup.LookupFails? {
        assert LookupFailsAt(ids, ws, j) ==> BatchOf(i, size) <= BatchOf(j, size);
      }
      forall j | 0 <= j < |rest| && LookupFailsAt(rest, ws, j) ensures BatchOf(i - size, size) <= BatchOf(j, size) {
        assert LookupFailsAt(ids, ws, j + size) && BatchOf(j + size, size) == BatchOf(j, size) + 1;
      }
    } else if !Rejects(batch, ws) {
      var j :| 0 <= j < |ids| && LookupFailsAt(ids, ws, j) && BatchOf(i, size) > BatchOf(j, size);
      assert j >= size ==> LookupFailsAt(rest, ws, j - size);
    }
  }

  lemma NoneFailsBeforeFirst(ids: seq<WorkflowId>, size: int, ws: WorkflowId -> Services, i: nat)
    requires size >= 1 && i < size
    ensures NoneFailsBefore(ids, size, ws, i)
  {
  }

  /** An id is attempted exactly when no lookup fails in an earlier batch. */
  lemma {:induction false} AttemptedExactly(ids: seq<WorkflowId>, size: int, ws: WorkflowId -> Services, i: nat)
    requires Distinct(ids) && size >= 1 && i < |ids|
    ensures ids[i] in Reached(Chunk(ids, size), ws) <==> NoneFailsBefore(ids, size, ws, i)
    decreases |ids|
  {
    if i < size {
      NoneFailsBeforeFirst(ids, size, ws, i);
      var first := Chunk(ids, size)[0];
      assert ids[i] == first[i] && first[i] in Reached(Chunk(ids, size), ws);
    } else {
      var (batch, rest) := (ids[..size], ids[size..]);
      assert ids == batch + rest && ids[i] == rest[i - size];
      assert Chunk(ids, size)[1..] == Chunk(rest, size);
      SplitDistinct(batch, rest, ids[i]);
      NoneFailsBehind(ids, size, ws, i);
      AttemptedExactly(rest, size, ws, i - size);
    }
  }

  /**
   * Every id is attempted exactly when there is none, or the batch size is at least one and every failed
   * lookup falls into the last batch.
   */
  lemma AllAttemptedExactly(ids: seq<WorkflowId>, size: int, ws: WorkflowId -> Services)
    requires Distinct(ids)
    ensures (forall x :: x in ids ==> x in Reached(Chunk(ids, size), ws))
      <==> ids == [] || (size >= 1 && NoneFailsBefore(ids, size, ws, |ids| - 1))
  {
    if ids != [] && size >= 1 {
      AttemptedExactly(ids, size, ws, |ids| - 1);
      if NoneFailsBefore(ids, size, ws, |ids| - 1) {
        forall i | 0 <= i < |ids| ensures ids[i] in Reached(Chunk(ids, size), ws) {
          BatchOfGrows(i, |ids| - 1, size);
          assert NoneFailsBefore(ids, size, ws, i);
          AttemptedExactly(ids, size, ws, i);
        }
      }
    } else if ids != [] {
      assert ids[0] in ids && Chunk(ids, size) == [];
    }
  }

  /** The lookup of `a` fails, and all goes well for every other workflow. */
  function OnlyFailing(a: WorkflowId, message: string): WorkflowId -> Services {
    x => if x == a then AllWell.(lookup := LookupFails(message)) else AllWell
  }

  /** Two active workflows: with batches of one the second is never attempted, in one batch it is activated. */
  lemma BatchSizeDecides(s: Instance, a: WorkflowId, b: WorkflowId, message: string, schedule: seq<WorkflowId>)
    requires a != b && s.leader && b in s.active && b !in s.memory
    ensures var ws := OnlyFailing(a, message);
      && |Chunk([a, b], 1)| == 2 && |Chunk([a, b], 2)| == 1
      && b !in ActivateBatches(s, Chunk([a, b], 1), [schedule, schedule], LeadershipChange, ws).memory
      && b in ActivateBatches(s, Chunk([a, b], 2), [schedule], LeadershipChange, ws).memory
  {
    var ws := OnlyFailing(a, message);
    ChunksOfTwo(a, b, message);
    BatchesAndOrderDoNotMatter(s, [a, b], 1, [schedule, schedule], LeadershipChange, ws, b);
    BatchesAndOrderDoNotMatter(s, [a, b], 2, [schedule], LeadershipChange, ws, b);
    FatesOfActivation(s, b, LeadershipChange, AllWell);
  }

  lemma ChunksOfTwo(a: WorkflowId, b: WorkflowId, message: string)
    requires a != b
    ensures Chunk([a, b], 1) == [[a], [b]] && Chunk([a, b], 2) == [[a, b]]
    ensures Reached(Chunk([a, b], 1), OnlyFailing(a, message)) == [a]
    ensures Reached(Chunk([a, b], 2), OnlyFailing(a, message)) == [a, b]
  {
    var (ids, ws) := ([a, b], OnlyFailing(a, message));
    assert ids[..1] == [a] && ids[1..] == [b];
    assert Chunk(ids, 1) == [[a]] + Chunk([b], 1);
    assert a in [a] && a in ids && ws(a).lookup.LookupFails?;
    assert Rejects([a], ws) && Rejects(ids, ws);
  }

  /** The activation as a whole fails exactly when it looks anything up and some lookup fails. */
  lemma ThrowsExactly(ids: seq<WorkflowId>, size: int, ws: WorkflowId -> Services)
    ensures Throws(Chunk(ids, size), ws) <==> size >= 1 && exists x :: x in ids && ws(x).lookup.LookupFails?
  {
    ChunkLosesNothing(ids, size);
    ThrowsFlat(Chunk(ids, size), ws);
  }

  lemma {:induction false} ThrowsFlat(batches: seq<seq<WorkflowId>>, ws: WorkflowId -> Services)
    ensures Throws(batches, ws) <==> Rejects(Flatten(batches), ws)
  {
    if batches != [] {
      ThrowsFlat(batches[1..], ws);
    }
  }

  // ---------- the fate of one workflow ----------

  datatype Fate = Missing | Unread | Skipped | Activated | Dropped(message: string) | Retried(message: string)

  function FateOf(s: Instance, id: WorkflowId, mode: ActivationMode, w: Services): Fate {
    if w.lookup.NotFound? then Missing
    else if w.lookup.LookupFails? then Unread
    else if (mode == Init || mode == LeadershipChange) && id !in s.active then Skipped
    else match Add(s, id, mode, Some(id in s.active), false, w).1
      case Added(_, _) => Activated
      case Failed(message) => if Includes(message, "Authorization") then Dropped(message) else Retried(message)
  }

  /**
   * A listed workflow is missing, cannot be read, is skipped, activated, dropped for an authorization
   * error, or queued for a first retry. The error of a failed activation is registered, but for a failure
   * of the last write.
   */
  lemma FatesOfActivation(s: Instance, id: WorkflowId, mode: ActivationMode, w: Services)
    ensures var (p, before) := (PortraitOf(ActivateWorkflow(s, id, mode, w), id), PortraitOf(s, id));
      var lastOnly := Starts(s, mode, w) && w.countError.None?;
      match FateOf(s, id, mode, w)
      case Missing => p == before
      case Unread => p == before
      case Skipped => p == before
      case Activated => p == Portrait(before.inMemory || (s.leader && w.hasTriggers), None, None)
      case Dropped(message) =>
        && p.error == (if lastOnly then None else Some(message))
        && p.queued == (if Starts(s, mode, w) then None else before.queued)
      case Retried(message) =>
        && p.error == (if lastOnly then None else Some(message))
        && p.queued == Some((Retry(id, Init, id in s.active), 1000))
  {
    if OnlyIfActive(mode) ==> id in s.active {
      FateOfAdd(s, id, mode, w);
    }
    var t := Add(s, id, mode, Some(id in s.active), false, w).0;
    EnqueuePortrayed(t, Retry(id, Init, id in s.active));
  }

  lemma EnqueuePortrayed(s: Instance, retry: Retry)
    ensures PortraitOf(Enqueue(s, retry), retry.id) ==
      PortraitOf(s, retry.id).(queued := Some((retry, INITIAL_TIMEOUT)))
  {
  }

  /** What a failed or completed activation that was attempted leaves of its workflow. */
  predicate LeftAs(before: Portrait, p: Portrait, result: Result, starts: bool, counts: bool, triggers: bool) {
    && p.queued == (if starts then None else before.queued)
    && (result.Added? ==> starts && p.error.None? && p.inMemory == (before.inMemory || triggers))
    && (result.Failed? ==> p.error == if starts && counts then None else Some(result.message))
  }

  lemma FateOfComplete(s: Instance, id: WorkflowId, webhooks: bool, w: Services)
    ensures var (t, result) := Complete(s, id, webhooks, w);
      LeftAs(PortraitOf(s, id), PortraitOf(t, id), result, true, w.countError.None?, false) && t.active == s.active
  {
  }

  lemma FateOfStart(s: Instance, id: WorkflowId, mode: ActivationMode, w: Services)
    requires Obstacle(s, mode, w).None?
    ensures var (t, result) := StartAndComplete(s, id, mode, w);
      LeftAs(PortraitOf(s, id), PortraitOf(t, id), result, Starts(s, mode, w), w.countError.None?,
             s.leader && w.hasTriggers)
      && t.active == s.active
  {
    var (t, error) := if s.leader then StartTriggers(s, id, w) else (s, None);
    assert PortraitOf(t, id).queued == PortraitOf(s, id).queued;
    if error.None? {
      FateOfComplete(t, id, ShouldAddWebhooks(s, mode) && WebhooksAdded(w, mode), w);
    }
  }

  lemma FateOfAdd(s: Instance, id: WorkflowId, mode: ActivationMode, w: Services)
    requires OnlyIfActive(mode) ==> id in s.active
    ensures var (t, result) := Add(s, id, mode, Some(id in s.active), false, w);
      LeftAs(PortraitOf(s, id), PortraitOf(t, id), result, Starts(s, mode, w), w.countError.None?,
             s.leader && w.hasTriggers)
      && t.active == s.active
  {
    if Obstacle(s, mode, w).None? {
      FateOfStart(s, id, mode, w);
    }
  }
}
