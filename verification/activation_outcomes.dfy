// What each operation of one manager does and answers, told from the mode, the
// role and the answers of the services alone.
module ActivationOutcomes {
  import opened Common
  import opened WorkflowActivation
  import opened ActivationLaws
  import Webhooks = WebhookRegistration

  // ---------- activations that are not attempted ----------

  /** In multi-main an activation that may be published is left to the leader. */
  lemma AddIsPublished(s: Instance, id: WorkflowId, mode: ActivationMode, existing: Option<bool>, w: Services)
    requires s.multiMain
    ensures Add(s, id, mode, existing, true, w)
      == (s.(outbox := s.outbox + [AddWebhooksTriggersAndPollers(id)]), Added(false, false))
  {
  }

  /** A workflow that cannot be loaded fails with an error of its own, which is registered. */
  lemma NotLoadedFails(s: Instance, id: WorkflowId, mode: ActivationMode, publish: bool, w: Services)
    requires !(s.multiMain && publish)
    ensures var (t, result) := Add(s, id, mode, None, publish, w);
      match w.lookup
      case Found => true
      case NotFound =>
        var message := "Failed to find workflow with ID \"" + id + "\"";
        result == Failed(message) && t == s.(errors := s.errors[id := message])
      case LookupFails(message) =>
        result == Failed(message) && t == s.(errors := s.errors[id := message])
  {
  }

  /** The workflow is loaded, and its active flag is set or not asked for. */
  predicate IsAttempted(s: Instance, id: WorkflowId, mode: ActivationMode, existing: Option<bool>, w: Services) {
    match existing
    case None => w.lookup == Found && (mode in {Init, LeadershipChange} ==> id in s.active)
    case Some(active) => mode in {Init, LeadershipChange} ==> active
  }

  /** An inactive workflow is skipped at the start and on a change of leadership, and in no other mode. */
  lemma InactiveIsSkipped(s: Instance, id: WorkflowId, mode: ActivationMode, existing: Option<bool>, publish: bool,
                          w: Services)
    requires !(s.multiMain && publish) && (existing == None ==> w.lookup == Found)
    requires mode == Init || mode == LeadershipChange
    requires if existing == None then id !in s.active else existing == Some(false)
    ensures Add(s, id, mode, existing, publish, w) == (s, Added(false, false))
  {
  }

  // ---------- activations that are attempted ----------

  /** Webhooks are added on init by every instance, and else by the leader, but not on a change of leadership. */
  predicate MayAddWebhooks(s: Instance, mode: ActivationMode) {
    match mode
    case Init => true
    case LeadershipChange => false
    case _ => s.leader
  }

  /** What is thrown before triggers are started. */
  function ThrownFirst(s: Instance, mode: ActivationMode, w: Services): Option<string> {
    match w.setupError
    case Some(message) => Some(message)
    case None => if MayAddWebhooks(s, mode) then Webhooks.MessageOf(Webhooks.OutcomeOf(w.hooks, mode == Init)) else None
  }

  /**
   * The first error ends an activation: it is registered, queue and timers stay, and triggers run as they
   * were left.
   */
  lemma FirstErrorIsRegistered(s: Instance, id: WorkflowId, mode: ActivationMode, existing: Option<bool>,
                               publish: bool, w: Services)
    requires !(s.multiMain && publish) && IsAttempted(s, id, mode, existing, w)
    ensures var (t, result) := Add(s, id, mode, existing, publish, w);
      match ThrownFirst(s, mode, w)
      case Some(message) => result == Failed(message) && t == s.(errors := s.errors[id := message])
      case None =>
        s.leader && w.hasTriggers && w.triggerError.Some? ==>
          var message := w.triggerError.value;
          && result == Failed(message) && t == s.(memory := t.memory, errors := s.errors[id := message])
          && t.memory == match w.remains
                         case AsBefore => s.memory
                         case Present => s.memory + {id}
                         case Absent => s.memory - {id}
  {
  }

  /** What the end of an activation leaves, and what it answers. */
  predicate ClearedAs(s: Instance, t: Instance, id: WorkflowId, w: Services) {
    && t == s.(queue := t.queue, armed := t.armed, errors := t.errors)
    && t.queue == s.queue - {id} && t.armed == s.armed - (if id in s.queue then {s.queue[id].timer} else {})
    && t.errors == if w.countError.Some? then s.errors[id := w.countError.value] else s.errors - {id}
  }

  function AnswerOf(webhooks: bool, triggers: bool, w: Services): Result {
    match (w.countError, w.saveError)
    case (Some(message), _) => Failed(message)
    case (None, Some(message)) => Failed(message)
    case (None, None) => Added(webhooks, triggers)
  }

  lemma CompleteClearsAs(s: Instance, id: WorkflowId, webhooks: bool, w: Services)
    ensures var (t, result) := Complete(s, id, webhooks, w);
      ClearedAs(s, t, id, w) && result == AnswerOf(webhooks, s.leader && w.hasTriggers, w)
  {
    assert id !in s.queue ==> s.armed - {} == s.armed && s.queue - {id} == s.queue;
    assert w.countError.Some? ==> (s.errors - {id})[id := w.countError.value] == s.errors[id := w.countError.value];
  }

  /** Without a thrown error webhooks were added exactly when there are any. */
  lemma AddedExactly(w: Services, mode: ActivationMode)
    requires Webhooks.MessageOf(Webhooks.OutcomeOf(w.hooks, mode == Init)) == None
    ensures WebhooksAdded(w, mode) <==> w.hooks.webhooks != []
  {
  }

  /**
   * Once webhooks and triggers are up, the queue entry of the workflow and its timer go. Then the error
   * goes too, unless counting fails, which is registered; a failure to save is not. Without either the
   * answer says whether webhooks were added, and whether triggers were.
   */
  lemma StartedIsCleared(s: Instance, id: WorkflowId, mode: ActivationMode, existing: Option<bool>, publish: bool,
                         w: Services)
    requires !(s.multiMain && publish) && IsAttempted(s, id, mode, existing, w)
    requires ThrownFirst(s, mode, w) == None && (s.leader && w.hasTriggers ==> w.triggerError == None)
    ensures var ((t, result), triggers) := (Add(s, id, mode, existing, publish, w), s.leader && w.hasTriggers);
      && ClearedAs(s.(memory := s.memory + if triggers then {id} else {}), t, id, w)
      && result == AnswerOf(MayAddWebhooks(s, mode) && w.hooks.webhooks != [], triggers, w)
  {
    var u := s.(memory := s.memory + if s.leader && w.hasTriggers then {id} else {});
    var webhooks := MayAddWebhooks(s, mode) && WebhooksAdded(w, mode);
    assert s.memory + {} == s.memory;
    assert Add(s, id, mode, existing, publish, w) == Complete(u, id, webhooks, w);
    CompleteClearsAs(u, id, webhooks, w);
    if MayAddWebhooks(s, mode) {
      AddedExactly(w, mode);
    }
  }

  // ---------- the webhook table ----------

  /**
   * The rows of an activation: on init, and on the leader but for a change of leadership, every listed
   * path has a row of the workflow afterwards when nothing is refused.
   */
  lemma ActivationStoresRows(table: Webhooks.Table, s: Instance, id: WorkflowId, mode: ActivationMode,
                             existing: Option<bool>, publish: bool, w: Services, i: nat)
    requires !(s.multiMain && publish) && IsAttempted(s, id, mode, existing, w) && w.setupError == None
    requires mode == Init || (s.leader && mode != LeadershipChange)
    requires i < |w.hooks.webhooks|
    requires forall k :: 0 <= k < |w.hooks.attempts| ==> w.hooks.attempts[k] == Webhooks.Stored
    ensures var after := TableAfter(table, id, mode, w, ReachesWebhooks(s, id, mode, existing, publish, w));
      var key := Webhooks.KeyOf(w.hooks.webhooks[i]);
      key in after && after[key].workflowId == id
  {
    Webhooks.NoBlock(w.hooks.attempts, mode == Init);
    assert w.hooks.webhooks[..|w.hooks.webhooks|] == w.hooks.webhooks;
    Webhooks.SuccessStoresAll(table, id, w.hooks.webhooks, w.hooks.attempts, i);
  }

  /** And the answer says so, if nothing else fails either. */
  lemma StoredRowsAreAnswered(s: Instance, id: WorkflowId, mode: ActivationMode, existing: Option<bool>, publish: bool,
                              w: Services)
    requires !(s.multiMain && publish) && IsAttempted(s, id, mode, existing, w) && w.setupError == None
    requires mode == Init || (s.leader && mode != LeadershipChange)
    requires w.hooks.webhooks != [] && w.hooks.finishError == None
    requires forall k :: 0 <= k < |w.hooks.attempts| ==> w.hooks.attempts[k] == Webhooks.Stored
    requires w.triggerError == None && w.countError == None && w.saveError == None
    ensures Add(s, id, mode, existing, publish, w).1 == Added(true, s.leader && w.hasTriggers)
  {
    Webhooks.ThrowsExactly(w.hooks, mode == Init);
    StartedIsCleared(s, id, mode, existing, publish, w);
  }

  /** Whatever is refused, the table changes by exactly one call of `addWebhooks`, on init or not as the mode says. */
  lemma ActivationRegisters(table: Webhooks.Table, s: Instance, id: WorkflowId, mode: ActivationMode,
                            existing: Option<bool>, publish: bool, w: Services)
    requires !(s.multiMain && publish) && IsAttempted(s, id, mode, existing, w) && w.setupError == None
    requires mode == Init || (s.leader && mode != LeadershipChange)
    ensures TableAfter(table, id, mode, w, ReachesWebhooks(s, id, mode, existing, publish, w))
      == Webhooks.Registered(table, id, w.hooks, mode == Init)
  {
  }

  /** In every other case the table is left alone: published, not loaded, skipped, not set up, or not allowed to add. */
  lemma OtherwiseNoRowsChange(table: Webhooks.Table, s: Instance, id: WorkflowId, mode: ActivationMode,
                              existing: Option<bool>, publish: bool, w: Services)
    requires || (s.multiMain && publish) || !IsAttempted(s, id, mode, existing, w) || w.setupError != None
             || mode == LeadershipChange || (mode != Init && !s.leader)
    ensures TableAfter(table, id, mode, w, ReachesWebhooks(s, id, mode, existing, publish, w)) == table
    ensures Add(s, id, mode, existing, publish, w).1.Added? ==> !Add(s, id, mode, existing, publish, w).1.webhooks
  {
  }

  // ---------- the other operations ----------

  lemma EnqueueExactly(s: Instance, retry: Retry)
    ensures var (t, id) := (Enqueue(s, retry), retry.id);
      && t == s.(queue := t.queue, armed := t.armed, nextTimer := s.nextTimer + 1)
      && t.queue == s.queue[id := Queued(retry, 1000, s.nextTimer)]
      && t.armed == (s.armed - (if id in s.queue then {s.queue[id].timer} else {}))[s.nextTimer := Armed(retry, 1000)]
  {
    assert (s.queue - {retry.id})[retry.id := Queued(retry, 1000, s.nextTimer)]
        == s.queue[retry.id := Queued(retry, 1000, s.nextTimer)];
    assert retry.id !in s.queue ==> s.armed - {} == s.armed;
  }

  /** A failing trigger leaves its message registered and its workflow queued with a first delay of one second. */
  lemma TriggerFailureIsRegistered(s: Instance, retry: Retry, message: string, closes: bool)
    ensures var (t, id) := (Step(s, TriggerFails(retry, message, closes)), retry.id);
      && t.errors == s.errors[id := message] && t.memory == (if closes then s.memory - {id} else s.memory)
      && t == Enqueue(s.(memory := t.memory, errors := t.errors), retry)
      && t.queue[id] == Queued(retry, 1000, s.nextTimer) && t.armed[s.nextTimer] == Armed(retry, 1000)
  {
    var u := s.(memory := if closes then s.memory - {retry.id} else s.memory, errors := s.errors[retry.id := message]);
    EnqueueExactly(u, retry);
  }

  /** A removal publishes one command in multi-main and nothing else; in single-main all that is kept of it goes. */
  lemma RemovalTakesAll(s: Instance, id: WorkflowId, closes: bool)
    ensures var t := Step(s, CallRemove(id, closes));
      if s.multiMain then t == s.(outbox := s.outbox + [RemoveTriggersAndPollers(id)])
      else
        && t == s.(memory := t.memory, queue := t.queue, armed := t.armed, errors := t.errors)
        && t.errors == s.errors - {id} && t.queue == s.queue - {id}
        && t.armed == s.armed - (if id in s.queue then {s.queue[id].timer} else {})
        && t.memory == if closes then s.memory - {id} else s.memory
  {
    assert id !in s.queue ==> s.armed - {} == s.armed && s.queue - {id} == s.queue;
  }

  /** All triggers stop but those that do not close; clearing the queue clears the timers its entries hold. */
  lemma StopsAndClears(s: Instance, kept: set<WorkflowId>)
    ensures var t := Step(s, TriggersStop(kept));
      t == s.(memory := t.memory) && forall id :: id in t.memory <==> id in s.memory && id in kept
    ensures var t := Step(s, QueueCleared);
      && t == s.(queue := map[], armed := t.armed)
      && (forall timer :: timer in t.armed <==>
          timer in s.armed && forall id :: id in s.queue ==> s.queue[id].timer != timer)
      && (forall timer :: timer in t.armed ==> t.armed[timer] == s.armed[timer])
    ensures Step(s, ErrorsCleared) == s.(errors := map[])
  {
  }

  /** The active flag of one workflow is set or taken back. */
  lemma FlagIsSet(s: Instance, id: WorkflowId, flag: bool)
    ensures var t := Step(s, SetActive(id, flag));
      t == s.(active := t.active) && forall x :: x in t.active <==> if x == id then flag else x in s.active
  {
  }
}
