// When the removal of a workflow lasts in a multi-main setup: exactly when no
// retry of it is left on any instance and no activation of it is on its way.
module LastingRemoval {
  import opened Common
  import opened WorkflowActivation
  import opened ActivationLaws
  import opened ActivationOrder
  import opened MultiMain

  // ---------- when a removal lasts ----------

  /** An event that activates the workflow itself, or reports a failure of its triggers. */
  predicate Names(e: ClusterEvent, id: WorkflowId) {
    match e
    case On(_, event) => BringsBack(event, id)
    case Takeover(_, ids, _) => id in ids
    case _ => false
  }

  ghost predicate NeverNamed(es: seq<ClusterEvent>, id: WorkflowId) {
    forall e :: e in es ==> !Names(e, id)
  }

  ghost predicate OutOfMemory(c: Cluster, id: WorkflowId) {
    forall i :: 0 <= i < |c.instances| ==> id !in c.instances[i].memory
  }

  /** No instance has a retry of the workflow armed or in flight. */
  ghost predicate NoRetry(c: Cluster, id: WorkflowId) {
    forall i :: 0 <= i < |c.instances| ==>
      && (forall t :: t in c.instances[i].armed ==> c.instances[i].armed[t].retry.id != id)
      && (forall t :: t in c.instances[i].flying ==> c.instances[i].flying[t].id != id)
  }

  /** No activation of the workflow is on its way to an instance. */
  ghost predicate NoActivation(c: Cluster, id: WorkflowId) {
    forall m :: m in c.inFlight && m.target < |c.instances| ==> m.command != AddWebhooksTriggersAndPollers(id)
  }

  ghost predicate Dormant(c: Cluster, id: WorkflowId) {
    && (forall i :: 0 <= i < |c.instances| ==> Asleep(c.instances[i], id))
    && NoActivation(c, id)
  }

  lemma {:induction false} BroadcastCarries(commands: seq<Command>, sender: nat, n: nat)
    ensures forall m :: m in Broadcast(commands, sender, n) ==> m.command in commands
  {
    if commands != [] {
      BroadcastCarries(commands[1..], sender, n);
    }
  }

  lemma InstallLetsSleep(c: Cluster, i: nat, t: Instance, id: WorkflowId)
    requires Dormant(c, id) && i < |c.instances| && Asleep(t, id) && AddWebhooksTriggersAndPollers(id) !in t.outbox
    ensures Dormant(Install(c, i, t), id)
  {
    BroadcastCarries(t.outbox, i, |c.instances|);
  }

  lemma {:induction false} ActivateAllLetsSleep(s: Instance, ids: seq<WorkflowId>, mode: ActivationMode,
                                                ws: WorkflowId -> Services, id: WorkflowId)
    requires Asleep(s, id) && id !in ids
    ensures Asleep(ActivateAll(s, ids, mode, ws), id) && PublishesNone(s, ActivateAll(s, ids, mode, ws), id)
    decreases |ids|
  {
    if ids != [] {
      ActivateLetsSleep(s, ids[0], mode, ws(ids[0]), id);
      ActivateAllLetsSleep(ActivateWorkflow(s, ids[0], mode, ws(ids[0])), ids[1..], mode, ws, id);
    }
  }

  lemma HandleLetsSleep(s: Instance, command: Command, w: Services, closes: bool, id: WorkflowId)
    requires Asleep(s, id) && command != AddWebhooksTriggersAndPollers(id)
    ensures Asleep(Handle(s, command, w, closes), id) && PublishesNone(s, Handle(s, command, w, closes), id)
  {
    if command.AddWebhooksTriggersAndPollers? {
      AddLetsSleep(s, command.id, Activate, None, false, w, id);
    }
  }

  /** No event that does not name the workflow wakes it, on any instance. */
  lemma AdvanceLetsSleep(c: Cluster, e: ClusterEvent, id: WorkflowId)
    requires Dormant(c, id) && Possible(c, e) && !Names(e, id)
    ensures Dormant(Advance(c, e), id)
  {
    match e {
      case On(i, event) =>
        StepLetsSleep(Local(c, i), event, id);
        InstallLetsSleep(c, i, Step(Local(c, i), event), id);
      case Deliver(k, w, closes) =>
        var Message(command, i) := c.inFlight[k];
        assert c.inFlight[k] in c.inFlight;
        HandleLetsSleep(Local(c, i), command, w, closes, id);
        InstallLetsSleep(c.(inFlight := Without(c.inFlight, k)), i, Handle(Local(c, i), command, w, closes), id);
      case Drop(k) =>
      case Takeover(i, ids, ws) =>
        var s := Local(c, i).(leader := true);
        ActivateAllLetsSleep(s, ids, LeadershipChange, ws, id);
        InstallLetsSleep(c, i, ActivateAll(s, ids, LeadershipChange, ws), id);
      case Stepdown(i, kept) =>
        InstallLetsSleep(c, i, StopAllTriggers(Local(c, i).(leader := false), kept), id);
    }
  }

  /** Over whole runs: a dormant workflow stays dormant until an event names it. */
  lemma {:induction false} DormantStays(c: Cluster, es: seq<ClusterEvent>, id: WorkflowId)
    requires Dormant(c, id) && FeasibleRun(c, es) && NeverNamed(es, id)
    ensures Dormant(RunCluster(c, es), id) && OutOfMemory(RunCluster(c, es), id)
    decreases |es|
  {
    if es != [] {
      assert es[0] in es && forall e :: e in es[1..] ==> e in es;
      AdvanceLetsSleep(c, es[0], id);
      DormantStays(Advance(c, es[0]), es[1..], id);
    }
  }

  /** A clean run that does not name the workflow and ends with its triggers in some memory. */
  ghost predicate BringsToMemory(c: Cluster, es: seq<ClusterEvent>, id: WorkflowId) {
    FeasibleRun(c, es) && CleanRun(c, es) && NeverNamed(es, id) && !OutOfMemory(RunCluster(c, es), id)
  }

  lemma BringsAfter(c: Cluster, e: ClusterEvent, es: seq<ClusterEvent>, id: WorkflowId)
    requires Possible(c, e) && Clean(c, e) && !Names(e, id) && BringsToMemory(Advance(c, e), es, id)
    ensures BringsToMemory(c, [e] + es, id)
  {
    FirstEvent(c, e, es);
    assert ([e] + es)[0] == e && ([e] + es)[1..] == es;
  }

  lemma DeliveryBrings(c: Cluster, k: nat, id: WorkflowId) returns (es: seq<ClusterEvent>)
    requires k < |c.inFlight| && c.inFlight[k].command == AddWebhooksTriggersAndPollers(id)
    requires c.inFlight[k].target < |c.instances| && c.instances[c.inFlight[k].target].leader
    ensures BringsToMemory(c, es, id)
  {
    var e := Deliver(k, AllWell, true);
    ActivationSucceeds(c, k, AllWell);
    assert BringsToMemory(Advance(c, e), [], id);
    BringsAfter(c, e, [], id);
    es := [e] + [];
  }

  lemma TakeoverBrings(c: Cluster, k: nat, id: WorkflowId) returns (es: seq<ClusterEvent>)
    requires k < |c.inFlight| && c.inFlight[k].command == AddWebhooksTriggersAndPollers(id)
    requires c.inFlight[k].target < |c.instances| && VacantFor(c, c.inFlight[k].target)
    ensures BringsToMemory(c, es, id)
  {
    var e := Takeover(c.inFlight[k].target, [], _ => AllWell);
    assert Advance(c, e).inFlight == c.inFlight;
    var rest := DeliveryBrings(Advance(c, e), k, id);
    BringsAfter(c, e, rest, id);
    es := [e] + rest;
  }

  /** A message on its way to a follower waits for that instance to lead. */
  lemma MessageBrings(c: Cluster, k: nat, id: WorkflowId) returns (es: seq<ClusterEvent>)
    requires OneRunner(c) && k < |c.inFlight| && c.inFlight[k].command == AddWebhooksTriggersAndPollers(id)
    requires c.inFlight[k].target < |c.instances|
    ensures BringsToMemory(c, es, id)
  {
    var j := c.inFlight[k].target;
    if i :| 0 <= i < |c.instances| && c.instances[i].leader && i != j {
      var e := Stepdown(i, {});
      assert Advance(c, e).inFlight == c.inFlight;
      var rest := TakeoverBrings(Advance(c, e), k, id);
      BringsAfter(c, e, rest, id);
      es := [e] + rest;
    } else {
      es := TakeoverBrings(c, k, id);
    }
  }

  lemma FlyingBrings(c: Cluster, i: nat, timer: Timer) returns (es: seq<ClusterEvent>)
    requires OneRunner(c) && i < |c.instances| && timer in c.instances[i].flying
    ensures BringsToMemory(c, es, c.instances[i].flying[timer].id)
  {
    var id := c.instances[i].flying[timer].id;
    var e := On(i, RetryEnds(timer, AllWell));
    RetryPublishes(c, i, timer, AllWell);
    CopiesReach(AddWebhooksTriggersAndPollers(id), i, |c.instances|, i);
    AdvanceKeepsExactly(c, e);
    var rest := MessageBrings(Advance(c, e), |c.inFlight| + i, id);
    BringsAfter(c, e, rest, id);
    es := [e] + rest;
  }

  lemma ArmedBrings(c: Cluster, i: nat, timer: Timer) returns (es: seq<ClusterEvent>)
    requires OneRunner(c) && i < |c.instances| && timer in c.instances[i].armed
    ensures BringsToMemory(c, es, c.instances[i].armed[timer].retry.id)
  {
    var e := On(i, TimerFires(timer));
    AdvanceKeepsExactly(c, e);
    var rest := FlyingBrings(Advance(c, e), i, timer);
    BringsAfter(c, e, rest, c.instances[i].armed[timer].retry.id);
    es := [e] + rest;
  }

  lemma NotDormantBrings(c: Cluster, id: WorkflowId) returns (es: seq<ClusterEvent>)
    requires OneRunner(c) && !(OutOfMemory(c, id) && NoRetry(c, id) && NoActivation(c, id))
    ensures BringsToMemory(c, es, id)
  {
    if !OutOfMemory(c, id) {
      es := [];
    } else if !NoActivation(c, id) {
      var k :| 0 <= k < |c.inFlight| && c.inFlight[k].target < |c.instances|
        && c.inFlight[k].command == AddWebhooksTriggersAndPollers(id);
      es := MessageBrings(c, k, id);
    } else {
      var i :| 0 <= i < |c.instances|
        && ((exists t :: t in c.instances[i].armed && c.instances[i].armed[t].retry.id == id)
         || (exists t :: t in c.instances[i].flying && c.instances[i].flying[t].id == id));
      if t :| t in c.instances[i].armed && c.instances[i].armed[t].retry.id == id {
        es := ArmedBrings(c, i, t);
      } else {
        var t :| t in c.instances[i].flying && c.instances[i].flying[t].id == id;
        es := FlyingBrings(c, i, t);
      }
    }
  }

  /**
   * In multi-main the triggers of a workflow stay out of all memories, in every run that does not name
   * it, exactly when they are out now, no instance, leader or follower, has a retry of it armed or in
   * flight, and no activation of it is on its way.
   */
  lemma StaysOutExactly(c: Cluster, id: WorkflowId)
    requires OneRunner(c)
    ensures (forall es :: FeasibleRun(c, es) && CleanRun(c, es) && NeverNamed(es, id) ==>
               OutOfMemory(RunCluster(c, es), id))
      <==> OutOfMemory(c, id) && NoRetry(c, id) && NoActivation(c, id)
  {
    if OutOfMemory(c, id) && NoRetry(c, id) && NoActivation(c, id) {
      assert Dormant(c, id);
      forall es | FeasibleRun(c, es) && CleanRun(c, es) && NeverNamed(es, id)
        ensures OutOfMemory(RunCluster(c, es), id) {
        DormantStays(c, es, id);
      }
    } else {
      var es := NotDormantBrings(c, id);
    }
  }

  /**
   * A removal that the leader has handled lasts exactly when its triggers close, or none ran, and when
   * before it no retry was armed or in flight anywhere and no activation on its way.
   */
  lemma RemovalLastsExactly(c: Cluster, k: nat, w: Services, closes: bool)
    requires OneRunner(c) && Possible(c, Deliver(k, w, closes)) && c.inFlight[k].command.RemoveTriggersAndPollers?
    requires c.instances[c.inFlight[k].target].leader
    ensures var (id, i, d) := (c.inFlight[k].command.id, c.inFlight[k].target, Advance(c, Deliver(k, w, closes)));
      (forall es :: FeasibleRun(d, es) && CleanRun(d, es) && NeverNamed(es, id) ==> OutOfMemory(RunCluster(d, es), id))
      <==> (closes || id !in c.instances[i].memory) && NoRetry(c, id) && NoActivation(c, id)
  {
    var (id, i, d) := (c.inFlight[k].command.id, c.inFlight[k].target, Advance(c, Deliver(k, w, closes)));
    AdvanceKeepsExactly(c, Deliver(k, w, closes));
    StaysOutExactly(d, id);
    RemovalIsAnswered(c, k, w, closes);
    assert OutOfMemory(d, id) <==> closes || id !in c.instances[i].memory by {
      assert forall j :: 0 <= j < |c.instances| && j != i ==> c.instances[j].memory == {};
    }
    assert NoRetry(d, id) <==> NoRetry(c, id) by { RemovalSparesRetries(c, k, w, closes); }
    assert NoActivation(d, id) <==> NoActivation(c, id) by { RemovalSparesActivations(c, k, w, closes); }
  }

  lemma RemovalSparesRetries(c: Cluster, k: nat, w: Services, closes: bool)
    requires Possible(c, Deliver(k, w, closes)) && c.inFlight[k].command.RemoveTriggersAndPollers?
    ensures var d := Advance(c, Deliver(k, w, closes));
      && |d.instances| == |c.instances|
      && forall j :: 0 <= j < |c.instances| ==>
        d.instances[j].armed == c.instances[j].armed && d.instances[j].flying == c.instances[j].flying
  {
  }

  lemma RemovalSparesActivations(c: Cluster, k: nat, w: Services, closes: bool)
    requires Possible(c, Deliver(k, w, closes)) && c.inFlight[k].command.RemoveTriggersAndPollers?
    ensures forall m: Message :: m.command.AddWebhooksTriggersAndPollers? ==>
      (m in Advance(c, Deliver(k, w, closes)).inFlight <==> m in c.inFlight)
  {
    var Message(command, i) := c.inFlight[k];
    var outbox := Handle(Local(c, i), command, w, closes).outbox;
    BroadcastCarries(outbox, i, |c.instances|);
    assert forall x :: x in outbox ==> x.DisplayDeactivation?;
    assert c.inFlight == c.inFlight[..k] + [c.inFlight[k]] + c.inFlight[k + 1..];
  }

  // ---------- a retry undoes it ----------

  /** Everything an activation asks of the services goes well. */
  predicate GoesWell(w: Services) {
    && w.lookup.Found? && w.setupError.None? && WebhookError(w, Activate).None? && w.triggerError.None?
    && w.countError.None? && w.saveError.None?
  }

  lemma ActivationSucceeds(c: Cluster, k: nat, w: Services)
    requires Possible(c, Deliver(k, w, true)) && c.inFlight[k].command.AddWebhooksTriggersAndPollers?
    requires c.instances[c.inFlight[k].target].leader && GoesWell(w) && w.hasTriggers
    ensures var d := Advance(c, Deliver(k, w, true));
      && |d.instances| == |c.instances| && d.active == c.active
      && c.inFlight[k].command.id in d.instances[c.inFlight[k].target].memory
  {
    ActivationIsAnswered(c, k, w, true);
  }

  /** In multi-main a retry that ends publishes one command to all. */
  lemma RetryPublishes(c: Cluster, i: nat, timer: Timer, w: Services)
    requires i < |c.instances| && c.instances[i].multiMain && timer in c.instances[i].flying
    ensures Possible(c, On(i, RetryEnds(timer, w)))
    ensures var (id, d) := (c.instances[i].flying[timer].id, Advance(c, On(i, RetryEnds(timer, w))));
      && d.inFlight == c.inFlight + Copies(AddWebhooksTriggersAndPollers(id), i, |c.instances|)
      && |d.instances| == |c.instances| && d.active == c.active
      && forall l :: 0 <= l < |c.instances| ==> d.instances[l].leader == c.instances[l].leader
  {
    var command := AddWebhooksTriggersAndPollers(c.instances[i].flying[timer].id);
    assert Step(Local(c, i), RetryEnds(timer, w)).outbox == [command];
    BroadcastOne(command, i, |c.instances|);
  }

  lemma RetryBegins(c: Cluster, i: nat, timer: Timer)
    requires i < |c.instances| && timer in c.instances[i].armed
    ensures Possible(c, On(i, TimerFires(timer)))
    ensures var d := Advance(c, On(i, TimerFires(timer)));
      && d.inFlight == c.inFlight && |d.instances| == |c.instances| && d.active == c.active
      && timer in d.instances[i].flying && d.instances[i].flying[timer] == c.instances[i].armed[timer].retry
      && d.instances[i].multiMain == c.instances[i].multiMain
      && forall l :: 0 <= l < |c.instances| ==> d.instances[l].leader == c.instances[l].leader
  {
  }

  /** The activation that a retry publishes reaches the leader, which starts the triggers. */
  lemma RetryReachesLeader(c: Cluster, i: nat, timer: Timer, leader: nat, w: Services)
    requires i < |c.instances| && c.instances[i].multiMain && timer in c.instances[i].flying
    requires leader < |c.instances| && c.instances[leader].leader && GoesWell(w) && w.hasTriggers
    ensures Possible(c, On(i, RetryEnds(timer, w)))
    ensures var (id, d, deliver) := (c.instances[i].flying[timer].id, Advance(c, On(i, RetryEnds(timer, w))),
                                     Deliver(|c.inFlight| + leader, w, true));
      && Possible(d, deliver)
      && |Advance(d, deliver).instances| == |c.instances| && Advance(d, deliver).active == c.active
      && id in Advance(d, deliver).instances[leader].memory
  {
    RetryPublishes(c, i, timer, w);
    var d := Advance(c, On(i, RetryEnds(timer, w)));
    var command := AddWebhooksTriggersAndPollers(c.instances[i].flying[timer].id);
    CopiesReach(command, i, |c.instances|, leader);
    assert d.inFlight[|c.inFlight| + leader] == Message(command, leader);
    ActivationSucceeds(d, |c.inFlight| + leader, w);
  }

  lemma ThreeSteps(c: Cluster, e1: ClusterEvent, e2: ClusterEvent, e3: ClusterEvent)
    requires Possible(c, e1) && Possible(Advance(c, e1), e2) && Possible(Advance(Advance(c, e1), e2), e3)
    ensures FeasibleRun(c, [e1, e2, e3])
    ensures RunCluster(c, [e1, e2, e3]) == Advance(Advance(Advance(c, e1), e2), e3)
  {
    var (c1, c2) := (Advance(c, e1), Advance(Advance(c, e1), e2));
    FirstEvent(c2, e3, []);
    FirstEvent(c1, e2, [e3] + []);
    FirstEvent(c, e1, [e2] + ([e3] + []));
    assert [e1, e2, e3] == [e1] + ([e2] + ([e3] + []));
  }

  lemma FirstEvent(c: Cluster, e: ClusterEvent, es: seq<ClusterEvent>)
    requires Possible(c, e) && FeasibleRun(Advance(c, e), es)
    ensures FeasibleRun(c, [e] + es) && RunCluster(c, [e] + es) == RunCluster(Advance(c, e), es)
  {
    assert ([e] + es)[0] == e && ([e] + es)[1..] == es;
  }

  /** A retry on any instance has the leader start the triggers, with no change of role. */
  lemma RetryComesBack(c: Cluster, i: nat, timer: Timer, leader: nat, w: Services) returns (es: seq<ClusterEvent>)
    requires i < |c.instances| && c.instances[i].multiMain && timer in c.instances[i].armed
    requires leader < |c.instances| && c.instances[leader].leader && GoesWell(w) && w.hasTriggers
    ensures es == [On(i, TimerFires(timer)), On(i, RetryEnds(timer, w)), Deliver(|c.inFlight| + leader, w, true)]
    ensures FeasibleRun(c, es)
    ensures var d := RunCluster(c, es);
      && |d.instances| == |c.instances| && d.active == c.active
      && c.instances[i].armed[timer].retry.id in d.instances[leader].memory
  {
    es := [On(i, TimerFires(timer)), On(i, RetryEnds(timer, w)), Deliver(|c.inFlight| + leader, w, true)];
    RetryBegins(c, i, timer);
    RetryReachesLeader(Advance(c, es[0]), i, timer, leader, w);
    ThreeSteps(c, es[0], es[1], es[2]);
  }

  /**
   * In multi-main a removal does not hold against a retry that is still armed, on whichever instance:
   * it publishes an activation, and the leader starts the triggers again, whatever the `active` flag says.
   */
  lemma RetryUndoesRemoval(c: Cluster, k: nat, i: nat, timer: Timer, w: Services) returns (es: seq<ClusterEvent>)
    requires Possible(c, Deliver(k, w, true)) && c.inFlight[k].command.RemoveTriggersAndPollers?
    requires c.instances[c.inFlight[k].target].leader
    requires i < |c.instances| && c.instances[i].multiMain && timer in c.instances[i].armed
    requires c.instances[i].armed[timer].retry.id == c.inFlight[k].command.id
    requires GoesWell(w) && w.hasTriggers
    ensures var (id, l, removed) := (c.inFlight[k].command.id, c.inFlight[k].target, Advance(c, Deliver(k, w, true)));
      && id !in removed.instances[l].memory && FeasibleRun(removed, es)
      && |RunCluster(removed, es).instances| == |c.instances|
      && id in RunCluster(removed, es).instances[l].memory && RunCluster(removed, es).active == c.active
  {
    var removed := Advance(c, Deliver(k, w, true));
    RemovalIsAnswered(c, k, w, true);
    RemovalSparesRetries(c, k, w, true);
    assert removed.instances[c.inFlight[k].target].leader && removed.instances[i].multiMain;
    es := RetryComesBack(removed, i, timer, c.inFlight[k].target, w);
  }
}
