// Several instances of the manager in a multi-main setup: one database and one
// registry of errors for all, commands in flight between them, one leader at a time.
module MultiMain {
  import opened Common
  import opened WorkflowActivation
  import opened ActivationLaws
  import opened ActivationOrder

  /** One copy of a published command on its way to one instance. */
  datatype Message = Message(command: Command, target: nat)

  datatype Cluster = Cluster(
    instances: seq<Instance>,
    errors: map<WorkflowId, string>,
    active: set<WorkflowId>,
    inFlight: seq<Message>)

  /** The commands an instance also receives when it published them itself. */
  predicate SelfSend(command: Command) {
    command.AddWebhooksTriggersAndPollers? || command.RemoveTriggersAndPollers?
  }

  /** One copy for each of the first `n` instances. */
  function Copies(command: Command, sender: nat, n: nat): (copies: seq<Message>)
    ensures |copies| <= n
    ensures forall m :: m in copies ==> m.command == command && m.target < n
  {
    if n == 0 then []
    else
      var last := if n - 1 == sender && !SelfSend(command) then [] else [Message(command, n - 1)];
      Copies(command, sender, n - 1) + last
  }

  function Broadcast(commands: seq<Command>, sender: nat, n: nat): seq<Message> {
    if commands == [] then [] else Copies(commands[0], sender, n) + Broadcast(commands[1..], sender, n)
  }

  /** What instance `i` works on: its own state, the shared state, and nothing published yet. */
  function Local(c: Cluster, i: nat): Instance
    requires i < |c.instances|
  {
    c.instances[i].(errors := c.errors, active := c.active, outbox := [])
  }

  /** The cluster after instance `i` has come to state `t`. */
  function Install(c: Cluster, i: nat, t: Instance): Cluster
    requires i < |c.instances|
  {
    c.(instances := c.instances[i := t], errors := t.errors, active := t.active,
       inFlight := c.inFlight + Broadcast(t.outbox, i, |c.instances|))
  }

  function Without(messages: seq<Message>, k: nat): seq<Message>
    requires k < |messages|
  {
    messages[..k] + messages[k + 1..]
  }

  datatype ClusterEvent =
    | On(i: nat, event: Event)
    | Deliver(k: nat, w: Services, closes: bool)
    | Drop(k: nat)
    | Takeover(i: nat, ids: seq<WorkflowId>, ws: WorkflowId -> Services)
    | Stepdown(i: nat, kept: set<WorkflowId>)

  predicate Possible(c: Cluster, e: ClusterEvent) {
    match e
    case On(i, event) => i < |c.instances| && Enabled(Local(c, i), event)
    case Deliver(k, _, _) => k < |c.inFlight| && c.inFlight[k].target < |c.instances|
    case Drop(k) => k < |c.inFlight|
    case Takeover(i, _, _) => i < |c.instances|
    case Stepdown(i, _) => i < |c.instances|
  }

  /** What a command does on the instance it reaches: activation and removal are for the leader only. */
  function Handle(s: Instance, command: Command, w: Services, closes: bool): Instance {
    match command
    case AddWebhooksTriggersAndPollers(id) => if s.leader then HandleAdd(s, id, w) else s
    case RemoveTriggersAndPollers(id) => if s.leader then HandleRemove(s, id, closes) else s
    case _ => s
  }

  function Advance(c: Cluster, e: ClusterEvent): Cluster
    requires Possible(c, e)
  {
    match e
    case On(i, event) => Install(c, i, Step(Local(c, i), event))
    case Deliver(k, w, closes) =>
      var Message(command, i) := c.inFlight[k];
      Install(c.(inFlight := Without(c.inFlight, k)), i, Handle(Local(c, i), command, w, closes))
    case Drop(k) => c.(inFlight := Without(c.inFlight, k))
    case Takeover(i, ids, ws) =>
      Install(c, i, ActivateAll(Local(c, i).(leader := true), ids, LeadershipChange, ws))
    case Stepdown(i, kept) =>
      Install(c, i, StopAllTriggers(Local(c, i).(leader := false), kept))
  }

  predicate FeasibleRun(c: Cluster, es: seq<ClusterEvent>)
    decreases |es|
  {
    es == [] || (Possible(c, es[0]) && FeasibleRun(Advance(c, es[0]), es[1..]))
  }

  function RunCluster(c: Cluster, es: seq<ClusterEvent>): Cluster
    requires FeasibleRun(c, es)
    decreases |es|
  {
    if es == [] then c else RunCluster(Advance(c, es[0]), es[1..])
  }

  // ---------- at most one runner ----------

  predicate RunsOnlyAsLeader(s: Instance) {
    s.multiMain && (s.leader || s.memory == {})
  }

  ghost predicate OneRunner(c: Cluster) {
    && (forall i :: 0 <= i < |c.instances| ==> RunsOnlyAsLeader(c.instances[i]))
    && (forall i, j | 0 <= i < |c.instances| && 0 <= j < |c.instances| ::
      c.instances[i].leader && c.instances[j].leader ==> i == j)
  }

  /** No instance but `i` leads. */
  predicate VacantFor(c: Cluster, i: nat) {
    forall j :: 0 <= j < |c.instances| && c.instances[j].leader ==> j == i
  }

  /** An instance that steps down closes all its triggers, and leadership is taken over when it is vacant. */
  predicate Clean(c: Cluster, e: ClusterEvent)
    requires Possible(c, e)
  {
    match e
    case Stepdown(i, kept) => c.instances[i].memory !! kept
    case Takeover(i, _, _) => VacantFor(c, i)
    case _ => true
  }

  /** No activation on a follower puts triggers in memory, and none changes the role. */
  lemma AddRole(s: Instance, id: WorkflowId, mode: ActivationMode, existing: Option<bool>, publish: bool, w: Services)
    requires RunsOnlyAsLeader(s)
    ensures var t := Add(s, id, mode, existing, publish, w).0;
      RunsOnlyAsLeader(t) && t.leader == s.leader
  {
    if !publish {
      AddEnds(s, id, mode, existing, publish, w);
      if !s.leader {
        CompleteClears(s, id, ShouldAddWebhooks(s, mode) && WebhooksAdded(w, mode), w);
      }
    }
  }

  lemma ActivateRole(s: Instance, id: WorkflowId, mode: ActivationMode, w: Services)
    requires RunsOnlyAsLeader(s)
    ensures RunsOnlyAsLeader(ActivateWorkflow(s, id, mode, w)) && ActivateWorkflow(s, id, mode, w).leader == s.leader
  {
    AddRole(s, id, mode, Some(id in s.active), false, w);
  }

  lemma {:induction false} ActivateAllRole(s: Instance, ids: seq<WorkflowId>, mode: ActivationMode,
                                           ws: WorkflowId -> Services)
    requires RunsOnlyAsLeader(s)
    ensures RunsOnlyAsLeader(ActivateAll(s, ids, mode, ws)) && ActivateAll(s, ids, mode, ws).leader == s.leader
    decreases |ids|
  {
    if ids != [] {
      ActivateRole(s, ids[0], mode, ws(ids[0]));
      ActivateAllRole(ActivateWorkflow(s, ids[0], mode, ws(ids[0])), ids[1..], mode, ws);
    }
  }

  lemma StepRole(s: Instance, e: Event)
    requires RunsOnlyAsLeader(s) && Enabled(s, e)
    ensures RunsOnlyAsLeader(Step(s, e)) && Step(s, e).leader == s.leader
  {
    match e {
      case CallAdd(id, mode, w) => AddRole(s, id, mode, None, true, w);
      case CallActivate(id, mode, w) => ActivateRole(s, id, mode, w);
      case RetryEnds(timer, w) =>
        var retry := s.flying[timer];
        AddRole(s.(flying := s.flying - {timer}), retry.id, retry.mode, Some(retry.active), true, w);
      case _ =>
    }
  }

  lemma HandleRole(s: Instance, command: Command, w: Services, closes: bool)
    requires RunsOnlyAsLeader(s)
    ensures RunsOnlyAsLeader(Handle(s, command, w, closes)) && Handle(s, command, w, closes).leader == s.leader
  {
    if command.AddWebhooksTriggersAndPollers? {
      AddRole(s, command.id, Activate, None, false, w);
    }
  }

  lemma InstallKeeps(c: Cluster, i: nat, t: Instance)
    requires OneRunner(c) && i < |c.instances| && RunsOnlyAsLeader(t)
    requires t.leader ==> VacantFor(c, i)
    ensures OneRunner(Install(c, i, t))
  {
  }

  /** Each step keeps it exactly when a stepdown leaves no trigger running and a takeover finds no other leader. */
  lemma AdvanceKeepsExactly(c: Cluster, e: ClusterEvent)
    requires OneRunner(c) && Possible(c, e)
    ensures OneRunner(Advance(c, e)) <==> Clean(c, e)
  {
    match e {
      case On(i, event) =>
        StepRole(Local(c, i), event);
        InstallKeeps(c, i, Step(Local(c, i), event));
      case Deliver(k, w, closes) =>
        var Message(command, i) := c.inFlight[k];
        HandleRole(Local(c, i), command, w, closes);
        InstallKeeps(c.(inFlight := Without(c.inFlight, k)), i, Handle(Local(c, i), command, w, closes));
      case Drop(k) =>
      case Takeover(i, ids, ws) =>
        var s := Local(c, i).(leader := true);
        var t := ActivateAll(s, ids, LeadershipChange, ws);
        ActivateAllRole(s, ids, LeadershipChange, ws);
        if Clean(c, e) {
          InstallKeeps(c, i, t);
        } else {
          var j :| 0 <= j < |c.instances| && c.instances[j].leader && j != i;
          assert Advance(c, e).instances[j].leader && Advance(c, e).instances[i].leader;
        }
      case Stepdown(i, kept) =>
        var t := StopAllTriggers(Local(c, i).(leader := false), kept);
        if Clean(c, e) {
          assert t.memory == {};
          InstallKeeps(c, i, t);
        } else {
          var x :| x in c.instances[i].memory && x in kept;
          assert Advance(c, e).instances[i] == t && x in t.memory;
        }
    }
  }

  ghost predicate CleanRun(c: Cluster, es: seq<ClusterEvent>)
    requires FeasibleRun(c, es)
    decreases |es|
  {
    es == [] || (Clean(c, es[0]) && CleanRun(Advance(c, es[0]), es[1..]))
  }

  ghost predicate OneRunnerThroughout(c: Cluster, es: seq<ClusterEvent>)
    requires FeasibleRun(c, es)
    decreases |es|
  {
    OneRunner(c) && (es == [] || OneRunnerThroughout(Advance(c, es[0]), es[1..]))
  }

  /** Over a whole run there is one runner at every moment exactly when every step is clean. */
  lemma {:induction false} OneRunnerExactly(c: Cluster, es: seq<ClusterEvent>)
    requires OneRunner(c) && FeasibleRun(c, es)
    ensures OneRunnerThroughout(c, es) <==> CleanRun(c, es)
    decreases |es|
  {
    if es != [] {
      AdvanceKeepsExactly(c, es[0]);
      if Clean(c, es[0]) {
        OneRunnerExactly(Advance(c, es[0]), es[1..]);
      }
    }
  }

  /**
   * In no run of calls, deliveries, lost messages, retries, takeovers and stepdowns do the triggers of a
   * workflow run on two instances, or on one that does not lead.
   */
  lemma {:induction false} AtMostOneRunner(c: Cluster, es: seq<ClusterEvent>, id: WorkflowId)
    requires OneRunner(c) && FeasibleRun(c, es) && CleanRun(c, es)
    ensures var d := RunCluster(c, es);
      && OneRunner(d)
      && (forall i, j | 0 <= i < |d.instances| && 0 <= j < |d.instances| ::
        id in d.instances[i].memory && id in d.instances[j].memory ==> i == j)
      && (forall i :: 0 <= i < |d.instances| && id in d.instances[i].memory ==> d.instances[i].leader)
    decreases |es|
  {
    if es != [] {
      AdvanceKeepsExactly(c, es[0]);
      AtMostOneRunner(Advance(c, es[0]), es[1..], id);
    }
  }

  // ---------- command cascades end ----------

  /** A display command causes nothing; an activation or removal causes at most one display command per instance. */
  function Weight(m: Message, n: nat): nat {
    if SelfSend(m.command) then n + 1 else 1
  }

  function TotalWeight(messages: seq<Message>, n: nat): nat {
    if messages == [] then 0 else Weight(messages[0], n) + TotalWeight(messages[1..], n)
  }

  lemma {:induction false} TotalWeightAppend(a: seq<Message>, b: seq<Message>, n: nat)
    ensures TotalWeight(a + b, n) == TotalWeight(a, n) + TotalWeight(b, n)
  {
    if a == [] {
      assert a + b == b;
    } else {
      assert (a + b)[1..] == a[1..] + b;
      TotalWeightAppend(a[1..], b, n);
    }
  }

  lemma TotalWeightWithout(messages: seq<Message>, k: nat, n: nat)
    requires k < |messages|
    ensures TotalWeight(Without(messages, k), n) + Weight(messages[k], n) == TotalWeight(messages, n)
  {
    assert messages == messages[..k] + messages[k..];
    assert messages[k..][1..] == messages[k + 1..];
    TotalWeightAppend(messages[..k], messages[k..], n);
    TotalWeightAppend(messages[..k], messages[k + 1..], n);
  }

  lemma {:induction false} DisplaysAreLight(copies: seq<Message>, n: nat)
    requires forall m :: m in copies ==> !SelfSend(m.command)
    ensures TotalWeight(copies, n) == |copies|
  {
    if copies != [] {
      assert copies[0] in copies && forall m :: m in copies[1..] ==> m in copies;
      DisplaysAreLight(copies[1..], n);
    }
  }

  /** What handling a command publishes: nothing, or one display command. */
  lemma HandlePublishes(s: Instance, command: Command, w: Services, closes: bool)
    requires s.outbox == []
    ensures var t := Handle(s, command, w, closes);
      && |t.outbox| <= 1
      && (t.outbox != [] ==> SelfSend(command) && s.leader && !SelfSend(t.outbox[0]))
  {
    if command.AddWebhooksTriggersAndPollers? {
      AddEnds(s, command.id, Activate, None, false, w);
    }
  }

  lemma BroadcastOne(command: Command, sender: nat, n: nat)
    ensures Broadcast([command], sender, n) == Copies(command, sender, n)
  {
    var none: seq<Command> := [command][1..];
    assert none == [] && Broadcast(none, sender, n) == [];
  }

  /** Handling a message takes more weight out of flight than it puts in, and publishes no command that is handled. */
  lemma DeliveryLightens(c: Cluster, k: nat, w: Services, closes: bool)
    requires Possible(c, Deliver(k, w, closes))
    ensures var d := Advance(c, Deliver(k, w, closes));
      && |d.instances| == |c.instances|
      && TotalWeight(d.inFlight, |c.instances|) < TotalWeight(c.inFlight, |c.instances|)
      && (forall m :: m in d.inFlight && SelfSend(m.command) ==> m in c.inFlight)
  {
    var n := |c.instances|;
    var Message(command, i) := c.inFlight[k];
    var outbox := Handle(Local(c, i), command, w, closes).outbox;
    HandlePublishes(Local(c, i), command, w, closes);
    var copies := Broadcast(outbox, i, n);
    if outbox != [] {
      assert outbox == [outbox[0]];
      BroadcastOne(outbox[0], i, n);
      DisplaysAreLight(copies, n);
    }
    TotalWeightAppend(Without(c.inFlight, k), copies, n);
    TotalWeightWithout(c.inFlight, k, n);
  }

  ghost predicate OnlyDeliveries(es: seq<ClusterEvent>) {
    forall e :: e in es ==> e.Deliver? || e.Drop?
  }

  /**
   * With no new calls, timers or changes of role, only finitely many messages are handled: no more than
   * their weight.
   */
  lemma {:induction false} CascadesEnd(c: Cluster, es: seq<ClusterEvent>)
    requires FeasibleRun(c, es) && OnlyDeliveries(es)
    ensures |es| + TotalWeight(RunCluster(c, es).inFlight, |c.instances|) <= TotalWeight(c.inFlight, |c.instances|)
    ensures forall m :: m in RunCluster(c, es).inFlight && SelfSend(m.command) ==> m in c.inFlight
    decreases |es|
  {
    if es != [] {
      var e := es[0];
      assert e in es && forall x :: x in es[1..] ==> x in es;
      if e.Deliver? {
        DeliveryLightens(c, e.k, e.w, e.closes);
      } else {
        TotalWeightWithout(c.inFlight, e.k, |c.instances|);
      }
      CascadesEnd(Advance(c, e), es[1..]);
    }
  }

  /**
   * The leader answers an activation command with one display command: success, or failure with `active`
   * taken back.
   */
  lemma ActivationIsAnswered(c: Cluster, k: nat, w: Services, closes: bool)
    requires Possible(c, Deliver(k, w, closes)) && c.inFlight[k].command.AddWebhooksTriggersAndPollers?
    requires c.instances[c.inFlight[k].target].leader
    ensures var (id, i) := (c.inFlight[k].command.id, c.inFlight[k].target);
      var (s, d) := (Local(c, i), Advance(c, Deliver(k, w, closes)));
      match Add(s, id, Activate, None, false, w).1
      case Added(_, triggers) =>
        && d.inFlight == Without(c.inFlight, k) + Copies(DisplayActivation(id), i, |c.instances|)
        && d.active == c.active && id !in d.errors && (triggers ==> id in d.instances[i].memory)
      case Failed(message) =>
        && d.inFlight == Without(c.inFlight, k) + Copies(DisplayActivationError(id, message), i, |c.instances|)
        && d.active == c.active - {id}
  {
    var (id, i) := (c.inFlight[k].command.id, c.inFlight[k].target);
    var s := Local(c, i);
    AddEnds(s, id, Activate, None, false, w);
    StartAndCompleteEnds(s, id, Activate, w);
    var t := HandleAdd(s, id, w);
    assert t.outbox == [t.outbox[0]];
    BroadcastOne(t.outbox[0], i, |c.instances|);
  }

  /** A command goes to every instance, and to its sender only if it is one that is handled. */
  lemma {:induction false} CopiesReach(command: Command, sender: nat, n: nat, j: nat)
    ensures Message(command, j) in Copies(command, sender, n) <==> j < n && (j != sender || SelfSend(command))
    ensures SelfSend(command) ==>
      |Copies(command, sender, n)| == n && (j < n ==> Copies(command, sender, n)[j] == Message(command, j))
  {
    if n > 0 {
      CopiesReach(command, sender, n - 1, j);
      var more := if n - 1 == sender && !SelfSend(command) then [] else [Message(command, n - 1)];
      assert Copies(command, sender, n) == Copies(command, sender, n - 1) + more;
    }
  }

  /**
   * The leader answers a removal command by taking back error and triggers and one display command,
   * or by none if a trigger does not close. The queue entry of the workflow and its timer stay.
   */
  lemma RemovalIsAnswered(c: Cluster, k: nat, w: Services, closes: bool)
    requires Possible(c, Deliver(k, w, closes)) && c.inFlight[k].command.RemoveTriggersAndPollers?
    requires c.instances[c.inFlight[k].target].leader
    ensures var (id, i) := (c.inFlight[k].command.id, c.inFlight[k].target);
      var (s, d) := (c.instances[i], Advance(c, Deliver(k, w, closes)));
      var stopped := closes || id !in s.memory;
      && d.errors == c.errors - {id} && d.active == c.active
      && d.instances[i].memory == (if stopped then s.memory - {id} else s.memory)
      && d.inFlight == Without(c.inFlight, k) +
          (if stopped then Copies(DisplayDeactivation(id), i, |c.instances|) else [])
      && d.instances[i].queue == s.queue && d.instances[i].armed == s.armed
  {
    var (id, i) := (c.inFlight[k].command.id, c.inFlight[k].target);
    var t := HandleRemove(Local(c, i), id, closes);
    if closes || id !in c.instances[i].memory {
      assert t.outbox == [DisplayDeactivation(id)];
      BroadcastOne(DisplayDeactivation(id), i, |c.instances|);
    }
  }

  // ---------- from a call to its effect ----------

  /** An activation or removal command goes to every instance, its sender included; any other to all but its sender. */
  lemma CommandsReach(command: Command, sender: nat, n: nat, j: nat)
    ensures Message(command, j) in Copies(command, sender, n) <==>
      j < n && match command
               case AddWebhooksTriggersAndPollers(_) => true
               case RemoveTriggersAndPollers(_) => true
               case _ => j != sender
  {
    CopiesReach(command, sender, n, j);
  }

  /** Instance `j` is what it was, but for its copies of the shared state. */
  predicate SameInstance(c: Cluster, d: Cluster, j: nat)
    requires j < |c.instances| && |d.instances| == |c.instances|
  {
    d.instances[j].(errors := c.instances[j].errors, active := c.instances[j].active, outbox := c.instances[j].outbox)
      == c.instances[j]
  }

  /** All that happens is that `command` is sent to every instance, in order. */
  ghost predicate OnlySends(c: Cluster, d: Cluster, command: Command) {
    && |d.instances| == |c.instances| && d.errors == c.errors && d.active == c.active
    && (forall j :: 0 <= j < |c.instances| ==> SameInstance(c, d, j))
    && |d.inFlight| == |c.inFlight| + |c.instances| && d.inFlight[..|c.inFlight|] == c.inFlight
    && forall j :: 0 <= j < |c.instances| ==> d.inFlight[|c.inFlight| + j] == Message(command, j)
  }

  lemma CopiesToAll(command: Command, sender: nat, n: nat)
    requires command.AddWebhooksTriggersAndPollers? || command.RemoveTriggersAndPollers?
    ensures |Copies(command, sender, n)| == n
    ensures forall j :: 0 <= j < n ==> Copies(command, sender, n)[j] == Message(command, j)
  {
    CopiesReach(command, sender, n, 0);
    forall j | 0 <= j < n ensures Copies(command, sender, n)[j] == Message(command, j) {
      CopiesReach(command, sender, n, j);
    }
  }

  lemma SendsToAll(c: Cluster, i: nat, command: Command)
    requires i < |c.instances| && (command.AddWebhooksTriggersAndPollers? || command.RemoveTriggersAndPollers?)
    ensures OnlySends(c, Install(c, i, Local(c, i).(outbox := [command])), command)
  {
    var d := Install(c, i, Local(c, i).(outbox := [command]));
    BroadcastOne(command, i, |c.instances|);
    CopiesToAll(command, i, |c.instances|);
    assert d.inFlight == c.inFlight + Copies(command, i, |c.instances|);
  }

  /** Calling for a removal sends one removal command to every instance, the sender and the leader included. */
  lemma RemoveCallIsSent(c: Cluster, i: nat, id: WorkflowId, closes: bool)
    requires i < |c.instances| && c.instances[i].multiMain
    ensures OnlySends(c, Advance(c, On(i, CallRemove(id, closes))), RemoveTriggersAndPollers(id))
  {
    assert Step(Local(c, i), CallRemove(id, closes)) == Local(c, i).(outbox := [RemoveTriggersAndPollers(id)]);
    SendsToAll(c, i, RemoveTriggersAndPollers(id));
  }

  /** Calling for an activation sends one activation command to every instance. */
  lemma AddCallIsSent(c: Cluster, i: nat, id: WorkflowId, mode: ActivationMode, w: Services)
    requires i < |c.instances| && c.instances[i].multiMain
    ensures OnlySends(c, Advance(c, On(i, CallAdd(id, mode, w))), AddWebhooksTriggersAndPollers(id))
  {
    assert Step(Local(c, i), CallAdd(id, mode, w)) == Local(c, i).(outbox := [AddWebhooksTriggersAndPollers(id)]);
    SendsToAll(c, i, AddWebhooksTriggersAndPollers(id));
  }

  /** A removal called for on any instance takes the workflow out of the leader's memory and of the errors. */
  lemma RemoveCallReachesLeader(c: Cluster, i: nat, leader: nat, id: WorkflowId, closes: bool, w: Services)
    requires i < |c.instances| && c.instances[i].multiMain
    requires leader < |c.instances| && c.instances[leader].leader
    ensures var called := Advance(c, On(i, CallRemove(id, closes)));
      var deliver := Deliver(|c.inFlight| + leader, w, true);
      && Possible(called, deliver)
      && |Advance(called, deliver).instances| == |c.instances|
      && Advance(called, deliver).instances[leader].memory == c.instances[leader].memory - {id}
      && Advance(called, deliver).errors == c.errors - {id}
  {
    RemoveCallIsSent(c, i, id, closes);
    SentRemovalIsHandled(c, Advance(c, On(i, CallRemove(id, closes))), leader, id, w);
  }

  lemma SentRemovalIsHandled(c: Cluster, sent: Cluster, leader: nat, id: WorkflowId, w: Services)
    requires OnlySends(c, sent, RemoveTriggersAndPollers(id))
    requires leader < |c.instances| && c.instances[leader].leader
    ensures var deliver := Deliver(|c.inFlight| + leader, w, true);
      && Possible(sent, deliver)
      && |Advance(sent, deliver).instances| == |c.instances|
      && Advance(sent, deliver).instances[leader].memory == c.instances[leader].memory - {id}
      && Advance(sent, deliver).errors == c.errors - {id}
  {
    var k := |c.inFlight| + leader;
    assert SameInstance(c, sent, leader);
    assert sent.inFlight[k] == Message(RemoveTriggersAndPollers(id), leader);
    RemovalIsAnswered(sent, k, w, true);
  }

  /** A follower lets every command pass, and so does a leader but for activation and removal commands. */
  lemma OnlyLeadersHandle(s: Instance, command: Command, w: Services, closes: bool)
    requires !s.leader || !(command.AddWebhooksTriggersAndPollers? || command.RemoveTriggersAndPollers?)
    ensures Handle(s, command, w, closes) == s
  {
  }

  /** An instance that takes over leads and activates every listed workflow as if alone; no other instance changes. */
  lemma TakeoverActivates(c: Cluster, i: nat, ids: seq<WorkflowId>, ws: WorkflowId -> Services, x: WorkflowId)
    requires i < |c.instances| && Distinct(ids) && RunsOnlyAsLeader(c.instances[i])
    ensures var d := Advance(c, Takeover(i, ids, ws));
      && |d.instances| == |c.instances| && d.instances[i].leader
      && AloneTo(Local(c, i).(leader := true), d.instances[i], ids, LeadershipChange, ws, x)
      && forall j :: 0 <= j < |c.instances| && j != i ==> d.instances[j] == c.instances[j]
  {
    var s := Local(c, i).(leader := true);
    EachAsIfAlone(s, ids, LeadershipChange, ws, x);
    ActivateAllRole(s, ids, LeadershipChange, ws);
  }

  /** An instance that steps down follows, and keeps only triggers that do not close. */
  lemma StepdownStops(c: Cluster, i: nat, kept: set<WorkflowId>)
    requires i < |c.instances|
    ensures var d := Advance(c, Stepdown(i, kept));
      && |d.instances| == |c.instances| && !d.instances[i].leader && d.inFlight == c.inFlight
      && d.errors == c.errors && d.active == c.active
      && (forall id :: id in d.instances[i].memory <==> id in c.instances[i].memory && id in kept)
      && forall j :: 0 <= j < |c.instances| && j != i ==> d.instances[j] == c.instances[j]
  {
  }
}
