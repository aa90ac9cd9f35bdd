// `ActiveExecutions` as an object: the map it updates in place, the objects the
// map holds, and the promise continuations that outlive them. Every method is
// tied to the state machine of `ExecutionRegistry`.
module ActiveExecutions {
  import opened Common
  import opened ExecutionRegistry
  import opened ShutdownSweep

  /** What `add` stores, and what the continuation of its promise captures. */
  class Execution {
    const executionId: ExecutionId
    const mode: ExecutionMode
    const startedAt: int
    var status: ExecutionStatus
    var postExecutePromise: Promise
    var responsePromise: Option<Handle>
    var workflowExecution: Option<Handle>
    var finalized: bool
    ghost const place: nat

    constructor (executionId: ExecutionId, mode: ExecutionMode, startedAt: int, responsePromise: Option<Handle>,
                 ghost place: nat)
      ensures View() == Registration(executionId, mode, startedAt, Running, Pending, responsePromise, None, false)
      ensures this.executionId == executionId && this.place == place
    {
      this.executionId, this.mode, this.startedAt := executionId, mode, startedAt;
      status, postExecutePromise := Running, Pending;
      this.responsePromise, workflowExecution := responsePromise, None;
      finalized := false;
      this.place := place;
    }

    ghost function View(): Registration
      reads this
    {
      Registration(executionId, mode, startedAt, status, postExecutePromise, responsePromise, workflowExecution,
                   finalized)
    }
  }

  class ActiveExecutions {
    const regular: bool
    var activeExecutions: map<ExecutionId, Execution>
    // every object `add` made: its promise and the continuation of it live on outside the map
    var registrations: seq<Execution>
    var adds: seq<Add>
    var concurrencyLog: seq<Capacity>
    var concurrencyEnabled: bool
    var responses: map<Handle, Promise>
    var cancelRequests: set<Handle>

    ghost predicate Valid()
      reads this, registrations
    {
      && (forall i :: 0 <= i < |registrations| ==> registrations[i].place == i)
      && (forall id :: id in activeExecutions ==> var e := activeExecutions[id];
        e.place < |registrations| && registrations[e.place] == e && e.executionId == id)
      && (forall i :: 0 <= i < |registrations| && registrations[i].finalized ==>
        !registrations[i].postExecutePromise.Pending?)
    }

    ghost function Regs(): (s: seq<Registration>)
      reads this, registrations
      ensures |s| == |registrations| && forall i :: 0 <= i < |s| ==> s[i] == registrations[i].View()
    {
      seq(|registrations|, i requires 0 <= i < |registrations| reads this, registrations => registrations[i].View())
    }

    ghost function Entries(): map<ExecutionId, nat>
      reads this
    {
      map id | id in activeExecutions :: activeExecutions[id].place
    }

    ghost function View(): (s: State)
      requires Valid()
      reads this, registrations
      ensures WellFormed(s)
    {
      State(regular, Regs(), Entries(), adds, concurrencyLog, responses, cancelRequests)
    }

    constructor (regular: bool)
      ensures Valid() && View() == Initial(regular)
    {
      this.regular := regular;
      activeExecutions, registrations, adds := map[], [], [];
      concurrencyLog, concurrencyEnabled := [], true;
      responses, cancelRequests := map[], {};
      new;
      assert Entries() == map[] && Regs() == [];
    }

    // Only `e` has changed, among the objects.
    twostate lemma OnlyChanged(e: Execution)
      requires registrations == old(registrations) && e.place < |registrations| && registrations[e.place] == e
      requires forall i :: 0 <= i < |registrations| ==> registrations[i].place == i
      requires forall r :: r in registrations && r != e ==> unchanged(r)
      ensures Regs() == old(Regs())[e.place := e.View()]
    {
      forall i | 0 <= i < |registrations| && i != e.place
        ensures registrations[i].View() == old(registrations[i].View())
      {
        assert registrations[i] in registrations && registrations[i] != e;
      }
    }

    // Only the object under `id` has changed, and it is not finalized unsettled.
    twostate lemma Touched(id: ExecutionId)
      requires old(Valid()) && unchanged(this) && id in activeExecutions
      requires forall r :: r in registrations && r != activeExecutions[id] ==> unchanged(r)
      requires activeExecutions[id].finalized ==> !activeExecutions[id].postExecutePromise.Pending?
      ensures Valid() && View() == Update(old(View()), id, activeExecutions[id].View())
    {
      OnlyChanged(activeExecutions[id]);
      forall i | 0 <= i < |registrations| && registrations[i].finalized
        ensures !registrations[i].postExecutePromise.Pending?
      {
        assert registrations[i] in registrations;
      }
    }

    method Has(id: ExecutionId) returns (found: bool)
      requires Valid()
      ensures found <==> id in View().entries
    {
      found := id in activeExecutions;
    }

    // ---------- the steps of add ----------

    method BeginAdd(id: ExecutionId, mode: ExecutionMode, existing: bool) returns (token: nat)
      requires Valid()
      modifies this
      ensures Valid() && registrations == old(registrations)
      ensures View() == Begin(old(View()), id, mode, existing) && token == |old(adds)|
    {
      token := |adds|;
      if existing || regular {
        adds := adds + [Add(id, mode, true, Throttling)];
      } else {
        adds := adds + [Add(id, mode, false, Admitted)];
        concurrencyLog := concurrencyLog + [Skipped(mode)];
      }
      assert Regs() == old(Regs()) && Entries() == old(Entries());
    }

    method SetPhase(token: nat, phase: AddPhase)
      requires Valid() && token < |adds|
      modifies this`adds
      ensures Valid() && View() == ExecutionRegistry.SetPhase(old(View()), token, phase)
    {
      adds := adds[token := adds[token].(phase := phase)];
      assert Regs() == old(Regs());
    }

    method ThrottleGranted(token: nat)
      requires Valid() && Enabled(View(), ExecutionRegistry.ThrottleGranted(token))
      modifies this`adds, this`concurrencyLog
      ensures Valid() && View() == Admit(old(View()), token)
    {
      concurrencyLog := concurrencyLog + [Granted(adds[token].mode)];
      adds := adds[token := adds[token].(phase := Admitted)];
      assert Regs() == old(Regs()) && Entries() == old(Entries());
    }

    method WriteFails(token: nat)
      requires Valid() && Enabled(View(), ExecutionRegistry.WriteFails(token))
      modifies this`adds
      ensures Valid() && View() == ExecutionRegistry.SetPhase(old(View()), token, WriteFailed)
    {
      SetPhase(token, WriteFailed);
    }

    /** Stores a new object in the map; its continuation lives on in `registrations`. */
    method Register(execution: Execution)
      requires Valid() && execution.place == |registrations|
      requires execution.finalized ==> !execution.postExecutePromise.Pending?
      modifies this`activeExecutions, this`registrations
      ensures Valid() && registrations == old(registrations) + [execution]
      ensures View() == ExecutionRegistry.Register(old(View()), execution.View())
    {
      activeExecutions := activeExecutions[execution.executionId := execution];
      registrations := registrations + [execution];
      assert Regs() == old(Regs()) + [execution.View()];
      assert Entries() == old(Entries())[execution.executionId := |old(registrations)|];
    }

    /** The object `add` is about to store: a resumed execution hands over its start time and response promise. */
    method Create(add: Add, now: int) returns (execution: Execution)
      requires Valid()
      ensures Valid() && View() == old(View()) && fresh(execution) && execution.place == |registrations|
      ensures execution.View() == NewRegistration(View(), add, now)
    {
      var resumingExecution := GetExecution(add.id);
      if resumingExecution == null {
        execution := new Execution(add.id, add.mode, now, None, |registrations|);
      } else {
        execution := new Execution(add.id, add.mode, resumingExecution.startedAt, resumingExecution.responsePromise,
                                   |registrations|);
      }
      assert Regs() == old(Regs());
    }

    method Commit(token: nat, now: int) returns (id: ExecutionId, ghost made: Execution)
      requires Valid() && Enabled(View(), ExecutionRegistry.Commit(token, now))
      modifies this`adds, this`activeExecutions, this`registrations
      ensures Valid() && View() == CommitAdd(old(View()), token, now)
      ensures registrations == old(registrations) + [made] && fresh(made) && id == old(adds[token]).id
    {
      id := adds[token].id;
      var execution := Create(adds[token], now);
      made := execution;
      Register(execution);
      SetPhase(token, Committed);
    }

    method Release(mode: ExecutionMode)
      requires Valid()
      modifies this`concurrencyLog
      ensures Valid() && View() == old(View()).(log := old(concurrencyLog) + [Released(mode)])
    {
      concurrencyLog := concurrencyLog + [Released(mode)];
      assert Regs() == old(Regs());
    }

    /** A waiting execution does not hold on to its workflow execution. */
    method MarkFinalized(execution: Execution)
      requires Valid() && execution in registrations && !execution.postExecutePromise.Pending?
      modifies execution
      ensures Valid() && execution.status == old(execution.status)
      ensures View() == old(View()).(regs := old(Regs())[execution.place := old(execution.View()).(
        finalized := true,
        workflowExecution := if old(execution.status).Waiting? then None else old(execution.workflowExecution))])
    {
      execution.finalized := true;
      if execution.status == Waiting {
        execution.workflowExecution := None;
      }
      OnlyChanged(execution);
    }

    /** The continuation of an execution's settled promise. */
    method RunFinalizer(execution: Execution)
      requires Valid() && execution in registrations
      requires !execution.postExecutePromise.Pending? && !execution.finalized
      modifies this`activeExecutions, this`concurrencyLog, execution
      ensures Valid() && View() == Finalizer(old(View()), execution.place)
    {
      assert execution.View() == Regs()[execution.place];
      Release(execution.mode);
      MarkFinalized(execution);
      if execution.status != Waiting {
        Delete(execution.executionId);
      }
    }

    // ---------- the calls ----------

    /** The object under an id, if any; the source throws where there has to be one. */
    method GetExecution(id: ExecutionId) returns (execution: Execution?)
      requires Valid()
      ensures execution != null <==> id in View().entries
      ensures execution != null ==>
        && execution in registrations
        && id in activeExecutions && activeExecutions[id] == execution
      ensures execution != null ==>
        && View().entries[id] == execution.place
        && View().regs[execution.place] == execution.View()
    {
      if id in activeExecutions {
        execution := activeExecutions[id];
        assert Regs()[execution.place] == execution.View();
      } else {
        execution := null;
      }
    }

    method AttachWorkflowExecution(id: ExecutionId, workflowExecution: Handle) returns (found: bool)
      requires Valid()
      modifies registrations
      ensures Valid() && found == (id in old(View()).entries)
      ensures View() == AttachExecution(old(View()), id, workflowExecution)
    {
      var execution := GetExecution(id);
      found := execution != null;
      if found {
        execution.workflowExecution := Some(workflowExecution);
        Touched(id);
      }
    }

    method AttachResponsePromise(id: ExecutionId, responsePromise: Handle) returns (found: bool)
      requires Valid()
      modifies registrations
      ensures Valid() && found == (id in old(View()).entries)
      ensures View() == AttachResponse(old(View()), id, responsePromise)
    {
      var execution := GetExecution(id);
      found := execution != null;
      if found {
        execution.responsePromise := Some(responsePromise);
        Touched(id);
      }
    }

    method SetStatus(id: ExecutionId, status: ExecutionStatus) returns (found: bool)
      requires Valid()
      modifies registrations
      ensures Valid() && found == (id in old(View()).entries)
      ensures View() == Mark(old(View()), id, status)
    {
      var execution := GetExecution(id);
      found := execution != null;
      if found {
        execution.status := status;
        Touched(id);
      }
    }

    method FinalizeExecution(id: ExecutionId)
      requires Valid()
      modifies registrations
      ensures Valid() && View() == Finalize(old(View()), id)
    {
      var execution := GetExecution(id);
      if execution != null {
        execution.postExecutePromise := Settle(execution.postExecutePromise, Resolved);
        Touched(id);
      }
    }

    method SettleResponsePromise(responsePromise: Option<Handle>, outcome: Promise)
      requires Valid()
      modifies this`responses
      ensures Valid() && View() == SettleResponse(old(View()), responsePromise, outcome)
    {
      if responsePromise.Some? && responsePromise.value !in responses {
        responses := responses[responsePromise.value := outcome];
      }
      assert Regs() == old(Regs());
    }

    method ResolveResponsePromise(id: ExecutionId)
      requires Valid()
      modifies this`responses
      ensures Valid() && View() == Answer(old(View()), id)
    {
      var execution := GetExecution(id);
      if execution != null {
        SettleResponsePromise(execution.responsePromise, Resolved);
      }
    }

    method ResolveExecutionResponsePromise(id: ExecutionId)
      requires Valid()
      modifies this`responses
      ensures Valid() && View() == AnswerUnlessWaiting(old(View()), id)
    {
      var execution := GetExecution(id);
      if execution != null && execution.status != Waiting {
        SettleResponsePromise(execution.responsePromise, Resolved);
      }
    }

    /** Deletes the entry of an id, if there is one. */
    method Delete(id: ExecutionId)
      requires Valid()
      modifies this`activeExecutions
      ensures Valid() && View() == ExecutionRegistry.Delete(old(View()), id)
    {
      activeExecutions := activeExecutions - {id};
      assert Regs() == old(Regs()) && Entries() == old(Entries()) - {id};
    }

    method RequestCancel(workflowExecution: Option<Handle>)
      requires Valid()
      modifies this`cancelRequests
      ensures Valid() && View() == ExecutionRegistry.RequestCancel(old(View()), workflowExecution)
    {
      if workflowExecution.Some? {
        cancelRequests := cancelRequests + {workflowExecution.value};
      }
      assert Regs() == old(Regs());
    }

    method Reject(id: ExecutionId)
      requires Valid() && id in activeExecutions
      modifies registrations
      ensures Valid() && View() == ExecutionRegistry.Reject(old(View()), id)
    {
      var execution := activeExecutions[id];
      assert execution.View() == Regs()[execution.place];
      execution.postExecutePromise := Settle(execution.postExecutePromise, Rejected);
      Touched(id);
    }

    method StopExecution(id: ExecutionId)
      requires Valid()
      modifies this`activeExecutions, this`responses, this`cancelRequests, registrations
      ensures Valid() && View() == Stop(old(View()), id)
    {
      var execution := GetExecution(id);
      if execution == null {
        return;
      }
      SettleResponsePromise(execution.responsePromise, Rejected);
      if execution.status == Waiting {
        Delete(id);
      } else {
        RequestCancel(execution.workflowExecution);
        Reject(id);
      }
    }

    // ---------- shutdown ----------

    /** A snapshot of the ids. */
    method Keys() returns (ids: seq<ExecutionId>)
      requires Valid()
      ensures Present(View(), ids) && Elements(ids) == View().entries.Keys
    {
      ids := [];
      var rest := activeExecutions.Keys;
      while rest != {}
        invariant rest <= activeExecutions.Keys
        invariant forall id :: id in ids <==> id in activeExecutions && id !in rest
        invariant Distinct(ids)
        decreases rest
      {
        var id :| id in rest;
        ids, rest := ids + [id], rest - {id};
      }
    }

    /** Whether the execution of an id is to be cancelled, and its status. */
    method Decide(executionId: ExecutionId, cancelAll: bool) returns (cancelled: bool, status: ExecutionStatus)
      requires Valid() && executionId in View().entries
      ensures cancelled == Cancels(View(), executionId, cancelAll)
      ensures status == View().regs[View().entries[executionId]].status
    {
      var execution := GetExecution(executionId);
      cancelled := execution.responsePromise.Some? || (regular && cancelAll);
      status := execution.status;
    }

    /** One iteration of the sweep over the snapshot of ids. */
    method SweepExecution(executionId: ExecutionId, cancelAll: bool) returns (cancelled: bool)
      requires Valid() && executionId in Entries()
      modifies this`activeExecutions, this`responses, this`cancelRequests, registrations
      ensures Valid() && View() == SweepEntry(old(View()), executionId, cancelAll)
      ensures cancelled == Cancels(old(View()), executionId, cancelAll)
    {
      ghost var before := View();
      var status;
      cancelled, status := Decide(executionId, cancelAll);
      SweepEntryCases(before, executionId, cancelAll);
      if cancelled {
        StopExecution(executionId);
      } else {
        DropIdle(executionId, status);
      }
    }

    /** Waiting and new executions are not to block a shutdown. */
    method DropIdle(executionId: ExecutionId, status: ExecutionStatus)
      requires Valid()
      modifies this`activeExecutions
      ensures Valid()
      ensures View() == if status.Waiting? || status.New? then ExecutionRegistry.Delete(old(View()), executionId)
                        else old(View())
    {
      if status == Waiting || status == New {
        Delete(executionId);
      }
    }

    /** The loop over the snapshot of ids, while entries are stopped or deleted. */
    method SweepSnapshot(executionIds: seq<ExecutionId>, cancelAll: bool) returns (toCancel: seq<ExecutionId>)
      requires Valid() && Present(View(), executionIds)
      modifies this`activeExecutions, this`responses, this`cancelRequests, registrations
      ensures Valid() && (View(), toCancel) == SweepAll(old(View()), executionIds, cancelAll, [])
    {
      ghost var before := View();
      toCancel := [];
      assert executionIds[0..] == executionIds;
      for i := 0 to |executionIds|
        invariant Valid() && Present(View(), executionIds[i..])
        invariant SweepAll(View(), executionIds[i..], cancelAll, toCancel) ==
          SweepAll(before, executionIds, cancelAll, [])
      {
        ghost var rest := executionIds[i..];
        assert rest[0] == executionIds[i] && rest[1..] == executionIds[i + 1..];
        PresentAfter(View(), rest, cancelAll);
        var cancelled := SweepExecution(executionIds[i], cancelAll);
        if cancelled {
          toCancel := toCancel + [executionIds[i]];
        }
      }
    }

    /** The synchronous part of `shutdown`. */
    method ShutdownSweep(cancelAll: bool) returns (toCancel: seq<ExecutionId>)
      requires Valid()
      modifies this`activeExecutions, this`responses, this`cancelRequests, this`concurrencyEnabled, registrations
      ensures Valid() && View() == Sweep(old(View()), cancelAll)
      ensures forall id :: id in toCancel <==>
        && id in old(View()).entries
        && (old(View()).regs[old(View()).entries[id]].response.Some? || (regular && cancelAll))
      ensures Distinct(toCancel)
      ensures concurrencyEnabled == (old(concurrencyEnabled) && !regular)
    {
      ghost var before := View();
      if regular {
        DisableConcurrency();
      }
      var executionIds := Keys();
      toCancel := SweepSnapshot(executionIds, cancelAll);
      SweepAllIsSweep(before, executionIds, cancelAll);
      ToCancelExactly(before, cancelAll);
    }

    method DisableConcurrency()
      requires Valid()
      modifies this`concurrencyEnabled
      ensures Valid() && View() == old(View()) && !concurrencyEnabled
    {
      concurrencyEnabled := false;
      assert Regs() == old(Regs());
    }

    method FinalizeSettled(i: nat)
      requires Valid() && i < |registrations|
      modifies this`activeExecutions, this`concurrencyLog, registrations[i]
      ensures Valid() && View() == if Enabled(old(View()), ExecutionRegistry.RunFinalizer(i))
                                   then Finalizer(old(View()), i) else old(View())
    {
      var execution := registrations[i];
      assert execution.View() == View().regs[i];
      if execution.postExecutePromise != Pending && !execution.finalized {
        RunFinalizer(execution);
      }
    }

    /** What happens while `shutdown` sleeps and nothing else calls: every settled promise runs its continuation. */
    method Sleep()
      requires Valid()
      modifies this`activeExecutions, this`concurrencyLog, registrations
      ensures Valid() && View() == RunFinalizers(old(View()), 0)
    {
      ghost var before := View();
      for i := 0 to |registrations|
        invariant Valid() && registrations == old(registrations)
        invariant RunFinalizers(View(), i) == RunFinalizers(before, 0)
      {
        FinalizeSettled(i);
      }
    }

    /**
     * The wait loop, left after `patience` sleeps for the sake of the statement: it ends with an
     * empty map, after at most one sleep, or it does not end.
     */
    method AwaitEmpty(patience: nat) returns (emptied: bool, sleeps: nat)
      requires Valid()
      modifies this`activeExecutions, this`concurrencyLog, registrations
      ensures Valid() && emptied == (View().entries == map[])
      ensures old(View()).entries == map[] ==> emptied && sleeps == 0
      ensures patience > 0 ==>
        (emptied <==> RunFinalizers(old(View()), 0).entries == map[] || old(View()).entries == map[])
      ensures emptied ==> sleeps <= 1
    {
      sleeps := 0;
      ghost var before := View();
      emptied := IsEmpty();
      while !emptied && sleeps < patience
        invariant Valid() && emptied == (View().entries == map[])
        invariant sleeps == 0 ==> View() == before
        invariant sleeps > 0 ==> before.entries != map[] && View() == RunFinalizers(before, 0)
        invariant sleeps > 1 ==> !emptied
      {
        if sleeps > 0 {
          SleepsAreOne(before);
        }
        Sleep();
        emptied := IsEmpty();
        sleeps := sleeps + 1;
      }
    }

    method IsEmpty() returns (empty: bool)
      requires Valid()
      ensures empty == (View().entries == map[])
    {
      empty := |activeExecutions| == 0;
      if id :| id in activeExecutions {
        assert id in Entries();
      }
    }
  }
}
