// Shutting the registry down: the sweep over a snapshot of the ids, stated at
// once for all entries, and when the wait for an empty map ends.
module ShutdownSweep {
  import opened Common
  import opened ExecutionRegistry
  import opened ExecutionRegistryLaws

  // ---------- one entry ----------

  /** A response promise cannot be kept over a restart, so its execution is cancelled; in regular mode all may be. */
  predicate Cancels(s: State, id: ExecutionId, cancelAll: bool)
    requires Keyed(s) && id in s.entries
  {
    s.regs[s.entries[id]].response.Some? || (s.regular && cancelAll)
  }

  /** One iteration of the sweep. */
  function SweepEntry(s: State, id: ExecutionId, cancelAll: bool): (t: State)
    requires Keyed(s) && id in s.entries
    ensures Keyed(t) && s.entries.Keys - {id} <= t.entries.Keys
  {
    var status := s.regs[s.entries[id]].status;
    if Cancels(s, id, cancelAll) then Stop(s, id)
    else if status.Waiting? || status.New? then s.(entries := s.entries - {id})
    else s
  }

  lemma SweepEntryCases(s: State, id: ExecutionId, cancelAll: bool)
    requires Keyed(s) && id in s.entries
    ensures var status := s.regs[s.entries[id]].status;
      SweepEntry(s, id, cancelAll)
        == if Cancels(s, id, cancelAll) then Stop(s, id)
           else if status.Waiting? || status.New? then Delete(s, id) else s
  {
  }

  /** A snapshot of ids that all are still in the map. */
  predicate Present(s: State, ids: seq<ExecutionId>) {
    Keyed(s) && Distinct(ids) && forall id :: id in ids ==> id in s.entries
  }

  lemma PresentAfter(s: State, ids: seq<ExecutionId>, cancelAll: bool)
    requires Present(s, ids) && ids != []
    ensures Present(SweepEntry(s, ids[0], cancelAll), ids[1..])
  {
    forall id | id in ids[1..] ensures id in SweepEntry(s, ids[0], cancelAll).entries {
      assert id in ids && id != ids[0];
      assert id in s.entries.Keys - {ids[0]};
    }
  }

  /** The loop over a snapshot: the state it ends in, and the ids it has collected behind `toCancel`. */
  function SweepAll(s: State, ids: seq<ExecutionId>, cancelAll: bool, toCancel: seq<ExecutionId>)
    : (State, seq<ExecutionId>)
    requires Present(s, ids)
    decreases |ids|
  {
    if ids == [] then (s, toCancel) else
      PresentAfter(s, ids, cancelAll);
      SweepAll(SweepEntry(s, ids[0], cancelAll), ids[1..], cancelAll,
               if Cancels(s, ids[0], cancelAll) then toCancel + [ids[0]] else toCancel)
  }

  // ---------- all entries at once ----------

  predicate Leaves(s: State, id: ExecutionId, cancelAll: bool)
    requires Keyed(s) && id in s.entries
  {
    var status := s.regs[s.entries[id]].status;
    status.Waiting? || (status.New? && !Cancels(s, id, cancelAll))
  }

  predicate Rejects(s: State, id: ExecutionId, cancelAll: bool)
    requires Keyed(s) && id in s.entries
  {
    Cancels(s, id, cancelAll) && !s.regs[s.entries[id]].status.Waiting?
  }

  function SweptRegistration(s: State, ids: set<ExecutionId>, cancelAll: bool, r: nat): Registration
    requires Keyed(s) && r < |s.regs|
  {
    var execution := s.regs[r];
    if execution.id in ids && Current(s, r) && Rejects(s, execution.id, cancelAll) then
      execution.(postExecute := Settle(execution.postExecute, Rejected))
    else execution
  }

  /** The response promises of the cancelled entries. */
  function Answered(s: State, ids: set<ExecutionId>): set<Handle>
    requires Keyed(s) && ids <= s.entries.Keys
  {
    set id | id in ids && s.regs[s.entries[id]].response.Some? :: s.regs[s.entries[id]].response.value
  }

  function CancelRequests(s: State, ids: set<ExecutionId>, cancelAll: bool): set<Handle>
    requires Keyed(s) && ids <= s.entries.Keys
  {
    set id | id in ids && Rejects(s, id, cancelAll) && s.regs[s.entries[id]].workflowExecution.Some? ::
      s.regs[s.entries[id]].workflowExecution.value
  }

  function RejectAll(responses: map<Handle, Promise>, handles: set<Handle>): map<Handle, Promise> {
    responses + map h | h in handles && h !in responses :: Rejected
  }

  /** The state after the entries `ids` have been swept, in whatever order. */
  function Swept(s: State, ids: set<ExecutionId>, cancelAll: bool): State
    requires Keyed(s) && ids <= s.entries.Keys
  {
    s.(entries := map id | id in s.entries && !(id in ids && Leaves(s, id, cancelAll)) :: s.entries[id],
       regs := seq(|s.regs|, r requires 0 <= r < |s.regs| => SweptRegistration(s, ids, cancelAll, r)),
       responses := RejectAll(s.responses, Answered(s, ids)),
       cancelRequests := s.cancelRequests + CancelRequests(s, ids, cancelAll))
  }

  function ToCancel(s: State, cancelAll: bool): set<ExecutionId>
    requires Keyed(s)
  {
    set id | id in s.entries && Cancels(s, id, cancelAll)
  }

  lemma SweptNothing(s: State, cancelAll: bool)
    requires Keyed(s)
    ensures Swept(s, {}, cancelAll) == s
  {
    var t := Swept(s, {}, cancelAll);
    assert t.entries == s.entries && t.regs == s.regs && t.responses == s.responses;
    assert t.cancelRequests == s.cancelRequests;
  }

  /** An id that is still to be swept has kept its entry, untouched. */
  lemma SweptKeepsOthers(s: State, ids: set<ExecutionId>, cancelAll: bool, id: ExecutionId)
    requires Keyed(s) && ids <= s.entries.Keys && id in s.entries && id !in ids
    ensures var t := Swept(s, ids, cancelAll);
      && Keyed(t) && id in t.entries && t.entries[id] == s.entries[id]
      && t.regs[t.entries[id]] == s.regs[s.entries[id]]
  {
  }

  lemma SweptRegs(s: State, ids: set<ExecutionId>, cancelAll: bool, id: ExecutionId)
    requires Keyed(s) && ids <= s.entries.Keys && id in s.entries && id !in ids
    ensures Swept(s, ids + {id}, cancelAll).regs
      == if Rejects(s, id, cancelAll) then
           Swept(s, ids, cancelAll).regs[s.entries[id] :=
             s.regs[s.entries[id]].(postExecute := Settle(s.regs[s.entries[id]].postExecute, Rejected))]
         else Swept(s, ids, cancelAll).regs
  {
  }

  lemma SweptEntries(s: State, ids: set<ExecutionId>, cancelAll: bool, id: ExecutionId)
    requires Keyed(s) && ids <= s.entries.Keys && id in s.entries && id !in ids
    ensures Swept(s, ids + {id}, cancelAll).entries
      == if Leaves(s, id, cancelAll) then Swept(s, ids, cancelAll).entries - {id}
         else Swept(s, ids, cancelAll).entries
  {
  }

  lemma RejectOneMore(responses: map<Handle, Promise>, handles: set<Handle>, h: Handle)
    ensures RejectAll(responses, handles + {h})
      == var before := RejectAll(responses, handles); if h in before then before else before[h := Rejected]
  {
  }

  lemma SweptResponses(s: State, ids: set<ExecutionId>, cancelAll: bool, id: ExecutionId)
    requires Keyed(s) && ids <= s.entries.Keys && id in s.entries && id !in ids
    ensures Swept(s, ids + {id}, cancelAll).responses
      == SettleResponse(Swept(s, ids, cancelAll), s.regs[s.entries[id]].response, Rejected).responses
  {
    var response := s.regs[s.entries[id]].response;
    if response.Some? {
      assert Answered(s, ids + {id}) == Answered(s, ids) + {response.value};
      RejectOneMore(s.responses, Answered(s, ids), response.value);
    } else {
      assert Answered(s, ids + {id}) == Answered(s, ids);
    }
  }

  lemma SweptCancelRequests(s: State, ids: set<ExecutionId>, cancelAll: bool, id: ExecutionId)
    requires Keyed(s) && ids <= s.entries.Keys && id in s.entries && id !in ids
    ensures var execution := s.regs[s.entries[id]].workflowExecution;
      Swept(s, ids + {id}, cancelAll).cancelRequests == Swept(s, ids, cancelAll).cancelRequests
        + if Rejects(s, id, cancelAll) && execution.Some? then {execution.value} else {}
  {
    var execution := s.regs[s.entries[id]].workflowExecution;
    assert CancelRequests(s, ids + {id}, cancelAll) == CancelRequests(s, ids, cancelAll)
      + if Rejects(s, id, cancelAll) && execution.Some? then {execution.value} else {};
  }

  /** What one iteration does to a state in which the entry of `id` is `execution`. */
  lemma SweepEntryParts(t: State, id: ExecutionId, cancelAll: bool)
    requires Keyed(t) && id in t.entries
    ensures var execution, v := t.regs[t.entries[id]], SweepEntry(t, id, cancelAll);
      v == t.(
        entries := if Leaves(t, id, cancelAll) then t.entries - {id} else t.entries,
        regs := if Rejects(t, id, cancelAll)
          then t.regs[t.entries[id] := execution.(postExecute := Settle(execution.postExecute, Rejected))] else t.regs,
        responses := SettleResponse(t, execution.response, Rejected).responses,
        cancelRequests := t.cancelRequests
          + if Rejects(t, id, cancelAll) && execution.workflowExecution.Some?
             then {execution.workflowExecution.value} else {})
  {
  }

  /** Sweeping one more entry is one more iteration. */
  lemma SweepOne(s: State, ids: set<ExecutionId>, cancelAll: bool, id: ExecutionId)
    requires Keyed(s) && ids <= s.entries.Keys && id in s.entries && id !in ids
    ensures Keyed(Swept(s, ids, cancelAll)) && id in Swept(s, ids, cancelAll).entries
    ensures SweepEntry(Swept(s, ids, cancelAll), id, cancelAll) == Swept(s, ids + {id}, cancelAll)
  {
    SweptKeepsOthers(s, ids, cancelAll, id);
    SweepEntryParts(Swept(s, ids, cancelAll), id, cancelAll);
    SweptEntries(s, ids, cancelAll, id);
    SweptRegs(s, ids, cancelAll, id);
    SweptResponses(s, ids, cancelAll, id);
    SweptCancelRequests(s, ids, cancelAll, id);
  }

  function Elements(ids: seq<ExecutionId>): set<ExecutionId> {
    set id | id in ids
  }

  lemma PresentRest(s: State, done: set<ExecutionId>, ids: seq<ExecutionId>, cancelAll: bool)
    requires Present(s, ids) && done <= s.entries.Keys && done !! Elements(ids)
    ensures Present(Swept(s, done, cancelAll), ids)
  {
    var t := Swept(s, done, cancelAll);
    forall id | id in ids ensures id in t.entries {
      assert id in Elements(ids);
    }
  }

  lemma SplitFirst(ids: seq<ExecutionId>, done: set<ExecutionId>)
    requires ids != [] && Distinct(ids) && done !! Elements(ids)
    ensures done + Elements(ids) == done + {ids[0]} + Elements(ids[1..])
    ensures ids[0] !in done && done + {ids[0]} !! Elements(ids[1..])
    ensures forall x :: x in ids <==> x == ids[0] || x in ids[1..]
  {
    assert forall x :: x in ids <==> x == ids[0] || x in ids[1..];
    assert ids[0] in Elements(ids);
  }

  /** The loop from any point on, given what it has swept and collected already. */
  lemma {:induction false} SweepRest(s: State, done: set<ExecutionId>, ids: seq<ExecutionId>, cancelAll: bool,
                                     toCancel: seq<ExecutionId>)
    requires Present(s, ids) && done <= s.entries.Keys && done !! Elements(ids)
    ensures Present(Swept(s, done, cancelAll), ids)
    ensures SweepAll(Swept(s, done, cancelAll), ids, cancelAll, toCancel).0 == Swept(s, done + Elements(ids), cancelAll)
    decreases |ids|
  {
    PresentRest(s, done, ids, cancelAll);
    if ids == [] {
      assert done + Elements(ids) == done;
    } else {
      SplitFirst(ids, done);
      SweepOne(s, done, cancelAll, ids[0]);
      SweepRest(s, done + {ids[0]}, ids[1..], cancelAll,
                if Cancels(Swept(s, done, cancelAll), ids[0], cancelAll) then toCancel + [ids[0]] else toCancel);
    }
  }

  lemma {:induction false} CollectRest(s: State, done: set<ExecutionId>, ids: seq<ExecutionId>, cancelAll: bool,
                                       toCancel: seq<ExecutionId>)
    requires Present(s, ids) && done <= s.entries.Keys && done !! Elements(ids)
    requires Present(Swept(s, done, cancelAll), ids) && Distinct(toCancel) && Elements(toCancel) <= done
    ensures var collected := SweepAll(Swept(s, done, cancelAll), ids, cancelAll, toCancel).1;
      (forall id :: id in collected <==> id in toCancel || (id in ids && Cancels(s, id, cancelAll)))
      && Distinct(collected)
    decreases |ids|
  {
    if ids != [] {
      var id := ids[0];
      var more := if Cancels(s, id, cancelAll) then toCancel + [id] else toCancel;
      SplitFirst(ids, done);
      SweptKeepsOthers(s, done, cancelAll, id);
      SweepOne(s, done, cancelAll, id);
      PresentRest(s, done + {id}, ids[1..], cancelAll);
      assert id !in toCancel by { assert id in toCancel ==> id in Elements(toCancel); }
      CollectRest(s, done + {id}, ids[1..], cancelAll, more);
    }
  }

  /** Walking the snapshot of all ids, in any order, is the sweep of all entries at once. */
  lemma SweepAllIsSweep(s: State, ids: seq<ExecutionId>, cancelAll: bool)
    requires Present(s, ids) && Elements(ids) == s.entries.Keys
    ensures var (t, toCancel) := SweepAll(s, ids, cancelAll, []);
      && t == Sweep(s, cancelAll)
      && (forall id :: id in toCancel <==> id in ToCancel(s, cancelAll))
      && Distinct(toCancel)
  {
    SweptNothing(s, cancelAll);
    SweepRest(s, {}, ids, cancelAll, []);
    CollectRest(s, {}, ids, cancelAll, []);
    assert {} + Elements(ids) == s.entries.Keys;
  }

  // ---------- what the whole sweep leaves ----------

  function Sweep(s: State, cancelAll: bool): State
    requires Keyed(s)
  {
    Swept(s, s.entries.Keys, cancelAll)
  }

  lemma SweepWellFormed(s: State, cancelAll: bool)
    requires WellFormed(s)
    ensures WellFormed(Sweep(s, cancelAll))
  {
  }

  /**
   * No waiting entry survives, a surviving new one is settled, every surviving entry that was
   * cancelled is settled and every other one is what it was.
   */
  lemma SweepSurvivors(s: State, cancelAll: bool)
    requires WellFormed(s)
    ensures WellFormed(Sweep(s, cancelAll))
    ensures var t := Sweep(s, cancelAll);
      && (forall id :: id in t.entries <==> id in s.entries && !Leaves(s, id, cancelAll))
      && (forall id :: id in t.entries ==> t.entries[id] == s.entries[id] && !t.regs[t.entries[id]].status.Waiting?)
      && (forall id :: id in t.entries && t.regs[t.entries[id]].status.New? ==>
           !t.regs[t.entries[id]].postExecute.Pending?)
      && (forall id :: id in t.entries ==> if id in ToCancel(s, cancelAll)
           then !t.regs[t.entries[id]].postExecute.Pending? else t.regs[t.entries[id]] == s.regs[s.entries[id]])
  {
    SweepWellFormed(s, cancelAll);
    var t := Sweep(s, cancelAll);
    forall id | id in t.entries
      ensures id in s.entries && t.entries[id] == s.entries[id]
      ensures t.regs[t.entries[id]] == SweptRegistration(s, s.entries.Keys, cancelAll, s.entries[id])
    {
    }
  }

  // What the sweep does, from the fields of the entries alone.

  /** The cancelled ids: those with a response promise, and all of them in regular mode when all are to be cancelled. */
  lemma ToCancelExactly(s: State, cancelAll: bool)
    requires Keyed(s)
    ensures forall id :: id in ToCancel(s, cancelAll) <==>
      id in s.entries && (s.regs[s.entries[id]].response.Some? || (s.regular && cancelAll))
  {
  }

  /** An entry is removed exactly when it waits, or is new and neither awaited by a response nor cancelled with all. */
  lemma SweepEntriesExactly(s: State, cancelAll: bool, id: ExecutionId)
    requires WellFormed(s)
    ensures var t := Sweep(s, cancelAll);
      && (id in t.entries <==>
          && id in s.entries
          && match s.regs[s.entries[id]].status
             case Waiting => false
             case New => s.regs[s.entries[id]].response.Some? || (s.regular && cancelAll)
             case _ => true)
      && (id in t.entries ==> t.entries[id] == s.entries[id])
      && t.regular == s.regular && t.adds == s.adds && t.log == s.log && |t.regs| == |s.regs|
  {
  }

  /**
   * Exactly the promises of cancelled entries that do not wait are rejected; every other registration
   * stays as it is.
   */
  lemma SweepRegistrationsExactly(s: State, cancelAll: bool, r: nat)
    requires WellFormed(s) && r < |s.regs|
    ensures var (before, after) := (s.regs[r], Sweep(s, cancelAll).regs[r]);
      if Current(s, r) && (before.response.Some? || (s.regular && cancelAll)) && !before.status.Waiting?
      then after == before.(postExecute := if before.postExecute.Pending? then Rejected else before.postExecute)
      else after == before
  {
  }

  /** Exactly the open response promises of the entries are rejected. */
  lemma SweepResponsesExactly(s: State, cancelAll: bool, h: Handle)
    requires WellFormed(s)
    ensures var t := Sweep(s, cancelAll);
      && (h in t.responses <==>
          h in s.responses || exists id :: id in s.entries && s.regs[s.entries[id]].response == Some(h))
      && (h in t.responses ==> t.responses[h] == if h in s.responses then s.responses[h] else Rejected)
  {
    if id :| id in s.entries && s.regs[s.entries[id]].response == Some(h) {
      assert s.regs[s.entries[id]].response.value in Answered(s, s.entries.Keys);
    }
  }

  /** Exactly the running workflows of cancelled entries that do not wait are asked to stop. */
  lemma SweepCancelsExactly(s: State, cancelAll: bool, h: Handle)
    requires WellFormed(s)
    ensures h in Sweep(s, cancelAll).cancelRequests <==>
      || h in s.cancelRequests
      || exists id :: id in s.entries && var e := s.regs[s.entries[id]];
           e.workflowExecution == Some(h) && !e.status.Waiting? && (e.response.Some? || (s.regular && cancelAll))
  {
    var added := CancelRequests(s, s.entries.Keys, cancelAll);
    if id :| id in s.entries && var e := s.regs[s.entries[id]];
      e.workflowExecution == Some(h) && !e.status.Waiting? && (e.response.Some? || (s.regular && cancelAll))
    {
      assert id in s.entries.Keys && Rejects(s, id, cancelAll);
      assert s.regs[s.entries[id]].workflowExecution.value in added;
    }
  }

  /** A plain shutdown leaves running executions alone that nobody awaits over a response promise. */
  lemma PlainShutdownWaits(s: State, cancelAll: bool, id: ExecutionId)
    requires WellFormed(s) && id in s.entries && !(s.regular && cancelAll)
    requires var e := s.regs[s.entries[id]]; e.response.None? && !e.status.Waiting? && !e.status.New?
    ensures var (k, t) := (s.entries[id], Sweep(s, cancelAll));
      && id !in ToCancel(s, cancelAll) && id in t.entries && t.entries[id] == k && t.regs[k] == s.regs[k]
      && forall h :: h in t.cancelRequests && h !in s.cancelRequests ==>
        exists other ::
          && other in s.entries && s.regs[s.entries[other]].workflowExecution == Some(h)
          && s.regs[s.entries[other]].response.Some?
  {
    SweepEntriesExactly(s, cancelAll, id);
    SweepRegistrationsExactly(s, cancelAll, s.entries[id]);
    ToCancelExactly(s, cancelAll);
    forall h | h in Sweep(s, cancelAll).cancelRequests && h !in s.cancelRequests
      ensures exists other ::
        && other in s.entries && s.regs[s.entries[other]].workflowExecution == Some(h)
        && s.regs[s.entries[other]].response.Some?
    {
      SweepCancelsExactly(s, cancelAll, h);
    }
  }

  /** No response promise of any entry is left unsettled. */
  lemma SweepAnswersAll(s: State, cancelAll: bool, id: ExecutionId)
    requires Keyed(s) && id in s.entries && s.regs[s.entries[id]].response.Some?
    ensures s.regs[s.entries[id]].response.value in Sweep(s, cancelAll).responses
    ensures id in ToCancel(s, cancelAll)
  {
    assert s.regs[s.entries[id]].response.value in Answered(s, s.entries.Keys);
  }

  // ---------- waiting for the map to empty ----------

  ghost predicate FinalizersOnly(es: seq<Event>) {
    forall e :: e in es ==> e.RunFinalizer?
  }

  /** While a shutdown waits, anything may happen but the commit of an `add` and a change of status. */
  ghost predicate OnlyEnds(es: seq<Event>) {
    forall e :: e in es ==> !e.Commit? && !e.SetStatus?
  }

  /** No finalizer is waiting to run. */
  ghost predicate Quiet(s: State) {
    forall r :: 0 <= r < |s.regs| && !s.regs[r].postExecute.Pending? ==> s.regs[r].finalized
  }

  /** Every execution that the map still holds has ended. */
  ghost predicate AllEnded(s: State)
    requires Keyed(s)
  {
    forall id :: id in s.entries ==> !s.regs[s.entries[id]].postExecute.Pending?
  }

  /** The finalizer of every entry is still to run, or the entry is about to be removed by the sweep. */
  ghost predicate Drainable(s: State, cancelAll: bool)
    requires Keyed(s)
  {
    forall id :: id in s.entries ==> Leaves(s, id, cancelAll) || !s.regs[s.entries[id]].finalized
  }

  /** After a sweep: no waiting entry, and a finalizer that is still to delete an entry deletes its own. */
  ghost predicate Draining(s: State) {
    && WellFormed(s)
    && (forall id :: id in s.entries ==> !s.regs[s.entries[id]].status.Waiting?)
    && (forall r :: 0 <= r < |s.regs| && Deletes(s.regs[r]) && s.regs[r].id in s.entries ==> Current(s, r))
  }

  predicate Deletes(r: Registration) {
    !r.postExecute.Pending? && !r.finalized && !r.status.Waiting?
  }

  /** An entry whose finalizer has run already: nothing will ever delete it. */
  ghost predicate HasStuckEntry(s: State)
    requires Keyed(s)
  {
    exists id :: id in s.entries && s.regs[s.entries[id]].finalized
  }

  lemma SweepStartsDraining(s: State, cancelAll: bool)
    requires WellFormed(s) && Tracked(s)
    ensures Draining(Sweep(s, cancelAll))
    ensures s.regular && cancelAll ==> AllEnded(Sweep(s, cancelAll))
  {
    var t := Sweep(s, cancelAll);
    SweepSurvivors(s, cancelAll);
    forall r | 0 <= r < |t.regs| && Deletes(t.regs[r]) && t.regs[r].id in t.entries ensures Current(t, r) {
      assert s.regs[r].status == t.regs[r].status && s.regs[r].id == t.regs[r].id;
      assert NeedsEntry(s.regs[r]) && Current(s, r);
    }
  }

  lemma SweepKeepsStuck(s: State, cancelAll: bool)
    requires WellFormed(s) && Keyed(Sweep(s, cancelAll))
    ensures HasStuckEntry(Sweep(s, cancelAll)) <==> !Drainable(s, cancelAll)
  {
    var t := Sweep(s, cancelAll);
    SweepSurvivors(s, cancelAll);
    assert forall r :: 0 <= r < |s.regs| ==> t.regs[r].finalized == s.regs[r].finalized;
    if !Drainable(s, cancelAll) {
      var id :| id in s.entries && !Leaves(s, id, cancelAll) && s.regs[s.entries[id]].finalized;
      assert id in t.entries && t.entries[id] == s.entries[id];
    }
    if HasStuckEntry(t) {
      var id :| id in t.entries && t.regs[t.entries[id]].finalized;
      assert s.entries[id] == t.entries[id];
    }
  }

  /** Each finalizer of an entry takes that entry, and no other, out of the map. */
  lemma DrainShrinks(s: State, r: nat)
    requires Draining(s) && Enabled(s, RunFinalizer(r)) && !s.regs[r].status.Waiting?
    ensures Finalizer(s, r).entries == if Current(s, r) then s.entries - {s.regs[r].id} else s.entries
    ensures Current(s, r) ==> |Finalizer(s, r).entries| < |s.entries|
  {
    var t := Finalizer(s, r);
    if Current(s, r) {
      assert t.entries.Keys == s.entries.Keys - {s.regs[r].id} && s.regs[r].id in s.entries.Keys;
      assert |t.entries.Keys| < |s.entries.Keys|;
    } else {
      assert Deletes(s.regs[r]);
    }
  }

  /** A step that ends nothing itself leaves map, status and finalizer flags alone. */
  lemma WaitFrame(s: State, e: Event)
    requires Draining(s) && Enabled(s, e) && !e.Commit? && !e.SetStatus? && !e.RunFinalizer?
    ensures var t := Step(s, e);
      && t.entries == s.entries && |t.regs| == |s.regs|
      && forall r :: 0 <= r < |s.regs| ==>
        && t.regs[r].id == s.regs[r].id && t.regs[r].status == s.regs[r].status
        && t.regs[r].finalized == s.regs[r].finalized
        && (t.regs[r].postExecute.Pending? ==> s.regs[r].postExecute.Pending?)
        && (!t.regs[r].postExecute.Pending? && s.regs[r].postExecute.Pending? ==> Current(s, r))
  {
    if IsCall(e) {
      CallFrame(s, e);
      if e.StopExecution? && e.id in s.entries {
        StopFrame(s, e.id);
      }
    }
  }

  lemma FinalizerDrains(s: State, r: nat)
    requires Draining(s) && Enabled(s, RunFinalizer(r))
    ensures Draining(Finalizer(s, r))
    ensures AllEnded(s) ==> AllEnded(Finalizer(s, r))
  {
    var t := Finalizer(s, r);
    FinalizerWellFormed(s, r);
    forall q | 0 <= q < |t.regs| && Deletes(t.regs[q]) && t.regs[q].id in t.entries ensures Current(t, q) {
      assert q != r && Deletes(s.regs[q]) && Current(s, q);
    }
  }

  lemma DrainStep(s: State, e: Event)
    requires Draining(s) && Enabled(s, e) && !e.Commit? && !e.SetStatus?
    ensures Draining(Step(s, e))
    ensures AllEnded(s) ==> AllEnded(Step(s, e))
  {
    StepWellFormed(s, e);
    var t := Step(s, e);
    if e.RunFinalizer? {
      FinalizerDrains(s, e.reg);
    } else {
      WaitFrame(s, e);
      forall q | 0 <= q < |t.regs| && Deletes(t.regs[q]) && t.regs[q].id in t.entries ensures Current(t, q) {
        assert Deletes(s.regs[q]) ==> Current(s, q);
      }
    }
  }

  lemma FinalizerKeepsStuck(s: State, r: nat)
    requires Draining(s) && Enabled(s, RunFinalizer(r)) && Keyed(Finalizer(s, r))
    ensures HasStuckEntry(Finalizer(s, r)) <==> HasStuckEntry(s)
  {
    var t := Finalizer(s, r);
    assert forall q :: 0 <= q < |s.regs| && q != r ==> t.regs[q] == s.regs[q];
    if HasStuckEntry(s) {
      var id :| id in s.entries && s.regs[s.entries[id]].finalized;
      assert s.entries[id] != r;
      assert id in t.entries && t.regs[t.entries[id]].finalized;
    }
    if HasStuckEntry(t) {
      var id :| id in t.entries && t.regs[t.entries[id]].finalized;
      assert t.entries[id] != r && s.regs[s.entries[id]].finalized;
    }
  }

  /** No step takes out a stuck entry, and none leaves a new one behind. */
  lemma DrainKeepsStuck(s: State, e: Event)
    requires Draining(s) && Enabled(s, e) && !e.Commit? && !e.SetStatus? && Keyed(Step(s, e))
    ensures HasStuckEntry(Step(s, e)) <==> HasStuckEntry(s)
  {
    if e.RunFinalizer? {
      FinalizerKeepsStuck(s, e.reg);
    } else {
      WaitFrame(s, e);
    }
  }

  lemma {:induction false} DrainRun(s: State, es: seq<Event>)
    requires Draining(s) && Feasible(s, es) && OnlyEnds(es) && Quiet(Run(s, es))
    ensures Run(s, es).entries == map[] <==> !HasStuckEntry(s) && AllEnded(Run(s, es))
    ensures AllEnded(s) ==> AllEnded(Run(s, es))
    decreases |es|
  {
    if es == [] {
      if s.entries != map[] && AllEnded(s) {
        var id :| id in s.entries;
        assert s.regs[s.entries[id]].finalized;
      }
    } else {
      assert es[0] in es && forall e :: e in es[1..] ==> e in es;
      DrainStep(s, es[0]);
      DrainKeepsStuck(s, es[0]);
      DrainRun(Step(s, es[0]), es[1..]);
    }
  }

  /**
   * The wait of a shutdown, of either kind and in either mode, whatever is called meanwhile: once no
   * finalizer is pending, the map is empty exactly when all executions in it have ended and, before
   * the sweep, no entry that the sweep leaves had its finalizer behind it. A sweep that cancels all in
   * regular mode ends all executions itself.
   */
  lemma ShutdownDrainsExactly(s: State, cancelAll: bool, es: seq<Event>)
    requires WellFormed(s) && Tracked(s)
    requires WellFormed(Sweep(s, cancelAll)) && Feasible(Sweep(s, cancelAll), es)
    requires OnlyEnds(es) && Quiet(Run(Sweep(s, cancelAll), es))
    ensures var t := Run(Sweep(s, cancelAll), es);
      && (t.entries == map[] <==> Drainable(s, cancelAll) && AllEnded(t))
      && (s.regular && cancelAll ==> AllEnded(t))
  {
    SweepStartsDraining(s, cancelAll);
    SweepKeepsStuck(s, cancelAll);
    DrainRun(Sweep(s, cancelAll), es);
  }

  /** A waiting entry that is finalized and then marked as running does not drain. */
  lemma ReviveAfterFinalizer(s: State, id: ExecutionId)
    requires WellFormed(s) && id in s.entries
    requires s.regs[s.entries[id]].status.Waiting? && s.regs[s.entries[id]].finalized
    ensures WellFormed(Step(s, SetStatus(id, Running))) && !Drainable(Step(s, SetStatus(id, Running)), true)
    ensures Tracked(s) ==> Tracked(Step(s, SetStatus(id, Running)))
  {
    StepWellFormed(s, SetStatus(id, Running));
    if Tracked(s) {
      TrackedExactlyWhenDisciplined(s, SetStatus(id, Running));
    }
    var t := Step(s, SetStatus(id, Running));
    assert id in t.entries && t.regs[t.entries[id]].finalized;
  }

  lemma DisciplinedFirst(s: State, e: Event, t: State, es: seq<Event>)
    requires WellFormed(s) && Enabled(s, e) && Disciplined(s, e) && Step(s, e) == t
    requires WellFormed(t) && Feasible(t, es) && DisciplinedRun(t, es)
    ensures Feasible(s, [e] + es) && DisciplinedRun(s, [e] + es) && Run(s, [e] + es) == Run(t, es)
  {
    FirstStep(s, e, es);
    assert ([e] + es)[0] == e && ([e] + es)[1..] == es;
  }

  /** The state in which one new execution has been added and has come this far. */
  function OneWith(id: ExecutionId, mode: ExecutionMode, now: int, status: ExecutionStatus, promise: Promise,
                   finalized: bool): State
  {
    Initial(true).(
      adds := [Add(id, mode, true, Committed)],
      log := [Granted(mode)] + if finalized then [Released(mode)] else [],
      entries := map[id := 0],
      regs := [Registration(id, mode, now, status, promise, None, None, finalized)])
  }

  function OneAdded(id: ExecutionId, mode: ExecutionMode, now: int): State {
    OneWith(id, mode, now, Running, Pending, false)
  }

  lemma AddedFirst(id: ExecutionId, mode: ExecutionMode, now: int, es: seq<Event>) returns (all: seq<Event>)
    requires WellFormed(OneAdded(id, mode, now))
    requires Feasible(OneAdded(id, mode, now), es) && DisciplinedRun(OneAdded(id, mode, now), es)
    ensures all == [BeginAdd(id, mode, false), ThrottleGranted(0), Commit(0, now)] + es
    ensures Feasible(Initial(true), all) && DisciplinedRun(Initial(true), all)
    ensures Run(Initial(true), all) == Run(OneAdded(id, mode, now), es)
  {
    var s1 := Initial(true).(adds := [Add(id, mode, true, Throttling)]);
    var s2 := Initial(true).(adds := [Add(id, mode, true, Admitted)], log := [Granted(mode)]);
    assert Step(Initial(true), BeginAdd(id, mode, false)) == s1;
    assert Step(s1, ThrottleGranted(0)) == s2;
    assert Step(s2, Commit(0, now)) == OneAdded(id, mode, now);
    DisciplinedFirst(s2, Commit(0, now), OneAdded(id, mode, now), es);
    DisciplinedFirst(s1, ThrottleGranted(0), s2, [Commit(0, now)] + es);
    all := [BeginAdd(id, mode, false)] + ([ThrottleGranted(0)] + ([Commit(0, now)] + es));
    DisciplinedFirst(Initial(true), BeginAdd(id, mode, false), s1, [ThrottleGranted(0)] + ([Commit(0, now)] + es));
  }

  lemma EndedRevives(id: ExecutionId, mode: ExecutionMode, now: int) returns (es: seq<Event>)
    ensures es == [RunFinalizer(0), SetStatus(id, Running)]
    ensures var s := OneWith(id, mode, now, Waiting, Resolved, false);
      && WellFormed(s) && Feasible(s, es) && DisciplinedRun(s, es)
      && Run(s, es) == OneWith(id, mode, now, Running, Resolved, true)
  {
    var s2, s3 := OneWith(id, mode, now, Waiting, Resolved, false), OneWith(id, mode, now, Waiting, Resolved, true);
    DisciplinedFirst(s3, SetStatus(id, Running), OneWith(id, mode, now, Running, Resolved, true), []);
    es := [RunFinalizer(0)] + ([SetStatus(id, Running)] + []);
    DisciplinedFirst(s2, RunFinalizer(0), s3, [SetStatus(id, Running)] + []);
  }

  lemma MarkWaiting(id: ExecutionId, mode: ExecutionMode, now: int)
    ensures var s := OneAdded(id, mode, now);
      && WellFormed(s) && Disciplined(s, SetStatus(id, Waiting))
      && Step(s, SetStatus(id, Waiting)) == OneWith(id, mode, now, Waiting, Pending, false)
  {
  }

  lemma FinalizeWaiting(id: ExecutionId, mode: ExecutionMode, now: int)
    ensures var s := OneWith(id, mode, now, Waiting, Pending, false);
      && WellFormed(s) && Disciplined(s, FinalizeExecution(id))
      && Step(s, FinalizeExecution(id)) == OneWith(id, mode, now, Waiting, Resolved, false)
  {
  }

  /** The execution waits, ends, runs its finalizer and is marked as running again. */
  lemma WaitingRevives(id: ExecutionId, mode: ExecutionMode, now: int) returns (es: seq<Event>)
    ensures es == [SetStatus(id, Waiting), FinalizeExecution(id), RunFinalizer(0), SetStatus(id, Running)]
    ensures var s := OneAdded(id, mode, now);
      && WellFormed(s) && Feasible(s, es) && DisciplinedRun(s, es)
      && Run(s, es) == OneWith(id, mode, now, Running, Resolved, true)
  {
    var s, s1 := OneAdded(id, mode, now), OneWith(id, mode, now, Waiting, Pending, false);
    var rest := EndedRevives(id, mode, now);
    FinalizeWaiting(id, mode, now);
    DisciplinedFirst(s1, FinalizeExecution(id), OneWith(id, mode, now, Waiting, Resolved, false), rest);
    MarkWaiting(id, mode, now);
    es := [SetStatus(id, Waiting)] + ([FinalizeExecution(id)] + rest);
    DisciplinedFirst(s, SetStatus(id, Waiting), s1, [FinalizeExecution(id)] + rest);
  }

  /** From the start a disciplined run leads to a state that no shutdown drains. */
  lemma DisciplinedRunsMayNotDrain(id: ExecutionId, mode: ExecutionMode, now: int) returns (es: seq<Event>)
    ensures es == [BeginAdd(id, mode, false), ThrottleGranted(0), Commit(0, now), SetStatus(id, Waiting),
                   FinalizeExecution(id), RunFinalizer(0), SetStatus(id, Running)]
    ensures Feasible(Initial(true), es) && DisciplinedRun(Initial(true), es)
    ensures Tracked(Run(Initial(true), es)) && !Drainable(Run(Initial(true), es), true)
  {
    var rest := WaitingRevives(id, mode, now);
    es := AddedFirst(id, mode, now, rest);
    assert id in Run(Initial(true), es).entries;
  }

  // ---------- one sleep runs all finalizers ----------

  /** The finalizers of the registrations from `r` on, run in order of registration. */
  function RunFinalizers(s: State, r: nat): State
    requires Keyed(s) && r <= |s.regs|
    decreases |s.regs| - r
  {
    if r == |s.regs| then s
    else if Enabled(s, RunFinalizer(r)) then RunFinalizers(Finalizer(s, r), r + 1)
    else RunFinalizers(s, r + 1)
  }

  lemma {:induction false} RunFinalizersIsARun(s: State, r: nat) returns (es: seq<Event>)
    requires WellFormed(s) && r <= |s.regs|
    requires forall q :: 0 <= q < r && !s.regs[q].postExecute.Pending? ==> s.regs[q].finalized
    ensures Feasible(s, es) && FinalizersOnly(es) && Run(s, es) == RunFinalizers(s, r) && Quiet(Run(s, es))
    decreases |s.regs| - r
  {
    if r == |s.regs| {
      es := [];
    } else if Enabled(s, RunFinalizer(r)) {
      FinalizerWellFormed(s, r);
      var rest := RunFinalizersIsARun(Finalizer(s, r), r + 1);
      FirstStep(s, RunFinalizer(r), rest);
      es := [RunFinalizer(r)] + rest;
    } else {
      es := RunFinalizersIsARun(s, r + 1);
    }
  }

  lemma {:induction false} QuietSleeps(s: State, r: nat)
    requires Keyed(s) && Quiet(s) && r <= |s.regs|
    ensures RunFinalizers(s, r) == s
    decreases |s.regs| - r
  {
    if r < |s.regs| {
      QuietSleeps(s, r + 1);
    }
  }

  /** A second sleep finds nothing left to run. */
  lemma SleepsAreOne(s: State)
    requires WellFormed(s)
    ensures Keyed(RunFinalizers(s, 0)) && RunFinalizers(RunFinalizers(s, 0), 0) == RunFinalizers(s, 0)
  {
    var es := RunFinalizersIsARun(s, 0);
    QuietSleeps(RunFinalizers(s, 0), 0);
  }

  /**
   * A shutdown that sweeps and then lets all finalizers run leaves the map empty exactly when it was
   * drainable and no execution goes on.
   */
  lemma ShutdownThenSleep(s: State, cancelAll: bool)
    requires WellFormed(s) && Tracked(s)
    ensures WellFormed(Sweep(s, cancelAll)) && WellFormed(RunFinalizers(Sweep(s, cancelAll), 0))
    ensures var t := RunFinalizers(Sweep(s, cancelAll), 0);
      && (t.entries == map[] <==> Drainable(s, cancelAll) && AllEnded(t))
      && (s.regular && cancelAll ==> AllEnded(t))
  {
    SweepSurvivors(s, cancelAll);
    var es := RunFinalizersIsARun(Sweep(s, cancelAll), 0);
    ShutdownDrainsExactly(s, cancelAll, es);
  }
}
