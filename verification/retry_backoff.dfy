// How long the manager waits between the retries of one workflow.
module RetryBackoff {
  import opened Common
  import opened WorkflowActivation
  import opened ActivationLaws

  function Power2(n: nat): nat {
    if n == 0 then 1 else 2 * Power2(n - 1)
  }

  /** The delay before a retry, after `n` failed retries in a row. */
  function Delay(n: nat): nat {
    if n == 0 then INITIAL_TIMEOUT else NextTimeout(Delay(n - 1))
  }

  /** The time waited in the first `k` delays. */
  function TotalDelay(k: nat): nat {
    if k == 0 then 0 else TotalDelay(k - 1) + Delay(k - 1)
  }

  lemma {:induction false} Power2Grows(m: nat, n: nat)
    requires m <= n
    ensures Power2(m) <= Power2(n)
  {
    if m < n {
      Power2Grows(m, n - 1);
    }
  }

  lemma PowersAtTheCap()
    ensures Power2(16) == 65536 && Power2(17) == 131072
  {
    assert Power2(4) == 16;
    assert Power2(8) == 256;
    assert Power2(12) == 4096;
    assert Power2(16) == 65536;
  }

  /** The delay doubles from one second up to one day. */
  lemma {:induction false} DelayClosedForm(n: nat)
    ensures Delay(n) == Min(1000 * Power2(n), MAX_TIMEOUT)
  {
    if n > 0 {
      DelayClosedForm(n - 1);
    }
  }

  lemma DelayIsMonotone(m: nat, n: nat)
    requires m <= n
    ensures Delay(m) <= Delay(n) <= MAX_TIMEOUT
  {
    DelayClosedForm(m);
    DelayClosedForm(n);
    Power2Grows(m, n);
  }

  /** The cap is reached with the seventeenth failure in a row and not before. */
  lemma DelayReachesCap(n: nat)
    ensures Delay(n) == MAX_TIMEOUT <==> n >= 17
  {
    DelayClosedForm(n);
    PowersAtTheCap();
    if n >= 17 {
      Power2Grows(17, n);
    } else {
      Power2Grows(n, 16);
    }
  }

  lemma {:induction false} TotalDelayBelowCap(k: nat)
    requires k <= 17
    ensures TotalDelay(k) == 1000 * (Power2(k) - 1)
  {
    if k > 0 {
      TotalDelayBelowCap(k - 1);
      DelayClosedForm(k - 1);
      Power2Grows(k - 1, 16);
      PowersAtTheCap();
      assert Delay(k - 1) == 1000 * Power2(k - 1);
      assert Power2(k) == 2 * Power2(k - 1);
    }
  }

  /** Beyond the cap every retry costs one more day. */
  lemma {:induction false} TotalDelayClosedForm(k: nat)
    ensures TotalDelay(k) == if k <= 17 then 1000 * (Power2(k) - 1) else 131071000 + (k - 17) * 86400000
  {
    if k <= 17 {
      TotalDelayBelowCap(k);
    } else {
      TotalDelayClosedForm(k - 1);
      DelayReachesCap(k - 1);
      PowersAtTheCap();
    }
  }

  // ---------- the delays of a run ----------

  /** A step that queues `id` anew, with the initial delay. */
  predicate QueuesAnew(s: Instance, e: Event, id: WorkflowId)
    requires Enabled(s, e)
  {
    match e
    case TriggerFails(retry, _, _) => retry.id == id
    case CallActivate(x, mode, w) => x == id && w.lookup.Found?
      && var result := Add(s, id, mode, Some(id in s.active), false, w).1;
         result.Failed? && !Includes(result.message, "Authorization")
    case _ => false
  }

  /** A step in which a retry of `id` fails and finds its entry. */
  predicate FailsAgain(s: Instance, e: Event, id: WorkflowId)
    requires Enabled(s, e)
  {
    e.RetryEnds? && s.flying[e.timer].id == id && id in Step(s, e).queue
    && var retry := s.flying[e.timer];
       Add(s.(flying := s.flying - {e.timer}), id, retry.mode, Some(retry.active), true, e.w).1.Failed?
  }

  /** The number of failures in a row at the end of a run that starts after `n` of them. */
  function Streak(s: Instance, es: seq<Event>, id: WorkflowId, n: nat): nat
    requires Feasible(s, es)
    decreases |es|
  {
    if es == [] then n else
      var m := if QueuesAnew(s, es[0], id) then 0 else if FailsAgain(s, es[0], id) then n + 1 else n;
      Streak(Step(s, es[0]), es[1..], id, m)
  }

  /** The entry of `id`, if there is one, waits as long as `n` failures in a row make it. */
  ghost predicate Waits(s: Instance, id: WorkflowId, n: nat) {
    id in s.queue ==> s.queue[id].lastTimeout == Delay(n)
  }

  lemma AddWaits(s: Instance, x: WorkflowId, mode: ActivationMode, existing: Option<bool>, publish: bool, w: Services,
                 id: WorkflowId, n: nat)
    requires Waits(s, id, n) && !(s.multiMain && publish)
    ensures Waits(Add(s, x, mode, existing, publish, w).0, id, n)
  {
    AddEnds(s, x, mode, existing, publish, w);
  }

  lemma RetryWaits(s: Instance, timer: Timer, w: Services, id: WorkflowId, n: nat)
    requires Waits(s, id, n) && !s.multiMain && timer in s.flying
    ensures Waits(FinishRetry(s, timer, w), id, if FailsAgain(s, RetryEnds(timer, w), id) then n + 1 else n)
  {
    var retry, u := s.flying[timer], s.(flying := s.flying - {timer});
    AddWaits(u, retry.id, retry.mode, Some(retry.active), true, w, id, n);
  }

  lemma StepWaits(s: Instance, e: Event, id: WorkflowId, n: nat)
    requires Waits(s, id, n) && !s.multiMain && Enabled(s, e)
    ensures Waits(Step(s, e), id, if QueuesAnew(s, e, id) then 0 else if FailsAgain(s, e, id) then n + 1 else n)
  {
    match e {
      case CallAdd(x, mode, w) => AddWaits(s, x, mode, None, true, w, id, n);
      case CallActivate(x, mode, w) => AddWaits(s, x, mode, Some(x in s.active), false, w, id, n);
      case RetryEnds(timer, w) => RetryWaits(s, timer, w, id, n);
      case _ =>
    }
  }

  /**
   * In every single-main run, whatever happens to other workflows in between, a queued workflow waits
   * one second doubled once for every failure in a row since it was queued, and never above one day.
   */
  lemma {:induction false} RunWaits(s: Instance, es: seq<Event>, id: WorkflowId, n: nat)
    requires Waits(s, id, n) && !s.multiMain && Feasible(s, es)
    ensures Waits(Run(s, es), id, Streak(s, es, id, n))
    ensures id in Run(s, es).queue ==>
      Run(s, es).queue[id].lastTimeout == Min(1000 * Power2(Streak(s, es, id, n)), MAX_TIMEOUT)
    decreases |es|
  {
    if es != [] {
      var m := if QueuesAnew(s, es[0], id) then 0 else if FailsAgain(s, es[0], id) then n + 1 else n;
      StepWaits(s, es[0], id, n);
      RoleKept(s, es[0]);
      RunWaits(Step(s, es[0]), es[1..], id, m);
    } else {
      DelayClosedForm(n);
    }
  }
}
