/**
 The counting laws that hold in every reachable state: the exact duplication ledger,
 the conservation of task flow, and the first-in first-out order of task_queue.
 */
module Ledger {
  import opened Lists
  import opened Protocol
  import opened Tokens

  predicate IsHolding(wk: Worker) { wk.phase.Holding? }

  predicate IsRegistered(wk: Worker) { wk.phase.Registered? }

  predicate IsFinished(wk: Worker) { wk.phase.Finished? }

  function Holders(s: State): nat { Count(IsHolding, s.workers) }

  function Executing(s: State): nat { Count(IsRegistered, s.workers) }

  function Concluding(s: State): nat { Count(IsFinished, s.workers) }

  lemma PhaseCounts(ws: seq<Worker>, i: nat, wk: Worker)
    requires i < |ws|
    ensures Count(IsHolding, ws[i := wk]) + (if IsHolding(ws[i]) then 1 else 0)
         == Count(IsHolding, ws) + (if IsHolding(wk) then 1 else 0)
    ensures Count(IsRegistered, ws[i := wk]) + (if IsRegistered(ws[i]) then 1 else 0)
         == Count(IsRegistered, ws) + (if IsRegistered(wk) then 1 else 0)
    ensures Count(IsFinished, ws[i := wk]) + (if IsFinished(ws[i]) then 1 else 0)
         == Count(IsFinished, ws) + (if IsFinished(wk) then 1 else 0)
  {
    CountUpdate(IsHolding, ws, i, wk);
    CountUpdate(IsRegistered, ws, i, wk);
    CountUpdate(IsFinished, ws, i, wk);
  }

  function RecordTotal(s: State): nat { |s.processing| + |s.temp| + |Hand(s)| }

  /** Each registration is recovered, still on record, or lost, or an LRem accounts for it, or a worker still owes one. */
  ghost predicate RecordsBalance(s: State) {
    s.log.recovered + RecordTotal(s) + |s.log.lostRecords|
    == s.log.missed + s.log.killedRegistered + s.log.killedFinished + Executing(s) + Concluding(s)
  }

  ghost predicate PopsBalance(s: State) {
    |s.log.popped| == Holders(s) + Executing(s) + |s.log.finished| + |s.log.lostHeld| + s.log.killedRegistered
  }

  ghost predicate OutcomesBalance(s: State) {
    |s.log.finished| == |s.log.retired| + s.log.missed + Concluding(s) + s.log.killedFinished
  }

  ghost predicate CountersBalance(s: State) {
    && |s.log.pushed| == |s.accepted| + s.log.recovered
    && s.totalRequest == |s.accepted| + s.log.handlers + s.log.rejected
    && s.taskCompleted <= |s.log.finished|
  }

  /** Each accepted task has one token. */
  ghost predicate TokensBalance(s: State) {
    |s.taskQueue| + Holders(s) + RecordTotal(s) + |s.log.lostHeld| + |s.log.lostRecords| + |s.log.retired|
    == |s.accepted|
  }

  ghost predicate Fifo(s: State) { s.log.popped + s.taskQueue == s.log.pushed }

  ghost predicate Balanced(s: State) {
    && RecordsBalance(s) && PopsBalance(s) && OutcomesBalance(s)
    && CountersBalance(s) && TokensBalance(s) && Fifo(s)
  }

  predicate OfWorker(a: Step) {
    || a.SignalWorker? || a.KillWorker? || a.Pop? || a.Register? || a.Finish? || a.Remove?
    || a.CheckFlag? || a.CancelPop?
  }

  /** A step leaves every worker but its own as it was. */
  lemma OtherWorkersKept(s: State, a: Step, v: nat)
    requires Enabled(s, a) && v < |s.workers| && !(OfWorker(a) && a.w == v)
    ensures v < |Apply(s, a).workers| && Apply(s, a).workers[v] == s.workers[v]
  {
  }

  lemma CountsOfStep(s: State, a: Step)
    requires Enabled(s, a)
    ensures OfWorker(a) ==>
      var before, after := s.workers[a.w], Apply(s, a).workers[a.w];
      && Holders(Apply(s, a)) + (if IsHolding(before) then 1 else 0) == Holders(s) + (if IsHolding(after) then 1 else 0)
      && Executing(Apply(s, a)) + (if IsRegistered(before) then 1 else 0)
         == Executing(s) + (if IsRegistered(after) then 1 else 0)
      && Concluding(Apply(s, a)) + (if IsFinished(before) then 1 else 0)
         == Concluding(s) + (if IsFinished(after) then 1 else 0)
    ensures !OfWorker(a) ==>
      && Holders(Apply(s, a)) == Holders(s)
      && Executing(Apply(s, a)) == Executing(s)
      && Concluding(Apply(s, a)) == Concluding(s)
  {
    if OfWorker(a) {
      PhaseCounts(s.workers, a.w, Apply(s, a).workers[a.w]);
    } else if a.StartWorker? {
      CountAppend(IsHolding, s.workers, FRESH_WORKER);
      CountAppend(IsRegistered, s.workers, FRESH_WORKER);
      CountAppend(IsFinished, s.workers, FRESH_WORKER);
    }
  }

  /** How one step changes the number of records, in view or lost with the Master. */
  lemma RecordsOfStep(s: State, a: Step)
    requires Enabled(s, a)
    ensures var s' := Apply(s, a);
      && RecordTotal(s') + |s'.log.lostRecords| + s'.log.recovered + |s'.log.retired|
         == RecordTotal(s) + |s.log.lostRecords| + s.log.recovered + |s.log.retired| + (if a.Register? then 1 else 0)
      && |s'.log.retired| + s'.log.missed == |s.log.retired| + s.log.missed + (if a.Remove? then 1 else 0)
  {
  }

  /** How one step changes task_queue and the hands that lost a task. */
  lemma QueueOfStep(s: State, a: Step)
    requires Enabled(s, a)
    ensures var s' := Apply(s, a);
      && |s'.taskQueue| + |s.accepted| + s.log.recovered + (if a.Pop? then 1 else 0)
         == |s.taskQueue| + |s'.accepted| + s'.log.recovered
      && |s'.log.lostHeld| == |s.log.lostHeld| + (if a.KillWorker? && IsHolding(s.workers[a.w]) then 1 else 0)
  {
  }

  /** The worker owes an LRem. */
  predicate Owes(wk: Worker) { IsRegistered(wk) || IsFinished(wk) }

  lemma OwesOfStep(s: State, a: Step)
    requires Enabled(s, a) && OfWorker(a)
    ensures var s' := Apply(s, a);
      s'.log.killedRegistered + s'.log.killedFinished + (if Owes(s'.workers[a.w]) then 1 else 0)
      + (if a.Remove? then 1 else 0)
      == s.log.killedRegistered + s.log.killedFinished + (if Owes(s.workers[a.w]) then 1 else 0)
         + if a.Register? then 1 else 0
  {
  }

  /** Only workers pop, come to outcomes, die and remove entries. */
  lemma WorkersOwnTheLog(s: State, a: Step)
    requires Enabled(s, a) && !OfWorker(a)
    ensures var s' := Apply(s, a);
      && s'.log.popped == s.log.popped && s'.log.finished == s.log.finished && s'.log.retired == s.log.retired
      && s'.log.lostHeld == s.log.lostHeld && s'.log.missed == s.log.missed
      && s'.log.killedRegistered == s.log.killedRegistered && s'.log.killedFinished == s.log.killedFinished
  {
  }

  /** How one step changes the workers that have registered, and the kills among them. */
  lemma RegisteredOfStep(s: State, a: Step)
    requires Enabled(s, a)
    ensures var s' := Apply(s, a);
      Executing(s') + Concluding(s') + s'.log.killedRegistered + s'.log.killedFinished + (if a.Remove? then 1 else 0)
      == Executing(s) + Concluding(s) + s.log.killedRegistered + s.log.killedFinished + if a.Register? then 1 else 0
  {
    CountsOfStep(s, a);
    if OfWorker(a) {
      OwesOfStep(s, a);
    } else {
      WorkersOwnTheLog(s, a);
    }
  }

  lemma RecordsBalanceStep(s: State, a: Step)
    requires RecordsBalance(s) && Enabled(s, a)
    ensures RecordsBalance(Apply(s, a))
  {
    RegisteredOfStep(s, a);
    RecordsOfStep(s, a);
    assert Apply(s, a).log.retired == s.log.retired || a.Remove?;
  }

  lemma TokensBalanceStep(s: State, a: Step)
    requires TokensBalance(s) && Enabled(s, a)
    ensures TokensBalance(Apply(s, a))
  {
    CountsOfStep(s, a);
    RecordsOfStep(s, a);
    QueueOfStep(s, a);
  }

  /** The worker has popped a task and not come to its outcome. */
  predicate InProgress(wk: Worker) { IsHolding(wk) || IsRegistered(wk) }

  lemma PoppedOfStep(s: State, a: Step)
    requires Enabled(s, a) && OfWorker(a)
    ensures var s' := Apply(s, a);
      |s'.log.popped| + |s.log.finished| + |s.log.lostHeld| + s.log.killedRegistered
      + (if InProgress(s.workers[a.w]) then 1 else 0)
      == |s.log.popped| + |s'.log.finished| + |s'.log.lostHeld| + s'.log.killedRegistered
         + if InProgress(s'.workers[a.w]) then 1 else 0
  {
  }

  lemma FinishedOfStep(s: State, a: Step)
    requires Enabled(s, a) && OfWorker(a)
    ensures var s' := Apply(s, a);
      |s'.log.finished| + |s.log.retired| + s.log.missed + s.log.killedFinished
      + (if IsFinished(s.workers[a.w]) then 1 else 0)
      == |s.log.finished| + |s'.log.retired| + s'.log.missed + s'.log.killedFinished
         + if IsFinished(s'.workers[a.w]) then 1 else 0
  {
  }

  lemma PopsBalanceStep(s: State, a: Step)
    requires PopsBalance(s) && Enabled(s, a)
    ensures PopsBalance(Apply(s, a))
  {
    CountsOfStep(s, a);
    if OfWorker(a) {
      PoppedOfStep(s, a);
    } else {
      WorkersOwnTheLog(s, a);
    }
  }

  lemma OutcomesBalanceStep(s: State, a: Step)
    requires OutcomesBalance(s) && Enabled(s, a)
    ensures OutcomesBalance(Apply(s, a))
  {
    CountsOfStep(s, a);
    if OfWorker(a) {
      FinishedOfStep(s, a);
    } else {
      WorkersOwnTheLog(s, a);
    }
  }

  lemma CountersBalanceStep(s: State, a: Step)
    requires CountersBalance(s) && Enabled(s, a)
    ensures CountersBalance(Apply(s, a))
  {
  }

  lemma FifoStep(s: State, a: Step)
    requires Fifo(s) && Enabled(s, a)
    ensures Fifo(Apply(s, a))
  {
    var s' := Apply(s, a);
    if a.Pop? {
      assert s.taskQueue == [s.taskQueue[0]] + s.taskQueue[1..];
    } else {
      assert s'.log.popped == s.log.popped;
      if |s'.taskQueue| > |s.taskQueue| {
        var t := s'.taskQueue[|s.taskQueue|];
        assert s'.taskQueue == s.taskQueue + [t];
        assert s'.log.pushed == s.log.pushed + [t];
      }
    }
  }

  lemma {:induction false} BalancedRun(s: State, run: seq<Step>)
    requires Balanced(s) && ValidRun(s, run)
    ensures Balanced(Final(s, run))
    decreases |run|
  {
    if run == [] {
    } else {
      RecordsBalanceStep(s, run[0]);
      TokensBalanceStep(s, run[0]);
      PopsBalanceStep(s, run[0]);
      OutcomesBalanceStep(s, run[0]);
      CountersBalanceStep(s, run[0]);
      FifoStep(s, run[0]);
      BalancedRun(Apply(s, run[0]), run[1..]);
    }
  }

  lemma ReachableBalanced(s: State)
    requires Reachable(s)
    ensures Balanced(s)
  {
    var start, run :| Leads(start, run, s);
    BalancedRun(start, run);
  }

  /**
   The duplication ledger: re-queued entries, entries on record and entries lost with the
   Master are matched one for one by LRems that found nothing, workers killed after
   registering, and workers that still owe their LRem.
   */
  lemma DuplicationLedger(s: State)
    requires Reachable(s)
    ensures s.log.recovered + RecordTotal(s) + |s.log.lostRecords|
      == s.log.missed + s.log.killedRegistered + s.log.killedFinished + Executing(s) + Concluding(s)
  {
    ReachableBalanced(s);
  }

  /** Every push onto task_queue is waiting, held, executing, finished or went down with a worker. */
  lemma FlowConservation(s: State)
    requires Reachable(s)
    ensures
      && |s.accepted| + s.log.recovered
         == |s.taskQueue| + Holders(s) + Executing(s) + |s.log.finished| + |s.log.lostHeld| + s.log.killedRegistered
      && s.totalRequest == |s.accepted| + s.log.handlers + s.log.rejected
  {
    ReachableBalanced(s);
    assert |s.log.pushed| == |s.log.popped| + |s.taskQueue|;
  }

  /** task_queue is first-in first-out over the whole run: what was popped and what waits is what was pushed, in order. */
  lemma QueueIsFifo(s: State)
    requires Reachable(s)
    ensures s.log.popped + s.taskQueue == s.log.pushed
  {
    ReachableBalanced(s);
  }

  /**
   Exactly how many BLPops there are beyond the accepted tasks, and so exactly when missed LRems
   and kills after the registration do not pay for them.
   */
  lemma PopAccount(s: State)
    requires Reachable(s)
    ensures |s.log.popped| + |s.taskQueue| + RecordTotal(s) + |s.log.lostRecords|
      == |s.accepted| + s.log.missed + s.log.killedRegistered + s.log.killedFinished + Executing(s) + Concluding(s)
    ensures |s.log.popped| + |s.taskQueue|
            > |s.accepted| + s.log.missed + s.log.killedRegistered + s.log.killedFinished
      <==> Executing(s) + Concluding(s) > RecordTotal(s) + |s.log.lostRecords|
  {
    ReachableBalanced(s);
    assert |s.log.pushed| == |s.log.popped| + |s.taskQueue|;
  }

  /**
   Exactly how many outcomes there are beyond the accepted tasks, and so exactly when there
   are more outcomes than tasks.
   */
  lemma OutcomeAccount(s: State)
    requires Reachable(s)
    ensures |s.log.finished| + |s.taskQueue| + Holders(s) + RecordTotal(s) + |s.log.lostHeld| + |s.log.lostRecords|
      == |s.accepted| + s.log.missed + s.log.killedFinished + Concluding(s)
    ensures |s.log.finished| > |s.accepted|
      <==> s.log.missed + s.log.killedFinished + Concluding(s)
           > |s.taskQueue| + Holders(s) + RecordTotal(s) + |s.log.lostHeld| + |s.log.lostRecords|
    ensures s.taskCompleted <= |s.log.finished|
  {
    ReachableBalanced(s);
  }

  /** Every smaller task number was pushed earlier. */
  ghost predicate InOrder(q: seq<nat>) {
    forall j, t :: 0 <= j < |q| && 0 <= t < q[j] ==> t in q[..j]
  }

  ghost predicate Ordered(s: State) {
    && InOrder(s.log.pushed)
    && (forall t :: 0 <= t < |s.accepted| ==> t in s.log.pushed)
  }

  lemma InOrderAppend(q: seq<nat>, x: nat)
    requires InOrder(q)
    requires x in q || forall t :: 0 <= t < x ==> t in q
    ensures InOrder(q + [x])
  {
    forall j, t | 0 <= j < |q + [x]| && 0 <= t < (q + [x])[j]
      ensures t in (q + [x])[..j]
    {
      if j < |q| {
        assert (q + [x])[..j] == q[..j];
      } else {
        assert (q + [x])[..j] == q;
        if x in q {
          var i :| 0 <= i < |q| && q[i] == x;
          assert t in q[..i];
        }
      }
    }
  }

  lemma OrderedStep(s: State, a: Step)
    requires TokenInv(s) && Ordered(s) && Enabled(s, a)
    ensures Ordered(Apply(s, a))
  {
    if a.PushRequest? {
      InOrderAppend(s.log.pushed, |s.accepted|);
    } else if a.DrainPush? {
      var r := s.master.hand.value;
      HandCount(r, r.task);
      assert Accounted(s, r.task);
      InOrderAppend(s.log.pushed, r.task);
    }
  }

  lemma {:induction false} OrderedRun(s: State, run: seq<Step>)
    requires TokenInv(s) && Ordered(s) && ValidRun(s, run)
    ensures Ordered(Final(s, run))
    decreases |run|
  {
    if run == [] {
    } else {
      OrderedStep(s, run[0]);
      TokenInvStep(s, run[0]);
      OrderedRun(Apply(s, run[0]), run[1..]);
    }
  }

  lemma ReachableOrdered(s: State)
    requires Reachable(s)
    ensures Ordered(s)
  {
    var start, run :| Leads(start, run, s);
    OrderedRun(start, run);
  }

  /** First starts follow acceptance order: when a task has been popped, so has every task accepted before it. */
  lemma FirstStartsInOrder(s: State, t: nat, u: nat)
    requires Reachable(s)
    requires t < u && u in s.log.popped
    ensures t in s.log.popped
  {
    ReachableBalanced(s);
    ReachableOrdered(s);
    var j :| 0 <= j < |s.log.popped| && s.log.popped[j] == u;
    assert s.log.pushed[j] == u;
    assert t in s.log.pushed[..j];
    assert s.log.pushed[..j] == s.log.popped[..j];
  }
}
