/**
 When delivery is exactly once. Beside its token, which may be a record, each task has its
 executions: finished, under way, or still to come. A task can reach two outcomes exactly
 when the Master at some point re-queues an entry whose task has already reached one or is
 still being executed.
 */
module ExactlyOnce {
  import opened Lists
  import opened Protocol
  import opened Tokens
  import opened Ledger
  import opened SafeRuns

  function Executes(t: nat): Worker -> bool { (wk: Worker) => wk.phase == Registered(t) }

  /** Outcomes of task `t`: those reached, and those its copies under way can still reach. */
  function Outcomes(s: State, t: nat): nat {
    Count(IsTask(t), s.log.finished) + Count(IsTask(t), s.taskQueue)
    + Count(Carries(t), s.workers) + Count(Executes(t), s.workers)
  }

  /** How one step changes that number. */
  function Change(s: State, a: Step, t: nat): int
    requires Enabled(s, a)
  {
    if a.PushRequest? && t == |s.accepted| then 1
    else if a.DrainPush? && s.master.hand.value == Record(s.master.hand.value.worker, t)
            && s.master.hand.value.worker !in s.master.snapshot then 1
    else if a.KillWorker? && (s.workers[a.w].phase == Holding(t) || s.workers[a.w].phase == Registered(t)) then -1
    else 0
  }

  /** The worker will bring `t` to an outcome if it is left alone. */
  predicate Brings(wk: Worker, t: nat) { wk.phase == Holding(t) || wk.phase == Registered(t) }

  lemma HandsOfStep(s: State, a: Step, t: nat)
    requires Enabled(s, a) && OfWorker(a)
    ensures var before, after := s.workers[a.w], Apply(s, a).workers[a.w];
      Count(Carries(t), Apply(s, a).workers) + Count(Executes(t), Apply(s, a).workers) + (if Brings(before, t) then 1 else 0)
      == Count(Carries(t), s.workers) + Count(Executes(t), s.workers) + if Brings(after, t) then 1 else 0
  {
    CountUpdate(Carries(t), s.workers, a.w, Apply(s, a).workers[a.w]);
    CountUpdate(Executes(t), s.workers, a.w, Apply(s, a).workers[a.w]);
  }

  lemma ListsOfStep(s: State, a: Step, t: nat)
    requires Enabled(s, a) && OfWorker(a)
    ensures
      Count(IsTask(t), Apply(s, a).log.finished) + Count(IsTask(t), Apply(s, a).taskQueue)
      + (if a.Pop? && s.taskQueue[0] == t then 1 else 0)
      == Count(IsTask(t), s.log.finished) + Count(IsTask(t), s.taskQueue)
         + if a.Finish? && s.workers[a.w].phase.task == t then 1 else 0
  {
    if a.Pop? {
      CountTail(IsTask(t), s.taskQueue);
    } else if a.Finish? {
      CountAppend(IsTask(t), s.log.finished, s.workers[a.w].phase.task);
    }
  }

  lemma WorkerChange(s: State, a: Step, t: nat)
    requires Enabled(s, a) && OfWorker(a)
    ensures Outcomes(Apply(s, a), t) == Outcomes(s, t) + Change(s, a, t)
  {
    HandsOfStep(s, a, t);
    ListsOfStep(s, a, t);
  }

  lemma OtherChange(s: State, a: Step, t: nat)
    requires Enabled(s, a) && !OfWorker(a)
    ensures Outcomes(Apply(s, a), t) == Outcomes(s, t) + Change(s, a, t)
  {
    if a.PushRequest? {
      CountAppend(IsTask(t), s.taskQueue, |s.accepted|);
    } else if a.StartWorker? {
      CountAppend(Carries(t), s.workers, FRESH_WORKER);
      CountAppend(Executes(t), s.workers, FRESH_WORKER);
    } else if a.DrainPush? {
      CountAppend(IsTask(t), s.taskQueue, s.master.hand.value.task);
    }
  }

  /** A step adds an outcome of `t` only by accepting or re-queueing `t`, and takes one away only by a kill. */
  lemma OutcomesOfStep(s: State, a: Step, t: nat)
    requires Enabled(s, a)
    ensures Outcomes(Apply(s, a), t) == Outcomes(s, t) + Change(s, a, t)
  {
    if OfWorker(a) {
      WorkerChange(s, a, t);
    } else {
      OtherChange(s, a, t);
    }
  }

  // ---- Exactly once ----

  /** No task has two outcomes, reached or to come. */
  ghost predicate Once(s: State) { forall t: nat :: Outcomes(s, t) <= 1 }

  /** The pass re-queues an entry whose task has reached its outcome or is still being executed. */
  predicate Repeats(s: State, a: Step)
    requires Enabled(s, a)
  {
    a.DrainPush?
    && var r := s.master.hand.value;
      && r.worker !in s.master.snapshot
      && (r.task in s.log.finished || InPhase(s, r.worker, Registered(r.task)))
  }

  ghost predicate ExecutionsOnRecord(s: State) {
    forall w :: 0 <= w < |s.workers| && s.workers[w].phase.Registered? ==>
      Record(w, s.workers[w].phase.task) in AllRecords(s)
  }

  ghost predicate OutcomesKnown(s: State) {
    forall i :: 0 <= i < |s.log.finished| ==> s.log.finished[i] < |s.accepted|
  }

  ghost predicate OnceInv(s: State) { Once(s) && ExecutionsOnRecord(s) && OutcomesKnown(s) }

  lemma ExecutionsOnRecordStep(s: State, a: Step)
    requires ExecutionsOnRecord(s) && Enabled(s, a) && !Repeats(s, a)
    ensures ExecutionsOnRecord(Apply(s, a))
  {
    var s' := Apply(s, a);
    forall w | 0 <= w < |s'.workers| && s'.workers[w].phase.Registered?
      ensures Record(w, s'.workers[w].phase.task) in AllRecords(s')
    {
      NewBusyIsRegistered(s, a, w);
      var r := Record(w, s'.workers[w].phase.task);
      if a == Register(w) {
        assert s'.processing == s.processing + [r];
        assert r in s'.processing;
      } else {
        RecordStays(s, a, r);
      }
    }
  }

  /** A task on record has no other token, and has been accepted. */
  lemma TokenOnRecord(s: State, r: Record)
    requires TokenInv(s) && r in AllRecords(s)
    ensures r.task < |s.accepted| && Count(OfTask(r.task), AllRecords(s)) == 1
    ensures Count(IsTask(r.task), s.taskQueue) == Count(Carries(r.task), s.workers) == 0
    ensures forall q :: q in AllRecords(s) && q.task == r.task ==> q == r
  {
    assert Accounted(s, r.task);
    AllRecordCount(s, r.task);
    var i :| 0 <= i < |AllRecords(s)| && AllRecords(s)[i] == r;
    CountPositive(OfTask(r.task), AllRecords(s), i);
    forall q | q in AllRecords(s) && q.task == r.task
      ensures q == r
    {
      var j :| 0 <= j < |AllRecords(s)| && AllRecords(s)[j] == q;
      if j != i {
        CountAtLeastTwo(OfTask(r.task), AllRecords(s), i, j);
      }
    }
  }

  lemma OutcomesKnownStep(s: State, a: Step)
    requires TokenInv(s) && OutcomesKnown(s) && ExecutionsOnRecord(s) && Enabled(s, a)
    ensures OutcomesKnown(Apply(s, a))
  {
    if a.Finish? {
      TokenOnRecord(s, Record(a.w, s.workers[a.w].phase.task));
    }
  }

  /** A task that has not been accepted has no outcomes at all. */
  lemma NoOutcomeBefore(s: State)
    requires TokenInv(s) && OutcomesKnown(s) && ExecutionsOnRecord(s)
    ensures Outcomes(s, |s.accepted|) == 0
  {
    var t := |s.accepted|;
    assert Accounted(s, t);
    if Count(IsTask(t), s.log.finished) > 0 {
      var i := CountWitness(IsTask(t), s.log.finished);
      assert false;
    }
    if Count(Executes(t), s.workers) > 0 {
      var w := CountWitness(Executes(t), s.workers);
      TokenOnRecord(s, Record(w, t));
      assert false;
    }
  }

  /** The task in the Master's hand has an outcome exactly when it is finished or still executed by the worker on the entry. */
  lemma OutcomesInHand(s: State)
    requires TokenInv(s) && ExecutionsOnRecord(s) && Enabled(s, DrainPush)
    ensures var r := s.master.hand.value;
      Outcomes(s, r.task) > 0 <==> r.task in s.log.finished || InPhase(s, r.worker, Registered(r.task))
  {
    var r := s.master.hand.value;
    var t := r.task;
    assert Hand(s) == [r] && r in AllRecords(s);
    TokenOnRecord(s, r);
    if Count(IsTask(t), s.log.finished) > 0 {
      var i := CountWitness(IsTask(t), s.log.finished);
    } else if Count(Executes(t), s.workers) > 0 {
      var w := CountWitness(Executes(t), s.workers);
      assert Record(w, t) in AllRecords(s);
    }
    if t in s.log.finished {
      var i :| 0 <= i < |s.log.finished| && s.log.finished[i] == t;
      CountPositive(IsTask(t), s.log.finished, i);
    }
    if InPhase(s, r.worker, Registered(t)) {
      CountPositive(Executes(t), s.workers, r.worker);
    }
  }

  /** A step gives some task a second outcome exactly when it is such a re-queue. */
  lemma OnceIff(s: State, a: Step)
    requires TokenInv(s) && OnceInv(s) && Enabled(s, a)
    ensures Once(Apply(s, a)) <==> !Repeats(s, a)
    ensures !Repeats(s, a) ==> OnceInv(Apply(s, a))
  {
    if a.DrainPush? {
      OutcomesInHand(s);
      OutcomesOfStep(s, a, s.master.hand.value.task);
    }
    if !Repeats(s, a) {
      NoOutcomeBefore(s);
      forall t: nat
        ensures Outcomes(Apply(s, a), t) <= 1
      {
        OutcomesOfStep(s, a, t);
      }
      ExecutionsOnRecordStep(s, a);
      OutcomesKnownStep(s, a);
    }
  }

  predicate EverRepeats(s: State, run: seq<Step>)
    requires ValidRun(s, run)
    decreases |run|
  {
    run != [] && (Repeats(s, run[0]) || EverRepeats(Apply(s, run[0]), run[1..]))
  }

  ghost predicate AlwaysOnce(s: State, run: seq<Step>)
    requires ValidRun(s, run)
    decreases |run|
  {
    Once(s) && (run == [] || AlwaysOnce(Apply(s, run[0]), run[1..]))
  }

  lemma {:induction false} AlwaysOnceIff(s: State, run: seq<Step>)
    requires TokenInv(s) && OnceInv(s) && ValidRun(s, run)
    ensures AlwaysOnce(s, run) <==> !EverRepeats(s, run)
    ensures !EverRepeats(s, run) ==> OnceInv(Final(s, run))
    decreases |run|
  {
    if run == [] {
    } else {
      OnceIff(s, run[0]);
      TokenInvStep(s, run[0]);
      if !Repeats(s, run[0]) {
        AlwaysOnceIff(Apply(s, run[0]), run[1..]);
      }
    }
  }

  lemma InitiallyOnce(s: State)
    requires Initial(s)
    ensures TokenInv(s) && OnceInv(s)
  {
  }

  /**
   Exactly-once, exactly: over every run of the system no task ever has two outcomes, reached
   or to come, if and only if the Master never re-queues an entry whose task has already
   reached its outcome or is still being executed.
   */
  lemma ExactlyOnceIff(start: State, run: seq<Step>)
    requires Initial(start) && ValidRun(start, run)
    ensures AlwaysOnce(start, run) <==> !EverRepeats(start, run)
  {
    InitiallyOnce(start);
    AlwaysOnceIff(start, run);
  }

  lemma TakesRepeats(s: State, a: Step)
    requires Owned(s) && Enabled(s, a) && Takes(s, a)
    ensures Repeats(s, a)
  {
  }

  lemma {:induction false} RepeatsCoverTakes(s: State, run: seq<Step>)
    requires TokenInv(s) && ValidRun(s, run) && EverTakes(s, run)
    ensures EverRepeats(s, run)
    decreases |run|
  {
    if Takes(s, run[0]) {
      TakesRepeats(s, run[0]);
    } else {
      TokenInvStep(s, run[0]);
      RepeatsCoverTakes(Apply(s, run[0]), run[1..]);
    }
  }

  /** A run in which every task keeps to one outcome is safe: it never has a task in two places. */
  lemma OnceIsSafe(start: State, run: seq<Step>)
    requires Initial(start) && ValidRun(start, run) && AlwaysOnce(start, run)
    ensures !EverOverlaps(start, run)
  {
    ExactlyOnceIff(start, run);
    DoubleRunIff(start, run);
    if EverTakes(start, run) {
      RepeatsCoverTakes(start, run);
    }
  }

  lemma OnceDistinct(s: State)
    requires Once(s)
    ensures Distinct(s.log.finished)
  {
    forall i, j | 0 <= i < j < |s.log.finished|
      ensures s.log.finished[i] != s.log.finished[j]
    {
      var t := s.log.finished[i];
      assert Outcomes(s, t) <= 1;
      if s.log.finished[j] == t {
        CountAtLeastTwo(IsTask(t), s.log.finished, i, j);
      }
    }
  }

  lemma DropGreatest(q: seq<nat>, i: nat)
    requires Distinct(q) && i < |q| && forall j :: 0 <= j < |q| ==> q[j] <= q[i]
    ensures var rest := q[..i] + q[i + 1..];
      Distinct(rest) && forall j :: 0 <= j < |rest| ==> rest[j] < q[i]
  {
  }

  lemma {:induction false} DistinctBelow(q: seq<nat>, n: nat)
    requires Distinct(q) && forall j :: 0 <= j < |q| ==> q[j] < n
    ensures |q| <= n
    decreases n
  {
    if q == [] {
    } else {
      assert q[0] < n;
      if n - 1 in q {
        var i :| 0 <= i < |q| && q[i] == n - 1;
        DropGreatest(q, i);
        DistinctBelow(q[..i] + q[i + 1..], n - 1);
      } else {
        DistinctBelow(q, n - 1);
      }
    }
  }

  /** So without such a re-queue outcomes are distinct, and completions stay within requests. */
  lemma OutcomesDistinct(start: State, run: seq<Step>)
    requires Initial(start) && ValidRun(start, run) && !EverRepeats(start, run)
    ensures var s := Final(start, run);
      Distinct(s.log.finished) && s.taskCompleted <= |s.log.finished| <= |s.accepted| <= s.totalRequest
  {
    var s := Final(start, run);
    InitiallyOnce(start);
    AlwaysOnceIff(start, run);
    OnceDistinct(s);
    DistinctBelow(s.log.finished, |s.accepted|);
    assert Leads(start, run, s);
    ReachableBalanced(s);
  }

  // ---- Every outcome to come is reached ----

  /** Steps of workers and no kill: what is left to happen when the Master and the clients are silent. */
  predicate WorkerOnly(a: Step) { a.StartWorker? || a.Pop? || a.Register? || a.Finish? }

  function WorkAhead(s: State): nat { 3 * |s.taskQueue| + 2 * Holders(s) + Executing(s) }

  predicate AllWorkerOnly(run: seq<Step>) { forall i :: 0 <= i < |run| ==> WorkerOnly(run[i]) }

  lemma {:induction false} OutcomesLast(s: State, run: seq<Step>, t: nat)
    requires ValidRun(s, run) && AllWorkerOnly(run)
    ensures Outcomes(Final(s, run), t) == Outcomes(s, t)
    decreases |run|
  {
    if run == [] {
    } else {
      assert WorkerOnly(run[0]);
      OutcomesOfStep(s, run[0], t);
      OutcomesLast(Apply(s, run[0]), run[1..], t);
    }
  }

  lemma NextStep(s: State) returns (a: Step)
    requires Executing(s) > 0 || Holders(s) > 0
    ensures Enabled(s, a) && WorkerOnly(a) && WorkAhead(Apply(s, a)) < WorkAhead(s)
  {
    if Executing(s) > 0 {
      var w := CountWitness(IsRegistered, s.workers);
      a := Finish(w, Completed);
    } else {
      var w := CountWitness(IsHolding, s.workers);
      a := Register(w);
    }
    CountsOfStep(s, a);
  }

  lemma StartedWork(s: State)
    requires s.taskQueue != []
    ensures Enabled(Apply(s, StartWorker), Pop(|s.workers|))
    ensures WorkAhead(Apply(Apply(s, StartWorker), Pop(|s.workers|))) < WorkAhead(s)
  {
    CountsOfStep(s, StartWorker);
    CountsOfStep(Apply(s, StartWorker), Pop(|s.workers|));
  }

  lemma NextStart(s: State) returns (run: seq<Step>)
    requires s.taskQueue != []
    ensures ValidRun(s, run) && AllWorkerOnly(run) && WorkAhead(Final(s, run)) < WorkAhead(s)
  {
    var pop := Pop(|s.workers|);
    StartedWork(s);
    StepThen(Apply(s, StartWorker), pop, []);
    assert [pop] + [] == [pop];
    StepThen(s, StartWorker, [pop]);
    run := [StartWorker] + [pop];
  }

  /** While anything waits, is held or is executing, a worker can bring it one step further. */
  lemma NextWork(s: State) returns (run: seq<Step>)
    requires WorkAhead(s) > 0
    ensures ValidRun(s, run) && AllWorkerOnly(run) && WorkAhead(Final(s, run)) < WorkAhead(s)
  {
    if Executing(s) > 0 || Holders(s) > 0 {
      var a := NextStep(s);
      run := [a];
      assert ValidRun(Apply(s, a), []);
    } else {
      run := NextStart(s);
    }
  }

  lemma NothingAhead(s: State, t: nat)
    requires WorkAhead(s) == 0
    ensures Outcomes(s, t) == Count(IsTask(t), s.log.finished)
  {
    CountMonotone(Carries(t), IsHolding, s.workers);
    CountMonotone(Executes(t), IsRegistered, s.workers);
  }

  /** From every state the workers alone can bring each task to exactly its `Outcomes`. */
  lemma {:induction false} OutcomesReached(s: State) returns (run: seq<Step>)
    ensures ValidRun(s, run) && AllWorkerOnly(run) && WorkAhead(Final(s, run)) == 0
    ensures forall t: nat :: Count(IsTask(t), Final(s, run).log.finished) == Outcomes(s, t)
    decreases WorkAhead(s)
  {
    if WorkAhead(s) == 0 {
      run := [];
    } else {
      var first := NextWork(s);
      var rest := OutcomesReached(Final(s, first));
      RunConcat(s, first, rest);
      run := first + rest;
    }
    forall t: nat
      ensures Count(IsTask(t), Final(s, run).log.finished) == Outcomes(s, t)
    {
      OutcomesLast(s, run, t);
      NothingAhead(Final(s, run), t);
    }
  }

  lemma {:induction false} DistinctCount(q: seq<nat>, t: nat)
    requires Distinct(q)
    ensures Count(IsTask(t), q) <= 1
  {
    if q == [] {
    } else {
      var c := q[..|q| - 1];
      DistinctCount(c, t);
      if q[|q| - 1] == t && Count(IsTask(t), c) > 0 {
        var i := CountWitness(IsTask(t), c);
      }
    }
  }

  /** The workers alone can still bring some task to a second outcome. */
  ghost predicate CanRepeat(s: State) {
    exists run :: ValidRun(s, run) && AllWorkerOnly(run) && !Distinct(Final(s, run).log.finished)
  }

  /** What `Once` says: no continuation by the workers alone executes a task twice. */
  lemma OnceMeansNoRepeat(s: State)
    ensures Once(s) <==> !CanRepeat(s)
  {
    if Once(s) && CanRepeat(s) {
      var run :| ValidRun(s, run) && AllWorkerOnly(run) && !Distinct(Final(s, run).log.finished);
      forall t: nat
        ensures Outcomes(Final(s, run), t) <= 1
      {
        OutcomesLast(s, run, t);
      }
      OnceDistinct(Final(s, run));
    } else if !Once(s) {
      var t: nat :| Outcomes(s, t) > 1;
      var run := OutcomesReached(s);
      if Distinct(Final(s, run).log.finished) {
        DistinctCount(Final(s, run).log.finished, t);
      }
    }
  }

  // ---- A sufficient condition on the history ----

  /** No LRem has missed and no worker died owing one. */
  predicate Clean(s: State) { s.log.missed == 0 && s.log.killedFinished == 0 }

  /** A record stands for the execution under way, or for one cut short by a kill. */
  ghost predicate Pending(s: State, r: Record) {
    && r.worker < |s.workers|
    && (|| (Busy(s.workers[r.worker]) && s.workers[r.worker].phase.task == r.task)
        || (s.workers[r.worker].phase.Killed? && r.task !in s.log.finished))
  }

  ghost predicate AllPending(s: State) { forall r :: r in AllRecords(s) ==> Pending(s, r) }

  /** Only a registration creates a record. */
  lemma RecordsBefore(s: State, a: Step, r: Record)
    requires Enabled(s, a) && r in AllRecords(Apply(s, a))
    ensures r in AllRecords(s) || (a.Register? && r == Record(a.w, s.workers[a.w].phase.task))
  {
    if r in Records(Apply(s, a)) {
      RecordsFrom(s, a, r);
    } else if a.CrashMaster? && r !in s.log.lostRecords {
      assert Hand(s) == [r];
    }
  }

  lemma FinishKeepsPending(s: State, w: nat, outcome: Outcome)
    requires TokenInv(s) && HasRecords(s) && AllPending(s) && Enabled(s, Finish(w, outcome))
    ensures AllPending(FinishTask(s, w, outcome))
  {
    var own := Record(w, s.workers[w].phase.task);
    TokenOnRecord(s, own);
    forall r | r in AllRecords(FinishTask(s, w, outcome))
      ensures Pending(FinishTask(s, w, outcome), r)
    {
      assert Pending(s, r);
      assert r.task == own.task ==> r == own;
    }
  }

  /** In a clean state an LRem hits, and what it takes is its worker's own record. */
  lemma HitsOwnRecord(s: State, w: nat)
    requires AllPending(s) && Enabled(s, Remove(w)) && Clean(RemoveRecord(s, w))
    ensures var own := Record(w, s.workers[w].phase.task);
      FirstEqual(s, s.processing, own) < |s.processing| && s.processing[FirstEqual(s, s.processing, own)] == own
  {
    var i := FirstEqual(s, s.processing, Record(w, s.workers[w].phase.task));
    assert i < |s.processing|;
    assert s.processing[i] in AllRecords(s);
    assert Pending(s, s.processing[i]);
  }

  /** In a clean state an LRem takes its worker's own record, and no other record of that task exists. */
  lemma TakesOwnRecord(s: State, w: nat)
    requires TokenInv(s) && HasRecords(s) && AllPending(s) && Enabled(s, Remove(w))
    requires Clean(RemoveRecord(s, w))
    ensures Count(OfTask(s.workers[w].phase.task), AllRecords(RemoveRecord(s, w))) == 0
  {
    var s' := RemoveRecord(s, w);
    var t := s.workers[w].phase.task;
    var i := FirstEqual(s, s.processing, Record(w, t));
    HitsOwnRecord(s, w);
    TokenOnRecord(s, Record(w, t));
    CountRemoveAt(OfTask(t), s.processing, i);
    AllRecordCount(s, t);
    AllRecordCount(s', t);
  }

  lemma RemoveKeepsPending(s: State, w: nat)
    requires TokenInv(s) && HasRecords(s) && AllPending(s) && Enabled(s, Remove(w))
    requires Clean(RemoveRecord(s, w))
    ensures AllPending(RemoveRecord(s, w))
  {
    var s' := RemoveRecord(s, w);
    TakesOwnRecord(s, w);
    forall r | r in AllRecords(s')
      ensures Pending(s', r)
    {
      RecordsBefore(s, Remove(w), r);
      assert Pending(s, r);
      if r.worker == w {
        var j :| 0 <= j < |AllRecords(s')| && AllRecords(s')[j] == r;
        CountPositive(OfTask(r.task), AllRecords(s'), j);
      }
    }
  }

  /** A kill in mid-execution leaves the entry of a task without an outcome. */
  lemma KillKeepsPending(s: State, w: nat)
    requires Once(s) && AllPending(s) && Enabled(s, KillWorker(w)) && Clean(Kill(s, w))
    ensures AllPending(Kill(s, w))
  {
    if s.workers[w].phase.Registered? {
      var t := s.workers[w].phase.task;
      CountPositive(Executes(t), s.workers, w);
      assert Outcomes(s, t) <= 1;
      if t in s.log.finished {
        var i :| 0 <= i < |s.log.finished| && s.log.finished[i] == t;
        CountPositive(IsTask(t), s.log.finished, i);
      }
    }
    forall r | r in AllRecords(Kill(s, w))
      ensures Pending(Kill(s, w), r)
    {
      assert Pending(s, r);
    }
  }

  lemma AllPendingStep(s: State, a: Step)
    requires TokenInv(s) && HasRecords(s) && Once(s) && AllPending(s) && Enabled(s, a) && Clean(Apply(s, a))
    ensures AllPending(Apply(s, a))
  {
    if a.KillWorker? {
      KillKeepsPending(s, a.w);
    } else if a.Finish? {
      FinishKeepsPending(s, a.w, a.outcome);
    } else if a.Remove? {
      RemoveKeepsPending(s, a.w);
    } else {
      forall r | r in AllRecords(Apply(s, a))
        ensures Pending(Apply(s, a), r)
      {
        RecordsBefore(s, a, r);
        if r in AllRecords(s) {
          assert Pending(s, r);
        }
      }
    }
  }

  /** Re-queueing a pending entry of a worker that is not at work on it repeats nothing. */
  lemma PendingNoRepeat(s: State, a: Step)
    requires AllPending(s) && Enabled(s, a) && !Takes(s, a)
    ensures !Repeats(s, a)
  {
    if a.DrainPush? {
      assert Hand(s) == [s.master.hand.value] && s.master.hand.value in AllRecords(s);
      assert Pending(s, s.master.hand.value);
    }
  }

  /** A clean state was clean all along. */
  lemma {:induction false} CleanBefore(s: State, run: seq<Step>)
    requires ValidRun(s, run) && Clean(Final(s, run))
    ensures Clean(s)
    decreases |run|
  {
    if run == [] {
    } else {
      CleanBefore(Apply(s, run[0]), run[1..]);
    }
  }

  lemma {:induction false} CleanNeverRepeats(s: State, run: seq<Step>)
    requires TokenInv(s) && HasRecords(s) && OnceInv(s) && AllPending(s)
    requires ValidRun(s, run) && !EverTakes(s, run) && Clean(Final(s, run))
    ensures !EverRepeats(s, run)
    decreases |run|
  {
    if run == [] {
    } else {
      CleanBefore(Apply(s, run[0]), run[1..]);
      PendingNoRepeat(s, run[0]);
      OnceIff(s, run[0]);
      AllPendingStep(s, run[0]);
      TokenInvStep(s, run[0]);
      HasRecordsStep(s, run[0]);
      CleanNeverRepeats(Apply(s, run[0]), run[1..]);
    }
  }

  /** In safe runs no task reaches an outcome twice while every LRem hits and no worker dies owing one. */
  lemma AtMostOneOutcome(s: State, i: nat, j: nat)
    requires SafelyReachable(s) && Clean(s)
    requires i < j < |s.log.finished|
    ensures s.log.finished[i] != s.log.finished[j]
    ensures s.taskCompleted <= |s.accepted| <= s.totalRequest
  {
    var start, run :| SafelyLeads(start, run, s);
    InitiallyOnce(start);
    CleanNeverRepeats(start, run);
    OutcomesDistinct(start, run);
  }
}
