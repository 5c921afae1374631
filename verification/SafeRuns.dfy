/**
 When a task is in two places at once. The one step that can bring this about is the
 re-queue of an entry whose worker is still at work on it: a run in which the Master never
 does that is safe, and exactly the safe runs keep every task in a single place. In safe
 runs every extra execution is paid for by an LRem that missed or a worker that was killed.
 Runs in which no worker starts while the Master drains processing_queue are safe; the
 Master itself creates workers after the pass only, but workers may also be started by hand.
 */
module SafeRuns {
  import opened Lists
  import opened Protocol
  import opened Tokens
  import opened Ledger

  /** A worker between its RPush and its LRem. */
  predicate Busy(wk: Worker) { wk.phase.Registered? || wk.phase.Finished? }

  /** Records that exist, or that died in the Master's hand. */
  function AllRecords(s: State): seq<Record> { Records(s) + s.log.lostRecords }

  /** A running worker's registration has not been taken away from it. */
  ghost predicate HasRecords(s: State) {
    forall w :: 0 <= w < |s.workers| && Busy(s.workers[w]) ==>
      Record(w, s.workers[w].phase.task) in AllRecords(s)
  }

  lemma RemovalSparesOthers(s: State, w: nat, r: Record)
    requires Enabled(s, Remove(w)) && r in s.processing && r.worker != w
    ensures r in RemoveRecord(s, w).processing
  {
    var i := FirstEqual(s, s.processing, Record(w, s.workers[w].phase.task));
    if i < |s.processing| {
      assert s.processing == s.processing[..i] + [s.processing[i]] + s.processing[i + 1..];
    }
  }

  lemma MasterMovesRecords(s: State, a: Step, r: Record)
    requires Enabled(s, a) && r in AllRecords(s)
    requires a.DrainPop? || a.DrainPush? || a.RestoreMove? || a.CrashMaster?
    requires a.DrainPush? && r == s.master.hand.value ==> r.worker in s.master.snapshot
    ensures r in AllRecords(Apply(s, a))
  {
    if a.DrainPop? {
      assert s.processing == [s.processing[0]] + s.processing[1..];
      assert Hand(Apply(s, a)) == [s.processing[0]];
    } else if a.RestoreMove? {
      assert s.temp == [s.temp[0]] + s.temp[1..];
    }
  }

  /** A record disappears from view only when its own worker removes it or when it is re-queued. */
  lemma RecordStays(s: State, a: Step, r: Record)
    requires Enabled(s, a) && r in AllRecords(s)
    requires a.Remove? ==> r.worker != a.w
    requires a.DrainPush? && r == s.master.hand.value ==> r.worker in s.master.snapshot
    ensures r in AllRecords(Apply(s, a))
  {
    if a.DrainPop? || a.DrainPush? || a.RestoreMove? || a.CrashMaster? {
      MasterMovesRecords(s, a, r);
    } else if a.Remove? {
      if r in s.processing {
        RemovalSparesOthers(s, a.w, r);
      }
    } else {
      assert s.processing <= Apply(s, a).processing;
      assert Apply(s, a).temp == s.temp && Hand(Apply(s, a)) == Hand(s);
    }
  }

  lemma NewBusyIsRegistered(s: State, a: Step, w: nat)
    requires Enabled(s, a) && w < |Apply(s, a).workers| && Busy(Apply(s, a).workers[w])
    ensures w < |s.workers|
    ensures var t := Apply(s, a).workers[w].phase.task;
      || (Busy(s.workers[w]) && s.workers[w].phase.task == t && (a.Remove? ==> a.w != w))
      || (a == Register(w) && s.workers[w].phase == Holding(t))
  {
  }

  // ---- Two places at once ----

  /** The task a worker has in its hands, from BLPop to LRem. */
  predicate WorksOn(s: State, w: nat, t: nat) {
    w < |s.workers| && (s.workers[w].phase == Holding(t) || s.workers[w].phase == Registered(t)
                        || s.workers[w].phase == Finished(t))
  }

  /** A worker has a task in its hands that also waits on task_queue. */
  ghost predicate AlsoWaits(s: State) {
    exists w, t :: WorksOn(s, w, t) && t in s.taskQueue
  }

  /** Two workers have the same task in their hands. */
  ghost predicate AlsoRuns(s: State) {
    exists v, w, t :: v != w && WorksOn(s, v, t) && WorksOn(s, w, t)
  }

  ghost predicate Overlap(s: State) { AlsoWaits(s) || AlsoRuns(s) }

  /** The Master re-queues the entry of a worker that is at work on that very task. */
  predicate Takes(s: State, a: Step)
    requires Enabled(s, a)
  {
    a.DrainPush?
    && var r := s.master.hand.value;
      && r.worker !in s.master.snapshot
      && r.worker < |s.workers| && Busy(s.workers[r.worker]) && s.workers[r.worker].phase.task == r.task
  }

  lemma HasRecordsStep(s: State, a: Step)
    requires HasRecords(s) && Enabled(s, a) && !Takes(s, a)
    ensures HasRecords(Apply(s, a))
  {
    var s' := Apply(s, a);
    forall w | 0 <= w < |s'.workers| && Busy(s'.workers[w])
      ensures Record(w, s'.workers[w].phase.task) in AllRecords(s')
    {
      NewBusyIsRegistered(s, a, w);
      var r := Record(w, s'.workers[w].phase.task);
      if a == Register(w) {
        assert s'.processing == s.processing + [r];
        assert r in s'.processing;
      } else {
        RecordStays(s, a, r);
      }
    }
  }

  lemma AllRecordCount(s: State, t: nat)
    ensures Count(OfTask(t), AllRecords(s))
         == Count(OfTask(t), s.processing) + Count(OfTask(t), s.temp) + Count(OfTask(t), Hand(s))
            + Count(OfTask(t), s.log.lostRecords)
  {
    RecordCount(s, t);
    CountConcat(OfTask(t), Records(s), s.log.lostRecords);
  }

  /** What a worker has in its hands is the only token of its task, apart from its record. */
  lemma OneWorker(s: State, v: nat, w: nat, t: nat)
    requires TokenInv(s) && HasRecords(s) && WorksOn(s, v, t) && WorksOn(s, w, t)
    ensures v == w
  {
    assert Accounted(s, t);
    AllRecordCount(s, t);
    if v != w {
      var hv, hw := s.workers[v].phase.Holding?, s.workers[w].phase.Holding?;
      if hv && hw {
        CountAtLeastTwo(Carries(t), s.workers, v, w);
      } else if hv || hw {
        var h, b := if hv then v else w, if hv then w else v;
        CountPositive(Carries(t), s.workers, h);
        var i :| 0 <= i < |AllRecords(s)| && AllRecords(s)[i] == Record(b, t);
        CountPositive(OfTask(t), AllRecords(s), i);
      } else {
        var i :| 0 <= i < |AllRecords(s)| && AllRecords(s)[i] == Record(v, t);
        var j :| 0 <= j < |AllRecords(s)| && AllRecords(s)[j] == Record(w, t);
        CountAtLeastTwo(OfTask(t), AllRecords(s), i, j);
      }
      assert false;
    }
  }

  lemma NotAlsoWaiting(s: State, w: nat, t: nat)
    requires TokenInv(s) && HasRecords(s) && WorksOn(s, w, t)
    ensures t !in s.taskQueue
  {
    assert Accounted(s, t);
    AllRecordCount(s, t);
    if s.workers[w].phase.Holding? {
      CountPositive(Carries(t), s.workers, w);
    } else {
      var i :| 0 <= i < |AllRecords(s)| && AllRecords(s)[i] == Record(w, t);
      CountPositive(OfTask(t), AllRecords(s), i);
    }
    if t in s.taskQueue {
      var k :| 0 <= k < |s.taskQueue| && s.taskQueue[k] == t;
      CountPositive(IsTask(t), s.taskQueue, k);
      assert false;
    }
  }

  lemma NoOverlap(s: State)
    requires TokenInv(s) && HasRecords(s)
    ensures !Overlap(s)
  {
    if AlsoWaits(s) {
      var w, t :| WorksOn(s, w, t) && t in s.taskQueue;
      NotAlsoWaiting(s, w, t);
    } else if AlsoRuns(s) {
      var v, w, t :| v != w && WorksOn(s, v, t) && WorksOn(s, w, t);
      OneWorker(s, v, w, t);
    }
  }

  /** A step leads from single places to an overlap exactly when it is such a re-queue. */
  lemma OverlapIff(s: State, a: Step)
    requires TokenInv(s) && HasRecords(s) && Enabled(s, a)
    ensures Overlap(Apply(s, a)) <==> Takes(s, a)
    ensures !Takes(s, a) ==> HasRecords(Apply(s, a))
  {
    if Takes(s, a) {
      var r, s' := s.master.hand.value, Apply(s, a);
      assert WorksOn(s', r.worker, r.task) && s'.taskQueue[|s.taskQueue|] == r.task;
    } else {
      HasRecordsStep(s, a);
      TokenInvStep(s, a);
      NoOverlap(Apply(s, a));
    }
  }

  /** Somewhere along the run a task is in two places. */
  ghost predicate EverOverlaps(s: State, run: seq<Step>)
    requires ValidRun(s, run)
    decreases |run|
  {
    Overlap(s) || (run != [] && EverOverlaps(Apply(s, run[0]), run[1..]))
  }

  predicate EverTakes(s: State, run: seq<Step>)
    requires ValidRun(s, run)
    decreases |run|
  {
    run != [] && (Takes(s, run[0]) || EverTakes(Apply(s, run[0]), run[1..]))
  }

  lemma {:induction false} OverlapsIffTakes(s: State, run: seq<Step>)
    requires TokenInv(s) && HasRecords(s) && ValidRun(s, run)
    ensures EverOverlaps(s, run) <==> EverTakes(s, run)
    ensures !EverTakes(s, run) ==> HasRecords(Final(s, run))
    decreases |run|
  {
    NoOverlap(s);
    if run == [] {
    } else {
      var s1 := Apply(s, run[0]);
      OverlapIff(s, run[0]);
      if Takes(s, run[0]) {
        assert EverOverlaps(s1, run[1..]);
      } else {
        TokenInvStep(s, run[0]);
        OverlapsIffTakes(s1, run[1..]);
      }
    }
  }

  /**
   No double run, exactly: in every run of the system a task is at some point in the hands of
   two workers, or in a worker's hands and back on task_queue, if and only if the Master at
   some point re-queues the entry of a worker that is at work on it.
   */
  lemma DoubleRunIff(start: State, run: seq<Step>)
    requires Initial(start) && ValidRun(start, run)
    ensures EverOverlaps(start, run) <==> EverTakes(start, run)
  {
    OverlapsIffTakes(start, run);
  }

  // ---- Safe runs ----

  ghost predicate SafelyLeads(start: State, run: seq<Step>, s: State) {
    Leads(start, run, s) && !EverTakes(start, run)
  }

  /** Reached without ever taking the entry of a worker at work on it. */
  ghost predicate SafelyReachable(s: State) {
    exists start, run :: SafelyLeads(start, run, s)
  }

  lemma SafeInvariants(s: State)
    requires SafelyReachable(s)
    ensures Reachable(s) && TokenInv(s) && Balanced(s) && HasRecords(s)
  {
    var start, run :| SafelyLeads(start, run, s);
    assert Leads(start, run, s);
    OverlapsIffTakes(start, run);
    ReachableTokenInv(s);
    ReachableBalanced(s);
  }

  /** In safe runs no task is in the hands of two workers. */
  lemma NoDoubleRun(s: State, v: nat, w: nat, t: nat)
    requires SafelyReachable(s)
    requires WorksOn(s, v, t) && WorksOn(s, w, t)
    ensures v == w && t !in s.taskQueue
  {
    SafeInvariants(s);
    OneWorker(s, v, w, t);
    NotAlsoWaiting(s, v, t);
  }

  /** Distinct busy workers have distinct records. */
  lemma {:induction false} BusyAtMost(ws: seq<Worker>, q: seq<Record>)
    requires forall w :: 0 <= w < |ws| && Busy(ws[w]) ==> Record(w, ws[w].phase.task) in q
    ensures Count(Busy, ws) <= |q|
  {
    if ws == [] {
    } else {
      var n := |ws| - 1;
      if Busy(ws[n]) {
        var i :| 0 <= i < |q| && q[i] == Record(n, ws[n].phase.task);
        var rest := q[..i] + q[i + 1..];
        forall w | 0 <= w < n && Busy(ws[w])
          ensures Record(w, ws[..n][w].phase.task) in rest
        {
          var j :| 0 <= j < |q| && q[j] == Record(w, ws[w].phase.task);
          assert rest[if j < i then j else j - 1] == q[j];
        }
        BusyAtMost(ws[..n], rest);
      } else {
        BusyAtMost(ws[..n], q);
      }
    }
  }

  lemma {:induction false} BusySplits(ws: seq<Worker>)
    ensures Count(Busy, ws) == Count(IsRegistered, ws) + Count(IsFinished, ws)
  {
    if ws == [] {
    } else {
      BusySplits(ws[..|ws| - 1]);
    }
  }

  lemma BusyHaveRecords(s: State)
    requires SafelyReachable(s)
    ensures Executing(s) + Concluding(s) <= RecordTotal(s) + |s.log.lostRecords|
  {
    SafeInvariants(s);
    BusyAtMost(s.workers, AllRecords(s));
    BusySplits(s.workers);
  }

  /** Every BLPop beyond the accepted tasks is matched by a missed LRem or a worker killed while registered. */
  lemma PopsBounded(s: State)
    requires SafelyReachable(s)
    ensures |s.log.popped| + |s.taskQueue|
            <= |s.accepted| + s.log.missed + s.log.killedRegistered + s.log.killedFinished
  {
    SafeInvariants(s);
    BusyHaveRecords(s);
    PopAccount(s);
  }

  /** The same for outcomes: only a missed LRem or a kill between Incr and LRem makes an extra one. */
  lemma OutcomesBounded(s: State)
    requires SafelyReachable(s)
    ensures s.taskCompleted <= |s.log.finished| <= |s.accepted| + s.log.missed + s.log.killedFinished
  {
    SafeInvariants(s);
    BusyHaveRecords(s);
  }

  /** An LRem misses only while its entry is in transit: on temp_queue, in the Master's hand, or lost with a Master. */
  lemma MissedOnlyInTransit(s: State, w: nat)
    requires SafelyReachable(s) && Enabled(s, Remove(w))
    requires Apply(s, Remove(w)).log.missed > s.log.missed
    ensures Record(w, s.workers[w].phase.task) in s.temp + Hand(s) + s.log.lostRecords
  {
    SafeInvariants(s);
    var r := Record(w, s.workers[w].phase.task);
    assert SameValue(s, r, r);
  }

  /** An LRem issued outside a pass, with temp_queue empty and no Master crash behind it, always removes an entry. */
  lemma RemoveHits(s: State, w: nat)
    requires SafelyReachable(s) && Enabled(s, Remove(w))
    requires s.master.Outside? && s.temp == [] && s.log.lostRecords == []
    ensures |Apply(s, Remove(w)).processing| == |s.processing| - 1
    ensures Apply(s, Remove(w)).log.missed == s.log.missed
  {
    if Apply(s, Remove(w)).log.missed > s.log.missed {
      MissedOnlyInTransit(s, w);
    }
  }

  // ---- Quiet runs ----

  predicate Quiet(s: State, a: Step) { a.StartWorker? ==> !s.master.Draining? }

  predicate QuietRun(s: State, run: seq<Step>)
    requires ValidRun(s, run)
    decreases |run|
  {
    run == [] || (Quiet(s, run[0]) && QuietRun(Apply(s, run[0]), run[1..]))
  }

  ghost predicate QuietlyLeads(start: State, run: seq<Step>, s: State) {
    Leads(start, run, s) && QuietRun(start, run)
  }

  /** Reached without a worker starting while the Master drains. */
  ghost predicate QuietlyReachable(s: State) {
    exists start, run :: QuietlyLeads(start, run, s)
  }

  ghost predicate SnapshotComplete(s: State) {
    s.master.Draining? ==> forall w :: IsLive(s, w) ==> w in s.master.snapshot
  }

  lemma CompleteTakesNothing(s: State, a: Step)
    requires SnapshotComplete(s) && Enabled(s, a)
    ensures !Takes(s, a)
  {
    if a.DrainPush? {
      var w := s.master.hand.value.worker;
      assert IsLive(s, w) ==> w in s.master.snapshot;
    }
  }

  lemma SnapshotCompleteStep(s: State, a: Step)
    requires SnapshotComplete(s) && Enabled(s, a) && Quiet(s, a)
    ensures SnapshotComplete(Apply(s, a)) && !Takes(s, a)
  {
    var s' := Apply(s, a);
    if s'.master.Draining? {
      forall w | IsLive(s', w)
        ensures w in s'.master.snapshot
      {
        assert IsLive(s, w);
      }
    }
    CompleteTakesNothing(s, a);
  }

  lemma {:induction false} QuietRunIsSafe(s: State, run: seq<Step>)
    requires SnapshotComplete(s) && ValidRun(s, run) && QuietRun(s, run)
    ensures !EverTakes(s, run) && SnapshotComplete(Final(s, run))
    decreases |run|
  {
    if run == [] {
    } else {
      SnapshotCompleteStep(s, run[0]);
      QuietRunIsSafe(Apply(s, run[0]), run[1..]);
    }
  }

  /** A quiet run is safe, and its snapshots miss no running worker. */
  lemma QuietIsSafe(s: State)
    requires QuietlyReachable(s)
    ensures SafelyReachable(s) && SnapshotComplete(s)
  {
    var start, run :| QuietlyLeads(start, run, s);
    QuietRunIsSafe(start, run);
    assert SafelyLeads(start, run, s);
  }

  /** In a quiet run the pass never re-queues the entry of a worker that is still running, idle or not. */
  lemma NeverRequeuesRunning(s: State)
    requires QuietlyReachable(s) && Enabled(s, DrainPush)
    ensures IsLive(s, s.master.hand.value.worker) ==>
              Apply(s, DrainPush).taskQueue == s.taskQueue
              && Apply(s, DrainPush).temp == s.temp + [s.master.hand.value]
  {
    QuietIsSafe(s);
  }
}
