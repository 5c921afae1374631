/**
 Concrete runs that mark the limits of the protocol: more completions than requests
 without any kill, the kills that lose a task, and two workers on one task when a worker
 starts during the drain.
 */
module Examples {
  import opened Lists
  import opened Protocol
  import opened Tokens
  import opened SafeRuns
  import opened Progress

  /** Nobody kills a worker or the Master, and no command fails. */
  predicate Gentle(a: Step) {
    !a.KillWorker? && !a.CrashMaster? && !a.RejectRequest? && a != DrainStop(true) && a != RestoreStop(true)
  }

  predicate AllGentle(run: seq<Step>) { forall i :: 0 <= i < |run| ==> Gentle(run[i]) }

  ghost predicate GentlyLeads(start: State, run: seq<Step>, s: State, quiet: bool) {
    Leads(start, run, s) && AllGentle(run) && (quiet ==> QuietRun(start, run))
  }

  /** A run of gentle steps, with `quiet` also a quiet one, leads from `start` to `s`. */
  ghost predicate Gently(start: State, s: State, quiet: bool) {
    exists run :: GentlyLeads(start, run, s, quiet)
  }

  lemma {:induction false} RunThen(s: State, run: seq<Step>, a: Step)
    requires ValidRun(s, run) && Enabled(Final(s, run), a)
    ensures ValidRun(s, run + [a]) && Final(s, run + [a]) == Apply(Final(s, run), a)
    ensures QuietRun(s, run) && Quiet(Final(s, run), a) ==> QuietRun(s, run + [a])
    decreases |run|
  {
    if run == [] {
      assert run + [a] == [a];
      assert ValidRun(Apply(s, a), []);
    } else {
      RunThen(Apply(s, run[0]), run[1..], a);
      assert (run + [a])[1..] == run[1..] + [a];
    }
  }

  lemma Then(start: State, s: State, quiet: bool, a: Step) returns (s': State)
    requires Gently(start, s, quiet) && Enabled(s, a) && Gentle(a) && (quiet ==> Quiet(s, a))
    ensures s' == Apply(s, a) && Gently(start, s', quiet)
  {
    s' := Apply(s, a);
    var run :| GentlyLeads(start, run, s, quiet);
    RunThen(start, run, a);
    assert GentlyLeads(start, run + [a], s', quiet);
  }

  lemma GentlyReached(start: State, s: State, quiet: bool)
    requires Gently(start, s, quiet)
    ensures Reachable(s) && Gently(start, s, false) && (quiet ==> QuietlyReachable(s))
  {
    var run :| GentlyLeads(start, run, s, quiet);
    assert Leads(start, run, s) && GentlyLeads(start, run, s, false);
    assert quiet ==> QuietlyLeads(start, run, s);
  }

  const ONLY_RECORD := Record(0, 0)

  /** One accepted task, nothing killed: the part of the state that the runs below move through. */
  ghost predicate Scene(s: State, queue: seq<nat>, processing: seq<Record>, temp: seq<Record>,
                        phases: seq<Phase>, master: Master, completed: nat)
  {
    && s.accepted == ["p"] && s.totalRequest == 1 && s.taskCompleted == completed
    && s.taskQueue == queue && s.processing == processing && s.temp == temp && s.master == master
    && |s.workers| == |phases|
    && (forall w :: 0 <= w < |phases| ==>
          s.workers[w].phase == phases[w] && (s.workers[w].flagged ==> phases[w].Exited?))
    && s.log.killedRegistered == 0 && s.log.killedFinished == 0
    && s.log.lostHeld == [] && s.log.lostRecords == []
  }

  lemma Submit(start: State) returns (s: State)
    requires Initial(start)
    ensures Gently(start, s, true) && Scene(s, [0], [], [], [], Outside, 0)
    ensures s.log.missed == 0 && s.log.popped == []
  {
    assert GentlyLeads(start, [], start, true);
    s := Then(start, start, true, CountRequest);
    s := Then(start, s, true, PushRequest("p"));
  }

  lemma StartAndRegister(start: State, s0: State) returns (s: State)
    requires Gently(start, s0, true) && Scene(s0, [0], [], [], [], Outside, 0)
    ensures Gently(start, s, true) && Scene(s, [], [ONLY_RECORD], [], [Registered(0)], Outside, 0)
  {
    s := Then(start, s0, true, StartWorker);
    s := Then(start, s, true, Pop(0));
    s := Then(start, s, true, Register(0));
  }

  lemma TakeInHand(start: State, s0: State) returns (s: State)
    requires Gently(start, s0, true) && Scene(s0, [], [ONLY_RECORD], [], [Registered(0)], Outside, 0)
    ensures Gently(start, s, true) && Scene(s, [], [], [], [Registered(0)], Draining({0}, Some(ONLY_RECORD)), 0)
  {
    assert LiveWorkers(s0) == {0};
    s := Then(start, s0, true, TakeSnapshot);
    s := Then(start, s, true, DrainPop);
  }

  lemma MissTheEntry(start: State, s0: State) returns (s: State)
    requires Gently(start, s0, true) && Scene(s0, [], [], [], [Registered(0)], Draining({0}, Some(ONLY_RECORD)), 0)
    ensures Gently(start, s, true) && Scene(s, [], [], [], [Checking], Draining({0}, Some(ONLY_RECORD)), 1)
  {
    s := Then(start, s0, true, Finish(0, Completed));
    s := Then(start, s, true, Remove(0));
  }

  lemma LeaveGracefully(start: State, s0: State) returns (s: State)
    requires Gently(start, s0, true) && Scene(s0, [], [], [], [Checking], Draining({0}, Some(ONLY_RECORD)), 1)
    ensures Gently(start, s, true) && Scene(s, [], [], [], [Exited], Draining({0}, Some(ONLY_RECORD)), 1)
  {
    s := Then(start, s0, true, SignalWorker(0));
    s := Then(start, s, true, CheckFlag(0));
  }

  lemma SetAside(start: State, s0: State) returns (s: State)
    requires Gently(start, s0, true) && Scene(s0, [], [], [], [Exited], Draining({0}, Some(ONLY_RECORD)), 1)
    ensures Gently(start, s, true) && Scene(s, [], [], [ONLY_RECORD], [Exited], Restoring, 1)
  {
    s := Then(start, s0, true, DrainPush);
    s := Then(start, s, true, DrainStop(false));
  }

  lemma PutBack(start: State, s0: State) returns (s: State)
    requires Gently(start, s0, true) && Scene(s0, [], [], [ONLY_RECORD], [Exited], Restoring, 1)
    ensures Gently(start, s, true) && Scene(s, [], [ONLY_RECORD], [], [Exited], Outside, 1)
  {
    s := Then(start, s0, true, RestoreMove);
    s := Then(start, s, true, RestoreStop(false));
  }

  lemma Requeue(start: State, s0: State) returns (s: State)
    requires Gently(start, s0, true) && Scene(s0, [], [ONLY_RECORD], [], [Exited], Outside, 1)
    ensures Gently(start, s, true) && Scene(s, [0], [], [], [Exited], Draining({}, None), 1)
  {
    assert LiveWorkers(s0) == {};
    s := Then(start, s0, true, TakeSnapshot);
    s := Then(start, s, true, DrainPop);
    s := Then(start, s, true, DrainPush);
  }

  lemma EndPassAndStart(start: State, s0: State) returns (s: State)
    requires Gently(start, s0, true) && Scene(s0, [0], [], [], [Exited], Draining({}, None), 1)
    ensures Gently(start, s, true) && Scene(s, [0], [], [], [Exited, Polling], Outside, 1)
  {
    s := Then(start, s0, true, DrainStop(false));
    s := Then(start, s, true, RestoreStop(false));
    s := Then(start, s, true, StartWorker);
  }

  lemma RunAgain(start: State, s0: State) returns (s: State)
    requires Gently(start, s0, true) && Scene(s0, [0], [], [], [Exited, Polling], Outside, 1)
    ensures Gently(start, s, true) && Scene(s, [], [Record(1, 0)], [], [Exited, Finished(0)], Outside, 2)
  {
    s := Then(start, s0, true, Pop(1));
    s := Then(start, s, true, Register(1));
    s := Then(start, s, true, Finish(1, Completed));
  }

  /**
   Exactly-once fails in a quiet run in which nothing is killed and no command fails: an LRem
   that runs while the Master has the entry in hand removes nothing, and the next pass
   re-queues it.
   */
  lemma MoreCompletionsThanRequests(start: State) returns (s: State)
    requires Initial(start)
    ensures Gently(start, s, true) && QuietlyReachable(s)
    ensures s.log.killedRegistered == 0 && s.log.killedFinished == 0 && s.log.lostHeld == [] && s.log.lostRecords == []
    ensures s.totalRequest == 1 && s.taskCompleted == 2
  {
    s := Submit(start);
    s := StartAndRegister(start, s);
    s := TakeInHand(start, s);
    s := MissTheEntry(start, s);
    s := LeaveGracefully(start, s);
    s := SetAside(start, s);
    s := PutBack(start, s);
    s := Requeue(start, s);
    s := EndPassAndStart(start, s);
    s := RunAgain(start, s);
    GentlyReached(start, s, true);
  }

  // ---- What a kill can lose ----

  /** An accepted task that has reached no outcome and that nothing will bring back. */
  ghost predicate Nowhere(s: State, t: nat) {
    && t < |s.accepted| && t !in s.log.finished
    && !Waiting(s, t) && !InHand(s, t) && !OnRecord(s, t) && !UnderExecution(s, t)
  }

  lemma OneStep(s: State, a: Step) returns (s': State)
    requires Reachable(s) && Enabled(s, a)
    ensures s' == Apply(s, a) && Reachable(s')
  {
    s' := Apply(s, a);
    ReachableThen(s, a);
  }

  /** One kill is enough in the window between BLPop and RPush. */
  lemma KillBeforeRegisteringLoses(start: State) returns (s: State)
    requires Initial(start)
    ensures Reachable(s) && Nowhere(s, 0) && s.log.lostHeld == [0]
  {
    assert Leads(start, [], start);
    s := OneStep(start, CountRequest);
    s := OneStep(s, PushRequest("p"));
    s := OneStep(s, StartWorker);
    s := OneStep(s, Pop(0));
    s := OneStep(s, KillWorker(0));
  }

  lemma RegisterFirst(start: State) returns (s: State)
    requires Initial(start)
    ensures Reachable(s) && s.accepted == ["p"] && s.taskQueue == [] && s.processing == [ONLY_RECORD] && s.temp == []
    ensures s.master == Outside && |s.workers| == 1 && s.workers[0].phase == Registered(0)
    ensures s.log.finished == [] && s.log.lostHeld == [] && s.log.lostRecords == []
  {
    assert Leads(start, [], start);
    s := OneStep(start, CountRequest);
    s := OneStep(s, PushRequest("p"));
    s := OneStep(s, StartWorker);
    s := OneStep(s, Pop(0));
    s := OneStep(s, Register(0));
  }

  lemma EntryInHand(start: State) returns (s: State)
    requires Initial(start)
    ensures Reachable(s) && s.accepted == ["p"] && s.taskQueue == [] && s.processing == [] && s.temp == []
    ensures Hand(s) == [ONLY_RECORD] && |s.workers| == 1 && s.workers[0].phase == Registered(0)
    ensures s.log.finished == [] && s.log.lostHeld == [] && s.log.lostRecords == []
  {
    s := RegisterFirst(start);
    s := OneStep(s, TakeSnapshot);
    s := OneStep(s, DrainPop);
  }

  /** After it, it takes two: the worker, and a Master that has just popped the worker's entry. */
  lemma WorkerAndMasterLose(start: State) returns (s: State)
    requires Initial(start)
    ensures Reachable(s) && Nowhere(s, 0) && s.log.lostHeld == [] && s.log.lostRecords == [ONLY_RECORD]
  {
    s := EntryInHand(start);
    s := OneStep(s, KillWorker(0));
    s := OneStep(s, CrashMaster);
    assert Records(s) == [];
  }

  // ---- A late starter ----

  ghost predicate Unpaid(start: State, s: State, popped: seq<nat>) {
    Gently(start, s, false) && s.log.missed == 0 && s.log.popped == popped
  }

  lemma StartLate(start: State, s0: State) returns (s: State)
    requires Unpaid(start, s0, []) && Scene(s0, [0], [], [], [], Outside, 0)
    ensures Unpaid(start, s, []) && Scene(s, [0], [], [], [Polling], Draining({}, None), 0)
  {
    assert LiveWorkers(s0) == {};
    s := Then(start, s0, false, TakeSnapshot);
    s := Then(start, s, false, StartWorker);
  }

  lemma RegisterLate(start: State, s0: State) returns (s: State)
    requires Unpaid(start, s0, []) && Scene(s0, [0], [], [], [Polling], Draining({}, None), 0)
    ensures Unpaid(start, s, [0]) && Scene(s, [], [ONLY_RECORD], [], [Registered(0)], Draining({}, None), 0)
  {
    s := Then(start, s0, false, Pop(0));
    s := Then(start, s, false, Register(0));
  }

  lemma TakenAway(start: State, s0: State) returns (s: State)
    requires Unpaid(start, s0, [0]) && Scene(s0, [], [ONLY_RECORD], [], [Registered(0)], Draining({}, None), 0)
    ensures Unpaid(start, s, [0]) && Scene(s, [0], [], [], [Registered(0)], Draining({}, None), 0)
  {
    s := Then(start, s0, false, DrainPop);
    s := Then(start, s, false, DrainPush);
  }

  lemma SecondStart(start: State, s0: State) returns (s: State)
    requires Unpaid(start, s0, [0]) && Scene(s0, [0], [], [], [Registered(0)], Draining({}, None), 0)
    ensures Unpaid(start, s, [0]) && Scene(s, [0], [], [], [Registered(0), Polling], Outside, 0)
  {
    s := Then(start, s0, false, DrainStop(false));
    s := Then(start, s, false, RestoreStop(false));
    s := Then(start, s, false, StartWorker);
  }

  lemma SecondRegister(start: State, s0: State) returns (s: State)
    requires Unpaid(start, s0, [0]) && Scene(s0, [0], [], [], [Registered(0), Polling], Outside, 0)
    ensures Unpaid(start, s, [0, 0]) && Scene(s, [], [Record(1, 0)], [], [Registered(0), Registered(0)], Outside, 0)
  {
    s := Then(start, s0, false, Pop(1));
    s := Then(start, s, false, Register(1));
  }

  /** A worker that starts after the snapshot loses its entry, and a second worker gets the same task. */
  lemma LateStarterRunsTwice(start: State) returns (s: State)
    requires Initial(start)
    ensures Gently(start, s, false) && Reachable(s)
    ensures WorksOn(s, 0, 0) && WorksOn(s, 1, 0)
    ensures |s.log.popped| == 2 && |s.accepted| == 1
    ensures s.log.missed == 0 && s.log.killedRegistered == 0 && s.log.killedFinished == 0
    ensures s.log.lostHeld == [] && s.log.lostRecords == []
  {
    s := Submit(start);
    GentlyReached(start, s, true);
    s := StartLate(start, s);
    s := RegisterLate(start, s);
    s := TakenAway(start, s);
    s := SecondStart(start, s);
    s := SecondRegister(start, s);
    GentlyReached(start, s, false);
  }

  /** A worker outside the snapshot executes the one task there is, during the drain. */
  predicate Chasing(s: State, w: nat, t: nat) {
    && s.master.Draining? && w !in s.master.snapshot && s.master.hand.None?
    && s.processing == [Record(w, t)] && s.taskQueue == []
    && w < |s.workers| && s.workers[w].phase == Registered(t) && !s.workers[w].flagged
  }

  function Chase(w: nat): seq<Step> {
    [DrainPop, DrainPush, Finish(w, Completed), Remove(w), CheckFlag(w), Pop(w), Register(w)]
  }

  lemma StepRun(s: State, a: Step)
    requires Enabled(s, a)
    ensures ValidRun(s, [a]) && Final(s, [a]) == Apply(s, a)
  {
    StepThen(s, a, []);
    assert [a] + [] == [a];
  }

  /** A late starter that is done with the task it lost, while the task waits again. */
  predicate Chased(s: State, w: nat, t: nat) {
    && s.master.Draining? && w !in s.master.snapshot && s.master.hand.None?
    && s.processing == [] && s.taskQueue == [t]
    && w < |s.workers| && s.workers[w].phase == Finished(t) && !s.workers[w].flagged
  }

  lemma BackToPolling(s: State, w: nat, t: nat)
    requires Chased(s, w, t)
    ensures var run := [Remove(w), CheckFlag(w)];
      && ValidRun(s, run)
      && Final(s, run) == Apply(Apply(s, Remove(w)), CheckFlag(w))
      && InPhase(Final(s, run), w, Polling)
  {
    StepRun(Apply(s, Remove(w)), CheckFlag(w));
    StepThen(s, Remove(w), [CheckFlag(w)]);
  }

  lemma TakeAgain(s: State, w: nat, t: nat)
    requires s.master.Draining? && w !in s.master.snapshot && s.master.hand.None?
    requires s.processing == [] && s.taskQueue == [t]
    requires InPhase(s, w, Polling) && !s.workers[w].flagged
    ensures var run := [Pop(w), Register(w)];
            ValidRun(s, run) && Chasing(Final(s, run), w, t) && Final(s, run).accepted == s.accepted
  {
    StepRun(Apply(s, Pop(w)), Register(w));
    StepThen(s, Pop(w), [Register(w)]);
  }

  lemma ChaseTail(s: State, w: nat, t: nat)
    requires Chased(s, w, t)
    ensures var run := [Remove(w), CheckFlag(w), Pop(w), Register(w)];
            ValidRun(s, run) && Chasing(Final(s, run), w, t) && Final(s, run).accepted == s.accepted
  {
    BackToPolling(s, w, t);
    TakeAgain(Final(s, [Remove(w), CheckFlag(w)]), w, t);
    RunConcat(s, [Remove(w), CheckFlag(w)], [Pop(w), Register(w)]);
    assert [Remove(w), CheckFlag(w)] + [Pop(w), Register(w)] == [Remove(w), CheckFlag(w), Pop(w), Register(w)];
  }

  /** The Master takes the entry away and the worker comes to its outcome. */
  lemma ChaseHead(s: State, w: nat, t: nat) returns (s3: State)
    requires Chasing(s, w, t)
    ensures var run := [DrainPop, DrainPush, Finish(w, Completed)]; ValidRun(s, run) && Final(s, run) == s3
    ensures Chased(s3, w, t) && s3.accepted == s.accepted
  {
    var s1 := Apply(s, DrainPop);
    var s2 := Apply(s1, DrainPush);
    s3 := Apply(s2, Finish(w, Completed));
    StepRun(s2, Finish(w, Completed));
    StepThen(s1, DrainPush, [Finish(w, Completed)]);
    StepThen(s, DrainPop, [DrainPush, Finish(w, Completed)]);
  }

  lemma ChaseOnce(s: State, w: nat, t: nat)
    requires Chasing(s, w, t)
    ensures ValidRun(s, Chase(w)) && Chasing(Final(s, Chase(w)), w, t)
    ensures Final(s, Chase(w)).accepted == s.accepted
  {
    var head, tail := [DrainPop, DrainPush, Finish(w, Completed)], [Remove(w), CheckFlag(w), Pop(w), Register(w)];
    var s3 := ChaseHead(s, w, t);
    ChaseTail(s3, w, t);
    RunConcat(s, head, tail);
    assert Chase(w) == head + tail;
  }

  lemma ChasingHappens(start: State) returns (s: State)
    requires Initial(start)
    ensures Reachable(s) && Chasing(s, 0, 0)
  {
    s := Submit(start);
    GentlyReached(start, s, true);
    s := StartLate(start, s);
    s := RegisterLate(start, s);
    GentlyReached(start, s, false);
  }

  lemma OnePopPerChase(w: nat)
    ensures StepsTaken(IsDrainPop, Chase(w)) == 1
  {
    CountTail(IsDrainPop, Chase(w));
    CountZero(IsDrainPop, Chase(w)[1..]);
  }

  /** Late registrations have no bound, and neither has the drain: one task can be popped any number of times. */
  lemma {:induction false} DrainUnbounded(s: State, w: nat, t: nat, n: nat) returns (run: seq<Step>)
    requires Chasing(s, w, t)
    ensures ValidRun(s, run) && Chasing(Final(s, run), w, t)
    ensures StepsTaken(IsDrainPop, run) == n && Final(s, run).accepted == s.accepted
    ensures forall i :: 0 <= i < |run| ==> run[i] in Chase(w)
    decreases n
  {
    if n == 0 {
      run := [];
    } else {
      ChaseOnce(s, w, t);
      var rest := DrainUnbounded(Final(s, Chase(w)), w, t, n - 1);
      RunConcat(s, Chase(w), rest);
      run := Chase(w) + rest;
      CountConcat(IsDrainPop, Chase(w), rest);
      OnePopPerChase(w);
    }
  }
}
