/**
 Progress under interleaving: how long the recovery loops can go on while workers keep
 working, what a drain has recovered when it ends, and that a worker told to shut down
 stops within five of its own steps.
 */
module Progress {
  import opened Lists
  import opened Protocol
  import opened Tokens
  import opened Ledger
  import opened SafeRuns

  function StepsTaken(kind: Step -> bool, run: seq<Step>): nat { Count(kind, run) }

  predicate IsDrainPop(a: Step) { a.DrainPop? }

  predicate IsRestoreMove(a: Step) { a.RestoreMove? }

  predicate IsAccept(a: Step) { a.PushRequest? }

  /** A worker that the snapshot does not list registers a task. */
  predicate RegistersLate(snapshot: set<nat>, a: Step) { a.Register? && a.w !in snapshot }

  function IsLate(snapshot: set<nat>): Step -> bool { (a: Step) => RegistersLate(snapshot, a) }

  lemma HeadCount(kind: Step -> bool, run: seq<Step>)
    requires run != []
    ensures StepsTaken(kind, run) == (if kind(run[0]) then 1 else 0) + StepsTaken(kind, run[1..])
  {
    CountTail(kind, run);
  }

  // ---- The drain loop ----

  function Foreign(snapshot: set<nat>): Record -> bool { (r: Record) => r.worker !in snapshot }

  /** What the drain can still pop, counting an entry of an absent worker twice since it comes back as a task. */
  function DrainWork(s: State, snapshot: set<nat>): nat {
    |s.processing| + Count(Foreign(snapshot), s.processing) + Count(Foreign(snapshot), Hand(s))
    + Holders(s) + |s.taskQueue|
  }

  /** The run stays inside the drain loop. */
  predicate DrainRun(s: State, snapshot: set<nat>, run: seq<Step>)
    requires ValidRun(s, run)
    decreases |run|
  {
    && s.master.Draining? && s.master.snapshot == snapshot
    && (run == [] || DrainRun(Apply(s, run[0]), snapshot, run[1..]))
  }

  lemma ForeignHand(snapshot: set<nat>, r: Record)
    ensures Count(Foreign(snapshot), [r]) == if r.worker in snapshot then 0 else 1
  {
    assert [r] == [] + [r];
    CountAppend(Foreign(snapshot), [], r);
  }

  lemma DrainMasterStep(s: State, snapshot: set<nat>, a: Step)
    requires s.master.Draining? && s.master.snapshot == snapshot && Enabled(s, a)
    requires a.DrainPop? || a.DrainPush?
    ensures DrainWork(Apply(s, a), snapshot) + (if a.DrainPop? then 1 else 0) <= DrainWork(s, snapshot)
  {
    CountsOfStep(s, a);
    if a.DrainPop? {
      CountTail(Foreign(snapshot), s.processing);
      ForeignHand(snapshot, s.processing[0]);
    } else {
      ForeignHand(snapshot, s.master.hand.value);
    }
  }

  lemma RemoveShortens(s: State, snapshot: set<nat>, w: nat)
    requires Enabled(s, Remove(w))
    ensures var s' := RemoveRecord(s, w);
      |s'.processing| <= |s.processing| && Count(Foreign(snapshot), s'.processing) <= Count(Foreign(snapshot), s.processing)
  {
    var i := FirstEqual(s, s.processing, Record(w, s.workers[w].phase.task));
    if i < |s.processing| {
      CountRemoveAt(Foreign(snapshot), s.processing, i);
    }
  }

  lemma DrainWorkerStep(s: State, snapshot: set<nat>, a: Step)
    requires s.master.Draining? && s.master.snapshot == snapshot && Enabled(s, a)
    requires a.Register? || a.Remove?
    ensures DrainWork(Apply(s, a), snapshot) <= DrainWork(s, snapshot) + if RegistersLate(snapshot, a) then 1 else 0
  {
    CountsOfStep(s, a);
    if a.Register? {
      CountAppend(Foreign(snapshot), s.processing, Record(a.w, s.workers[a.w].phase.task));
    } else {
      RemoveShortens(s, snapshot, a.w);
    }
  }

  lemma DrainOtherStep(s: State, snapshot: set<nat>, a: Step)
    requires s.master.Draining? && s.master.snapshot == snapshot && Enabled(s, a)
    requires !a.DrainPop? && !a.DrainPush? && !a.Register? && !a.Remove? && Apply(s, a).master.Draining?
    ensures DrainWork(Apply(s, a), snapshot) <= DrainWork(s, snapshot) + if a.PushRequest? then 1 else 0
  {
    CountsOfStep(s, a);
  }

  lemma DrainStep(s: State, snapshot: set<nat>, a: Step)
    requires s.master.Draining? && s.master.snapshot == snapshot && Enabled(s, a)
    requires Apply(s, a).master.Draining?
    ensures DrainWork(Apply(s, a), snapshot) + (if a.DrainPop? then 1 else 0)
            <= DrainWork(s, snapshot) + (if a.PushRequest? then 1 else 0)
               + if RegistersLate(snapshot, a) then 1 else 0
  {
    if a.DrainPop? || a.DrainPush? {
      DrainMasterStep(s, snapshot, a);
    } else if a.Register? || a.Remove? {
      DrainWorkerStep(s, snapshot, a);
    } else {
      DrainOtherStep(s, snapshot, a);
    }
  }

  lemma {:induction false} DrainPotential(s: State, snapshot: set<nat>, run: seq<Step>)
    requires ValidRun(s, run) && DrainRun(s, snapshot, run)
    ensures StepsTaken(IsDrainPop, run) + DrainWork(Final(s, run), snapshot)
            <= DrainWork(s, snapshot) + StepsTaken(IsAccept, run) + StepsTaken(IsLate(snapshot), run)
    decreases |run|
  {
    if run == [] {
    } else {
      var s1 := Apply(s, run[0]);
      assert DrainRun(s1, snapshot, run[1..]);
      DrainStep(s, snapshot, run[0]);
      DrainPotential(s1, snapshot, run[1..]);
      HeadCount(IsDrainPop, run);
      HeadCount(IsAccept, run);
      HeadCount(IsLate(snapshot), run);
    }
  }

  /**
   The drain loop in every interleaving: from the snapshot on, the number of successful LPops
   is bounded by what was there at the start, the requests accepted meanwhile, and the
   registrations by workers that started meanwhile.
   */
  lemma DrainBound(s: State, run: seq<Step>)
    requires Enabled(s, TakeSnapshot)
    requires ValidRun(Apply(s, TakeSnapshot), run)
    requires DrainRun(Apply(s, TakeSnapshot), LiveWorkers(s), run)
    ensures StepsTaken(IsDrainPop, run)
            <= |s.processing| + Count(Foreign(LiveWorkers(s)), s.processing) + Holders(s) + |s.taskQueue|
               + StepsTaken(IsAccept, run) + StepsTaken(IsLate(LiveWorkers(s)), run)
  {
    var s1 := Apply(s, TakeSnapshot);
    DrainPotential(s1, LiveWorkers(s), run);
    assert Hand(s1) == [];
  }

  /** When only workers of the snapshot register, what was there and what is accepted is all there is to pop. */
  lemma DrainEnds(s: State, run: seq<Step>)
    requires Enabled(s, TakeSnapshot)
    requires ValidRun(Apply(s, TakeSnapshot), run)
    requires DrainRun(Apply(s, TakeSnapshot), LiveWorkers(s), run)
    requires forall i :: 0 <= i < |run| ==> !RegistersLate(LiveWorkers(s), run[i])
    ensures StepsTaken(IsDrainPop, run)
            <= |s.processing| + Count(Foreign(LiveWorkers(s)), s.processing) + Holders(s) + |s.taskQueue|
               + StepsTaken(IsAccept, run)
  {
    DrainBound(s, run);
    CountZero(IsLate(LiveWorkers(s)), run);
  }

  // ---- What the drain recovers ----

  /** The entry is still to be drained, or its task was pushed after the first `n` pushes. */
  ghost predicate Recovering(s: State, r: Record, n: nat) {
    && n <= |s.log.pushed|
    && (r in s.processing || Hand(s) == [r] || r.task in s.log.pushed[n..])
  }

  lemma PushesKept(s: State, a: Step, n: nat)
    requires Enabled(s, a) && n <= |s.log.pushed|
    ensures s.log.pushed <= Apply(s, a).log.pushed
    ensures s.log.pushed[n..] <= Apply(s, a).log.pushed[n..]
  {
  }

  lemma GoneStaysGone(s: State, a: Step, w: nat)
    requires Enabled(s, a) && w < |s.workers| && !IsLive(s, w)
    ensures w < |Apply(s, a).workers| && !IsLive(Apply(s, a), w)
  {
  }

  lemma RecoveringStep(s: State, snapshot: set<nat>, a: Step, r: Record, n: nat)
    requires s.master.Draining? && s.master.snapshot == snapshot && Enabled(s, a) && Apply(s, a).master.Draining?
    requires Recovering(s, r, n) && r.worker < |s.workers| && !IsLive(s, r.worker) && r.worker !in snapshot
    ensures Recovering(Apply(s, a), r, n)
  {
    var s' := Apply(s, a);
    PushesKept(s, a, n);
    if r.task in s.log.pushed[n..] {
      assert r.task in s'.log.pushed[n..];
    } else if a.Remove? && r in s.processing {
      RemovalSparesOthers(s, a.w, r);
    } else if a.DrainPop? {
      assert s.processing == [s.processing[0]] + s.processing[1..];
    } else if a.DrainPush? && Hand(s) == [r] {
      assert s'.log.pushed[n..] == s.log.pushed[n..] + [r.task];
    }
  }

  lemma {:induction false} RecoveringRun(s: State, snapshot: set<nat>, run: seq<Step>, r: Record, n: nat)
    requires ValidRun(s, run) && DrainRun(s, snapshot, run)
    requires Recovering(s, r, n) && r.worker < |s.workers| && !IsLive(s, r.worker) && r.worker !in snapshot
    ensures Recovering(Final(s, run), r, n)
    decreases |run|
  {
    if run == [] {
    } else {
      var s1 := Apply(s, run[0]);
      assert DrainRun(s1, snapshot, run[1..]);
      RecoveringStep(s, snapshot, run[0], r, n);
      GoneStaysGone(s, run[0], r.worker);
      RecoveringRun(s1, snapshot, run[1..], r, n);
    }
  }

  /**
   Recovery in every interleaving: once a drain has emptied processing_queue, whatever workers
   and clients did meanwhile, every entry that a worker no longer running had there at the
   snapshot has had its task pushed back onto task_queue since.
   */
  lemma DrainRecovers(s: State, run: seq<Step>, r: Record)
    requires Reachable(s) && Enabled(s, TakeSnapshot)
    requires ValidRun(Apply(s, TakeSnapshot), run) && DrainRun(Apply(s, TakeSnapshot), LiveWorkers(s), run)
    requires Final(Apply(s, TakeSnapshot), run).processing == Hand(Final(Apply(s, TakeSnapshot), run)) == []
    requires r in s.processing && !IsLive(s, r.worker)
    ensures var pushed := Final(Apply(s, TakeSnapshot), run).log.pushed;
      |s.log.pushed| <= |pushed| && r.task in pushed[|s.log.pushed|..]
  {
    ReachableTokenInv(s);
    assert r in Records(s) && RecordOwned(s, r);
    RecoveringRun(Apply(s, TakeSnapshot), LiveWorkers(s), run, r, |s.log.pushed|);
  }

  /** The entries that the drain still has to deal with. */
  function ToDrain(s: State): seq<Record> { s.processing + Hand(s) }

  /** How often `t` was pushed after the first `n` pushes. */
  function PushesSince(s: State, t: nat, n: nat): nat
    requires n <= |s.log.pushed|
  {
    Count(IsTask(t), s.log.pushed[n..])
  }

  /** At most one push since then, and after it no entry of `t` that the drain would push again. */
  ghost predicate PushedOnce(s: State, snapshot: set<nat>, t: nat, n: nat) {
    && n <= |s.log.pushed| && PushesSince(s, t, n) <= 1
    && (PushesSince(s, t, n) == 1 ==> forall r :: r in ToDrain(s) && r.task == t ==> r.worker in snapshot)
  }

  lemma PushCounted(s: State, s': State, x: nat, t: nat, n: nat)
    requires n <= |s.log.pushed| && s'.log.pushed == s.log.pushed + [x]
    ensures PushesSince(s', t, n) == PushesSince(s, t, n) + if x == t then 1 else 0
  {
    assert s'.log.pushed[n..] == s.log.pushed[n..] + [x];
    CountAppend(IsTask(t), s.log.pushed[n..], x);
  }

  lemma ToDrainFrom(s: State, a: Step, r: Record)
    requires s.master.Draining? && Enabled(s, a) && r in ToDrain(Apply(s, a))
    ensures r in ToDrain(s) || (a.Register? && r.worker == a.w)
  {
    if a.DrainPop? {
      assert s.processing == [s.processing[0]] + s.processing[1..];
    }
  }

  /** The Master pushes the task in its hand: that was its only token, so no entry of it is left. */
  lemma RequeueOnce(s: State, snapshot: set<nat>, t: nat, n: nat)
    requires TokenInv(s) && s.master.Draining? && s.master.snapshot == snapshot && Enabled(s, DrainPush)
    requires s.master.hand.value.worker !in snapshot && PushedOnce(s, snapshot, t, n)
    ensures PushedOnce(PushFromHand(s), snapshot, t, n)
  {
    var r, s' := s.master.hand.value, PushFromHand(s);
    PushCounted(s, s', r.task, t, n);
    assert Hand(s) == [r] && r in ToDrain(s) && ToDrain(s') == s.processing;
    if r.task == t {
      assert Accounted(s, t);
      HandCount(r, t);
      forall q | q in s.processing
        ensures q.task != t
      {
        var i :| 0 <= i < |s.processing| && s.processing[i] == q;
        if q.task == t {
          CountPositive(OfTask(t), s.processing, i);
        }
      }
    }
  }

  lemma PushedOnceStep(s: State, snapshot: set<nat>, a: Step, t: nat, n: nat)
    requires TokenInv(s) && s.master.Draining? && s.master.snapshot == snapshot && Enabled(s, a)
    requires !RegistersLate(snapshot, a) && t < |s.accepted| && PushedOnce(s, snapshot, t, n)
    ensures PushedOnce(Apply(s, a), snapshot, t, n)
  {
    var s' := Apply(s, a);
    if a.DrainPush? && s.master.hand.value.worker !in snapshot {
      RequeueOnce(s, snapshot, t, n);
    } else {
      if a.PushRequest? {
        PushCounted(s, s', |s.accepted|, t, n);
      } else {
        assert s'.log.pushed == s.log.pushed;
      }
      forall r | r in ToDrain(s') && r.task == t && PushesSince(s', t, n) == 1
        ensures r.worker in snapshot
      {
        ToDrainFrom(s, a, r);
      }
    }
  }

  lemma {:induction false} PushedOnceRun(s: State, snapshot: set<nat>, run: seq<Step>, t: nat, n: nat)
    requires TokenInv(s) && ValidRun(s, run) && DrainRun(s, snapshot, run)
    requires forall i :: 0 <= i < |run| ==> !RegistersLate(snapshot, run[i])
    requires t < |s.accepted| && PushedOnce(s, snapshot, t, n)
    ensures PushedOnce(Final(s, run), snapshot, t, n)
    decreases |run|
  {
    if run == [] {
    } else {
      var s1 := Apply(s, run[0]);
      assert DrainRun(s1, snapshot, run[1..]);
      TokenInvStep(s, run[0]);
      PushedOnceStep(s, snapshot, run[0], t, n);
      PushedOnceRun(s1, snapshot, run[1..], t, n);
    }
  }

  /** When only workers of the snapshot register, that push is the only one: the drain re-queues no task twice. */
  lemma DrainRecoversOnce(s: State, run: seq<Step>, r: Record)
    requires Reachable(s) && Enabled(s, TakeSnapshot)
    requires ValidRun(Apply(s, TakeSnapshot), run) && DrainRun(Apply(s, TakeSnapshot), LiveWorkers(s), run)
    requires Final(Apply(s, TakeSnapshot), run).processing == Hand(Final(Apply(s, TakeSnapshot), run)) == []
    requires r in s.processing && !IsLive(s, r.worker)
    requires forall i :: 0 <= i < |run| ==> !RegistersLate(LiveWorkers(s), run[i])
    ensures var pushed := Final(Apply(s, TakeSnapshot), run).log.pushed;
      |s.log.pushed| <= |pushed| && Count(IsTask(r.task), pushed[|s.log.pushed|..]) == 1
  {
    var s1, n := Apply(s, TakeSnapshot), |s.log.pushed|;
    ReachableTokenInv(s);
    TokenInvStep(s, TakeSnapshot);
    assert Accounted(s, r.task);
    var i :| 0 <= i < |s.processing| && s.processing[i] == r;
    CountPositive(OfTask(r.task), s.processing, i);
    PushedOnceRun(s1, LiveWorkers(s), run, r.task, n);
    DrainRecovers(s, run, r);
    var since := Final(s1, run).log.pushed[n..];
    var j :| 0 <= j < |since| && since[j] == r.task;
    CountPositive(IsTask(r.task), since, j);
  }

  // ---- The restore loop ----

  predicate RestoreRun(s: State, run: seq<Step>)
    requires ValidRun(s, run)
    decreases |run|
  {
    s.master.Restoring? && (run == [] || RestoreRun(Apply(s, run[0]), run[1..]))
  }

  /** Only the Master writes temp_queue, so each LMove brings the restore loop one entry closer to its end. */
  lemma {:induction false} RestoreBound(s: State, run: seq<Step>)
    requires ValidRun(s, run) && RestoreRun(s, run)
    ensures StepsTaken(IsRestoreMove, run) + |Final(s, run).temp| == |s.temp|
    decreases |run|
  {
    if run == [] {
    } else {
      var s1 := Apply(s, run[0]);
      assert RestoreRun(s1, run[1..]);
      RestoreBound(s1, run[1..]);
      HeadCount(IsRestoreMove, run);
    }
  }

  // ---- Graceful exit ----

  /** A step the worker itself takes. */
  predicate OwnStep(w: nat, a: Step) {
    a == Pop(w) || a == Register(w) || (a.Finish? && a.w == w) || a == Remove(w) || a == CheckFlag(w) || a == CancelPop(w)
  }

  function Own(w: nat): Step -> bool { (a: Step) => OwnStep(w, a) }

  predicate IsPop(w: nat, a: Step) { a == Pop(w) }

  function PopsOf(w: nat): Step -> bool { (a: Step) => IsPop(w, a) }

  /** Own steps left to a worker whose flag is set. */
  function StepsLeft(wk: Worker): nat {
    match wk.phase
    case Polling => 5
    case Holding(_) => 4
    case Registered(_) => 3
    case Finished(_) => 2
    case Checking => 1
    case Exited => 0
    case Killed => 0
  }

  lemma FlaggedRemove(s: State, w: nat)
    requires Enabled(s, Remove(w)) && s.workers[w].flagged
    ensures var after := RemoveRecord(s, w).workers[w]; after.flagged && after.phase == Checking
  {
  }

  lemma FlaggedPop(s: State, w: nat)
    requires Enabled(s, Pop(w)) && s.workers[w].flagged
    ensures var after := PopTask(s, w).workers[w]; after.flagged && after.phase.Holding?
  {
  }

  lemma FlaggedOther(s: State, a: Step)
    requires Enabled(s, a) && (a.Register? || a.Finish? || a.CheckFlag? || a.CancelPop?) && s.workers[a.w].flagged
    ensures var after := Apply(s, a).workers[a.w];
      after.flagged && StepsLeft(after) < StepsLeft(s.workers[a.w])
  {
  }

  lemma FlaggedTurn(s: State, a: Step)
    requires Enabled(s, a) && OfWorker(a) && s.workers[a.w].flagged
    ensures var s' := Apply(s, a);
      && a.w < |s'.workers| && s'.workers[a.w].flagged
      && StepsLeft(s'.workers[a.w]) + (if OwnStep(a.w, a) then 1 else 0) <= StepsLeft(s.workers[a.w])
  {
    match a
    case Remove(w) => FlaggedRemove(s, w);
    case Pop(w) => FlaggedPop(s, w);
    case SignalWorker(_) =>
    case KillWorker(_) =>
    case _ => FlaggedOther(s, a);
  }

  lemma FlaggedStep(s: State, w: nat, a: Step)
    requires w < |s.workers| && s.workers[w].flagged && Enabled(s, a)
    ensures var s' := Apply(s, a);
      && w < |s'.workers| && s'.workers[w].flagged
      && StepsLeft(s'.workers[w]) + (if OwnStep(w, a) then 1 else 0) <= StepsLeft(s.workers[w])
  {
    if OfWorker(a) && a.w == w {
      FlaggedTurn(s, a);
    } else {
      OtherWorkersKept(s, a, w);
    }
  }

  /** Once told to stop, a worker takes at most five more steps and completes at most one more BLPop. */
  lemma {:induction false} ShutdownBound(s: State, w: nat, run: seq<Step>)
    requires w < |s.workers| && s.workers[w].flagged && ValidRun(s, run)
    ensures StepsTaken(Own(w), run) <= StepsLeft(s.workers[w])
    ensures StepsTaken(PopsOf(w), run) <= if s.workers[w].phase.Polling? then 1 else 0
    decreases |run|
  {
    if run == [] {
    } else {
      FlaggedStep(s, w, run[0]);
      ShutdownBound(Apply(s, run[0]), w, run[1..]);
      HeadCount(Own(w), run);
      HeadCount(PopsOf(w), run);
    }
  }

  /** A worker told to stop is never stuck: until it has exited, one of its own steps can be taken. */
  lemma ShutdownNotStuck(s: State, w: nat) returns (a: Step)
    requires IsLive(s, w) && s.workers[w].flagged
    ensures Enabled(s, a) && OwnStep(w, a)
  {
    a := match s.workers[w].phase
      case Polling => CancelPop(w)
      case Holding(_) => Register(w)
      case Registered(_) => Finish(w, Completed)
      case Finished(_) => Remove(w)
      case _ => CheckFlag(w);
  }

  /** So from the signal on it takes at most five steps and completes at most one BLPop, whatever else happens. */
  lemma SignalStops(s: State, w: nat, run: seq<Step>)
    requires IsLive(s, w) && ValidRun(Apply(s, SignalWorker(w)), run)
    ensures StepsTaken(Own(w), run) <= 5 && StepsTaken(PopsOf(w), run) <= 1
  {
    ShutdownBound(Apply(s, SignalWorker(w)), w, run);
  }

  lemma OneMore(s: State, a: Step, w: nat, rest: seq<Step>)
    requires Enabled(s, a) && OwnStep(w, a) && ValidRun(Apply(s, a), rest)
    ensures ValidRun(s, [a] + rest) && Final(s, [a] + rest) == Final(Apply(s, a), rest)
    ensures StepsTaken(Own(w), [a] + rest) == 1 + StepsTaken(Own(w), rest)
    ensures StepsTaken(PopsOf(w), [a] + rest) == (if a.Pop? then 1 else 0) + StepsTaken(PopsOf(w), rest)
  {
    StepThen(s, a, rest);
    HeadCount(Own(w), [a] + rest);
    HeadCount(PopsOf(w), [a] + rest);
  }

  lemma LastThree(s: State, w: nat, t: nat) returns (run: seq<Step>)
    requires InPhase(s, w, Registered(t)) && s.workers[w].flagged
    ensures ValidRun(s, run) && InPhase(Final(s, run), w, Exited)
    ensures StepsTaken(Own(w), run) == 3 && StepsTaken(PopsOf(w), run) == 0
  {
    var finish := Finish(w, Completed);
    var s1 := Apply(s, finish);
    var s2 := Apply(s1, Remove(w));
    OneMore(s2, CheckFlag(w), w, []);
    OneMore(s1, Remove(w), w, [CheckFlag(w)] + []);
    OneMore(s, finish, w, [Remove(w)] + ([CheckFlag(w)] + []));
    run := [finish] + ([Remove(w)] + ([CheckFlag(w)] + []));
  }

  /** Both bounds are met: a signalled worker that gets one more task from BLPop runs it to the end. */
  lemma SignalBoundReached(s: State, w: nat) returns (run: seq<Step>)
    requires InPhase(s, w, Polling) && s.taskQueue != []
    ensures ValidRun(Apply(s, SignalWorker(w)), run) && InPhase(Final(Apply(s, SignalWorker(w)), run), w, Exited)
    ensures StepsTaken(Own(w), run) == 5 && StepsTaken(PopsOf(w), run) == 1
  {
    var s1 := Apply(s, SignalWorker(w));
    var s2 := Apply(s1, Pop(w));
    var rest := LastThree(Apply(s2, Register(w)), w, s.taskQueue[0]);
    OneMore(s2, Register(w), w, rest);
    OneMore(s1, Pop(w), w, [Register(w)] + rest);
    run := [Pop(w)] + ([Register(w)] + rest);
  }

  lemma GoneTakesNoStep(s: State, a: Step, w: nat)
    requires Enabled(s, a) && w < |s.workers| && !IsLive(s, w)
    ensures w < |Apply(s, a).workers| && Apply(s, a).workers[w] == s.workers[w] && !OwnStep(w, a)
  {
    if OfWorker(a) {
      assert a.w != w;
    }
    OtherWorkersKept(s, a, w);
  }

  lemma {:induction false} GoneForGood(s: State, w: nat, run: seq<Step>)
    requires w < |s.workers| && !IsLive(s, w) && ValidRun(s, run)
    ensures w < |Final(s, run).workers| && Final(s, run).workers[w] == s.workers[w]
    ensures StepsTaken(Own(w), run) == 0
    decreases |run|
  {
    if run == [] {
    } else {
      GoneTakesNoStep(s, run[0], w);
      GoneForGood(Apply(s, run[0]), w, run[1..]);
      HeadCount(Own(w), run);
    }
  }

  /** A killed worker takes no further step, and no other worker is touched by the kill. */
  lemma KillStops(s: State, w: nat, run: seq<Step>)
    requires IsLive(s, w) && ValidRun(Apply(s, KillWorker(w)), run)
    ensures StepsTaken(Own(w), run) == 0
    ensures !IsLive(Final(Apply(s, KillWorker(w)), run), w)
    ensures forall v :: 0 <= v < |s.workers| && v != w ==> Apply(s, KillWorker(w)).workers[v] == s.workers[v]
  {
    GoneForGood(Apply(s, KillWorker(w)), w, run);
  }

  /** The bookkeeping of one worker. */
  ghost predicate WorkerBooks(wk: Worker) {
    && (!wk.phase.Killed? ==>
          && wk.pops == wk.registrations + (if wk.phase.Holding? then 1 else 0)
          && wk.registrations == wk.removals + (if wk.phase.Registered? || wk.phase.Finished? then 1 else 0))
    && (!wk.flagged ==> wk.latePops == 0)
    && (wk.phase.Polling? ==> wk.latePops == 0)
    && wk.latePops <= 1
    && (wk.phase.Exited? ==> wk.flagged)
  }

  ghost predicate AllBooks(s: State) {
    forall w :: 0 <= w < |s.workers| ==> WorkerBooks(s.workers[w])
  }

  lemma BooksTurn(s: State, a: Step)
    requires Enabled(s, a) && OfWorker(a) && WorkerBooks(s.workers[a.w])
    ensures a.w < |Apply(s, a).workers| && WorkerBooks(Apply(s, a).workers[a.w])
  {
  }

  lemma NewWorkerFresh(s: State, a: Step)
    requires Enabled(s, a)
    ensures Apply(s, a).workers == s.workers + [FRESH_WORKER] || |Apply(s, a).workers| == |s.workers|
  {
  }

  lemma BooksStep(s: State, a: Step)
    requires AllBooks(s) && Enabled(s, a)
    ensures AllBooks(Apply(s, a))
  {
    NewWorkerFresh(s, a);
    forall w | 0 <= w < |Apply(s, a).workers|
      ensures WorkerBooks(Apply(s, a).workers[w])
    {
      if OfWorker(a) && a.w == w {
        BooksTurn(s, a);
      } else if w < |s.workers| {
        OtherWorkersKept(s, a, w);
      }
    }
  }

  lemma {:induction false} BooksRun(s: State, run: seq<Step>)
    requires AllBooks(s) && ValidRun(s, run)
    ensures AllBooks(Final(s, run))
    decreases |run|
  {
    if run == [] {
    } else {
      BooksStep(s, run[0]);
      BooksRun(Apply(s, run[0]), run[1..]);
    }
  }

  predicate IsRegister(w: nat, a: Step) { a == Register(w) }

  function RegistersOf(w: nat): Step -> bool { (a: Step) => IsRegister(w, a) }

  predicate IsRemove(w: nat, a: Step) { a == Remove(w) }

  function RemovesOf(w: nat): Step -> bool { (a: Step) => IsRemove(w, a) }

  /** Worker `w`, as it will start if it has not yet. */
  function WorkerAt(s: State, w: nat): Worker { if w < |s.workers| then s.workers[w] else FRESH_WORKER }

  /** BLPops that worker `w` completes in the run after it was told to stop. */
  function LatePops(s: State, w: nat, run: seq<Step>): nat
    requires ValidRun(s, run)
    decreases |run|
  {
    if run == [] then 0
    else (if run[0] == Pop(w) && WorkerAt(s, w).flagged then 1 else 0) + LatePops(Apply(s, run[0]), w, run[1..])
  }

  lemma BooksOfOwnStep(s: State, a: Step)
    requires Enabled(s, a) && OfWorker(a)
    ensures var before, after := s.workers[a.w], Apply(s, a).workers[a.w];
      && after.pops == before.pops + (if a.Pop? then 1 else 0)
      && after.registrations == before.registrations + (if a.Register? then 1 else 0)
      && after.removals == before.removals + (if a.Remove? then 1 else 0)
      && after.latePops == before.latePops + (if a.Pop? && before.flagged then 1 else 0)
      && (after.flagged <==> before.flagged || a.SignalWorker?)
  {
  }

  lemma OtherWorkersSame(s: State, a: Step, w: nat)
    requires Enabled(s, a) && !(OfWorker(a) && a.w == w)
    ensures WorkerAt(Apply(s, a), w) == WorkerAt(s, w)
  {
    NewWorkerFresh(s, a);
    if w < |s.workers| {
      OtherWorkersKept(s, a, w);
    }
  }

  /** The bookkeeping of a worker counts its steps in the run, and its flag is set by the signal alone. */
  lemma {:induction false} BooksAreSteps(s: State, w: nat, run: seq<Step>)
    requires ValidRun(s, run)
    ensures var before, after := WorkerAt(s, w), WorkerAt(Final(s, run), w);
      && after.pops == before.pops + StepsTaken(PopsOf(w), run)
      && after.registrations == before.registrations + StepsTaken(RegistersOf(w), run)
      && after.removals == before.removals + StepsTaken(RemovesOf(w), run)
      && after.latePops == before.latePops + LatePops(s, w, run)
      && (after.flagged <==> before.flagged || SignalWorker(w) in run)
    decreases |run|
  {
    if run == [] {
    } else {
      var a := run[0];
      BooksAreSteps(Apply(s, a), w, run[1..]);
      HeadCount(PopsOf(w), run);
      HeadCount(RegistersOf(w), run);
      HeadCount(RemovesOf(w), run);
      if OfWorker(a) && a.w == w {
        BooksOfOwnStep(s, a);
      } else {
        OtherWorkersSame(s, a, w);
      }
    }
  }

  /**
   Graceful exit: a worker exits only on the flag, holding nothing, having registered every
   task it popped and issued the LRem for every task it registered; and no worker completes
   two BLPops after its flag is set.
   */
  lemma GracefulExit(s: State, w: nat)
    requires Reachable(s) && w < |s.workers|
    ensures s.workers[w].latePops <= 1
    ensures s.workers[w].phase.Exited? ==>
      s.workers[w].flagged && s.workers[w].pops == s.workers[w].registrations == s.workers[w].removals
  {
    var start, run :| Leads(start, run, s);
    BooksRun(start, run);
  }

  predicate IsCheck(w: nat, a: Step) { a == CheckFlag(w) }

  function ChecksOf(w: nat): Step -> bool { (a: Step) => IsCheck(w, a) }

  lemma ChecksOfOwnStep(s: State, a: Step)
    requires Enabled(s, a) && OfWorker(a) && !a.KillWorker?
    ensures (if a.CheckFlag? then 1 else 0) + (if Apply(s, a).workers[a.w].phase.Checking? then 1 else 0)
         == (if a.Remove? then 1 else 0) + (if s.workers[a.w].phase.Checking? then 1 else 0)
  {
  }

  /** A worker looks at its flag once after each LRem, and at no other time. */
  lemma {:induction false} ChecksFollowRemoves(s: State, w: nat, run: seq<Step>)
    requires ValidRun(s, run) && !WorkerAt(Final(s, run), w).phase.Killed?
    ensures StepsTaken(ChecksOf(w), run) + (if WorkerAt(Final(s, run), w).phase.Checking? then 1 else 0)
         == StepsTaken(RemovesOf(w), run) + if WorkerAt(s, w).phase.Checking? then 1 else 0
    decreases |run|
  {
    if run == [] {
    } else {
      var a := run[0];
      if a == KillWorker(w) {
        GoneForGood(Apply(s, a), w, run[1..]);
        assert false;
      }
      ChecksFollowRemoves(Apply(s, a), w, run[1..]);
      HeadCount(ChecksOf(w), run);
      HeadCount(RemovesOf(w), run);
      if OfWorker(a) && a.w == w {
        ChecksOfOwnStep(s, a);
      } else {
        OtherWorkersSame(s, a, w);
      }
    }
  }

  /** The same over the steps of the run: a worker that has exited was signalled and has left nothing half done. */
  lemma ExitedSteps(start: State, w: nat, run: seq<Step>)
    requires Initial(start) && ValidRun(start, run) && w < |Final(start, run).workers|
    ensures LatePops(start, w, run) <= 1
    ensures Final(start, run).workers[w].phase.Exited? ==>
      && SignalWorker(w) in run
      && StepsTaken(PopsOf(w), run) == StepsTaken(RegistersOf(w), run) == StepsTaken(RemovesOf(w), run)
      && StepsTaken(ChecksOf(w), run) == StepsTaken(RemovesOf(w), run)
  {
    if Final(start, run).workers[w].phase.Exited? {
      ChecksFollowRemoves(start, w, run);
    }
    assert Leads(start, run, Final(start, run));
    GracefulExit(Final(start, run), w);
    BooksAreSteps(start, w, run);
  }
}
