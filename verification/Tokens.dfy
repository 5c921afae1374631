/**
 Token accounting: each accepted task has exactly one token, and the token is on
 task_queue, in an unregistered hand, in a registration record, lost with a killed
 process, or retired by an LRem. Retired tasks have already reached an outcome.
 At-least-once delivery and the single-token law follow.
 */
module Tokens {
  import opened Lists
  import opened Protocol

  function IsTask(t: nat): nat -> bool { x => x == t }

  function OfTask(t: nat): Record -> bool { (r: Record) => r.task == t }

  function Carries(t: nat): Worker -> bool { (wk: Worker) => wk.phase == Holding(t) }

  /** Number of tokens of task `t` that can still lead to an execution. */
  function Tokens(s: State, t: nat): nat {
    Count(IsTask(t), s.taskQueue) + Count(Carries(t), s.workers)
    + Count(OfTask(t), s.processing) + Count(OfTask(t), s.temp) + Count(OfTask(t), Hand(s))
  }

  function Gone(s: State, t: nat): nat {
    Count(IsTask(t), s.log.lostHeld) + Count(OfTask(t), s.log.lostRecords) + Count(IsTask(t), s.log.retired)
  }

  /** The exact account of one identity. */
  ghost predicate Accounted(s: State, t: nat) {
    Tokens(s, t) + Gone(s, t) == if t < |s.accepted| then 1 else 0
  }

  lemma HandCount(r: Record, t: nat)
    ensures Count(OfTask(t), [r]) == if r.task == t then 1 else 0
  {
    assert [r] == [] + [r];
    CountAppend(OfTask(t), [], r);
  }

  /** A kill turns the task held into a lost one. */
  lemma LostByKilling(s: State, w: nat, t: nat)
    requires IsLive(s, w)
    ensures Count(Carries(t), Kill(s, w).workers) + Count(IsTask(t), Kill(s, w).log.lostHeld)
         == Count(Carries(t), s.workers) + Count(IsTask(t), s.log.lostHeld)
  {
    CountUpdate(Carries(t), s.workers, w, s.workers[w].(phase := Killed));
    if s.workers[w].phase.Holding? {
      CountAppend(IsTask(t), s.log.lostHeld, s.workers[w].phase.task);
    }
  }

  lemma AccountedKill(s: State, w: nat, t: nat)
    requires Accounted(s, t) && IsLive(s, w)
    ensures Accounted(Kill(s, w), t)
  {
    LostByKilling(s, w, t);
  }

  /** An LRem turns the record it takes into a retired task. */
  lemma RetiredByRemove(s: State, w: nat, t: nat)
    requires Enabled(s, Remove(w))
    ensures var s' := RemoveRecord(s, w);
      Count(OfTask(t), s'.processing) + Count(IsTask(t), s'.log.retired)
      == Count(OfTask(t), s.processing) + Count(IsTask(t), s.log.retired)
  {
    var i := FirstEqual(s, s.processing, Record(w, s.workers[w].phase.task));
    if i < |s.processing| {
      CountRemoveAt(OfTask(t), s.processing, i);
      CountAppend(IsTask(t), s.log.retired, s.processing[i].task);
    }
  }

  lemma AccountedRemove(s: State, w: nat, t: nat)
    requires Accounted(s, t) && Enabled(s, Remove(w))
    ensures Accounted(RemoveRecord(s, w), t)
  {
    RetiredByRemove(s, w, t);
    CountUpdate(Carries(t), s.workers, w, RemoveRecord(s, w).workers[w]);
  }

  lemma AccountedDrainPop(s: State, t: nat)
    requires Accounted(s, t) && Enabled(s, DrainPop)
    ensures Accounted(Apply(s, DrainPop), t)
  {
    CountTail(OfTask(t), s.processing);
    HandCount(s.processing[0], t);
  }

  lemma AccountedDrainPush(s: State, t: nat)
    requires Accounted(s, t) && Enabled(s, DrainPush)
    ensures Accounted(PushFromHand(s), t)
  {
    var r := s.master.hand.value;
    HandCount(r, t);
    assert Hand(s) == [r] && Hand(PushFromHand(s)) == [];
    if r.worker in s.master.snapshot {
      CountAppend(OfTask(t), s.temp, r);
    } else {
      CountAppend(IsTask(t), s.taskQueue, r.task);
    }
  }

  lemma AccountedRestore(s: State, t: nat)
    requires Accounted(s, t) && Enabled(s, RestoreMove)
    ensures Accounted(Apply(s, RestoreMove), t)
  {
    CountTail(OfTask(t), s.temp);
    CountAppend(OfTask(t), s.processing, s.temp[0]);
  }

  lemma AccountedCrash(s: State, t: nat)
    requires Accounted(s, t)
    ensures Accounted(Crash(s), t)
  {
    if Hand(s) != [] {
      HandCount(s.master.hand.value, t);
      CountAppend(OfTask(t), s.log.lostRecords, s.master.hand.value);
    }
  }

  lemma AccountedPop(s: State, w: nat, t: nat)
    requires Accounted(s, t) && Enabled(s, Pop(w))
    ensures Accounted(PopTask(s, w), t)
  {
    CountTail(IsTask(t), s.taskQueue);
    CountUpdate(Carries(t), s.workers, w, PopTask(s, w).workers[w]);
  }

  lemma AccountedRegister(s: State, w: nat, t: nat)
    requires Accounted(s, t) && Enabled(s, Register(w))
    ensures Accounted(RegisterTask(s, w), t)
  {
    CountAppend(OfTask(t), s.processing, Record(w, s.workers[w].phase.task));
    CountUpdate(Carries(t), s.workers, w, RegisterTask(s, w).workers[w]);
  }

  /** Worker steps that touch no list. */
  lemma AccountedLocal(s: State, a: Step, t: nat)
    requires Accounted(s, t) && Enabled(s, a)
    requires a.SignalWorker? || a.Finish? || a.CheckFlag? || a.CancelPop?
    ensures Accounted(Apply(s, a), t)
  {
    CountUpdate(Carries(t), s.workers, a.w, Apply(s, a).workers[a.w]);
  }

  lemma QueueCount(q: seq<nat>, x: nat, t: nat)
    ensures Count(IsTask(t), q + [x]) == Count(IsTask(t), q) + if x == t then 1 else 0
  {
    CountAppend(IsTask(t), q, x);
  }

  lemma AccountedPush(s: State, payload: string, t: nat)
    requires Accounted(s, t) && Enabled(s, PushRequest(payload))
    ensures Accounted(Apply(s, PushRequest(payload)), t)
  {
    QueueCount(s.taskQueue, |s.accepted|, t);
    assert Hand(Apply(s, PushRequest(payload))) == Hand(s);
  }

  lemma FreshHandsEmpty(workers: seq<Worker>, t: nat)
    ensures Count(Carries(t), workers + [FRESH_WORKER]) == Count(Carries(t), workers)
  {
    CountAppend(Carries(t), workers, FRESH_WORKER);
  }

  lemma AccountedStart(s: State, t: nat)
    requires Accounted(s, t)
    ensures Accounted(Apply(s, StartWorker), t)
  {
    FreshHandsEmpty(s.workers, t);
    assert Hand(Apply(s, StartWorker)) == Hand(s);
  }

  /** Steps that touch neither a list nor a worker. */
  lemma AccountedOther(s: State, a: Step, t: nat)
    requires Accounted(s, t) && Enabled(s, a)
    requires || a.CountRequest? || a.RejectRequest? || a.TakeSnapshot? || a.DrainStop? || a.RestoreStop?
    ensures Accounted(Apply(s, a), t)
  {
  }

  lemma AccountedMaster(s: State, a: Step, t: nat)
    requires Accounted(s, t) && Enabled(s, a)
    requires a.DrainPop? || a.DrainPush? || a.RestoreMove? || a.CrashMaster?
    ensures Accounted(Apply(s, a), t)
  {
    match a
    case DrainPop => AccountedDrainPop(s, t);
    case DrainPush => AccountedDrainPush(s, t);
    case RestoreMove => AccountedRestore(s, t);
    case CrashMaster => AccountedCrash(s, t);
  }

  lemma AccountedWorker(s: State, a: Step, t: nat)
    requires Accounted(s, t) && Enabled(s, a)
    requires a.KillWorker? || a.Pop? || a.Register? || a.Remove?
    ensures Accounted(Apply(s, a), t)
  {
    match a
    case KillWorker(w) => AccountedKill(s, w, t);
    case Pop(w) => AccountedPop(s, w, t);
    case Register(w) => AccountedRegister(s, w, t);
    case Remove(w) => AccountedRemove(s, w, t);
  }

  lemma AccountedStep(s: State, a: Step, t: nat)
    requires Accounted(s, t) && Enabled(s, a)
    ensures Accounted(Apply(s, a), t)
  {
    if a.PushRequest? {
      AccountedPush(s, a.payload, t);
    } else if a.StartWorker? {
      AccountedStart(s, t);
    } else if a.DrainPop? || a.DrainPush? || a.RestoreMove? || a.CrashMaster? {
      AccountedMaster(s, a, t);
    } else if a.KillWorker? || a.Pop? || a.Register? || a.Remove? {
      AccountedWorker(s, a, t);
    } else if a.SignalWorker? || a.Finish? || a.CheckFlag? || a.CancelPop? {
      AccountedLocal(s, a, t);
    } else {
      AccountedOther(s, a, t);
    }
  }

  /**
   A record belongs to a task that is done, or to the task its worker is executing,
   or to a worker that was killed.
   */
  ghost predicate RecordOwned(s: State, r: Record) {
    && r.worker < |s.workers|
    && (|| r.task in s.log.finished
        || s.workers[r.worker].phase == Registered(r.task)
        || s.workers[r.worker].phase == Killed)
  }

  ghost predicate Owned(s: State) {
    && (forall r :: r in Records(s) ==> RecordOwned(s, r))
    && (forall r :: r in s.log.lostRecords ==> RecordOwned(s, r))
    && (forall w :: 0 <= w < |s.workers| && s.workers[w].phase.Finished? ==>
          s.workers[w].phase.task in s.log.finished)
    && (forall t :: t in s.log.retired ==> t in s.log.finished)
  }

  lemma OwnedRemove(s: State, w: nat)
    requires Owned(s) && Enabled(s, Remove(w))
    ensures var i := FirstEqual(s, s.processing, Record(w, s.workers[w].phase.task));
            i < |s.processing| ==> s.processing[i].worker == w && s.processing[i].task in s.log.finished
  {
    var i := FirstEqual(s, s.processing, Record(w, s.workers[w].phase.task));
    if i < |s.processing| {
      assert s.processing[i] in Records(s);
      assert RecordOwned(s, s.processing[i]);
    }
  }

  lemma RecordsFromMaster(s: State, a: Step, r: Record)
    requires Enabled(s, a) && r in Records(Apply(s, a))
    requires a.DrainPop? || a.DrainPush? || a.RestoreMove? || a.CrashMaster?
    ensures r in Records(s)
  {
    if a.DrainPop? {
      assert s.processing == [s.processing[0]] + s.processing[1..];
    } else if a.RestoreMove? {
      assert s.temp == [s.temp[0]] + s.temp[1..];
    }
  }

  /** Only a registration creates a record. */
  lemma RecordsFrom(s: State, a: Step, r: Record)
    requires Enabled(s, a) && r in Records(Apply(s, a))
    ensures r in Records(s) || (a.Register? && r == Record(a.w, s.workers[a.w].phase.task))
  {
    if a.DrainPop? || a.DrainPush? || a.RestoreMove? || a.CrashMaster? {
      RecordsFromMaster(s, a, r);
    }
  }

  /** Only the entry in the Master's hand can be lost with it. */
  lemma LostFrom(s: State, a: Step, r: Record)
    requires Enabled(s, a) && r in Apply(s, a).log.lostRecords
    ensures r in s.log.lostRecords || r in Records(s)
  {
    if a.CrashMaster? && r !in s.log.lostRecords {
      assert Hand(s) == [r];
    }
  }

  /** What one step may do to a worker that a record depends on. */
  lemma OwnerKept(s: State, a: Step, r: Record)
    requires Owned(s) && Enabled(s, a) && RecordOwned(s, r)
    ensures RecordOwned(Apply(s, a), r)
  {
  }

  lemma FinishedKept(s: State, a: Step)
    requires Owned(s) && Enabled(s, a)
    ensures var s' := Apply(s, a);
            forall w :: 0 <= w < |s'.workers| && s'.workers[w].phase.Finished? ==>
              s'.workers[w].phase.task in s'.log.finished
  {
  }

  lemma OwnedStep(s: State, a: Step)
    requires Owned(s) && Enabled(s, a)
    ensures Owned(Apply(s, a))
  {
    if a.Remove? {
      OwnedRemove(s, a.w);
    }
    forall r | r in Records(Apply(s, a))
      ensures RecordOwned(Apply(s, a), r)
    {
      RecordsFrom(s, a, r);
      if r in Records(s) {
        OwnerKept(s, a, r);
      }
    }
    forall r | r in Apply(s, a).log.lostRecords
      ensures RecordOwned(Apply(s, a), r)
    {
      LostFrom(s, a, r);
      OwnerKept(s, a, r);
    }
    FinishedKept(s, a);
  }

  ghost predicate TokenInv(s: State) {
    Owned(s) && forall t: nat :: Accounted(s, t)
  }

  lemma TokenInvStep(s: State, a: Step)
    requires TokenInv(s) && Enabled(s, a)
    ensures TokenInv(Apply(s, a))
  {
    OwnedStep(s, a);
    forall t: nat
      ensures Accounted(Apply(s, a), t)
    {
      AccountedStep(s, a, t);
    }
  }

  lemma {:induction false} TokenInvRun(s: State, run: seq<Step>)
    requires TokenInv(s) && ValidRun(s, run)
    ensures TokenInv(Final(s, run))
    decreases |run|
  {
    if run == [] {
    } else {
      TokenInvStep(s, run[0]);
      TokenInvRun(Apply(s, run[0]), run[1..]);
    }
  }

  lemma ReachableTokenInv(s: State)
    requires Reachable(s)
    ensures TokenInv(s)
  {
    var start, run :| Leads(start, run, s);
    TokenInvRun(start, run);
  }

  /** By-value LRem only ever takes a record of its own worker, of a task that has already reached an outcome. */
  lemma RemoveTakesFinished(s: State, w: nat)
    requires Reachable(s) && Enabled(s, Remove(w))
    ensures var i := FirstEqual(s, s.processing, Record(w, s.workers[w].phase.task));
            i < |s.processing| ==> s.processing[i].worker == w && s.processing[i].task in s.log.finished
  {
    ReachableTokenInv(s);
    OwnedRemove(s, w);
  }

  /** The task in a worker's hands has been accepted. */
  ghost predicate HandKnown(s: State, w: nat) {
    w < |s.workers| && (s.workers[w].phase.Holding? || s.workers[w].phase.Registered? || s.workers[w].phase.Finished?) ==>
      s.workers[w].phase.task < |s.accepted|
  }

  ghost predicate HandsKnown(s: State) { forall w: nat :: HandKnown(s, w) }

  /** All tasks that wait or are on record have been accepted. */
  ghost predicate ListsKnown(s: State) {
    && (forall i :: 0 <= i < |s.taskQueue| ==> s.taskQueue[i] < |s.accepted|)
    && (forall i :: 0 <= i < |s.processing| ==> s.processing[i].task < |s.accepted|)
    && (forall i :: 0 <= i < |s.temp| ==> s.temp[i].task < |s.accepted|)
  }

  lemma TokensKnown(s: State)
    requires TokenInv(s)
    ensures ListsKnown(s)
  {
    forall i | 0 <= i < |s.taskQueue|
      ensures s.taskQueue[i] < |s.accepted|
    {
      assert Accounted(s, s.taskQueue[i]);
      CountPositive(IsTask(s.taskQueue[i]), s.taskQueue, i);
    }
    forall i | 0 <= i < |s.processing|
      ensures s.processing[i].task < |s.accepted|
    {
      assert Accounted(s, s.processing[i].task);
      CountPositive(OfTask(s.processing[i].task), s.processing, i);
    }
    forall i | 0 <= i < |s.temp|
      ensures s.temp[i].task < |s.accepted|
    {
      assert Accounted(s, s.temp[i].task);
      CountPositive(OfTask(s.temp[i].task), s.temp, i);
    }
  }

  lemma HandsKnownStep(s: State, a: Step)
    requires TokenInv(s) && HandsKnown(s) && Enabled(s, a)
    ensures HandsKnown(Apply(s, a))
  {
    TokensKnown(s);
    forall w: nat
      ensures HandKnown(Apply(s, a), w)
    {
      assert HandKnown(s, w);
    }
  }

  lemma {:induction false} HandsKnownRun(s: State, run: seq<Step>)
    requires TokenInv(s) && HandsKnown(s) && ValidRun(s, run)
    ensures HandsKnown(Final(s, run))
    decreases |run|
  {
    if run == [] {
    } else {
      TokenInvStep(s, run[0]);
      HandsKnownStep(s, run[0]);
      HandsKnownRun(Apply(s, run[0]), run[1..]);
    }
  }

  lemma ReachableKnown(s: State)
    requires Reachable(s)
    ensures ListsKnown(s) && HandsKnown(s)
  {
    var start, run :| Leads(start, run, s);
    HandsKnownRun(start, run);
    ReachableTokenInv(s);
    TokensKnown(s);
  }

  /**
   LRem by value, in the terms of the program: it removes the first entry that has the worker's
   own name and the payload of the task it has just executed, and nothing when there is none.
   */
  lemma RemoveByValue(s: State, w: nat) returns (i: nat)
    requires Reachable(s) && Enabled(s, Remove(w))
    ensures i <= |s.processing| && s.workers[w].phase.task < |s.accepted|
    ensures forall j :: 0 <= j < |s.processing| ==> s.processing[j].task < |s.accepted|
    ensures var payload := s.accepted[s.workers[w].phase.task];
      && (forall j :: 0 <= j < i ==> !(s.processing[j].worker == w && s.accepted[s.processing[j].task] == payload))
      && (i < |s.processing| ==> s.processing[i].worker == w && s.accepted[s.processing[i].task] == payload)
    ensures Apply(s, Remove(w)).processing
         == if i < |s.processing| then s.processing[..i] + s.processing[i + 1..] else s.processing
  {
    ReachableKnown(s);
    assert HandKnown(s, w);
    i := FirstEqual(s, s.processing, Record(w, s.workers[w].phase.task));
    FirstEqualByPayload(s, s.processing, Record(w, s.workers[w].phase.task));
  }

  /** Where a task that is not done can be found. */
  ghost predicate Waiting(s: State, t: nat) { t in s.taskQueue }

  ghost predicate InHand(s: State, t: nat) {
    exists w :: 0 <= w < |s.workers| && s.workers[w].phase == Holding(t)
  }

  ghost predicate OnRecord(s: State, t: nat) {
    exists r :: r in Records(s) && r.task == t
  }

  ghost predicate UnderExecution(s: State, t: nat) {
    exists w :: 0 <= w < |s.workers| && s.workers[w].phase == Registered(t)
  }

  /**
   Lost with a worker killed between BLPop and RPush, or with two processes: a Master killed
   between LPop and RPush, holding the entry of a worker that was killed too.
   */
  ghost predicate LostByKill(s: State, t: nat) {
    || t in s.log.lostHeld
    || exists r :: r in s.log.lostRecords && r.task == t && InPhase(s, r.worker, Killed)
  }

  lemma RecordCount(s: State, t: nat)
    ensures Count(OfTask(t), Records(s))
         == Count(OfTask(t), s.processing) + Count(OfTask(t), s.temp) + Count(OfTask(t), Hand(s))
  {
    CountConcat(OfTask(t), s.processing + s.temp, Hand(s));
    CountConcat(OfTask(t), s.processing, s.temp);
  }

  /**
   At-least-once, in every interleaving: an accepted task has reached an outcome, or
   waits on task_queue, or is in the hand of a running worker, or has a record, or is being
   executed, or went down with a worker killed between BLPop and RPush, or with a worker and a
   Master that held its entry between LPop and RPush. A crash of the Master alone loses nothing.
   */
  lemma AtLeastOnce(s: State, t: nat)
    requires Reachable(s)
    requires t < |s.accepted|
    ensures || t in s.log.finished || Waiting(s, t) || InHand(s, t) || OnRecord(s, t) || UnderExecution(s, t)
            || LostByKill(s, t)
  {
    ReachableTokenInv(s);
    assert Accounted(s, t);
    RecordCount(s, t);
    if Count(IsTask(t), s.taskQueue) > 0 {
      var i := CountWitness(IsTask(t), s.taskQueue);
    } else if Count(Carries(t), s.workers) > 0 {
      var i := CountWitness(Carries(t), s.workers);
    } else if Count(OfTask(t), Records(s)) > 0 {
      var i := CountWitness(OfTask(t), Records(s));
      assert Records(s)[i] in Records(s);
    } else if Count(IsTask(t), s.log.lostHeld) > 0 {
      var i := CountWitness(IsTask(t), s.log.lostHeld);
    } else if Count(OfTask(t), s.log.lostRecords) > 0 {
      var i := CountWitness(OfTask(t), s.log.lostRecords);
      assert RecordOwned(s, s.log.lostRecords[i]);
    } else {
      var i := CountWitness(IsTask(t), s.log.retired);
    }
  }

  /** No task is ever in two places at once, and a lost or retired task is nowhere. */
  lemma SingleToken(s: State, t: nat)
    requires Reachable(s)
    ensures Tokens(s, t) + Gone(s, t) == if t < |s.accepted| then 1 else 0
  {
    ReachableTokenInv(s);
    assert Accounted(s, t);
  }
}
