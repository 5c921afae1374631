/**
 The queue protocol as a transition system.

 Each Redis command is one atomic step; between two commands anything may
 interleave. A task is named by the position at which it was accepted, so equal
 payloads keep distinct identities although the code only ever compares values.
 A worker is named by the position at which it started, so worker names are never
 reused. `Log` holds history that the program itself does not store.
 */
module Protocol {
  import opened Lists

  datatype Phase =
    | Polling                  // inside BLPop
    | Holding(task: nat)       // popped, not yet registered
    | Registered(task: nat)    // RPush done, executing
    | Finished(task: nat)      // outcome reached (Incr done for a known type), LRem still to come
    | Checking                 // LRem done, about to read the shutdown flag
    | Exited
    | Killed

  datatype Worker = Worker(
    phase: Phase,
    flagged: bool,             // isShuttingDown
    pops: nat,
    registrations: nat,
    removals: nat,             // LRem commands issued
    latePops: nat)             // BLPops completed after the flag was set

  const FRESH_WORKER := Worker(Polling, false, 0, 0, 0, 0)

  /** An entry of processing_queue or temp_queue. */
  datatype Record = Record(worker: nat, task: nat)

  datatype Master =
    | Outside
    | Draining(snapshot: set<nat>, hand: Option<Record>)
    | Restoring

  datatype Log = Log(
    handlers: nat,             // Request handlers between Incr and RPush
    rejected: nat,
    pushed: seq<nat>,          // every push onto task_queue
    popped: seq<nat>,          // every BLPop
    finished: seq<nat>,        // every outcome reached
    retired: seq<nat>,         // tasks whose record an LRem removed
    lostHeld: seq<nat>,        // tasks in the hand of a worker when it was killed
    lostRecords: seq<Record>,  // entries in the Master's hand when it died
    recovered: nat,            // entries moved back to task_queue
    missed: nat,               // LRems that removed nothing
    killedRegistered: nat,
    killedFinished: nat)

  datatype State = State(
    accepted: seq<string>,     // payload of each accepted task
    taskQueue: seq<nat>,
    processing: seq<Record>,
    temp: seq<Record>,
    workers: seq<Worker>,
    master: Master,
    totalRequest: nat,
    taskCompleted: nat,
    log: Log)

  /** An empty Redis, no workers, no Master pass under way. */
  predicate Initial(s: State) {
    && s.accepted == [] && s.taskQueue == [] && s.processing == [] && s.temp == [] && s.workers == []
    && s.master.Outside? && s.totalRequest == 0 && s.taskCompleted == 0
    && s.log.handlers == 0 && s.log.rejected == 0 && s.log.pushed == [] && s.log.popped == []
    && s.log.finished == [] && s.log.retired == [] && s.log.lostHeld == [] && s.log.lostRecords == []
    && s.log.recovered == 0 && s.log.missed == 0 && s.log.killedRegistered == 0 && s.log.killedFinished == 0
  }

  datatype Outcome = Completed | UnknownType | CorruptPayload

  datatype Step =
    | CountRequest
    | PushRequest(payload: string)
    | RejectRequest
    | StartWorker
    | SignalWorker(w: nat)
    | KillWorker(w: nat)
    | Pop(w: nat)
    | Register(w: nat)
    | Finish(w: nat, outcome: Outcome)
    | Remove(w: nat)
    | CheckFlag(w: nat)
    | CancelPop(w: nat)
    | TakeSnapshot
    | DrainPop
    | DrainPush
    | DrainStop(failed: bool)
    | RestoreMove
    | RestoreStop(failed: bool)
    | CrashMaster

  predicate Live(wk: Worker) { !wk.phase.Exited? && !wk.phase.Killed? }

  predicate IsLive(s: State, w: nat) { w < |s.workers| && Live(s.workers[w]) }

  /** What ContainerList reports: the containers that are running. */
  function LiveWorkers(s: State): (live: set<nat>)
    ensures forall w :: w in live <==> IsLive(s, w)
  {
    set w | 0 <= w < |s.workers| && Live(s.workers[w])
  }

  predicate InPhase(s: State, w: nat, p: Phase) { w < |s.workers| && s.workers[w].phase == p }

  function Payload(s: State, task: nat): string {
    if task < |s.accepted| then s.accepted[task] else ""
  }

  /** Do two entries read the same in Redis? The encoded pair has the worker and the payload, not the identity. */
  predicate SameValue(s: State, a: Record, b: Record) {
    a.worker == b.worker && Payload(s, a.task) == Payload(s, b.task)
  }

  /** Where LRem finds the first entry equal in value to `r`, or |q|. */
  function FirstEqual(s: State, q: seq<Record>, r: Record): (i: nat)
    ensures i <= |q|
    ensures i < |q| ==> SameValue(s, q[i], r)
    ensures forall j :: 0 <= j < i ==> !SameValue(s, q[j], r)
  {
    if q == [] then 0
    else if SameValue(s, q[0], r) then 0
    else 1 + FirstEqual(s, q[1..], r)
  }

  /** For accepted tasks that is the first entry with the worker of `r` and the payload its task was accepted with. */
  lemma FirstEqualByPayload(s: State, q: seq<Record>, r: Record)
    requires r.task < |s.accepted| && forall j :: 0 <= j < |q| ==> q[j].task < |s.accepted|
    ensures var i := FirstEqual(s, q, r);
      && (i < |q| ==> q[i].worker == r.worker && s.accepted[q[i].task] == s.accepted[r.task])
      && (forall j :: 0 <= j < i ==> !(q[j].worker == r.worker && s.accepted[q[j].task] == s.accepted[r.task]))
  {
    assert forall j :: 0 <= j < FirstEqual(s, q, r) ==> !SameValue(s, q[j], r);
  }

  predicate Enabled(s: State, a: Step) {
    match a
    case CountRequest => true
    case PushRequest(_) => s.log.handlers > 0
    case RejectRequest => s.log.handlers > 0
    case StartWorker => true
    case SignalWorker(w) => IsLive(s, w)
    case KillWorker(w) => IsLive(s, w)
    case Pop(w) => InPhase(s, w, Polling) && s.taskQueue != []
    case Register(w) => w < |s.workers| && s.workers[w].phase.Holding?
    case Finish(w, _) => w < |s.workers| && s.workers[w].phase.Registered?
    case Remove(w) => w < |s.workers| && s.workers[w].phase.Finished?
    case CheckFlag(w) => InPhase(s, w, Checking)
    case CancelPop(w) => InPhase(s, w, Polling) && s.workers[w].flagged
    case TakeSnapshot => s.master.Outside?
    case DrainPop => s.master.Draining? && s.master.hand.None? && s.processing != []
    case DrainPush => s.master.Draining? && s.master.hand.Some?
    case DrainStop(failed) => s.master.Draining? && s.master.hand.None? && (failed || s.processing == [])
    case RestoreMove => s.master.Restoring? && s.temp != []
    case RestoreStop(failed) => s.master.Restoring? && (failed || s.temp == [])
    case CrashMaster => true
  }

  function Kill(s: State, w: nat): State
    requires IsLive(s, w)
  {
    var p := s.workers[w].phase;
    var log := match p
      case Holding(t) =>
        s.log.(lostHeld := s.log.lostHeld + [t])
      case Registered(_) => s.log.(killedRegistered := s.log.killedRegistered + 1)
      case Finished(_) => s.log.(killedFinished := s.log.killedFinished + 1)
      case _ => s.log;
    s.(workers := s.workers[w := s.workers[w].(phase := Killed)], log := log)
  }

  function PopTask(s: State, w: nat): State
    requires Enabled(s, Pop(w))
  {
    var wk := s.workers[w];
    var t := s.taskQueue[0];
    var wk' := wk.(phase := Holding(t), pops := wk.pops + 1,
                   latePops := wk.latePops + if wk.flagged then 1 else 0);
    s.(taskQueue := s.taskQueue[1..], workers := s.workers[w := wk'],
       log := s.log.(popped := s.log.popped + [t]))
  }

  function RegisterTask(s: State, w: nat): State
    requires Enabled(s, Register(w))
  {
    var wk := s.workers[w];
    var t := wk.phase.task;
    s.(processing := s.processing + [Record(w, t)],
       workers := s.workers[w := wk.(phase := Registered(t), registrations := wk.registrations + 1)])
  }

  function FinishTask(s: State, w: nat, outcome: Outcome): State
    requires Enabled(s, Finish(w, outcome))
  {
    var wk := s.workers[w];
    var t := wk.phase.task;
    s.(taskCompleted := s.taskCompleted + if outcome.Completed? then 1 else 0,
       workers := s.workers[w := wk.(phase := Finished(t))],
       log := s.log.(finished := s.log.finished + [t]))
  }

  function RemoveRecord(s: State, w: nat): State
    requires Enabled(s, Remove(w))
  {
    var wk := s.workers[w];
    var i := FirstEqual(s, s.processing, Record(w, wk.phase.task));
    var workers := s.workers[w := wk.(phase := Checking, removals := wk.removals + 1)];
    if i < |s.processing| then
      s.(processing := s.processing[..i] + s.processing[i + 1..], workers := workers,
         log := s.log.(retired := s.log.retired + [s.processing[i].task]))
    else
      s.(workers := workers, log := s.log.(missed := s.log.missed + 1))
  }

  function PushFromHand(s: State): State
    requires Enabled(s, DrainPush)
  {
    var r := s.master.hand.value;
    var released := s.(master := Draining(s.master.snapshot, None));
    if r.worker in s.master.snapshot then
      released.(temp := s.temp + [r])
    else
      released.(taskQueue := s.taskQueue + [r.task],
                log := s.log.(pushed := s.log.pushed + [r.task], recovered := s.log.recovered + 1))
  }

  /** A Master that dies mid-pass takes the entry it had popped with it; a new one starts outside a pass. */
  function Crash(s: State): State {
    var log := s.log.(handlers := 0, rejected := s.log.rejected + s.log.handlers);
    if s.master.Draining? && s.master.hand.Some? then
      s.(master := Outside,
         log := log.(lostRecords := log.lostRecords + [s.master.hand.value]))
    else
      s.(master := Outside, log := log)
  }

  function SetPhase(s: State, w: nat, p: Phase): State
    requires w < |s.workers|
  {
    s.(workers := s.workers[w := s.workers[w].(phase := p)])
  }

  function Apply(s: State, a: Step): State
    requires Enabled(s, a)
  {
    match a
    case CountRequest =>
      s.(totalRequest := s.totalRequest + 1, log := s.log.(handlers := s.log.handlers + 1))
    case PushRequest(payload) =>
      s.(accepted := s.accepted + [payload], taskQueue := s.taskQueue + [|s.accepted|],
         log := s.log.(handlers := s.log.handlers - 1, pushed := s.log.pushed + [|s.accepted|]))
    case RejectRequest =>
      s.(log := s.log.(handlers := s.log.handlers - 1, rejected := s.log.rejected + 1))
    case StartWorker => s.(workers := s.workers + [FRESH_WORKER])
    case SignalWorker(w) => s.(workers := s.workers[w := s.workers[w].(flagged := true)])
    case KillWorker(w) => Kill(s, w)
    case Pop(w) => PopTask(s, w)
    case Register(w) => RegisterTask(s, w)
    case Finish(w, outcome) => FinishTask(s, w, outcome)
    case Remove(w) => RemoveRecord(s, w)
    case CheckFlag(w) => SetPhase(s, w, if s.workers[w].flagged then Exited else Polling)
    case CancelPop(w) => SetPhase(s, w, Exited)
    case TakeSnapshot => s.(master := Draining(LiveWorkers(s), None))
    case DrainPop =>
      s.(processing := s.processing[1..], master := Draining(s.master.snapshot, Some(s.processing[0])))
    case DrainPush => PushFromHand(s)
    case DrainStop(_) => s.(master := Restoring)
    case RestoreMove => s.(temp := s.temp[1..], processing := s.processing + [s.temp[0]])
    case RestoreStop(_) => s.(master := Outside)
    case CrashMaster => Crash(s)
  }

  /** A run is a list of steps, each enabled where it is taken. */
  predicate ValidRun(s: State, run: seq<Step>)
    decreases |run|
  {
    run == [] || (Enabled(s, run[0]) && ValidRun(Apply(s, run[0]), run[1..]))
  }

  function Final(s: State, run: seq<Step>): State
    requires ValidRun(s, run)
    decreases |run|
  {
    if run == [] then s else Final(Apply(s, run[0]), run[1..])
  }

  /** One step, then a run. */
  lemma StepThen(s: State, a: Step, run: seq<Step>)
    requires Enabled(s, a) && ValidRun(Apply(s, a), run)
    ensures ValidRun(s, [a] + run) && Final(s, [a] + run) == Final(Apply(s, a), run)
  {
    assert ([a] + run)[1..] == run;
  }

  ghost predicate Leads(start: State, run: seq<Step>, s: State) {
    Initial(start) && ValidRun(start, run) && Final(start, run) == s
  }

  /** Some run from the empty system ends in `s`. */
  ghost predicate Reachable(s: State) {
    exists start, run :: Leads(start, run, s)
  }

  /** The entry the Master holds between LPop and RPush. */
  function Hand(s: State): seq<Record> {
    if s.master.Draining? && s.master.hand.Some? then [s.master.hand.value] else []
  }

  /** Every registration record that exists anywhere. */
  function Records(s: State): seq<Record> { s.processing + s.temp + Hand(s) }

  lemma {:induction false} RunConcat(s: State, a: seq<Step>, b: seq<Step>)
    requires ValidRun(s, a)
    requires ValidRun(Final(s, a), b)
    ensures ValidRun(s, a + b)
    ensures Final(s, a + b) == Final(Final(s, a), b)
    decreases |a|
  {
    if a == [] {
      assert a + b == b;
    } else {
      RunConcat(Apply(s, a[0]), a[1..], b);
      assert (a + b)[0] == a[0] && (a + b)[1..] == a[1..] + b;
    }
  }

  lemma ReachableThen(s: State, a: Step)
    requires Reachable(s) && Enabled(s, a)
    ensures Reachable(Apply(s, a))
  {
    var start, run :| Leads(start, run, s);
    assert [a][1..] == [] && ValidRun(Apply(s, a), []);
    RunConcat(start, run, [a]);
    assert Leads(start, run + [a], Apply(s, a));
  }
}
