/** One turn of the Master's control loop: snapshot, recover, measure, decide, scale. */
module Orchestrator {
  import opened Lists
  import opened Metrics
  import opened Autoscaler
  import Docker
  import Recovery
  import Store

  /** What the turn reads; None is a read that returned an error. */
  datatype Readout = Readout(
    cpu: Option<seq<Option<CpuStats>>>,
    memory: Option<seq<Option<MemoryStats>>>,
    queue: Option<int>,
    requests: Option<uint64>,
    tasks: Option<int>,
    cpus: nat,
    memoryMb: real)

  /**
   What Docker does from the snapshot to the end of the turn. A worker that goes away while the
   turn is already scaling goes away after it here, and no longer answers to stats calls.
   */
  datatype World = World(
    left: set<string>,         // workers that exit, crash or are removed after the snapshot
    joined: set<string>,       // workers started by hand after the snapshot
    relisted: seq<string>,     // what Destroy finds when it lists the containers again
    clientFails: bool,
    answers: seq<Docker.CreateAnswer>,
    stats: Docker.Readings,
    faults: Docker.Faults)

  /** All reads that can end the turn early succeeded. An unread request counter does not: it counts as 0. */
  predicate Complete(r: Readout) {
    r.cpu.Some? && r.memory.Some? && r.queue.Some? && r.tasks.Some?
  }

  function Requests(r: Readout): uint64 { if r.requests.Some? then r.requests.value else 0 }

  function CpuReadings(r: Readout): seq<Option<real>>
    requires r.cpu.Some?
  {
    var s := r.cpu.value;
    seq(|s|, i requires 0 <= i < |s| => CpuReading(s[i]))
  }

  function MemoryReadings(r: Readout): seq<Option<real>>
    requires r.memory.Some?
  {
    var s := r.memory.value;
    seq(|s|, i requires 0 <= i < |s| => MemoryReading(s[i]))
  }

  /** Rates per second over the 10-second period; the request difference wraps like uint64. */
  function RequestRate(r: Readout, oldRequest: uint64): real { Minus(Requests(r), oldRequest) as real / 10.0 }

  function TaskRate(r: Readout, oldTask: int): real
    requires r.tasks.Some?
  {
    (r.tasks.value - oldTask) as real / 10.0
  }

  function CapsOf(r: Readout): Caps { GetSystemCaps(r.cpus, r.memoryMb) }

  /** The pool size the turn aims at. */
  function Goal(workers: nat, r: Readout, oldRequest: uint64, oldTask: int): int
    requires Complete(r)
  {
    Target(CalculateDesiredContainers(workers, Average(CpuReadings(r)), Average(MemoryReadings(r)), r.queue.value,
                                      RequestRate(r, oldRequest), TaskRate(r, oldTask)),
           CapsOf(r))
  }

  /** The count `k` fits within 80 percent of the host, half a CPU and 256 MB to a worker. */
  predicate FitsHost(k: int, r: Readout) {
    0.5 * k as real <= 0.8 * r.cpus as real && (r.memoryMb > 0.0 ==> 256.0 * k as real <= 0.8 * r.memoryMb)
  }

  /** The count `k` is enough for loads of `cpu` and `mem` and the counters of a complete turn, free of divisions. */
  predicate EnoughFor(k: int, workers: nat, cpu: real, mem: real, r: Readout, oldRequest: uint64, oldTask: int)
    requires Complete(r)
  {
    var read := if r.requests.Some? then r.requests.value else 0;
    var arrived := read - oldRequest + if read < oldRequest then 0x1_0000_0000_0000_0000 else 0;
    var completed := r.tasks.value - oldTask;
    && k >= 1
    && (workers > 0 ==> workers as real * cpu <= 70.0 * k as real && workers as real * mem <= 75.0 * k as real)
    && 2.0 * r.queue.value as real <= 10.0 * k as real
    && 2.0 * r.queue.value as real + 0.5 * (arrived - completed) as real <= 10.0 * k as real
  }

  lemma CapExactly(r: Readout, k: int)
    ensures k <= Cap(CapsOf(r)) <==> FitsHost(k, r)
  {
    var c := GetSystemCaps(r.cpus, r.memoryMb);
    assert k <= c.byCpu <==> 0.5 * k as real <= 0.8 * r.cpus as real;
    if r.memoryMb > 0.0 {
      assert k <= c.byMemory <==> 256.0 * k as real <= 0.8 * r.memoryMb;
    }
  }

  /**
   The rates, free of their division: ten seconds of either are the growth of the counter that
   was read. The request counter counts as 0 when it could not be read, and as wrapped around
   once when it is behind its previous value.
   */
  lemma RatesOfTurn(r: Readout, oldRequest: uint64, oldTask: int)
    requires r.tasks.Some?
    ensures 10.0 * TaskRate(r, oldTask) == (r.tasks.value - oldTask) as real
    ensures var read := if r.requests.Some? then r.requests.value else 0;
      10.0 * RequestRate(r, oldRequest)
      == (read - oldRequest + if read < oldRequest then 0x1_0000_0000_0000_0000 else 0) as real
  {
  }

  lemma DesiredForCounts(workers: nat, cpu: real, mem: real, queue: int, rps: real, tps: real,
                         arrived: int, completed: int, k: int)
    requires 10.0 * rps == arrived as real && 10.0 * tps == completed as real
    ensures k >= CalculateDesiredContainers(workers, cpu, mem, queue, rps, tps)
      <==> && k >= 1
           && (workers > 0 ==> workers as real * cpu <= 70.0 * k as real && workers as real * mem <= 75.0 * k as real)
           && 2.0 * queue as real <= 10.0 * k as real
           && 2.0 * queue as real + 0.5 * (arrived - completed) as real <= 10.0 * k as real
  {
    DesiredIsLeast(workers, cpu, mem, queue, rps, tps, k);
    assert 5.0 * (rps - tps) == 0.5 * (arrived - completed) as real;
  }

  lemma DesiredExactly(workers: nat, cpu: real, mem: real, r: Readout, oldRequest: uint64, oldTask: int, k: int)
    requires Complete(r)
    ensures k >= CalculateDesiredContainers(workers, cpu, mem, r.queue.value,
                                            RequestRate(r, oldRequest), TaskRate(r, oldTask))
      <==> EnoughFor(k, workers, cpu, mem, r, oldRequest, oldTask)
  {
    var read := if r.requests.Some? then r.requests.value else 0;
    var arrived := read - oldRequest + if read < oldRequest then 0x1_0000_0000_0000_0000 else 0;
    RatesOfTurn(r, oldRequest, oldTask);
    DesiredForCounts(workers, cpu, mem, r.queue.value, RequestRate(r, oldRequest), TaskRate(r, oldTask),
                     arrived, r.tasks.value - oldTask, k);
  }

  /**
   The goal of a turn, exactly: it reaches `k` workers if and only if the host has room for `k`
   and one worker less is not enough.
   */
  lemma GoalExactly(workers: nat, r: Readout, oldRequest: uint64, oldTask: int, k: int)
    requires Complete(r)
    ensures k <= Goal(workers, r, oldRequest, oldTask)
      <==> && FitsHost(k, r)
           && !EnoughFor(k - 1, workers, Average(CpuReadings(r)), Average(MemoryReadings(r)), r, oldRequest, oldTask)
  {
    CapExactly(r, k);
    DesiredExactly(workers, Average(CpuReadings(r)), Average(MemoryReadings(r)), r, oldRequest, oldTask, k - 1);
  }

  /** The constant load behind a readout. */
  function LoadOf(r: Readout, oldRequest: uint64, oldTask: int): Load
    requires Complete(r)
  {
    Load(Sum(CpuReadings(r)), Sum(MemoryReadings(r)), r.queue.value, RequestRate(r, oldRequest), TaskRate(r, oldTask))
  }

  /** When every listed worker was measured, the goal is the settled size of the load, for any pool that is not empty. */
  lemma GoalIsSettled(workers: nat, r: Readout, oldRequest: uint64, oldTask: int)
    requires Complete(r) && |r.cpu.value| == |r.memory.value| == workers
    ensures Goal(workers, r, oldRequest, oldTask) == NextSize(workers, LoadOf(r, oldRequest, oldTask), CapsOf(r))
    ensures workers >= 1 ==>
      Goal(workers, r, oldRequest, oldTask) == Settled(LoadOf(r, oldRequest, oldTask), CapsOf(r))
  {
    if workers >= 1 {
      OneTickConverges(workers, LoadOf(r, oldRequest, oldTask), CapsOf(r));
    }
  }

  /** The running workers when the turn comes to scaling. */
  function Drifted(w: World, before: set<string>): set<string> { before - w.left + w.joined }

  /** The list has each container of the pool once. */
  ghost predicate ListsAll(ids: seq<string>, pool: set<string>) {
    Distinct(ids) && forall id :: id in ids <==> id in pool
  }

  /** The containers that the two loops of Destroy try, asked for `n`. */
  ghost predicate Scaled(n: nat, w: World, first: seq<string>, second: seq<string>) {
    if w.clientFails then first == second == []
    else
      && first == Take(n, Filter(Docker.FirstChoice(w.faults, w.stats), w.relisted))
      && second == Take(n - |first|, Filter(Docker.SecondChoice(w.faults, first), w.relisted))
  }

  /** What is running after Destroy has tried `first` and `second`. */
  ghost function Remaining(w: World, before: set<string>, first: seq<string>, second: seq<string>): set<string> {
    before - Docker.Downed(w.faults, 1, first) - Docker.Downed(w.faults, 2, second)
  }

  /** How scaling down by `n` changes the running set. */
  ghost predicate Shrunk(n: nat, w: World, base: set<string>, after: set<string>) {
    exists first, second :: Scaled(n, w, first, second) && after == Remaining(w, base, first, second)
  }

  /** How scaling by `n`, up or down, changes the running set. */
  ghost predicate Resized(n: int, w: World, base: set<string>, after: set<string>) {
    && (n >= 0 ==> after == base + if w.clientFails then {} else Docker.StartedIds(Take(n, w.answers)))
    && (n < 0 ==> Shrunk(-n, w, base, after))
  }

  /** How the running set changes in a turn that got as far as scaling. */
  ghost predicate Rescaled(ids: seq<string>, goal: int, w: World, before: set<string>, after: set<string>) {
    Resized(goal - |ids|, w, Drifted(w, before), after)
  }

  /** Counters read by consecutive complete turns: the requests never go back and are always read. */
  predicate Steady(rs: seq<Readout>, oldRequest: uint64)
    decreases |rs|
  {
    rs == [] || (&& Complete(rs[0]) && rs[0].requests.Some? && oldRequest <= rs[0].requests.value
                 && Steady(rs[1..], rs[0].requests.value))
  }

  function RequestsCounted(rs: seq<Readout>, oldRequest: uint64): real {
    if rs == [] then 0.0
    else 10.0 * RequestRate(rs[0], oldRequest) + RequestsCounted(rs[1..], Requests(rs[0]))
  }

  function TasksCounted(rs: seq<Readout>, oldTask: int): real
    requires forall i :: 0 <= i < |rs| ==> rs[i].tasks.Some?
  {
    if rs == [] then 0.0
    else 10.0 * TaskRate(rs[0], oldTask) + TasksCounted(rs[1..], rs[0].tasks.value)
  }

  /** Over any sequence of turns the rates, times the period, add up to the growth of the two counters. */
  lemma {:induction false} RatesAddUp(rs: seq<Readout>, oldRequest: uint64, oldTask: int)
    requires rs != [] && Steady(rs, oldRequest)
    requires forall i :: 0 <= i < |rs| ==> rs[i].tasks.Some?
    ensures rs[|rs| - 1].requests.Some?
    ensures RequestsCounted(rs, oldRequest) == (rs[|rs| - 1].requests.value - oldRequest) as real
    ensures TasksCounted(rs, oldTask) == (rs[|rs| - 1].tasks.value - oldTask) as real
    decreases |rs|
  {
    if |rs| > 1 {
      RatesAddUp(rs[1..], Requests(rs[0]), rs[0].tasks.value);
    }
  }

  /** One turn as it happened: the containers before it, what it read and what Docker did. */
  datatype Turn = Turn(
    existing: set<string>,
    before: set<string>,
    ids: Option<seq<string>>,
    r: Readout,
    w: World,
    oldRequest: uint64,
    oldTask: int)

  /** The turn ends with the containers `after` running. */
  ghost predicate Happens(t: Turn, after: set<string>) {
    && t.before <= t.existing && ListsAll(t.w.relisted, Drifted(t.w, t.before))
    && Docker.FreshIds(t.existing + t.w.joined, t.w.answers) && Cap(CapsOf(t.r)) <= |t.w.answers|
    && if t.ids.Some? && Complete(t.r) then
         && ListsAll(t.ids.value, t.before)
         && Rescaled(t.ids.value, Goal(|t.ids.value|, t.r, t.oldRequest, t.oldTask), t.w, t.before, after)
       else
         after == Drifted(t.w, t.before)
  }

  class Master {
    var oldRequest: uint64
    var oldTask: int
    const docker: Docker.Daemon
    const store: Store.RedisStore

    constructor (docker: Docker.Daemon, store: Store.RedisStore)
      ensures this.docker == docker && this.store == store && oldRequest == 0 && oldTask == 0
    {
      this.docker, this.store := docker, store;
      oldRequest, oldTask := 0, 0;
    }

    /**
     One turn. `ids` is the snapshot, None when Docker cannot be reached; `pops` and `moves`
     are the failing commands of the recovery pass.
     */
    method Tick(ids: Option<seq<string>>, decode: Recovery.Decoder, pops: Option<nat>, moves: Option<nat>,
                r: Readout, w: World)
      returns (goal: int)
      requires docker.Valid()
      requires ids.Some? ==> ListsAll(ids.value, docker.running)
      requires ListsAll(w.relisted, Drifted(w, docker.running))
      requires Docker.FreshIds(docker.existing + w.joined, w.answers) && Cap(CapsOf(r)) <= |w.answers|
      modifies this`oldRequest, this`oldTask, docker, store`task, store`processing, store`temp
      ensures docker.Valid()
      ensures store.Contents() ==
        if ids.None? then old(store.Contents())
        else Recovery.BrokenPass(decode, Recovery.Names(ids.value), old(store.Contents()), pops, moves)
      ensures ids.None? || !Complete(r) ==>
        docker.running == Drifted(w, old(docker.running)) && oldRequest == old(oldRequest) && oldTask == old(oldTask)
      ensures ids.Some? && Complete(r) ==>
        && goal == Goal(|ids.value|, r, old(oldRequest), old(oldTask))
        && oldRequest == (if r.requests.Some? then r.requests.value else 0) && oldTask == r.tasks.value
        && Rescaled(ids.value, goal, w, old(docker.running), docker.running)
      ensures Happens(Turn(old(docker.existing), old(docker.running), ids, r, w, old(oldRequest), old(oldTask)),
                      docker.running)
    {
      goal := 0;
      docker.Drift(w.left, w.joined);
      if ids.None? {
        return;
      }
      store.ProcessingToMain(ids.value, decode, pops, moves);
      if r.cpu.None? {
        return;
      }
      var cpu := GetTotalClusterCpu(r.cpu.value);
      if r.memory.None? {
        return;
      }
      var memory := GetTotalClusterMemory(r.memory.value);
      if r.queue.None? || r.tasks.None? {
        return;
      }
      var rps := RequestRate(r, oldRequest);
      var tps := TaskRate(r, oldTask);
      oldRequest := Requests(r);
      oldTask := r.tasks.value;
      var x := CalculateDesiredContainers(|ids.value|, cpu, memory, r.queue.value, rps, tps);
      goal := Target(x, CapsOf(r));
      Scale(|ids.value|, goal, w);
    }

    /** Create or destroy as many workers as the snapshot falls short of or exceeds the goal. */
    method Scale(workers: nat, goal: int, w: World)
      requires docker.Valid() && ListsAll(w.relisted, docker.running)
      requires Docker.FreshIds(docker.existing, w.answers) && goal <= |w.answers|
      modifies docker
      ensures docker.Valid() && Resized(goal - workers, w, old(docker.running), docker.running)
    {
      if workers <= goal {
        docker.Generate(goal - workers, w.clientFails, w.answers);
      } else {
        var first, second := docker.Destroy(workers - goal, w.relisted, w.clientFails, w.stats, w.faults);
        assert Scaled(workers - goal, w, first, second);
        assert Shrunk(workers - goal, w, old(docker.running), docker.running);
      }
    }
  }

  ghost predicate AllGoesWell(w: World) {
    && !w.clientFails && Docker.NoFaults(w.faults)
    && forall i :: 0 <= i < |w.answers| ==> w.answers[i].Started?
  }

  /** Nobody leaves and nobody is started by hand. */
  predicate Undisturbed(w: World) { w.left == {} && w.joined == {} }

  lemma ListedSize(ids: seq<string>, pool: set<string>)
    requires ListsAll(ids, pool)
    ensures |pool| == |ids|
  {
    SetSize(ids);
    assert pool == set id | id in ids;
  }

  lemma GrownSize(n: nat, w: World, existing: set<string>, base: set<string>, after: set<string>)
    requires base <= existing && Docker.FreshIds(existing, w.answers) && n <= |w.answers|
    requires after == base + if w.clientFails then {} else Docker.StartedIds(Take(n, w.answers))
    ensures |base| <= |after| <= |base| + n
    ensures AllGoesWell(w) ==> |after| == |base| + n
  {
    SubsetSize(base, after);
    if w.clientFails {
      assert after == base;
    } else {
      assert Take(n, w.answers) == w.answers[..n];
      Docker.StartedGrowth(base, existing, w.answers, n);
    }
  }

  lemma ShrunkBounds(n: nat, w: World, base: set<string>, first: seq<string>, second: seq<string>)
    requires Scaled(n, w, first, second)
    ensures |base| - n <= |Remaining(w, base, first, second)| <= |base|
  {
    assert |first| + |second| <= n by {
      if !w.clientFails {
        Docker.BusyOnlyAfterIdle(n, w.relisted, w.stats, w.faults, first, second);
      }
    }
    SubsetSize(Remaining(w, base, first, second), base);
    Docker.AtMostAttempts(base, first, second, w.faults);
  }

  lemma ShrunkExactly(n: nat, w: World, base: set<string>, first: seq<string>, second: seq<string>)
    requires ListsAll(w.relisted, base) && Scaled(n, w, first, second)
    requires !w.clientFails && Docker.NoFaults(w.faults)
    ensures |Remaining(w, base, first, second)| == Max(|base| - n, 0)
  {
    ListedSize(w.relisted, base);
    Docker.CleanRemoval(n, w.relisted, w.stats, w.faults, first, second, base);
  }

  lemma ShrunkSize(n: nat, w: World, base: set<string>, after: set<string>)
    requires ListsAll(w.relisted, base) && Shrunk(n, w, base, after)
    ensures |base| - n <= |after| <= |base|
    ensures AllGoesWell(w) ==> |after| == Max(|base| - n, 0)
  {
    var first, second :| Scaled(n, w, first, second) && after == Remaining(w, base, first, second);
    ShrunkBounds(n, w, base, first, second);
    if AllGoesWell(w) {
      ShrunkExactly(n, w, base, first, second);
    }
  }

  lemma ResizedDown(n: int, w: World, base: set<string>, after: set<string>)
    requires n < 0 && ListsAll(w.relisted, base) && Resized(n, w, base, after)
    ensures |base| + n <= |after| <= |base|
    ensures AllGoesWell(w) ==> |after| == Max(|base| + n, 0)
  {
    ShrunkSize(-n, w, base, after);
  }

  lemma ResizedUp(n: int, w: World, existing: set<string>, base: set<string>, after: set<string>)
    requires n >= 0 && base <= existing && Docker.FreshIds(existing, w.answers) && n <= |w.answers|
    requires Resized(n, w, base, after)
    ensures |base| <= |after| <= |base| + n
    ensures AllGoesWell(w) ==> |after| == |base| + n
  {
    GrownSize(n, w, existing, base, after);
  }

  lemma ResizedSize(n: int, w: World, existing: set<string>, base: set<string>, after: set<string>)
    requires ListsAll(w.relisted, base) && base <= existing
    requires Docker.FreshIds(existing, w.answers) && n <= |w.answers| && Resized(n, w, base, after)
    ensures Min(|base|, |base| + n) <= |after| <= Max(|base|, |base| + n)
    ensures AllGoesWell(w) ==> |after| == Max(|base| + n, 0)
  {
    if n < 0 {
      ResizedDown(n, w, base, after);
    } else {
      ResizedUp(n, w, existing, base, after);
    }
  }

  lemma DriftedUndisturbed(w: World, before: set<string>)
    requires Undisturbed(w)
    ensures Drifted(w, before) == before
  {
  }

  /** The bounds of `ResizedSize` for a base of size `size`. */
  lemma AskedSize(n: int, w: World, existing: set<string>, base: set<string>, size: nat, after: set<string>)
    requires ListsAll(w.relisted, base) && base <= existing && |base| == size
    requires Docker.FreshIds(existing, w.answers) && n <= |w.answers| && Resized(n, w, base, after)
    ensures Min(size, size + n) <= |after| <= Max(size, size + n)
    ensures AllGoesWell(w) ==> |after| == Max(size + n, 0)
  {
    ResizedSize(n, w, existing, base, after);
  }

  /** The size of the pool after a turn in terms of its size when the turn came to scaling. */
  lemma TurnSize(ids: seq<string>, goal: nat, w: World, existing: set<string>, before: set<string>, after: set<string>)
    requires ListsAll(w.relisted, Drifted(w, before)) && Drifted(w, before) <= existing
    requires Docker.FreshIds(existing, w.answers) && goal <= |w.answers|
    requires Rescaled(ids, goal, w, before, after)
    ensures var base := |Drifted(w, before)|; var asked := base + goal - |ids|;
      && Min(base, asked) <= |after| <= Max(base, asked)
      && (AllGoesWell(w) ==> |after| == Max(asked, 0))
  {
    AskedSize(goal - |ids|, w, existing, Drifted(w, before), |Drifted(w, before)|, after);
  }

  /**
   The size of the pool after a turn, whoever left or was started by hand meanwhile: the turn
   adds the difference between the goal and its snapshot when nothing fails, and otherwise
   stays between doing nothing and doing that. An undisturbed turn so ends between its old size
   and the goal, and at the goal when nothing fails.
   */
  lemma TurnOutcome(ids: seq<string>, goal: nat, w: World, existing: set<string>, before: set<string>, after: set<string>)
    requires ListsAll(ids, before) && ListsAll(w.relisted, Drifted(w, before)) && Drifted(w, before) <= existing
    requires Docker.FreshIds(existing, w.answers) && goal <= |w.answers|
    requires Rescaled(ids, goal, w, before, after)
    ensures var base := |Drifted(w, before)|; var asked := base + goal - |ids|;
      && Min(base, asked) <= |after| <= Max(base, asked)
      && (AllGoesWell(w) ==> |after| == Max(asked, 0))
    ensures Undisturbed(w) ==>
      && Min(|before|, goal) <= |after| <= Max(|before|, goal)
      && (AllGoesWell(w) ==> |after| == goal)
  {
    TurnSize(ids, goal, w, existing, before, after);
    ListedSize(ids, before);
    if Undisturbed(w) {
      DriftedUndisturbed(w, before);
    }
  }

  // ---- Sequences of turns ----

  /**
   A sequence of turns: `pools[i + 1]` is running after turn `i`. Between turns any container may
   leave, and `between[i]` are those started by hand before turn `i`.
   */
  ghost predicate History(pools: seq<set<string>>, between: seq<set<string>>, turns: seq<Turn>) {
    && |pools| == |turns| + 1 && |between| == |turns|
    && forall i :: 0 <= i < |turns| ==>
         turns[i].before <= pools[i] + between[i] && Happens(turns[i], pools[i + 1])
  }

  /** Containers started by hand before the end of turn `k`. */
  function ByHand(between: seq<set<string>>, turns: seq<Turn>, k: nat): nat
    requires k <= |turns| && |between| == |turns|
  {
    if k == 0 then 0 else ByHand(between, turns, k - 1) + |between[k - 1]| + |turns[k - 1].w.joined|
  }

  lemma UnionSize(a: set<string>, b: set<string>)
    ensures |a + b| <= |a| + |b|
  {
    assert a + b == a + (b - a);
    assert |a + (b - a)| == |a| + |b - a|;
    SubsetSize(b - a, b);
  }

  lemma GoalWithinCap(workers: nat, r: Readout, oldRequest: uint64, oldTask: int)
    requires Complete(r)
    ensures 0 <= Goal(workers, r, oldRequest, oldTask) <= Cap(CapsOf(r))
  {
  }

  lemma DriftedSize(w: World, before: set<string>)
    ensures |Drifted(w, before)| <= |before| + |w.joined|
  {
    SubsetSize(before - w.left, before);
    UnionSize(before - w.left, w.joined);
  }

  lemma CapArithmetic(before: nat, base: nat, joined: nat, goal: int, cap: int, after: nat)
    requires after <= Max(base, base + goal - before) && base <= before + joined && goal <= cap
    ensures after <= Max(before, cap) + joined
  {
  }

  /** What `TurnOutcome` says of a turn that got as far as scaling. */
  lemma ScaledTurn(t: Turn, after: set<string>)
    requires Happens(t, after) && t.ids.Some? && Complete(t.r)
    ensures var goal := Goal(|t.before|, t.r, t.oldRequest, t.oldTask);
      && |t.ids.value| == |t.before|
      && |after| <= Max(|Drifted(t.w, t.before)|, |Drifted(t.w, t.before)| + goal - |t.before|)
      && (AllGoesWell(t.w) && Undisturbed(t.w) ==> |after| == goal)
  {
    var ids := t.ids.value;
    ListedSize(ids, t.before);
    GoalWithinCap(|ids|, t.r, t.oldRequest, t.oldTask);
    TurnOutcome(ids, Goal(|ids|, t.r, t.oldRequest, t.oldTask), t.w, t.existing + t.w.joined, t.before, after);
  }

  lemma ScaledWithinCap(t: Turn, after: set<string>)
    requires Happens(t, after) && t.ids.Some? && Complete(t.r)
    ensures |after| <= Max(|t.before|, Cap(CapsOf(t.r))) + |t.w.joined|
  {
    var goal := Goal(|t.before|, t.r, t.oldRequest, t.oldTask);
    var base := |Drifted(t.w, t.before)|;
    ScaledTurn(t, after);
    DriftedSize(t.w, t.before);
    GoalWithinCap(|t.before|, t.r, t.oldRequest, t.oldTask);
    CapArithmetic(|t.before|, base, |t.w.joined|, goal, Cap(CapsOf(t.r)), |after|);
  }

  /** One turn leaves at most the larger of its snapshot and the cap, and what was started by hand meanwhile. */
  lemma TurnWithinCap(t: Turn, after: set<string>)
    requires Happens(t, after)
    ensures |after| <= Max(|t.before|, Cap(CapsOf(t.r))) + |t.w.joined|
  {
    DriftedSize(t.w, t.before);
    if t.ids.Some? && Complete(t.r) {
      ScaledWithinCap(t, after);
    }
  }

  /**
   Capacity over any sequence of turns: whatever the metrics say, whichever calls fail and
   whenever workers disappear, the pool never exceeds the larger of its initial size and the
   host caps, except by containers that were started by hand.
   */
  lemma {:induction false} NeverOverCapacity(pools: seq<set<string>>, between: seq<set<string>>, turns: seq<Turn>,
                                             k: nat, cap: int)
    requires History(pools, between, turns) && k <= |turns|
    requires forall i :: 0 <= i < k ==> Cap(CapsOf(turns[i].r)) <= cap
    ensures |pools[k]| <= Max(|pools[0]|, cap) + ByHand(between, turns, k)
    decreases k
  {
    if k == 0 {
    } else {
      var t := turns[k - 1];
      NeverOverCapacity(pools, between, turns, k - 1, cap);
      SubsetSize(t.before, pools[k - 1] + between[k - 1]);
      UnionSize(pools[k - 1], between[k - 1]);
      TurnWithinCap(t, pools[k]);
    }
  }

  /** A complete turn in which nothing fails and nobody interferes, with every worker measured. */
  ghost predicate Calm(t: Turn, load: Load, c: Caps) {
    && t.ids.Some? && Complete(t.r) && |t.r.cpu.value| == |t.r.memory.value| == |t.ids.value|
    && AllGoesWell(t.w) && Undisturbed(t.w)
    && LoadOf(t.r, t.oldRequest, t.oldTask) == load && CapsOf(t.r) == c
  }

  lemma CalmTurn(t: Turn, after: set<string>, load: Load, c: Caps)
    requires Happens(t, after) && Calm(t, load, c) && Cap(c) >= 0
    ensures |after| == NextSize(|t.before|, load, c)
  {
    ScaledTurn(t, after);
    GoalIsSettled(|t.before|, t.r, t.oldRequest, t.oldTask);
  }

  lemma CalmNext(n: nat, ticks: nat, t: Turn, after: set<string>, load: Load, c: Caps)
    requires Happens(t, after) && Calm(t, load, c) && Cap(c) >= 0
    requires |t.before| == SizeAfter(n, ticks, load, c)
    ensures |after| == SizeAfter(n, ticks + 1, load, c)
  {
    CalmTurn(t, after, load, c);
  }

  /**
   Consecutive calm turns with the same load and caps, and nobody leaving or arriving in between:
   `pools[i]` is running before turn `i`.
   */
  ghost predicate CalmHistory(pools: seq<set<string>>, turns: seq<Turn>, load: Load, c: Caps) {
    && |pools| == |turns| + 1
    && forall i :: 0 <= i < |turns| ==>
         turns[i].before == pools[i] && Happens(turns[i], pools[i + 1]) && Calm(turns[i], load, c)
  }

  lemma {:induction false} CalmSize(pools: seq<set<string>>, turns: seq<Turn>, k: nat, load: Load, c: Caps)
    requires CalmHistory(pools, turns, load, c) && Cap(c) >= 0 && k <= |turns|
    ensures |pools[k]| == SizeAfter(|pools[0]|, k, load, c)
    decreases k
  {
    if k == 0 {
    } else {
      CalmSize(pools, turns, k - 1, load, c);
      CalmNext(|pools[0]|, k - 1, turns[k - 1], pools[k], load, c);
    }
  }

  /** Under a constant load the real pool is settled after two calm turns, a non-empty one after one, and stays so. */
  lemma CalmTurnsSettle(pools: seq<set<string>>, turns: seq<Turn>, k: nat, load: Load, c: Caps)
    requires CalmHistory(pools, turns, load, c) && Cap(c) >= 0 && k <= |turns|
    requires k >= 2 || (k >= 1 && pools[0] != {})
    ensures |pools[k]| == Settled(load, c)
  {
    CalmSize(pools, turns, k, load, c);
    Converges(|pools[0]|, k, load, c);
  }

  /**
   A turn that scales down, followed by a pass over the survivors: every entry of a container
   that was taken down, left meanwhile, or was gone already (`all` are the containers there ever
   were) is back on task_queue exactly once, in order, and every survivor keeps its own.
   */
  lemma ScaleDownThenRecover(d: Recovery.Decoder, ids: seq<string>, goal: int, w: World, before: set<string>,
                             after: set<string>, survivors: seq<string>, all: set<string>, q: Recovery.Queues)
    requires |ids| > goal && Rescaled(ids, goal, w, before, after)
    requires forall id :: id in survivors <==> id in after
    requires before + w.joined <= all && Recovery.DistinctNames(all)
    requires Recovery.FromContainers(d, all, q.processing) && q.temp == []
    ensures Recovery.Pass(d, Recovery.Names(survivors), q)
         == Recovery.Queues(q.task + Recovery.PayloadsOf(d, all - after, q.processing),
                            Recovery.EntriesOf(d, after, q.processing), [])
  {
    assert after <= all;
    assert all - (all - after) == after;
    Recovery.ScaleDownRecovers(d, all, all - after, survivors, q);
  }

  /** An unread request counter reads as a huge arrival rate: the turn asks for everything the host allows. */
  lemma UnreadCounterSaturates(workers: nat, r: Readout, oldRequest: uint64, oldTask: int)
    requires Complete(r) && r.requests.None? && oldRequest > 0 && r.queue.value >= 0
    requires TaskRate(r, oldTask) >= 0.0
    requires Cap(CapsOf(r)) as real <= ((TWO_TO_THE_64 - oldRequest) as real / 10.0 - TaskRate(r, oldTask)) / 2.0
    ensures Goal(workers, r, oldRequest, oldTask) == Cap(CapsOf(r))
  {
    var rps, tps := RequestRate(r, oldRequest), TaskRate(r, oldTask);
    assert rps == (TWO_TO_THE_64 - oldRequest) as real / 10.0;
    var cpu, mem := Average(CpuReadings(r)), Average(MemoryReadings(r));
    DesiredIsLeast(workers, cpu, mem, r.queue.value, rps, tps,
                   CalculateDesiredContainers(workers, cpu, mem, r.queue.value, rps, tps));
  }
}
