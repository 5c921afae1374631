/** The scaling formula, the host caps, and what they imply over whole runs. */
module Autoscaler {
  import opened Lists
  import opened Metrics

  function MaxReal(a: real, b: real): real { if a >= b then a else b }

  function Ceil(x: real): int { -((-x).Floor) }

  const TARGET_CPU := 70.0
  const TARGET_MEM := 75.0
  const MIN_WORKERS := 1

  /** Workers needed for the measured load. */
  function ResourceDemand(workers: int, cpu: real, mem: real): real {
    if workers > 0 then workers as real * MaxReal(cpu / TARGET_CPU, mem / TARGET_MEM) else workers as real
  }

  /** Workers needed for the backlog and the rate deficit. */
  function TrafficDemand(queue: int, rps: real, tps: real): real {
    queue as real / 5.0 + if rps > tps then (rps - tps) / 2.0 else 0.0
  }

  function CalculateDesiredContainers(workers: int, cpu: real, mem: real, queue: int, rps: real, tps: real): int {
    var x := Ceil(MaxReal(ResourceDemand(workers, cpu, mem), TrafficDemand(queue, rps, tps)));
    if x < MIN_WORKERS then MIN_WORKERS else x
  }

  datatype Caps = Caps(byCpu: int, byMemory: int)

  /** What one worker container may use. */
  const WORKER_CPUS := 0.5
  const WORKER_MEMORY_MB := 256.0

  function Cap(c: Caps): int { Min(c.byCpu, c.byMemory) }

  /**
   The largest worker counts that fit in 80% of the host's CPUs and of its memory. Memory that
   cannot be read does not cap.
   */
  function GetSystemCaps(cpus: nat, memoryMb: real): (c: Caps)
    ensures c.byCpu >= 0 && c.byMemory >= 0
    ensures 0.5 * c.byCpu as real <= 0.8 * cpus as real < 0.5 * (c.byCpu + 1) as real
    ensures memoryMb > 0.0 ==>
      256.0 * c.byMemory as real <= 0.8 * memoryMb < 256.0 * (c.byMemory + 1) as real
    ensures memoryMb <= 0.0 ==> Cap(c) == c.byCpu
  {
    var y := ((cpus as real * 0.8) / WORKER_CPUS).Floor;
    Caps(y, if memoryMb <= 0.0 then y else ((memoryMb * 0.8) / WORKER_MEMORY_MB).Floor)
  }

  function Target(x: int, c: Caps): int { Min(x, Cap(c)) }

  predicate Covers(k: int, demand: real) { k as real >= demand }

  lemma ProductSign(n: real, d: real)
    requires n > 0.0
    ensures d >= 0.0 ==> n * d >= 0.0
    ensures d > 0.0 ==> n * d > 0.0
  {
  }

  lemma ScaleOrder(n: real, a: real, b: real)
    requires n > 0.0
    ensures a >= b <==> n * a >= n * b
  {
    ProductSign(n, a - b);
    ProductSign(n, b - a);
    assert n * (a - b) == n * a - n * b;
    assert n * (b - a) == n * b - n * a;
  }

  lemma DivideOrder(t: real, a: real, b: real)
    requires t > 0.0
    ensures a >= b <==> a / t >= b / t
  {
    ScaleOrder(t, a / t, b / t);
    assert t * (a / t) == a && t * (b / t) == b;
  }

  lemma ScaleMax(n: real, a: real, b: real)
    requires n > 0.0
    ensures n * MaxReal(a, b) == MaxReal(n * a, n * b)
  {
    if a >= b {
      ScaleOrder(n, a, b);
    } else {
      ScaleOrder(n, b, a);
    }
  }

  lemma ShareCovered(n: real, usage: real, target: real, k: real)
    requires target > 0.0
    ensures k >= n * (usage / target) <==> target * k >= n * usage
  {
    var share := usage / target;
    assert share * target == usage;
    assert target * (n * share) == n * usage;
    ScaleOrder(target, k, n * share);
  }

  lemma LoadCovered(workers: int, cpu: real, mem: real, k: int)
    requires workers > 0
    ensures Covers(k, ResourceDemand(workers, cpu, mem))
      <==> workers as real * cpu <= 70.0 * k as real && workers as real * mem <= 75.0 * k as real
  {
    var n := workers as real;
    ScaleMax(n, cpu / TARGET_CPU, mem / TARGET_MEM);
    ShareCovered(n, cpu, TARGET_CPU, k as real);
    ShareCovered(n, mem, TARGET_MEM, k as real);
  }

  lemma TrafficCovered(queue: int, rps: real, tps: real, k: int)
    ensures Covers(k, TrafficDemand(queue, rps, tps))
      <==> 2.0 * queue as real <= 10.0 * k as real && 2.0 * queue as real + 5.0 * (rps - tps) <= 10.0 * k as real
  {
  }

  lemma CeilCovered(k: int, demand: real)
    ensures k >= Ceil(demand) <==> Covers(k, demand)
  {
  }

  /**
   The recommendation is the least count `k` of at least one worker with which the measured load
   would be within 70 percent CPU and 75 percent memory, with five waiting tasks and two requests
   per second beyond the completions to a worker. An empty pool has no measured load.
   */
  lemma DesiredIsLeast(workers: int, cpu: real, mem: real, queue: int, rps: real, tps: real, k: int)
    ensures k >= CalculateDesiredContainers(workers, cpu, mem, queue, rps, tps)
      <==> && k >= 1
           && (workers > 0 ==>
                 workers as real * cpu <= 70.0 * k as real && workers as real * mem <= 75.0 * k as real)
           && 2.0 * queue as real <= 10.0 * k as real
           && 2.0 * queue as real + 5.0 * (rps - tps) <= 10.0 * k as real
  {
    CeilCovered(k, MaxReal(ResourceDemand(workers, cpu, mem), TrafficDemand(queue, rps, tps)));
    TrafficCovered(queue, rps, tps, k);
    if workers > 0 {
      LoadCovered(workers, cpu, mem, k);
    }
  }

  /**
   A non-empty pool is asked to grow exactly when CPU exceeds 70 percent, memory exceeds 75
   percent, or backlog and rate deficit exceed what the pool is meant to carry.
   */
  lemma GrowsExactlyWhenNeeded(workers: int, cpu: real, mem: real, queue: int, rps: real, tps: real)
    requires workers >= 1
    ensures CalculateDesiredContainers(workers, cpu, mem, queue, rps, tps) > workers
      <==> cpu > 70.0 || mem > 75.0
           || 2.0 * queue as real + 5.0 * MaxReal(rps - tps, 0.0) > 10.0 * workers as real
  {
    DesiredIsLeast(workers, cpu, mem, queue, rps, tps, workers);
    ScaleOrder(workers as real, 70.0, cpu);
    ScaleOrder(workers as real, 75.0, mem);
  }

  lemma CeilMonotone(a: real, b: real)
    requires a <= b
    ensures Ceil(a) <= Ceil(b)
  {
  }

  lemma ResourceMonotone(workers: nat, cpu: real, mem: real, cpu': real, mem': real)
    requires cpu <= cpu' && mem <= mem'
    ensures ResourceDemand(workers, cpu, mem) <= ResourceDemand(workers, cpu', mem')
  {
    if workers > 0 {
      DivideOrder(TARGET_CPU, cpu', cpu);
      DivideOrder(TARGET_MEM, mem', mem);
      ScaleOrder(workers as real, MaxReal(cpu' / TARGET_CPU, mem' / TARGET_MEM),
                 MaxReal(cpu / TARGET_CPU, mem / TARGET_MEM));
    }
  }

  lemma TrafficMonotone(queue: int, rps: real, tps: real, queue': int, rps': real, tps': real)
    requires queue <= queue' && rps <= rps' && tps' <= tps
    ensures TrafficDemand(queue, rps, tps) <= TrafficDemand(queue', rps', tps')
  {
    assert queue as real <= queue' as real;
  }

  /** More load, more backlog, more arrivals or fewer completions never ask for fewer workers. */
  lemma DesiredMonotone(workers: nat, cpu: real, mem: real, queue: int, rps: real, tps: real,
                        cpu': real, mem': real, queue': int, rps': real, tps': real)
    requires cpu <= cpu' && mem <= mem' && queue <= queue' && rps <= rps' && tps' <= tps
    ensures CalculateDesiredContainers(workers, cpu, mem, queue, rps, tps)
         <= CalculateDesiredContainers(workers, cpu', mem', queue', rps', tps')
  {
    ResourceMonotone(workers, cpu, mem, cpu', mem');
    TrafficMonotone(queue, rps, tps, queue', rps', tps');
    CeilMonotone(MaxReal(ResourceDemand(workers, cpu, mem), TrafficDemand(queue, rps, tps)),
                 MaxReal(ResourceDemand(workers, cpu', mem'), TrafficDemand(queue', rps', tps')));
  }

  /** Every target fits the host. */
  lemma TargetFits(x: int, cpus: nat, memoryMb: real)
    ensures var t := Target(x, GetSystemCaps(cpus, memoryMb));
      && 0.5 * t as real <= 0.8 * cpus as real
      && (memoryMb > 0.0 ==> 256.0 * t as real <= 0.8 * memoryMb)
  {
    var c := GetSystemCaps(cpus, memoryMb);
    assert Target(x, c) <= c.byCpu && Target(x, c) <= c.byMemory;
  }

  // ---- Convergence ----

  lemma Cancel(n: real, total: real, target: real)
    requires n > 0.0 && target > 0.0
    ensures n * ((total / n) / target) == total / target
  {
    var a := total / n;
    assert a * n == total;
    var b := a / target;
    assert b * target == a;
    assert (n * b) * target == total;
  }

  /** The worker count cancels: the demand depends on the total load, not on how it is spread. */
  lemma DemandIgnoresSpread(n: int, totalCpu: real, totalMem: real)
    requires n > 0
    ensures ResourceDemand(n, totalCpu / n as real, totalMem / n as real)
         == MaxReal(totalCpu / TARGET_CPU, totalMem / TARGET_MEM)
  {
    var r := n as real;
    ScaleMax(r, (totalCpu / r) / TARGET_CPU, (totalMem / r) / TARGET_MEM);
    Cancel(r, totalCpu, TARGET_CPU);
    Cancel(r, totalMem, TARGET_MEM);
    assert r * MaxReal((totalCpu / r) / TARGET_CPU, (totalMem / r) / TARGET_MEM)
        == MaxReal(totalCpu / TARGET_CPU, totalMem / TARGET_MEM);
  }

  /** Loads, queue length and rates that stay the same from tick to tick. */
  datatype Load = Load(totalCpu: real, totalMem: real, queue: int, rps: real, tps: real)

  /** The pool size after one tick without failures, as a function of the size before. */
  function NextSize(n: nat, load: Load, c: Caps): (size: int)
    ensures Cap(c) >= 0 ==> size >= 0
  {
    var cpu := if n > 0 then load.totalCpu / n as real else load.totalCpu;
    var mem := if n > 0 then load.totalMem / n as real else load.totalMem;
    Target(CalculateDesiredContainers(n, cpu, mem, load.queue, load.rps, load.tps), c)
  }

  /** The size every run settles at. */
  function Settled(load: Load, c: Caps): int {
    var demand := MaxReal(MaxReal(load.totalCpu / TARGET_CPU, load.totalMem / TARGET_MEM),
                          TrafficDemand(load.queue, load.rps, load.tps));
    Min(Max(1, Ceil(demand)), Cap(c))
  }

  /** One tick from any non-empty pool reaches the settled size. */
  lemma OneTickConverges(n: nat, load: Load, c: Caps)
    requires n >= 1
    ensures NextSize(n, load, c) == Settled(load, c)
  {
    DemandIgnoresSpread(n, load.totalCpu, load.totalMem);
  }

  function SizeAfter(n: nat, ticks: nat, load: Load, c: Caps): nat
    requires Cap(c) >= 0
  {
    if ticks == 0 then n else NextSize(SizeAfter(n, ticks - 1, load, c), load, c)
  }

  /** A pool that reached the settled size, or that the caps keep empty, stays there. */
  lemma SettledIsFixed(load: Load, c: Caps)
    requires Cap(c) >= 0
    ensures Settled(load, c) >= 0 && NextSize(Settled(load, c), load, c) == Settled(load, c)
  {
    var n := Settled(load, c);
    if n >= 1 {
      OneTickConverges(n, load, c);
    }
  }

  /** From any size the pool is settled after two ticks, from a non-empty one after one, and never moves again. */
  lemma {:induction false} Converges(n: nat, ticks: nat, load: Load, c: Caps)
    requires Cap(c) >= 0
    requires ticks >= 2 || (ticks >= 1 && n >= 1)
    ensures SizeAfter(n, ticks, load, c) == Settled(load, c)
    decreases ticks
  {
    SettledIsFixed(load, c);
    if ticks == 1 {
      assert SizeAfter(n, 0, load, c) == n;
      OneTickConverges(n, load, c);
    } else if ticks == 2 && n == 0 {
      assert SizeAfter(n, 0, load, c) == 0;
      var first := SizeAfter(n, 1, load, c);
      assert first == NextSize(0, load, c);
      if first >= 1 {
        OneTickConverges(first, load, c);
      }
    } else {
      Converges(n, ticks - 1, load, c);
    }
  }
}
