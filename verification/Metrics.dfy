/** Container statistics and the cluster averages computed from them. */
module Metrics {
  import opened Lists

  const TWO_TO_THE_64: int := 0x1_0000_0000_0000_0000

  type uint64 = x: int | 0 <= x < TWO_TO_THE_64

  /** Subtraction of Go's uint64, which wraps around. */
  function Minus(a: uint64, b: uint64): (r: uint64)
    ensures a >= b ==> r == a - b
    ensures a < b ==> r == 0x1_0000_0000_0000_0000 + a - b
  {
    (a - b) % TWO_TO_THE_64
  }

  datatype CpuStats = CpuStats(
    total: uint64,
    preTotal: uint64,
    system: uint64,
    preSystem: uint64,
    online: uint64,
    perCpu: seq<uint64>)

  function CpuDelta(v: CpuStats): uint64 { Minus(v.total, v.preTotal) }

  function SystemDelta(v: CpuStats): uint64 { Minus(v.system, v.preSystem) }

  function CpuPercent(v: CpuStats, cpus: nat): real
    requires SystemDelta(v) > 0
  {
    (CpuDelta(v) as real / SystemDelta(v) as real) * cpus as real * 100.0
  }

  function FetchContainerCpu(v: CpuStats): real {
    if SystemDelta(v) > 0 && CpuDelta(v) > 0 then CpuPercent(v, v.online) else 0.0
  }

  lemma Undivide(c: real, s: real, n: real)
    requires c >= 0.0 && s > 0.0 && n >= 0.0
    ensures ((c / s) * n * 100.0) * s == c * n * 100.0
    ensures (c / s) * n * 100.0 >= 0.0
  {
    var q := c / s;
    assert q * s == c;
    assert ((q * n) * 100.0) * s == (q * s) * n * 100.0;
    assert q >= 0.0;
    assert q * n >= 0.0;
  }

  /**
   The documented formula, free of its division: reading x system time passed = CPU time used x
   CPUs x 100. A counter that is behind its previous value has wrapped around once.
   */
  lemma CpuFormula(v: CpuStats)
    ensures var used := v.total - v.preTotal + if v.total < v.preTotal then 0x1_0000_0000_0000_0000 else 0;
            var passed := v.system - v.preSystem + if v.system < v.preSystem then 0x1_0000_0000_0000_0000 else 0;
      && FetchContainerCpu(v) * passed as real
         == (if passed > 0 then used as real * v.online as real * 100.0 else 0.0)
      && (passed == 0 ==> FetchContainerCpu(v) == 0.0)
    ensures FetchContainerCpu(v) >= 0.0
  {
    if SystemDelta(v) > 0 && CpuDelta(v) > 0 {
      Undivide(CpuDelta(v) as real, SystemDelta(v) as real, v.online as real);
    }
  }

  /** The idle test; a body that does not decode is not idle. */
  predicate IsCpuIdle(body: Option<CpuStats>) {
    match body
    case None => false
    case Some(v) =>
      if SystemDelta(v) > 0 && CpuDelta(v) > 0 then
        CpuPercent(v, if v.online == 0 then |v.perCpu| else v.online) < 0.1
      else
        true
  }

  lemma ScaledOrder(p: real, t: real, s: real)
    requires s > 0.0
    ensures p < t <==> p * s < t * s
  {
    if p < t {
      assert (t - p) * s > 0.0;
    } else {
      assert (p - t) * s >= 0.0;
    }
  }

  lemma Tenfold(a: real, b: real, s: real)
    requires a == b * 100.0
    ensures a < 0.1 * s <==> 1000.0 * b < s
  {
  }

  lemma PercentUnder(v: CpuStats, cpus: nat)
    requires SystemDelta(v) > 0
    ensures CpuPercent(v, cpus) < 0.1
      <==> 1000.0 * (CpuDelta(v) as real * cpus as real) < SystemDelta(v) as real
  {
    var c, s := CpuDelta(v) as real, SystemDelta(v) as real;
    Undivide(c, s, cpus as real);
    ScaledOrder(CpuPercent(v, cpus), 0.1, s);
    Tenfold(CpuPercent(v, cpus) * s, c * cpus as real, s);
  }

  /** The CPU count of the idle test: the reported one, or else the number of per-CPU entries. */
  function CountedCpus(v: CpuStats): nat { if v.online == 0 then |v.perCpu| else v.online }

  /**
   Idle, free of divisions: a thousand times the CPU time used, over all CPUs, is under the time
   that passed, or no time passed. With a reported CPU count that is exactly a usage reading
   under 0.1 percent; without one the reading is 0 whatever the idle test finds.
   */
  lemma IdleFormula(v: CpuStats)
    ensures var used := v.total - v.preTotal + if v.total < v.preTotal then 0x1_0000_0000_0000_0000 else 0;
            var passed := v.system - v.preSystem + if v.system < v.preSystem then 0x1_0000_0000_0000_0000 else 0;
            var cpus := if v.online == 0 then |v.perCpu| else v.online;
      IsCpuIdle(Some(v)) <==> passed == 0 || 1000.0 * (used as real * cpus as real) < passed as real
    ensures !IsCpuIdle(None)
    ensures v.online != 0 ==> (IsCpuIdle(Some(v)) <==> FetchContainerCpu(v) < 0.1)
    ensures v.online == 0 ==> FetchContainerCpu(v) == 0.0
  {
    if SystemDelta(v) > 0 {
      PercentUnder(v, CountedCpus(v));
      if v.online == 0 {
        assert CpuPercent(v, 0) == 0.0;
      }
    }
  }

  lemma Grows(a: real, s: real)
    requires s > 0.0 && a >= 1.0
    ensures a * s >= s
  {
    assert (a - 1.0) * s >= 0.0;
  }

  datatype MemoryStats = MemoryStats(usage: uint64, limit: uint64, stats: map<string, uint64>)

  /** Page cache to discount: the cgroup v2 key first, then the v1 key. */
  function Cache(v: MemoryStats): nat {
    if "inactive_file" in v.stats then v.stats["inactive_file"]
    else if "total_inactive_file" in v.stats then v.stats["total_inactive_file"]
    else 0
  }

  function FetchContainerMemory(v: MemoryStats): real {
    if v.limit <= 0 then 0.0
    else (Max(v.usage - Cache(v), 0) as real / v.limit as real) * 100.0
  }

  lemma Ratio(u: real, l: real)
    requires u >= 0.0 && l > 0.0
    ensures u / l >= 0.0
    ensures u <= l ==> u / l <= 1.0
  {
    var q := u / l;
    assert q * l == u;
    if q > 1.0 {
      Grows(q, l);
      assert (q - 1.0) * l > 0.0;
    }
  }

  /** The documented formula, free of its division, and its range: the v2 key wins, the v1 key stands in for it. */
  lemma MemoryFormula(v: MemoryStats)
    ensures var cache := if "inactive_file" in v.stats then v.stats["inactive_file"]
                         else if "total_inactive_file" in v.stats then v.stats["total_inactive_file"] else 0;
      FetchContainerMemory(v) * v.limit as real
      == if v.limit == 0 || v.usage <= cache then 0.0 else 100.0 * (v.usage - cache) as real
    ensures 0.0 <= FetchContainerMemory(v)
    ensures v.usage <= v.limit ==> FetchContainerMemory(v) <= 100.0
    ensures v.limit == 0 ==> FetchContainerMemory(v) == 0.0
  {
    if v.limit > 0 {
      var u, l := Max(v.usage - Cache(v), 0) as real, v.limit as real;
      Ratio(u, l);
      Undivide(u, l, 1.0);
    }
  }

  /** Sum of the readings that could be taken. */
  function Sum(readings: seq<Option<real>>): real {
    if readings == [] then 0.0
    else
      var last := readings[|readings| - 1];
      Sum(readings[..|readings| - 1]) + if last.Some? then last.value else 0.0
  }

  /** Each reading is in the sum once, wherever it stands. */
  lemma {:induction false} SumConcat(a: seq<Option<real>>, b: seq<Option<real>>)
    ensures Sum(a + b) == Sum(a) + Sum(b)
  {
    if b == [] {
      assert a + b == a;
    } else {
      var c := b[..|b| - 1];
      SumConcat(a, c);
      assert (a + b)[..|a + b| - 1] == a + c;
    }
  }

  lemma SumOne(reading: Option<real>)
    ensures Sum([reading]) == if reading.Some? then reading.value else 0.0
  {
    assert [reading][..0] == [];
  }

  /** A container whose reading fails adds nothing but still counts in the divisor. */
  function Average(readings: seq<Option<real>>): real {
    if |readings| > 0 then Sum(readings) / |readings| as real else 0.0
  }

  lemma {:induction false} SumBetween(readings: seq<Option<real>>, low: real, high: real)
    requires forall i :: 0 <= i < |readings| && readings[i].Some? ==> low <= readings[i].value <= high
    requires (exists i :: 0 <= i < |readings| && readings[i].None?) ==> low <= 0.0 <= high
    ensures low * |readings| as real <= Sum(readings) <= high * |readings| as real
  {
    if readings == [] {
    } else {
      var n := |readings| - 1;
      SumBetween(readings[..n], low, high);
      assert low * (n + 1) as real == low * n as real + low;
      assert high * (n + 1) as real == high * n as real + high;
    }
  }

  lemma QuotientBetween(total: real, n: real, low: real, high: real)
    requires n > 0.0 && low * n <= total <= high * n
    ensures low <= total / n <= high && (total / n) * n == total
  {
    var q := total / n;
    assert q * n == total;
    ScaledOrder(q, low, n);
    ScaledOrder(high, q, n);
  }

  /** The average is at most the largest reading and at least the smallest, a failed one counting as 0. */
  lemma AverageBetween(readings: seq<Option<real>>, low: real, high: real)
    requires readings != []
    requires forall i :: 0 <= i < |readings| && readings[i].Some? ==> low <= readings[i].value <= high
    requires (exists i :: 0 <= i < |readings| && readings[i].None?) ==> low <= 0.0 <= high
    ensures low <= Average(readings) <= high
    ensures Average(readings) * |readings| as real == Sum(readings)
  {
    SumBetween(readings, low, high);
    QuotientBetween(Sum(readings), |readings| as real, low, high);
  }

  function CpuReading(s: Option<CpuStats>): Option<real> {
    if s.None? then None else Some(FetchContainerCpu(s.value))
  }

  function MemoryReading(s: Option<MemoryStats>): Option<real> {
    if s.None? then None else Some(FetchContainerMemory(s.value))
  }

  method GetTotalClusterCpu(containers: seq<Option<CpuStats>>) returns (percent: real)
    ensures percent == Average(seq(|containers|, i requires 0 <= i < |containers| => CpuReading(containers[i])))
  {
    ghost var readings := seq(|containers|, i requires 0 <= i < |containers| => CpuReading(containers[i]));
    var total := 0.0;
    for i := 0 to |containers|
      invariant total == Sum(readings[..i])
    {
      assert readings[..i + 1][..i] == readings[..i];
      if containers[i].None? {
        continue;
      }
      total := total + FetchContainerCpu(containers[i].value);
    }
    assert readings[..|containers|] == readings;
    if |containers| > 0 {
      return total / |containers| as real;
    }
    return total;
  }

  method GetTotalClusterMemory(containers: seq<Option<MemoryStats>>) returns (percent: real)
    ensures percent == Average(seq(|containers|, i requires 0 <= i < |containers| => MemoryReading(containers[i])))
  {
    ghost var readings := seq(|containers|, i requires 0 <= i < |containers| => MemoryReading(containers[i]));
    var total := 0.0;
    for i := 0 to |containers|
      invariant total == Sum(readings[..i])
    {
      assert readings[..i + 1][..i] == readings[..i];
      if containers[i].None? {
        continue;
      }
      total := total + FetchContainerMemory(containers[i].value);
    }
    assert readings[..|containers|] == readings;
    if |containers| > 0 {
      return total / |containers| as real;
    }
    return total;
  }
}
