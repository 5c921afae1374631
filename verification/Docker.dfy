/** Scaling the pool of containers up and down, with any pattern of failing Docker calls. */
module Docker {
  import opened Lists
  import opened Metrics

  datatype Call = StatsCall | StopCall | RemoveCall

  /** `fails(loop, call, id)`: does this call fail in the first or second loop of Destroy? */
  type Faults = (nat, Call, string) -> bool

  /** What a container's stats body decodes to. */
  type Readings = string -> Option<CpuStats>

  ghost predicate NoFaults(fails: Faults) {
    forall loop: nat, call: Call, id: string :: !fails(loop, call, id)
  }

  predicate Idle(stats: Readings, id: string) { IsCpuIdle(stats(id)) }

  function IsIdle(stats: Readings): string -> bool { (id: string) => Idle(stats, id) }

  function IsBusy(stats: Readings): string -> bool { (id: string) => !Idle(stats, id) }

  /** The first loop takes idle containers whose stats can be read. */
  function FirstChoice(fails: Faults, stats: Readings): string -> bool {
    (id: string) => !fails(1, StatsCall, id) && Idle(stats, id)
  }

  /** The second loop takes any container whose stats can be read, so none that the first loop removed. */
  function SecondChoice(fails: Faults, taken: seq<string>): string -> bool {
    (id: string) => !fails(2, StatsCall, id) && !(id in taken && !fails(1, RemoveCall, id))
  }

  /** The containers of `taken` that a loop really stopped or removed. */
  function Downed(fails: Faults, loop: nat, taken: seq<string>): set<string> {
    set id | id in taken && (!fails(loop, StopCall, id) || !fails(loop, RemoveCall, id))
  }

  function Erased(fails: Faults, loop: nat, taken: seq<string>): set<string> {
    set id | id in taken && !fails(loop, RemoveCall, id)
  }

  datatype CreateAnswer =
    | CreateFailed
    | StartFailed(id: string)
    | Started(id: string)

  /** Ids of the containers that came up. */
  function StartedIds(answers: seq<CreateAnswer>): set<string> {
    if answers == [] then {}
    else
      var a := answers[|answers| - 1];
      StartedIds(answers[..|answers| - 1]) + if a.Started? then {a.id} else {}
  }

  function CreatedIds(answers: seq<CreateAnswer>): set<string> {
    if answers == [] then {}
    else
      var a := answers[|answers| - 1];
      CreatedIds(answers[..|answers| - 1]) + if a.CreateFailed? then {} else {a.id}
  }

  /** Docker gives every new container an id that nothing else has. */
  ghost predicate FreshIds(existing: set<string>, answers: seq<CreateAnswer>) {
    && (forall i :: 0 <= i < |answers| && !answers[i].CreateFailed? ==> answers[i].id !in existing)
    && (forall i, j :: 0 <= i < j < |answers| && !answers[i].CreateFailed? && !answers[j].CreateFailed? ==>
          answers[i].id != answers[j].id)
  }

  /**
   `taken` are min(n, |containers|) different containers, idle ones before busy ones and in list
   order within each class, and exactly they are gone from the pool.
   */
  ghost predicate TookIdleFirst(n: int, containers: seq<string>, stats: Readings,
                                before: set<string>, after: set<string>, taken: seq<string>)
  {
    && taken == Take(n, Filter(IsIdle(stats), containers) + Filter(IsBusy(stats), containers))
    && Distinct(taken)
    && |taken| == Max(0, Min(n, |containers|))
    && after == before - (set id | id in taken)
    && |after| == |before| - |taken|
  }

  lemma StartedStep(answers: seq<CreateAnswer>, i: nat)
    requires i < |answers|
    ensures StartedIds(answers[..i + 1]) == StartedIds(answers[..i]) + if answers[i].Started? then {answers[i].id} else {}
    ensures CreatedIds(answers[..i + 1]) == CreatedIds(answers[..i]) + if answers[i].CreateFailed? then {} else {answers[i].id}
  {
    assert answers[..i + 1][..i] == answers[..i];
  }

  class Daemon {
    var existing: set<string>  // created and not removed
    var running: set<string>

    ghost predicate Valid()
      reads this
    {
      running <= existing
    }

    /** What happens beside the Master: workers exit or are removed, others are started by hand. */
    method Drift(left: set<string>, joined: set<string>)
      requires Valid()
      modifies this
      ensures Valid()
      ensures running == old(running) - left + joined && existing == old(existing) + joined
    {
      running := running - left + joined;
      existing := existing + joined;
    }

    /** ContainerStop followed by ContainerRemove with force, errors ignored. */
    method StopAndRemove(id: string, loop: nat, fails: Faults)
      requires Valid()
      modifies this
      ensures Valid()
      ensures running == old(running) - Downed(fails, loop, [id])
      ensures existing == old(existing) - Erased(fails, loop, [id])
    {
      if !fails(loop, StopCall, id) {
        running := running - {id};
      }
      if !fails(loop, RemoveCall, id) {
        running := running - {id};
        existing := existing - {id};
      }
    }

    /** Idle containers first. `containers` is Docker's list of running workers. */
    method RemoveIdle(n: int, containers: seq<string>, stats: Readings, fails: Faults) returns (taken: seq<string>)
      requires Valid() && Distinct(containers) && forall id :: id in containers ==> id in existing
      modifies this
      ensures Valid()
      ensures taken == Take(n, Filter(FirstChoice(fails, stats), containers))
      ensures running == old(running) - Downed(fails, 1, taken)
      ensures existing == old(existing) - Erased(fails, 1, taken)
    {
      taken := [];
      var i := 0;
      while i < |containers|
        invariant i <= |containers| && Valid()
        invariant taken == Take(n, Filter(FirstChoice(fails, stats), containers[..i]))
        invariant forall id :: id in taken ==> id in containers[..i]
        invariant running == old(running) - Downed(fails, 1, taken)
        invariant existing == old(existing) - Erased(fails, 1, taken)
      {
        if |taken| >= n {
          break;
        }
        var id := containers[i];
        FilterAppend(FirstChoice(fails, stats), containers[..i], id);
        assert containers[..i + 1] == containers[..i] + [id];
        i := i + 1;
        if id !in existing || fails(1, StatsCall, id) {
          continue;
        }
        if IsCpuIdle(stats(id)) {
          StopAndRemove(id, 1, fails);
          taken := taken + [id];
        }
      }
      FilterPrefix(FirstChoice(fails, stats), containers, i);
      assert containers[..|containers|] == containers;
    }

    /** Then any container that still answers to a stats call. */
    method RemoveRest(n: int, containers: seq<string>, before: seq<string>, fails: Faults) returns (taken: seq<string>)
      requires Valid() && Distinct(containers)
      requires forall id :: id in containers ==> (id in existing <==> !(id in before && !fails(1, RemoveCall, id)))
      modifies this
      ensures Valid()
      ensures taken == Take(n, Filter(SecondChoice(fails, before), containers))
      ensures running == old(running) - Downed(fails, 2, taken)
      ensures existing == old(existing) - Erased(fails, 2, taken)
    {
      taken := [];
      var i := 0;
      while i < |containers|
        invariant i <= |containers| && Valid()
        invariant taken == Take(n, Filter(SecondChoice(fails, before), containers[..i]))
        invariant forall id :: id in taken ==> id in containers[..i]
        invariant running == old(running) - Downed(fails, 2, taken)
        invariant existing == old(existing) - Erased(fails, 2, taken)
      {
        if |taken| >= n {
          break;
        }
        var id := containers[i];
        FilterAppend(SecondChoice(fails, before), containers[..i], id);
        assert containers[..i + 1] == containers[..i] + [id];
        i := i + 1;
        if id !in existing || fails(2, StatsCall, id) {
          continue;
        }
        StopAndRemove(id, 2, fails);
        taken := taken + [id];
      }
      FilterPrefix(SecondChoice(fails, before), containers, i);
      assert containers[..|containers|] == containers;
    }

    /**
     Scale down by `n`. The two results are the containers each loop tried to stop and remove;
     the counter that both loops share is the sum of their lengths.
     */
    method Destroy(n: int, containers: seq<string>, listFails: bool, stats: Readings, fails: Faults)
      returns (first: seq<string>, second: seq<string>)
      requires Valid() && Distinct(containers) && forall id :: id in containers <==> id in running
      modifies this
      ensures Valid()
      ensures listFails ==> first == second == []
      ensures !listFails ==>
        && first == Take(n, Filter(FirstChoice(fails, stats), containers))
        && second == Take(n - |first|, Filter(SecondChoice(fails, first), containers))
      ensures running == old(running) - Downed(fails, 1, first) - Downed(fails, 2, second)
      ensures existing == old(existing) - Erased(fails, 1, first) - Erased(fails, 2, second)
      ensures forall id :: id in running <==>
        && id in old(running)
        && (id in first ==> fails(1, StopCall, id) && fails(1, RemoveCall, id))
        && (id in second ==> fails(2, StopCall, id) && fails(2, RemoveCall, id))
    {
      first, second := [], [];
      if listFails {
        return;
      }
      first := RemoveIdle(n, containers, stats, fails);
      second := RemoveRest(n - |first|, containers, first, fails);
    }

    /** Scale up by `n`; `answers` is what Docker replies to each creation. */
    method Generate(n: int, clientFails: bool, answers: seq<CreateAnswer>)
      requires Valid() && n <= |answers| && FreshIds(existing, answers)
      modifies this
      ensures Valid()
      ensures clientFails ==> running == old(running) && existing == old(existing)
      ensures !clientFails ==>
        && running == old(running) + StartedIds(Take(n, answers))
        && existing == old(existing) + CreatedIds(Take(n, answers))
    {
      if clientFails {
        return;
      }
      var i := 0;
      while i < n
        invariant 0 <= i <= Max(n, 0) && Valid()
        invariant running == old(running) + StartedIds(answers[..i])
        invariant existing == old(existing) + CreatedIds(answers[..i])
      {
        StartedStep(answers, i);
        match answers[i] {
          case CreateFailed =>
          case StartFailed(id) =>
            existing := existing + {id};
          case Started(id) =>
            existing := existing + {id};
            running := running + {id};
        }
        i := i + 1;
      }
      assert answers[..i] == Take(n, answers);
    }
  }

  lemma DownedSize(fails: Faults, loop: nat, taken: seq<string>)
    ensures |Downed(fails, loop, taken)| <= |taken|
  {
    SetAtMost(taken);
    SubsetSize(Downed(fails, loop, taken), set id | id in taken);
  }

  lemma DifferenceSize(a: set<string>, b: set<string>)
    ensures |a - b| >= |a| - |b|
  {
    assert a == (a - b) + (a * b);
    SubsetSize(a * b, b);
  }

  /** No more containers go down than were tried. */
  lemma AtMostAttempts(before: set<string>, first: seq<string>, second: seq<string>, fails: Faults)
    ensures |before - Downed(fails, 1, first) - Downed(fails, 2, second)| >= |before| - |first| - |second|
  {
    DownedSize(fails, 1, first);
    DownedSize(fails, 2, second);
    DifferenceSize(before, Downed(fails, 1, first));
    DifferenceSize(before - Downed(fails, 1, first), Downed(fails, 2, second));
  }

  /** Without failures the second loop sees exactly what the first left over. */
  lemma SecondSeesBusy(containers: seq<string>, stats: Readings, fails: Faults, first: seq<string>)
    requires NoFaults(fails) && first == Filter(IsIdle(stats), containers)
    ensures Filter(SecondChoice(fails, first), containers) == Filter(IsBusy(stats), containers)
  {
    FilterIn(IsIdle(stats), containers);
    FilterSame(SecondChoice(fails, first), IsBusy(stats), containers);
  }

  lemma DistinctConcat(a: seq<string>, b: seq<string>)
    requires Distinct(a) && Distinct(b) && forall x :: x in a ==> x !in b
    ensures Distinct(a + b)
  {
    forall i, j | 0 <= i < j < |a + b|
      ensures (a + b)[i] != (a + b)[j]
    {
      if i < |a| <= j {
        assert a[i] in a && b[j - |a|] in b;
      }
    }
  }

  lemma DistinctUnion(containers: seq<string>, stats: Readings)
    requires Distinct(containers)
    ensures Distinct(Filter(IsIdle(stats), containers) + Filter(IsBusy(stats), containers))
    ensures |Filter(IsIdle(stats), containers)| + |Filter(IsBusy(stats), containers)| == |containers|
    ensures forall id :: id in Filter(IsIdle(stats), containers) + Filter(IsBusy(stats), containers) ==> id in containers
  {
    FilterIn(IsIdle(stats), containers);
    FilterIn(IsBusy(stats), containers);
    FilterNoDuplicates(IsIdle(stats), containers);
    FilterNoDuplicates(IsBusy(stats), containers);
    FilterSplit(IsIdle(stats), IsBusy(stats), containers);
    DistinctConcat(Filter(IsIdle(stats), containers), Filter(IsBusy(stats), containers));
  }

  lemma TakeConcat(n: int, a: seq<string>, b: seq<string>)
    ensures Take(n, a + b) == Take(n, a) + Take(n - |Take(n, a)|, b)
  {
  }

  /** Without failures Destroy takes the idle containers in order, then the busy ones in order. */
  lemma IdleFirst(n: int, containers: seq<string>, stats: Readings, fails: Faults,
                  first: seq<string>, second: seq<string>)
    requires NoFaults(fails)
    requires first == Take(n, Filter(FirstChoice(fails, stats), containers))
    requires second == Take(n - |first|, Filter(SecondChoice(fails, first), containers))
    ensures first + second == Take(n, Filter(IsIdle(stats), containers) + Filter(IsBusy(stats), containers))
  {
    var idle, busy := Filter(IsIdle(stats), containers), Filter(IsBusy(stats), containers);
    FilterSame(FirstChoice(fails, stats), IsIdle(stats), containers);
    TakeConcat(n, idle, busy);
    if |idle| < n {
      assert first == idle;
      SecondSeesBusy(containers, stats, fails, first);
    }
  }

  lemma TakenDistinct(n: int, containers: seq<string>, stats: Readings)
    requires Distinct(containers)
    ensures var taken := Take(n, Filter(IsIdle(stats), containers) + Filter(IsBusy(stats), containers));
      Distinct(taken) && |taken| == Max(0, Min(n, |containers|)) && forall id :: id in taken ==> id in containers
  {
    DistinctUnion(containers, stats);
  }

  /** Whatever fails, a busy container is touched only when every idle one that answered has been tried. */
  lemma BusyOnlyAfterIdle(n: int, containers: seq<string>, stats: Readings, fails: Faults,
                          first: seq<string>, second: seq<string>)
    requires first == Take(n, Filter(FirstChoice(fails, stats), containers))
    requires second == Take(n - |first|, Filter(SecondChoice(fails, first), containers))
    ensures |first| + |second| <= Max(n, 0)
    ensures second != [] ==> forall id :: id in containers && Idle(stats, id) && !fails(1, StatsCall, id) ==> id in first
  {
    FilterIn(FirstChoice(fails, stats), containers);
  }

  lemma RemoveAllSize(before: set<string>, taken: seq<string>)
    requires Distinct(taken) && forall id :: id in taken ==> id in before
    ensures |before - set id | id in taken| == |before| - |taken|
  {
    SetSize(taken);
    assert before == (before - set id | id in taken) + set id | id in taken;
  }

  lemma DownedTogether(before: set<string>, first: seq<string>, second: seq<string>, fails: Faults)
    requires NoFaults(fails)
    ensures before - Downed(fails, 1, first) - Downed(fails, 2, second) == before - set id | id in first + second
  {
  }

  /** Destroy without failures: the second loop skips what the first removed, so idle goes before busy. */
  lemma CleanRemoval(n: int, containers: seq<string>, stats: Readings, fails: Faults,
                     first: seq<string>, second: seq<string>, before: set<string>)
    requires NoFaults(fails) && Distinct(containers) && forall id :: id in containers ==> id in before
    requires first == Take(n, Filter(FirstChoice(fails, stats), containers))
    requires second == Take(n - |first|, Filter(SecondChoice(fails, first), containers))
    ensures TookIdleFirst(n, containers, stats, before,
                          before - Downed(fails, 1, first) - Downed(fails, 2, second), first + second)
  {
    var taken := first + second;
    assert taken == Take(n, Filter(IsIdle(stats), containers) + Filter(IsBusy(stats), containers)) by {
      IdleFirst(n, containers, stats, fails, first, second);
    }
    TakenDistinct(n, containers, stats);
    DownedTogether(before, first, second, fails);
    RemoveAllSize(before, taken);
  }

  lemma {:induction false} NotStartedBefore(existing: set<string>, answers: seq<CreateAnswer>, n: nat, k: nat)
    requires n <= k < |answers| && FreshIds(existing, answers) && answers[k].Started?
    ensures answers[k].id !in StartedIds(answers[..n])
  {
    if n == 0 {
    } else {
      NotStartedBefore(existing, answers, n - 1, k);
      StartedStep(answers, n - 1);
    }
  }

  lemma AddOne(a: set<string>, b: set<string>, x: string)
    requires x !in a && x !in b
    ensures |a + (b + {x})| == |a + b| + 1
  {
    assert a + (b + {x}) == (a + b) + {x};
  }

  lemma NextGrows(running: set<string>, existing: set<string>, answers: seq<CreateAnswer>, k: nat)
    requires running <= existing && k < |answers| && FreshIds(existing, answers)
    ensures |running + StartedIds(answers[..k + 1])|
         == |running + StartedIds(answers[..k])| + if answers[k].Started? then 1 else 0
  {
    StartedStep(answers, k);
    if answers[k].Started? {
      NotStartedBefore(existing, answers, k, k);
      AddOne(running, StartedIds(answers[..k]), answers[k].id);
    } else {
      assert StartedIds(answers[..k + 1]) == StartedIds(answers[..k]);
    }
  }

  /** Each answer adds at most one running container, and exactly one when it is a start. */
  lemma {:induction false} StartedGrowth(running: set<string>, existing: set<string>, answers: seq<CreateAnswer>, n: nat)
    requires running <= existing && n <= |answers| && FreshIds(existing, answers)
    ensures |running + StartedIds(answers[..n])| <= |running| + n
    ensures (forall i :: 0 <= i < n ==> answers[i].Started?) ==> |running + StartedIds(answers[..n])| == |running| + n
  {
    if n == 0 {
      assert running + StartedIds(answers[..0]) == running;
    } else {
      StartedGrowth(running, existing, answers, n - 1);
      NextGrows(running, existing, answers, n - 1);
    }
  }
}
