/**
 The load generator's bounded concurrency: a semaphore channel, a WaitGroup and atomic
 counters, for any capacity, under every interleaving of the main loop and its goroutines.
 */
module LoadGenerator {
  import opened Lists

  /** Where the main goroutine is. */
  datatype MainPc =
    | Looping         // about to look at stopChan
    | Sleeping        // stopChan was open, in the Poisson delay
    | Counted         // totalSentCount incremented
    | Added           // wg.Add(1) done
    | Acquired        // semaphore slot taken
    | Waiting         // inside wg.Wait
    | Returned        // wg.Wait has returned

  /** Where a request goroutine is; the deferred calls run last-in first-out. */
  datatype Goroutine =
    | Started
    | Generated       // one of the type counters incremented, request being sent
    | Succeeded       // successCount incremented
    | Released        // semaphore slot given back
    | Done            // wg.Done called

  datatype TaskKind = StressCpu | Prime | PowerOfTwo

  datatype State = State(
    main: MainPc,
    stopped: bool,             // stopChan is closed
    semaphore: nat,            // elements in the channel
    waitGroup: nat,
    goroutines: seq<Goroutine>,
    totalSent: nat,
    stressCpu: nat,
    prime: nat,
    powerOfTwo: nat,
    success: nat)

  datatype Step =
    | Interrupt                // close(stopChan)
    | PassCheck
    | CountSent
    | LeaveLoop
    | AddToGroup
    | Acquire
    | Spawn
    | WaitDone
    | Generate(g: nat, kind: TaskKind)
    | Succeed(g: nat)
    | Release(g: nat)          // after a success or a failed request
    | Finish(g: nat)

  predicate Initial(s: State) {
    && s.main == Looping && !s.stopped && s.semaphore == 0 && s.waitGroup == 0 && s.goroutines == []
    && s.totalSent == 0 && s.stressCpu == 0 && s.prime == 0 && s.powerOfTwo == 0 && s.success == 0
  }

  predicate At(s: State, g: nat, where: Goroutine) { g < |s.goroutines| && s.goroutines[g] == where }

  predicate Enabled(s: State, capacity: nat, a: Step) {
    match a
    case Interrupt => !s.stopped
    case PassCheck => s.main == Looping && !s.stopped
    case CountSent => s.main == Sleeping
    case LeaveLoop => s.main == Looping && s.stopped
    case AddToGroup => s.main == Counted
    case Acquire => s.main == Added && s.semaphore < capacity
    case Spawn => s.main == Acquired
    case WaitDone => s.main == Waiting && s.waitGroup == 0
    case Generate(g, _) => At(s, g, Started)
    case Succeed(g) => At(s, g, Generated)
    case Release(g) => (At(s, g, Generated) || At(s, g, Succeeded)) && s.semaphore > 0
    case Finish(g) => At(s, g, Released) && s.waitGroup > 0
  }

  function Move(s: State, g: nat, where: Goroutine): State
    requires g < |s.goroutines|
  {
    s.(goroutines := s.goroutines[g := where])
  }

  function Apply(s: State, capacity: nat, a: Step): State
    requires Enabled(s, capacity, a)
  {
    match a
    case Interrupt => s.(stopped := true)
    case PassCheck => s.(main := Sleeping)
    case CountSent => s.(main := Counted, totalSent := s.totalSent + 1)
    case LeaveLoop => s.(main := Waiting)
    case AddToGroup => s.(main := Added, waitGroup := s.waitGroup + 1)
    case Acquire => s.(main := Acquired, semaphore := s.semaphore + 1)
    case Spawn => s.(main := Looping, goroutines := s.goroutines + [Started])
    case WaitDone => s.(main := Returned)
    case Generate(g, StressCpu) => Move(s.(stressCpu := s.stressCpu + 1), g, Generated)
    case Generate(g, Prime) => Move(s.(prime := s.prime + 1), g, Generated)
    case Generate(g, PowerOfTwo) => Move(s.(powerOfTwo := s.powerOfTwo + 1), g, Generated)
    case Succeed(g) => Move(s.(success := s.success + 1), g, Succeeded)
    case Release(g) => Move(s.(semaphore := s.semaphore - 1), g, Released)
    case Finish(g) => Move(s.(waitGroup := s.waitGroup - 1), g, Done)
  }

  predicate ValidRun(s: State, capacity: nat, run: seq<Step>)
    decreases |run|
  {
    run == [] || (Enabled(s, capacity, run[0]) && ValidRun(Apply(s, capacity, run[0]), capacity, run[1..]))
  }

  function Final(s: State, capacity: nat, run: seq<Step>): State
    requires ValidRun(s, capacity, run)
    decreases |run|
  {
    if run == [] then s else Final(Apply(s, capacity, run[0]), capacity, run[1..])
  }

  ghost predicate Leads(start: State, capacity: nat, run: seq<Step>, s: State) {
    Initial(start) && ValidRun(start, capacity, run) && Final(start, capacity, run) == s
  }

  ghost predicate Reachable(s: State, capacity: nat) {
    exists start, run :: Leads(start, capacity, run, s)
  }

  /** The goroutine holds a semaphore slot. */
  predicate HoldsSlot(g: Goroutine) { g.Started? || g.Generated? || g.Succeeded? }

  /** The goroutine is between the increment of its type counter and the end of its request. */
  predicate InFlight(g: Goroutine) { g.Generated? || g.Succeeded? }

  predicate Open(g: Goroutine) { !g.Done? }

  predicate Fresh(g: Goroutine) { g.Started? }

  function TypesCounted(s: State): nat { s.stressCpu + s.prime + s.powerOfTwo }

  /** Slots, group members and counters, each tied to where the goroutines are. */
  ghost predicate Consistent(s: State, capacity: nat) {
    && s.semaphore == Count(HoldsSlot, s.goroutines) + (if s.main == Acquired then 1 else 0)
    && s.semaphore <= capacity
    && s.waitGroup == Count(Open, s.goroutines) + (if s.main == Added || s.main == Acquired then 1 else 0)
  }

  /** The goroutine may still add to successCount. */
  predicate Pending(g: Goroutine) { g.Started? || g.Generated? }

  ghost predicate CountersMatch(s: State) {
    && s.totalSent == |s.goroutines| + (if s.main == Counted || s.main == Added || s.main == Acquired then 1 else 0)
    && TypesCounted(s) + Count(Fresh, s.goroutines) == |s.goroutines|
    && s.success + Count(Pending, s.goroutines) <= |s.goroutines|
    && (s.main == Waiting || s.main == Returned ==> s.stopped)
    && (s.main == Returned ==> s.waitGroup == 0)
  }

  predicate OfGoroutine(a: Step) { a.Generate? || a.Succeed? || a.Release? || a.Finish? }

  lemma CountsMove(s: State, capacity: nat, a: Step, p: Goroutine -> bool)
    requires Enabled(s, capacity, a)
    ensures OfGoroutine(a) ==>
      var before, after := s.goroutines[a.g], Apply(s, capacity, a).goroutines[a.g];
      Count(p, Apply(s, capacity, a).goroutines) + (if p(before) then 1 else 0)
      == Count(p, s.goroutines) + if p(after) then 1 else 0
    ensures a.Spawn? ==>
      Count(p, Apply(s, capacity, a).goroutines) == Count(p, s.goroutines) + if p(Started) then 1 else 0
    ensures !OfGoroutine(a) && !a.Spawn? ==> Apply(s, capacity, a).goroutines == s.goroutines
  {
    if OfGoroutine(a) {
      CountUpdate(p, s.goroutines, a.g, Apply(s, capacity, a).goroutines[a.g]);
    } else if a.Spawn? {
      CountAppend(p, s.goroutines, Started);
    }
  }

  /** The counts that the invariants speak of, moved by one step of a goroutine. */
  lemma GoroutineCounts(s: State, capacity: nat, a: Step)
    requires Enabled(s, capacity, a) && OfGoroutine(a)
    ensures var gs, gs' := s.goroutines, Apply(s, capacity, a).goroutines;
      && |gs'| == |gs|
      && Count(HoldsSlot, gs') + (if a.Release? then 1 else 0) == Count(HoldsSlot, gs)
      && Count(Open, gs') + (if a.Finish? then 1 else 0) == Count(Open, gs)
      && Count(Fresh, gs') + (if a.Generate? then 1 else 0) == Count(Fresh, gs)
      && Count(Pending, gs') + (if a.Succeed? then 1 else 0) <= Count(Pending, gs)
  {
    CountsMove(s, capacity, a, HoldsSlot);
    CountsMove(s, capacity, a, Open);
    CountsMove(s, capacity, a, Fresh);
    CountsMove(s, capacity, a, Pending);
  }

  lemma SpawnCounts(s: State, capacity: nat)
    requires Enabled(s, capacity, Spawn)
    ensures var gs, gs' := s.goroutines, Apply(s, capacity, Spawn).goroutines;
      && Count(HoldsSlot, gs') == Count(HoldsSlot, gs) + 1
      && Count(Open, gs') == Count(Open, gs) + 1
      && Count(Fresh, gs') == Count(Fresh, gs) + 1
      && Count(Pending, gs') == Count(Pending, gs) + 1
  {
    CountsMove(s, capacity, Spawn, HoldsSlot);
    CountsMove(s, capacity, Spawn, Open);
    CountsMove(s, capacity, Spawn, Fresh);
    CountsMove(s, capacity, Spawn, Pending);
  }

  lemma SlotsStep(s: State, capacity: nat, a: Step)
    requires Consistent(s, capacity) && Enabled(s, capacity, a) && OfGoroutine(a)
    ensures Consistent(Apply(s, capacity, a), capacity)
  {
    GoroutineCounts(s, capacity, a);
  }

  lemma CountersOfStep(s: State, capacity: nat, a: Step)
    requires Enabled(s, capacity, a) && OfGoroutine(a)
    ensures var s' := Apply(s, capacity, a);
      && TypesCounted(s') == TypesCounted(s) + (if a.Generate? then 1 else 0)
      && s'.success == s.success + (if a.Succeed? then 1 else 0)
      && s'.main == s.main && s'.stopped == s.stopped && s'.totalSent == s.totalSent && s'.waitGroup <= s.waitGroup
  {
  }

  lemma TypesStep(s: State, capacity: nat, a: Step)
    requires CountersMatch(s) && Enabled(s, capacity, a) && OfGoroutine(a)
    ensures CountersMatch(Apply(s, capacity, a))
  {
    CountersOfStep(s, capacity, a);
    GoroutineCounts(s, capacity, a);
  }

  lemma MainStep(s: State, capacity: nat, a: Step)
    requires Consistent(s, capacity) && CountersMatch(s) && Enabled(s, capacity, a) && !OfGoroutine(a)
    ensures Consistent(Apply(s, capacity, a), capacity) && CountersMatch(Apply(s, capacity, a))
  {
    if a.Spawn? {
      SpawnCounts(s, capacity);
    }
  }

  lemma {:induction false} InvariantRun(s: State, capacity: nat, run: seq<Step>)
    requires Consistent(s, capacity) && CountersMatch(s) && ValidRun(s, capacity, run)
    ensures Consistent(Final(s, capacity, run), capacity) && CountersMatch(Final(s, capacity, run))
    decreases |run|
  {
    if run == [] {
    } else {
      if OfGoroutine(run[0]) {
        SlotsStep(s, capacity, run[0]);
        TypesStep(s, capacity, run[0]);
      } else {
        MainStep(s, capacity, run[0]);
      }
      InvariantRun(Apply(s, capacity, run[0]), capacity, run[1..]);
    }
  }

  lemma Invariant(s: State, capacity: nat)
    requires Reachable(s, capacity)
    ensures Consistent(s, capacity) && CountersMatch(s)
  {
    var start, run :| Leads(start, capacity, run, s);
    InvariantRun(start, capacity, run);
  }

  // ---- What the counters count ----

  function Generates(kind: TaskKind): Step -> bool { (a: Step) => a.Generate? && a.kind == kind }

  predicate IsSucceed(a: Step) { a.Succeed? }

  predicate IsCountSent(a: Step) { a.CountSent? }

  predicate IsSpawn(a: Step) { a.Spawn? }

  lemma CountersOfOne(s: State, capacity: nat, a: Step)
    requires Enabled(s, capacity, a)
    ensures var s' := Apply(s, capacity, a);
      && s'.stressCpu == s.stressCpu + (if a.Generate? && a.kind == StressCpu then 1 else 0)
      && s'.prime == s.prime + (if a.Generate? && a.kind == Prime then 1 else 0)
      && s'.powerOfTwo == s.powerOfTwo + (if a.Generate? && a.kind == PowerOfTwo then 1 else 0)
      && s'.success == s.success + (if a.Succeed? then 1 else 0)
      && s'.totalSent == s.totalSent + (if a.CountSent? then 1 else 0)
      && |s'.goroutines| == |s.goroutines| + (if a.Spawn? then 1 else 0)
      && (s'.stopped <==> s.stopped || a.Interrupt?)
  {
  }

  /** Over every run each counter has grown by the steps of its own kind, and the stop is the interrupt's doing. */
  lemma {:induction false} CountersAreSteps(s: State, capacity: nat, run: seq<Step>)
    requires ValidRun(s, capacity, run)
    ensures var s' := Final(s, capacity, run);
      && s'.stressCpu == s.stressCpu + Count(Generates(StressCpu), run)
      && s'.prime == s.prime + Count(Generates(Prime), run)
      && s'.powerOfTwo == s.powerOfTwo + Count(Generates(PowerOfTwo), run)
      && s'.success == s.success + Count(IsSucceed, run)
      && s'.totalSent == s.totalSent + Count(IsCountSent, run)
      && |s'.goroutines| == |s.goroutines| + Count(IsSpawn, run)
      && (s'.stopped <==> s.stopped || Interrupt in run)
    decreases |run|
  {
    if run == [] {
    } else {
      CountersOfOne(s, capacity, run[0]);
      CountersAreSteps(Apply(s, capacity, run[0]), capacity, run[1..]);
      CountTail(Generates(StressCpu), run);
      CountTail(Generates(Prime), run);
      CountTail(Generates(PowerOfTwo), run);
      CountTail(IsSucceed, run);
      CountTail(IsCountSent, run);
      CountTail(IsSpawn, run);
    }
  }

  /** At most `capacity` requests are in flight, and no counter runs ahead of totalSentCount. */
  lemma ConcurrencyBounded(s: State, capacity: nat)
    requires Reachable(s, capacity)
    ensures Count(InFlight, s.goroutines) <= s.semaphore <= capacity
    ensures TypesCounted(s) <= s.totalSent && s.success <= s.totalSent
  {
    Invariant(s, capacity);
    CountMonotone(InFlight, HoldsSlot, s.goroutines);
  }

  /** When wg.Wait has returned, every request is over, the type counters add up and the semaphore is empty. */
  lemma AllAccountedAtExit(s: State, capacity: nat)
    requires Reachable(s, capacity) && s.main == Returned
    ensures TypesCounted(s) == s.totalSent == |s.goroutines|
    ensures s.semaphore == 0 && s.success <= s.totalSent
    ensures forall g :: 0 <= g < |s.goroutines| ==> s.goroutines[g] == Done
  {
    Invariant(s, capacity);
    CountMonotone(HoldsSlot, Open, s.goroutines);
    CountMonotone(Fresh, Open, s.goroutines);
    forall g | 0 <= g < |s.goroutines|
      ensures s.goroutines[g] == Done
    {
      CountRemoveAt(Open, s.goroutines, g);
    }
  }

  /** The deferred channel receive and wg.Done never block, so a goroutine always reaches its end. */
  lemma DeferredNeverBlock(s: State, capacity: nat, g: nat)
    requires Reachable(s, capacity) && g < |s.goroutines|
    ensures InFlight(s.goroutines[g]) ==> Enabled(s, capacity, Release(g))
    ensures s.goroutines[g] == Generated ==> Enabled(s, capacity, Succeed(g))
    ensures s.goroutines[g] == Started ==> forall kind :: Enabled(s, capacity, Generate(g, kind))
    ensures s.goroutines[g] == Released ==> Enabled(s, capacity, Finish(g))
  {
    Invariant(s, capacity);
    if InFlight(s.goroutines[g]) {
      CountRemoveAt(HoldsSlot, s.goroutines, g);
    } else if s.goroutines[g] == Released {
      CountRemoveAt(Open, s.goroutines, g);
    }
  }

  /** No deadlock: with room for at least one request, some step can be taken until wg.Wait has returned. */
  lemma NeverStuck(s: State, capacity: nat) returns (a: Step)
    requires Reachable(s, capacity) && capacity >= 1 && s.main != Returned
    ensures Enabled(s, capacity, a) && a != Interrupt
    ensures !s.stopped ==> Enabled(s, capacity, Interrupt)
  {
    Invariant(s, capacity);
    match s.main
    case Looping => a := if s.stopped then LeaveLoop else PassCheck;
    case Sleeping => a := CountSent;
    case Counted => a := AddToGroup;
    case Acquired => a := Spawn;
    case Added =>
      if s.semaphore < capacity {
        a := Acquire;
      } else {
        var g := CountWitness(HoldsSlot, s.goroutines);
        DeferredNeverBlock(s, capacity, g);
        a := if s.goroutines[g] == Started then Generate(g, Prime) else Release(g);
      }
    case Waiting =>
      if s.waitGroup == 0 {
        a := WaitDone;
      } else {
        var g := CountWitness(Open, s.goroutines);
        DeferredNeverBlock(s, capacity, g);
        a := match s.goroutines[g]
          case Started => Generate(g, Prime)
          case Released => Finish(g)
          case _ => Release(g);
      }
  }

  /** Steps a goroutine has left. */
  function StepsLeft(g: Goroutine): nat {
    match g
    case Started => 4
    case Generated => 3
    case Succeeded => 2
    case Released => 1
    case Done => 0
  }

  function AllStepsLeft(gs: seq<Goroutine>): nat {
    if gs == [] then 0 else AllStepsLeft(gs[..|gs| - 1]) + StepsLeft(gs[|gs| - 1])
  }

  lemma {:induction false} StepsLeftUpdate(gs: seq<Goroutine>, i: nat, g: Goroutine)
    requires i < |gs|
    ensures AllStepsLeft(gs[i := g]) + StepsLeft(gs[i]) == AllStepsLeft(gs) + StepsLeft(g)
  {
    var n := |gs| - 1;
    if i == n {
      assert gs[i := g][..n] == gs[..n];
    } else {
      StepsLeftUpdate(gs[..n], i, g);
      assert gs[i := g][..n] == gs[..n][i := g];
    }
  }

  /** Steps left to the whole program once stopChan is closed. */
  function WorkLeft(s: State): nat {
    AllStepsLeft(s.goroutines) + match s.main
    case Returned => 0
    case Waiting => 1
    case Looping => 2
    case Acquired => 7
    case Added => 8
    case Counted => 9
    case Sleeping => 10
  }

  lemma GoroutineShrinks(s: State, capacity: nat, a: Step)
    requires Enabled(s, capacity, a) && OfGoroutine(a)
    ensures WorkLeft(Apply(s, capacity, a)) < WorkLeft(s)
  {
    var after := Apply(s, capacity, a).goroutines[a.g];
    assert StepsLeft(after) < StepsLeft(s.goroutines[a.g]);
    StepsLeftUpdate(s.goroutines, a.g, after);
  }

  lemma WorkShrinks(s: State, capacity: nat, a: Step)
    requires s.stopped && Enabled(s, capacity, a)
    ensures Apply(s, capacity, a).stopped && WorkLeft(Apply(s, capacity, a)) < WorkLeft(s)
  {
    if OfGoroutine(a) {
      GoroutineShrinks(s, capacity, a);
    } else if a.Spawn? {
      assert (s.goroutines + [Started])[..|s.goroutines|] == s.goroutines;
    }
  }

  /** After the interrupt every interleaving ends; by `NeverStuck` it ends with wg.Wait returned. */
  lemma {:induction false} EndsAfterInterrupt(s: State, capacity: nat, run: seq<Step>)
    requires s.stopped && ValidRun(s, capacity, run)
    ensures |run| <= WorkLeft(s)
    decreases |run|
  {
    if run == [] {
    } else {
      WorkShrinks(s, capacity, run[0]);
      EndsAfterInterrupt(Apply(s, capacity, run[0]), capacity, run[1..]);
    }
  }
}
