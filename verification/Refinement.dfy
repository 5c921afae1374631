/**
 The sequence-level descriptions and the step system agree: a recovery pass, with any
 failures, is a run of the Master's steps alone and every such run is a pass, and a turn of a
 worker taken alone changes the lists and counters as its description says.
 */
module Refinement {
  import opened Lists
  import opened Protocol
  import opened Recovery
  import Store
  import Tokens

  type Hosts = nat -> string

  /** The first `n` workers have different host names. */
  ghost predicate DistinctHosts(host: Hosts, n: nat) {
    forall v, w :: 0 <= v < n && 0 <= w < n && host(v) == host(w) ==> v == w
  }

  /** Entries of the first `n` workers. */
  predicate Known(n: nat, q: seq<Record>) { forall i :: 0 <= i < |q| ==> q[i].worker < n }

  /** The workers there have been have different host names, and the entries name such workers. */
  ghost predicate WellNamed(host: Hosts, s: State) {
    DistinctHosts(host, |s.workers|) && Known(|s.workers|, s.processing)
  }

  lemma ReachableWellNamed(host: Hosts, s: State)
    requires Reachable(s) && DistinctHosts(host, |s.workers|)
    ensures WellNamed(host, s)
  {
    Tokens.ReachableTokenInv(s);
    forall i | 0 <= i < |s.processing|
      ensures s.processing[i].worker < |s.workers|
    {
      assert s.processing[i] in Records(s);
    }
  }

  function Raw(c: Store.Codec, host: Hosts, s: State, r: Record): string {
    c.encode(TaskPair(host(r.worker), Payload(s, r.task)))
  }

  function Raws(c: Store.Codec, host: Hosts, s: State, q: seq<Record>): seq<string> {
    seq(|q|, i requires 0 <= i < |q| => Raw(c, host, s, q[i]))
  }

  function Payloads(s: State, q: seq<nat>): seq<string> {
    seq(|q|, i requires 0 <= i < |q| => Payload(s, q[i]))
  }

  /** The lists as Redis stores them. */
  function View(c: Store.Codec, host: Hosts, s: State): Queues {
    Queues(Payloads(s, s.taskQueue), Raws(c, host, s, s.processing), Raws(c, host, s, s.temp))
  }

  ghost function HostsOf(host: Hosts, who: set<nat>): set<string> {
    set w | w in who :: host(w)
  }

  /** Equal in value is equal as stored. */
  lemma SameValueSameRaw(c: Store.Codec, host: Hosts, s: State, n: nat, a: Record, b: Record)
    requires Store.Sound(c) && DistinctHosts(host, n) && a.worker < n && b.worker < n
    ensures SameValue(s, a, b) <==> Raw(c, host, s, a) == Raw(c, host, s, b)
    ensures a.task < |s.accepted| && b.task < |s.accepted| ==>
      (Raw(c, host, s, a) == Raw(c, host, s, b) <==> a.worker == b.worker && s.accepted[a.task] == s.accepted[b.task])
  {
    var p, q := TaskPair(host(a.worker), Payload(s, a.task)), TaskPair(host(b.worker), Payload(s, b.task));
    assert c.decode(c.encode(p)) == Some(p) && c.decode(c.encode(q)) == Some(q);
  }

  /** What Redis stores, in every reachable state: accepted payloads, and pairs of host name and accepted payload. */
  lemma ViewReads(c: Store.Codec, host: Hosts, s: State)
    requires Store.Sound(c) && Reachable(s)
    ensures Tokens.ListsKnown(s)
    ensures var v := View(c, host, s);
      && |v.task| == |s.taskQueue| && |v.processing| == |s.processing| && |v.temp| == |s.temp|
      && (forall i :: 0 <= i < |v.task| ==> v.task[i] == s.accepted[s.taskQueue[i]])
      && (forall i :: 0 <= i < |v.processing| ==>
            c.decode(v.processing[i]) == Some(TaskPair(host(s.processing[i].worker), s.accepted[s.processing[i].task])))
      && (forall i :: 0 <= i < |v.temp| ==>
            c.decode(v.temp[i]) == Some(TaskPair(host(s.temp[i].worker), s.accepted[s.temp[i].task])))
  {
    Tokens.ReachableKnown(s);
    forall r: Record
      ensures c.decode(Raw(c, host, s, r)) == Some(TaskPair(host(r.worker), Payload(s, r.task)))
    {
      var p := TaskPair(host(r.worker), Payload(s, r.task));
      assert c.decode(c.encode(p)) == Some(p);
    }
  }

  // ---- One pass, and the steps of the Master ----

  /** What the Master does after its snapshot. */
  predicate OfPass(a: Step) {
    a.DrainPop? || a.DrainPush? || a.DrainStop? || a.RestoreMove? || a.RestoreStop?
  }

  /** Steps of the Master alone that end its pass. */
  ghost predicate EndsPass(s: State, run: seq<Step>) {
    && ValidRun(s, run) && Final(s, run).master == Outside
    && forall i :: 0 <= i < |run| ==> OfPass(run[i])
  }

  /** A limit is given exactly for a loop that ends with a failing command. */
  ghost predicate FailsAt(run: seq<Step>, pops: Option<nat>, moves: Option<nat>) {
    && (pops.Some? <==> DrainStop(true) in run)
    && (moves.Some? <==> RestoreStop(true) in run)
  }

  lemma StepEnds(s: State, a: Step, rest: seq<Step>)
    requires Enabled(s, a) && OfPass(a) && EndsPass(Apply(s, a), rest)
    ensures EndsPass(s, [a] + rest) && Final(s, [a] + rest) == Final(Apply(s, a), rest)
  {
    StepThen(s, a, rest);
  }

  /** The first step of a run that ends a pass, and the rest of it. */
  lemma EndsHead(s: State, run: seq<Step>)
    requires EndsPass(s, run) && s.master != Outside
    ensures run != [] && Enabled(s, run[0]) && OfPass(run[0]) && EndsPass(Apply(s, run[0]), run[1..])
    ensures Final(s, run) == Final(Apply(s, run[0]), run[1..]) && run == [run[0]] + run[1..]
  {
  }

  lemma NothingAfter(s: State, run: seq<Step>)
    requires EndsPass(s, run) && s.master == Outside
    ensures run == []
  {
  }

  function Less(limit: Option<nat>): Option<nat> {
    if limit.Some? && limit.value > 0 then Some(limit.value - 1) else limit
  }

  function More(limit: Option<nat>): Option<nat> {
    if limit.Some? then Some(limit.value + 1) else limit
  }

  // ---- The restore ----

  function Restored(v: Queues, moves: Option<nat>): Queues {
    var m := Done(moves, |v.temp|);
    Queues(v.task, v.processing + v.temp[..m], v.temp[m..])
  }

  lemma RestoredHead(v: Queues, v1: Queues, moves: Option<nat>)
    requires v.temp != [] && v1 == Queues(v.task, v.processing + [v.temp[0]], v.temp[1..])
    ensures Restored(v1, moves) == Restored(v, More(moves))
  {
    var m := Done(moves, |v1.temp|);
    assert v.temp[..m + 1] == [v.temp[0]] + v1.temp[..m];
  }

  lemma MoveView(c: Store.Codec, host: Hosts, s: State)
    requires Enabled(s, RestoreMove)
    ensures var v := View(c, host, s);
            View(c, host, Apply(s, RestoreMove)) == Queues(v.task, v.processing + [v.temp[0]], v.temp[1..])
  {
  }

  lemma LastWitness(c: Store.Codec, host: Hosts, s: State, moves: Option<nat>) returns (run: seq<Step>)
    requires s.master == Restoring && (s.temp == [] || moves == Some(0))
    ensures EndsPass(s, run) && FailsAt(run, None, moves)
    ensures View(c, host, Final(s, run)) == Restored(View(c, host, s), moves)
  {
    var stop := RestoreStop(moves.Some?);
    assert EndsPass(Apply(s, stop), []);
    StepEnds(s, stop, []);
    run := [stop] + [];
  }

  lemma MoveWitness(s: State, rest: seq<Step>, moves: Option<nat>) returns (run: seq<Step>)
    requires Enabled(s, RestoreMove) && EndsPass(Apply(s, RestoreMove), rest) && FailsAt(rest, None, moves)
    ensures EndsPass(s, run) && FailsAt(run, None, More(moves)) && Final(s, run) == Final(Apply(s, RestoreMove), rest)
  {
    StepEnds(s, RestoreMove, rest);
    run := [RestoreMove] + rest;
  }

  lemma {:induction false} RestoreWitness(c: Store.Codec, host: Hosts, s: State, moves: Option<nat>)
    returns (run: seq<Step>)
    requires s.master == Restoring
    ensures EndsPass(s, run) && FailsAt(run, None, moves)
    ensures View(c, host, Final(s, run)) == Restored(View(c, host, s), moves)
    decreases |s.temp|
  {
    if s.temp == [] || moves == Some(0) {
      run := LastWitness(c, host, s, moves);
    } else {
      var s1 := Apply(s, RestoreMove);
      var rest := RestoreWitness(c, host, s1, Less(moves));
      MoveView(c, host, s);
      RestoredHead(View(c, host, s), View(c, host, s1), Less(moves));
      run := MoveWitness(s, rest, Less(moves));
    }
  }

  lemma {:induction false} RestoreRunIs(c: Store.Codec, host: Hosts, s: State, run: seq<Step>)
    returns (moves: Option<nat>)
    requires s.master == Restoring && EndsPass(s, run)
    ensures FailsAt(run, None, moves)
    ensures View(c, host, Final(s, run)) == Restored(View(c, host, s), moves)
    decreases |run|
  {
    EndsHead(s, run);
    var s1 := Apply(s, run[0]);
    if run[0].RestoreMove? {
      var rest := RestoreRunIs(c, host, s1, run[1..]);
      MoveView(c, host, s);
      RestoredHead(View(c, host, s), View(c, host, s1), rest);
      moves := More(rest);
    } else {
      NothingAfter(s1, run[1..]);
      moves := if run[0] == RestoreStop(true) then Some(0) else None;
    }
  }

  // ---- The drain ----

  ghost predicate AtDrain(s: State, snapshot: set<nat>) { s.master == Draining(snapshot, None) }

  /** The snapshot is of workers there have been, and all of those have different host names. */
  ghost predicate SnapshotNamed(host: Hosts, s: State, snapshot: set<nat>) {
    WellNamed(host, s) && forall w :: w in snapshot ==> w < |s.workers|
  }

  /** One LPop and the RPush after it. */
  function Popped(s: State): State
    requires s.master.Draining? && s.master.hand.None? && s.processing != []
  {
    Apply(Apply(s, DrainPop), DrainPush)
  }

  lemma PopRoutes(c: Store.Codec, host: Hosts, s: State, snapshot: set<nat>)
    requires Store.Sound(c) && SnapshotNamed(host, s, snapshot)
    requires AtDrain(s, snapshot) && s.processing != []
    ensures var raw := Raw(c, host, s, s.processing[0]);
            var live := HostsOf(host, snapshot);
      && (s.processing[0].worker in snapshot <==> Kept(c.decode, live, raw))
      && (s.processing[0].worker !in snapshot <==> Dead(c.decode, live, raw))
      && c.decode(raw).Some? && c.decode(raw).value.second == Payload(s, s.processing[0].task)
  {
    var r := s.processing[0];
    var p := TaskPair(host(r.worker), Payload(s, r.task));
    assert c.decode(c.encode(p)) == Some(p);
    assert host(r.worker) in HostsOf(host, snapshot) <==> r.worker in snapshot;
  }

  lemma OneEntry(d: Decoder, live: set<string>, raw: string)
    ensures Requeue(d, live, [raw]) == if Dead(d, live, raw) then [d(raw).value.second] else []
    ensures Keep(d, live, [raw]) == if Kept(d, live, raw) then [raw] else []
  {
    KeepAppend(d, live, [], raw);
    assert [] + [raw] == [raw];
  }

  lemma PopView(c: Store.Codec, host: Hosts, s: State, snapshot: set<nat>)
    requires AtDrain(s, snapshot) && s.processing != []
    ensures AtDrain(Popped(s), snapshot)
    ensures var v, w := View(c, host, s), View(c, host, Popped(s));
            var r := s.processing[0];
      && w.processing == v.processing[1..]
      && w.task == v.task + (if r.worker in snapshot then [] else [Payload(s, r.task)])
      && w.temp == v.temp + if r.worker in snapshot then [Raw(c, host, s, r)] else []
  {
    assert Raws(c, host, Popped(s), Popped(s).processing) == Raws(c, host, s, s.processing)[1..];
  }

  /** The lists after the pass has dealt with the first entry. */
  function Drained(d: Decoder, live: set<string>, v: Queues): Queues
    requires v.processing != []
  {
    Queues(v.task + Requeue(d, live, [v.processing[0]]), v.processing[1..], v.temp + Keep(d, live, [v.processing[0]]))
  }

  lemma DrainOne(c: Store.Codec, host: Hosts, s: State, snapshot: set<nat>)
    requires Store.Sound(c) && SnapshotNamed(host, s, snapshot)
    requires AtDrain(s, snapshot) && s.processing != []
    ensures AtDrain(Popped(s), snapshot) && |Popped(s).processing| < |s.processing|
    ensures SnapshotNamed(host, Popped(s), snapshot)
    ensures View(c, host, Popped(s)) == Drained(c.decode, HostsOf(host, snapshot), View(c, host, s))
  {
    PopRoutes(c, host, s, snapshot);
    PopView(c, host, s, snapshot);
    OneEntry(c.decode, HostsOf(host, snapshot), Raw(c, host, s, s.processing[0]));
  }

  lemma DrainedHead(d: Decoder, live: set<string>, v: Queues, k: nat)
    requires v.processing != [] && k < |v.processing|
    ensures var v1 := Drained(d, live, v);
      && v1.temp + Keep(d, live, v1.processing[..k]) == v.temp + Keep(d, live, v.processing[..k + 1])
      && v1.task + Requeue(d, live, v1.processing[..k]) == v.task + Requeue(d, live, v.processing[..k + 1])
      && v1.processing[k..] == v.processing[k + 1..]
  {
    var v1 := Drained(d, live, v);
    assert v.processing[..k + 1] == [v.processing[0]] + v1.processing[..k];
    KeepConcat(d, live, [v.processing[0]], v1.processing[..k]);
  }

  /** A pass deals with the first entry and then is a pass over the rest. */
  lemma BrokenPassHead(d: Decoder, live: set<string>, v: Queues, pops: Option<nat>, moves: Option<nat>)
    requires v.processing != []
    ensures BrokenPass(d, live, Drained(d, live, v), pops, moves) == BrokenPass(d, live, v, More(pops), moves)
  {
    DrainedHead(d, live, v, Done(pops, |v.processing| - 1));
  }

  lemma BrokenPassStops(d: Decoder, live: set<string>, v: Queues, pops: Option<nat>, moves: Option<nat>)
    requires v.processing == [] || pops == Some(0)
    ensures BrokenPass(d, live, v, pops, moves) == Restored(v, moves)
  {
    assert v.temp + Keep(d, live, v.processing[..0]) == v.temp;
    assert v.task + Requeue(d, live, v.processing[..0]) == v.task;
  }

  lemma StopWitness(c: Store.Codec, host: Hosts, s: State, snapshot: set<nat>, pops: Option<nat>, moves: Option<nat>)
    returns (run: seq<Step>)
    requires AtDrain(s, snapshot) && (s.processing == [] || pops == Some(0))
    ensures EndsPass(s, run) && FailsAt(run, pops, moves)
    ensures View(c, host, Final(s, run))
         == BrokenPass(c.decode, HostsOf(host, snapshot), View(c, host, s), pops, moves)
  {
    var stop := DrainStop(pops.Some?);
    var s1 := Apply(s, stop);
    assert View(c, host, s1) == View(c, host, s);
    var rest := RestoreWitness(c, host, s1, moves);
    BrokenPassStops(c.decode, HostsOf(host, snapshot), View(c, host, s), pops, moves);
    StepEnds(s, stop, rest);
    run := [stop] + rest;
  }

  lemma PopWitness(s: State, snapshot: set<nat>, rest: seq<Step>, pops: Option<nat>, moves: Option<nat>)
    returns (run: seq<Step>)
    requires AtDrain(s, snapshot) && s.processing != []
    requires EndsPass(Popped(s), rest) && FailsAt(rest, pops, moves)
    ensures EndsPass(s, run) && FailsAt(run, More(pops), moves) && Final(s, run) == Final(Popped(s), rest)
  {
    StepEnds(Apply(s, DrainPop), DrainPush, rest);
    StepEnds(s, DrainPop, [DrainPush] + rest);
    run := [DrainPop] + ([DrainPush] + rest);
  }

  lemma {:induction false} DrainWitness(c: Store.Codec, host: Hosts, s: State, snapshot: set<nat>,
                                        pops: Option<nat>, moves: Option<nat>)
    returns (run: seq<Step>)
    requires Store.Sound(c) && SnapshotNamed(host, s, snapshot) && AtDrain(s, snapshot)
    ensures EndsPass(s, run) && FailsAt(run, pops, moves)
    ensures View(c, host, Final(s, run))
         == BrokenPass(c.decode, HostsOf(host, snapshot), View(c, host, s), pops, moves)
    decreases |s.processing|
  {
    if s.processing == [] || pops == Some(0) {
      run := StopWitness(c, host, s, snapshot, pops, moves);
    } else {
      DrainOne(c, host, s, snapshot);
      var rest := DrainWitness(c, host, Popped(s), snapshot, Less(pops), moves);
      BrokenPassHead(c.decode, HostsOf(host, snapshot), View(c, host, s), Less(pops), moves);
      run := PopWitness(s, snapshot, rest, Less(pops), moves);
    }
  }

  /** A pass that goes on draining: an LPop, the RPush after it, and the rest. */
  lemma PopHead(s: State, snapshot: set<nat>, run: seq<Step>, pops: Option<nat>, moves: Option<nat>)
    requires AtDrain(s, snapshot) && EndsPass(s, run) && run != [] && !run[0].DrainStop?
    ensures s.processing != [] && |run| >= 2
    ensures EndsPass(Popped(s), run[2..]) && Final(s, run) == Final(Popped(s), run[2..])
    ensures FailsAt(run[2..], pops, moves) ==> FailsAt(run, More(pops), moves)
  {
    EndsHead(s, run);
    EndsHead(Apply(s, run[0]), run[1..]);
    assert run[1..][1..] == run[2..];
  }

  /** A pass that stops draining, with or without a failure. */
  lemma StopRunIs(c: Store.Codec, host: Hosts, s: State, snapshot: set<nat>, run: seq<Step>)
    returns (pops: Option<nat>, moves: Option<nat>)
    requires AtDrain(s, snapshot) && EndsPass(s, run) && run != [] && run[0].DrainStop?
    ensures FailsAt(run, pops, moves)
    ensures View(c, host, Final(s, run))
         == BrokenPass(c.decode, HostsOf(host, snapshot), View(c, host, s), pops, moves)
  {
    EndsHead(s, run);
    var s1 := Apply(s, run[0]);
    assert View(c, host, s1) == View(c, host, s);
    moves := RestoreRunIs(c, host, s1, run[1..]);
    pops := if run[0] == DrainStop(true) then Some(0) else None;
    BrokenPassStops(c.decode, HostsOf(host, snapshot), View(c, host, s), pops, moves);
  }

  lemma {:induction false} DrainRunIs(c: Store.Codec, host: Hosts, s: State, snapshot: set<nat>, run: seq<Step>)
    returns (pops: Option<nat>, moves: Option<nat>)
    requires Store.Sound(c) && SnapshotNamed(host, s, snapshot) && AtDrain(s, snapshot) && EndsPass(s, run)
    ensures FailsAt(run, pops, moves)
    ensures View(c, host, Final(s, run))
         == BrokenPass(c.decode, HostsOf(host, snapshot), View(c, host, s), pops, moves)
    decreases |run|
  {
    EndsHead(s, run);
    if run[0].DrainStop? {
      pops, moves := StopRunIs(c, host, s, snapshot, run);
    } else {
      PopHead(s, snapshot, run, None, None);
      DrainOne(c, host, s, snapshot);
      var rest;
      rest, moves := DrainRunIs(c, host, Popped(s), snapshot, run[2..]);
      PopHead(s, snapshot, run, rest, moves);
      BrokenPassHead(c.decode, HostsOf(host, snapshot), View(c, host, s), rest, moves);
      pops := More(rest);
    }
  }

  /** A snapshot and then the steps of the Master alone until the pass is over. */
  ghost predicate PassRun(s: State, run: seq<Step>) {
    && run != [] && run[0] == TakeSnapshot && Enabled(s, TakeSnapshot)
    && EndsPass(Apply(s, TakeSnapshot), run[1..])
  }

  /**
   Every `BrokenPass` is a run of the Master alone over the running workers, in which a loop
   ends with a failing command only if a limit says so.
   */
  lemma PassIsARun(c: Store.Codec, host: Hosts, s: State, pops: Option<nat>, moves: Option<nat>)
    returns (run: seq<Step>)
    requires Store.Sound(c) && WellNamed(host, s) && s.master == Outside
    ensures PassRun(s, run) && ValidRun(s, run) && Final(s, run).master == Outside && FailsAt(run, pops, moves)
    ensures View(c, host, Final(s, run))
         == BrokenPass(c.decode, HostsOf(host, LiveWorkers(s)), View(c, host, s), pops, moves)
  {
    var s1 := Apply(s, TakeSnapshot);
    assert View(c, host, s1) == View(c, host, s);
    var rest := DrainWitness(c, host, s1, LiveWorkers(s), pops, moves);
    StepThen(s, TakeSnapshot, rest);
    run := [TakeSnapshot] + rest;
    assert run[1..] == rest;
  }

  /** And every run of the Master alone, from its snapshot to the end of the pass, is a `BrokenPass`. */
  lemma RunIsAPass(c: Store.Codec, host: Hosts, s: State, run: seq<Step>)
    returns (pops: Option<nat>, moves: Option<nat>)
    requires Store.Sound(c) && WellNamed(host, s) && PassRun(s, run)
    ensures ValidRun(s, run) && Final(s, run).master == Outside && FailsAt(run, pops, moves)
    ensures View(c, host, Final(s, run))
         == BrokenPass(c.decode, HostsOf(host, LiveWorkers(s)), View(c, host, s), pops, moves)
  {
    var s1 := Apply(s, TakeSnapshot);
    assert View(c, host, s1) == View(c, host, s);
    pops, moves := DrainRunIs(c, host, s1, LiveWorkers(s), run[1..]);
    StepThen(s, TakeSnapshot, run[1..]);
    assert run == [TakeSnapshot] + run[1..];
  }

  // ---- A pass over containers ----

  /** Docker names worker `w` by its container id, of which its host name is the beginning. */
  function HostOf(container: nat -> string): Hosts { (w: nat) => HostName(container(w)) }

  ghost function Containers(container: nat -> string, n: nat): set<string> {
    set w | 0 <= w < n :: container(w)
  }

  /** The workers' containers have ids of their own with different host names, and `ids` are those now running. */
  ghost predicate Fleet(container: nat -> string, s: State, ids: seq<string>) {
    && (forall v, w :: 0 <= v < |s.workers| && 0 <= w < |s.workers| && container(v) == container(w) ==> v == w)
    && DistinctNames(Containers(container, |s.workers|))
    && (forall id :: id in ids <==> exists w :: w in LiveWorkers(s) && container(w) == id)
  }

  lemma FleetHosts(container: nat -> string, s: State, ids: seq<string>)
    requires Fleet(container, s, ids)
    ensures DistinctHosts(HostOf(container), |s.workers|)
  {
    forall v, w | 0 <= v < |s.workers| && 0 <= w < |s.workers| && HostOf(container)(v) == HostOf(container)(w)
      ensures v == w
    {
      assert container(v) in Containers(container, |s.workers|) && container(w) in Containers(container, |s.workers|);
    }
  }

  /** The program's lookup table and the model's snapshot agree on every worker. */
  lemma SnapshotNames(container: nat -> string, s: State, ids: seq<string>, w: nat)
    requires Fleet(container, s, ids) && w < |s.workers|
    ensures HostOf(container)(w) in Names(ids) <==> HostOf(container)(w) in HostsOf(HostOf(container), LiveWorkers(s))
  {
    var all := Containers(container, |s.workers|);
    forall id | id in ids
      ensures id in all
    {
      var v :| v in LiveWorkers(s) && container(v) == id;
    }
    assert container(w) in all;
    NamedIffListed(all, ids, container(w));
    FleetHosts(container, s, ids);
    if HostOf(container)(w) in HostsOf(HostOf(container), LiveWorkers(s)) {
      var v :| v in LiveWorkers(s) && HostOf(container)(v) == HostOf(container)(w);
      assert v == w;
    }
    if container(w) in ids {
      var v :| v in LiveWorkers(s) && container(v) == container(w);
      assert v == w;
    }
  }

  /** So the pass over the listed containers is the pass over the running workers. */
  lemma SamePass(c: Store.Codec, container: nat -> string, s: State, ids: seq<string>,
                 pops: Option<nat>, moves: Option<nat>)
    requires Store.Sound(c) && Fleet(container, s, ids) && Known(|s.workers|, s.processing)
    ensures var host := HostOf(container);
      BrokenPass(c.decode, Names(ids), View(c, host, s), pops, moves)
      == BrokenPass(c.decode, HostsOf(host, LiveWorkers(s)), View(c, host, s), pops, moves)
  {
    var host := HostOf(container);
    var v := View(c, host, s);
    var popped := v.processing[..Done(pops, |v.processing|)];
    var live := HostsOf(host, LiveWorkers(s));
    forall raw | raw in popped
      ensures Kept(c.decode, Names(ids), raw) <==> Kept(c.decode, live, raw)
    {
      var i :| 0 <= i < |s.processing| && Raw(c, host, s, s.processing[i]) == raw;
      var r := s.processing[i];
      var p := TaskPair(host(r.worker), Payload(s, r.task));
      assert c.decode(c.encode(p)) == Some(p);
      SnapshotNames(container, s, ids, r.worker);
    }
    KeepAlike(c.decode, Names(ids), live, popped);
  }

  /** What the pass over the listed containers does to the lists is what some run of the Master alone does. */
  lemma ProgramPassIsARun(c: Store.Codec, container: nat -> string, s: State, ids: seq<string>,
                          pops: Option<nat>, moves: Option<nat>)
    returns (run: seq<Step>)
    requires Store.Sound(c) && Fleet(container, s, ids) && Known(|s.workers|, s.processing) && s.master == Outside
    ensures PassRun(s, run) && ValidRun(s, run) && FailsAt(run, pops, moves)
    ensures View(c, HostOf(container), Final(s, run))
         == BrokenPass(c.decode, Names(ids), View(c, HostOf(container), s), pops, moves)
  {
    FleetHosts(container, s, ids);
    SamePass(c, container, s, ids, pops, moves);
    run := PassIsARun(c, HostOf(container), s, pops, moves);
  }

  /** And every run of the Master alone does what the pass over the listed containers does. */
  lemma RunIsAProgramPass(c: Store.Codec, container: nat -> string, s: State, ids: seq<string>, run: seq<Step>)
    returns (pops: Option<nat>, moves: Option<nat>)
    requires Store.Sound(c) && Fleet(container, s, ids) && Known(|s.workers|, s.processing) && PassRun(s, run)
    ensures ValidRun(s, run) && FailsAt(run, pops, moves)
    ensures View(c, HostOf(container), Final(s, run))
         == BrokenPass(c.decode, Names(ids), View(c, HostOf(container), s), pops, moves)
  {
    FleetHosts(container, s, ids);
    pops, moves := RunIsAPass(c, HostOf(container), s, run);
    SamePass(c, container, s, ids, pops, moves);
  }

  /**
   A crash of the Master changes nothing that Redis stores; the requests it was handling come to
   nothing, and the next Master can begin with a pass.
   */
  lemma CrashKeepsRedis(c: Store.Codec, host: Hosts, s: State)
    ensures var s' := Apply(s, CrashMaster);
      && View(c, host, s') == View(c, host, s) && s'.accepted == s.accepted && s'.workers == s.workers
      && s'.totalRequest == s.totalRequest && s'.taskCompleted == s.taskCompleted
      && Enabled(s', TakeSnapshot) && s'.log.handlers == 0
      && s'.log.handlers + s'.log.rejected == s.log.handlers + s.log.rejected
  {
    var s' := Apply(s, CrashMaster);
    assert Payloads(s', s.taskQueue) == Payloads(s, s.taskQueue);
    assert Raws(c, host, s', s.processing) == Raws(c, host, s, s.processing);
    assert Raws(c, host, s', s.temp) == Raws(c, host, s, s.temp);
  }

  // ---- A request ----

  /** The steps of a request handler: count, then push the body that was read, or give up. */
  function RequestRun(body: Option<string>, pushFails: bool): seq<Step> {
    [CountRequest, if body.Some? && !pushFails then PushRequest(body.value) else RejectRequest]
  }

  lemma PushView(c: Store.Codec, host: Hosts, s: State, payload: string)
    requires Reachable(s) && Enabled(s, PushRequest(payload))
    ensures var v := View(c, host, s);
      View(c, host, Apply(s, PushRequest(payload))) == Queues(v.task + [payload], v.processing, v.temp)
  {
    var s' := Apply(s, PushRequest(payload));
    Tokens.ReachableKnown(s);
    assert Payloads(s', s'.taskQueue) == Payloads(s, s.taskQueue) + [payload];
    assert Raws(c, host, s', s.processing) == Raws(c, host, s, s.processing);
    assert Raws(c, host, s', s.temp) == Raws(c, host, s, s.temp);
  }

  /** Without interleaving they have the effect of `Store.RedisStore.Request` on the lists and the counter. */
  lemma RequestIsARun(c: Store.Codec, host: Hosts, s: State, body: Option<string>, pushFails: bool)
    requires Reachable(s)
    ensures var run, v := RequestRun(body, pushFails), View(c, host, s);
      && ValidRun(s, run)
      && View(c, host, Final(s, run))
         == Queues(v.task + (if body.Some? && !pushFails then [body.value] else []), v.processing, v.temp)
      && Final(s, run).totalRequest == s.totalRequest + 1 && Final(s, run).log.handlers == s.log.handlers
      && |Final(s, run).accepted| == |s.accepted| + if body.Some? && !pushFails then 1 else 0
  {
    var s1 := Apply(s, CountRequest);
    var last := RequestRun(body, pushFails)[1];
    assert View(c, host, s1) == View(c, host, s);
    ReachableThen(s, CountRequest);
    if body.Some? && !pushFails {
      PushView(c, host, s1, body.value);
    } else {
      assert View(c, host, Apply(s1, last)) == View(c, host, s1);
    }
    StepThen(s1, last, []);
    assert [last] + [] == [last];
    StepThen(s, CountRequest, [last]);
  }

  // ---- A worker's turn ----

  /** What LREM of `raw` does to the stored form of a list, entry by entry. */
  lemma RemoveRawHead(c: Store.Codec, host: Hosts, s: State, q: seq<Record>, raw: string)
    requires q != []
    ensures Raws(c, host, s, q) == [Raw(c, host, s, q[0])] + Raws(c, host, s, q[1..])
    ensures RemoveFirst(Raws(c, host, s, q), raw)
         == if Raw(c, host, s, q[0]) == raw then Raws(c, host, s, q[1..])
            else [Raw(c, host, s, q[0])] + RemoveFirst(Raws(c, host, s, q[1..]), raw)
  {
    assert Raws(c, host, s, q)[1..] == Raws(c, host, s, q[1..]);
  }

  /** The list without the entry that LRem finds. */
  function Without(s: State, q: seq<Record>, r: Record): seq<Record> {
    var i := FirstEqual(s, q, r);
    if i < |q| then q[..i] + q[i + 1..] else q
  }

  lemma WithoutHead(s: State, q: seq<Record>, r: Record)
    requires q != []
    ensures Without(s, q, r) == if SameValue(s, q[0], r) then q[1..] else [q[0]] + Without(s, q[1..], r)
  {
  }

  lemma {:induction false} RemoveSameRaw(c: Store.Codec, host: Hosts, s: State, n: nat, q: seq<Record>, r: Record)
    requires Store.Sound(c) && DistinctHosts(host, n) && Known(n, q) && r.worker < n
    ensures RemoveFirst(Raws(c, host, s, q), Raw(c, host, s, r)) == Raws(c, host, s, Without(s, q, r))
    decreases |q|
  {
    if q == [] {
    } else {
      SameValueSameRaw(c, host, s, n, q[0], r);
      RemoveRawHead(c, host, s, q, Raw(c, host, s, r));
      WithoutHead(s, q, r);
      if !SameValue(s, q[0], r) {
        RemoveSameRaw(c, host, s, n, q[1..], r);
        var kept := [q[0]] + Without(s, q[1..], r);
        assert kept[1..] == Without(s, q[1..], r);
        RemoveRawHead(c, host, s, kept, "");
      }
    }
  }

  function TurnRun(w: nat, outcome: Outcome): seq<Step> {
    [Pop(w), Register(w), Finish(w, outcome), Remove(w), CheckFlag(w)]
  }

  lemma RawsKept(c: Store.Codec, host: Hosts, s: State, s': State, q: seq<Record>)
    requires s.accepted == s'.accepted
    ensures Raws(c, host, s, q) == Raws(c, host, s', q)
  {
  }

  lemma PopAndRegister(c: Store.Codec, host: Hosts, s: State, w: nat) returns (s': State)
    requires Enabled(s, Pop(w))
    ensures Enabled(Apply(s, Pop(w)), Register(w)) && s' == Apply(Apply(s, Pop(w)), Register(w))
    ensures InPhase(s', w, Registered(s.taskQueue[0])) && s'.accepted == s.accepted
    ensures WellNamed(host, s) ==> WellNamed(host, s')
    ensures var v := View(c, host, s);
            View(c, host, s') == Queues(v.task[1..], v.processing + [c.encode(TaskPair(host(w), v.task[0]))], v.temp)
    ensures s'.taskCompleted == s.taskCompleted
  {
    s' := Apply(Apply(s, Pop(w)), Register(w));
    var t := s.taskQueue[0];
    assert Raws(c, host, s', s'.processing) == Raws(c, host, s, s.processing) + [Raw(c, host, s, Record(w, t))];
    assert Payloads(s', s'.taskQueue) == Payloads(s, s.taskQueue)[1..];
  }

  lemma FinishView(c: Store.Codec, host: Hosts, s: State, w: nat, t: nat, outcome: Outcome)
    requires InPhase(s, w, Registered(t))
    ensures var s' := Apply(s, Finish(w, outcome));
      && InPhase(s', w, Finished(t)) && s'.accepted == s.accepted
      && View(c, host, s') == View(c, host, s)
      && (WellNamed(host, s) ==> WellNamed(host, s'))
      && s'.taskCompleted == s.taskCompleted + if outcome.Completed? then 1 else 0
  {
    RawsKept(c, host, s, Apply(s, Finish(w, outcome)), s.processing);
    RawsKept(c, host, s, Apply(s, Finish(w, outcome)), s.temp);
  }

  lemma RemoveView(c: Store.Codec, host: Hosts, s: State, w: nat, t: nat)
    requires Store.Sound(c) && WellNamed(host, s)
    requires InPhase(s, w, Finished(t))
    ensures var s', v := Apply(s, Remove(w)), View(c, host, s);
      && InPhase(s', w, Checking) && s'.taskCompleted == s.taskCompleted
      && View(c, host, s')
         == Queues(v.task, RemoveFirst(v.processing, c.encode(TaskPair(host(w), Payload(s, t)))), v.temp)
  {
    var s' := Apply(s, Remove(w));
    RemoveSameRaw(c, host, s, |s.workers|, s.processing, Record(w, t));
    RawsKept(c, host, s', s, s'.processing);
    RawsKept(c, host, s', s, s.temp);
    assert Payloads(s', s.taskQueue) == Payloads(s, s.taskQueue);
  }

  lemma FinishAndRemove(c: Store.Codec, host: Hosts, s: State, w: nat, t: nat, outcome: Outcome) returns (s': State)
    requires Store.Sound(c) && WellNamed(host, s)
    requires InPhase(s, w, Registered(t))
    ensures Enabled(Apply(s, Finish(w, outcome)), Remove(w))
    ensures s' == Apply(Apply(s, Finish(w, outcome)), Remove(w))
    ensures InPhase(s', w, Checking)
    ensures var v := View(c, host, s);
            View(c, host, s')
            == Queues(v.task, RemoveFirst(v.processing, c.encode(TaskPair(host(w), Payload(s, t)))), v.temp)
    ensures s'.taskCompleted == s.taskCompleted + if outcome.Completed? then 1 else 0
  {
    var s1 := Apply(s, Finish(w, outcome));
    s' := Apply(s1, Remove(w));
    FinishView(c, host, s, w, t, outcome);
    RemoveView(c, host, s1, w, t);
  }

  lemma TurnRunIs(s: State, w: nat, outcome: Outcome)
    requires Enabled(s, Pop(w))
    requires var s1 := Apply(s, Pop(w)); Enabled(s1, Register(w))
    requires var s2 := Apply(Apply(s, Pop(w)), Register(w)); Enabled(s2, Finish(w, outcome))
    requires var s3 := Apply(Apply(Apply(s, Pop(w)), Register(w)), Finish(w, outcome)); Enabled(s3, Remove(w))
    requires var s4 := Apply(Apply(Apply(Apply(s, Pop(w)), Register(w)), Finish(w, outcome)), Remove(w));
             Enabled(s4, CheckFlag(w))
    ensures ValidRun(s, TurnRun(w, outcome))
    ensures Final(s, TurnRun(w, outcome))
         == Apply(Apply(Apply(Apply(Apply(s, Pop(w)), Register(w)), Finish(w, outcome)), Remove(w)), CheckFlag(w))
  {
    var s1 := Apply(s, Pop(w));
    var s2 := Apply(s1, Register(w));
    var s3 := Apply(s2, Finish(w, outcome));
    var s4 := Apply(s3, Remove(w));
    StepThen(s4, CheckFlag(w), []);
    StepThen(s3, Remove(w), [CheckFlag(w)]);
    StepThen(s2, Finish(w, outcome), [Remove(w), CheckFlag(w)]);
    StepThen(s1, Register(w), [Finish(w, outcome), Remove(w), CheckFlag(w)]);
    StepThen(s, Pop(w), [Register(w), Finish(w, outcome), Remove(w), CheckFlag(w)]);
  }

  lemma ChecksOnly(c: Store.Codec, host: Hosts, s: State, w: nat)
    requires Enabled(s, CheckFlag(w))
    ensures View(c, host, Apply(s, CheckFlag(w))) == View(c, host, s)
    ensures Apply(s, CheckFlag(w)).taskCompleted == s.taskCompleted
  {
  }

  /** A worker's turn without interleaving is the run Pop, Register, Finish, Remove, CheckFlag. */
  lemma TurnIsARun(c: Store.Codec, host: Hosts, s: State, w: nat, outcome: Outcome)
    requires Store.Sound(c) && WellNamed(host, s)
    requires Enabled(s, Pop(w))
    ensures ValidRun(s, TurnRun(w, outcome))
    ensures var v := View(c, host, s);
            var raw := c.encode(TaskPair(host(w), v.task[0]));
            View(c, host, Final(s, TurnRun(w, outcome)))
            == Queues(v.task[1..], RemoveFirst(v.processing + [raw], raw), v.temp)
    ensures Final(s, TurnRun(w, outcome)).taskCompleted == s.taskCompleted + if outcome.Completed? then 1 else 0
  {
    var s2 := PopAndRegister(c, host, s, w);
    var s4 := FinishAndRemove(c, host, s2, w, s.taskQueue[0], outcome);
    TurnRunIs(s, w, outcome);
    ChecksOnly(c, host, s4, w);
  }
}
