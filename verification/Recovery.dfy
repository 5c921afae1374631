/**
 What one recovery pass does to the three Redis lists when nothing interleaves, with and
 without failing LPop and LMove commands.
 */
module Recovery {
  import opened Lists

  datatype TaskPair = TaskPair(first: string, second: string)

  /** json.Unmarshal of an entry; None is the error case. */
  type Decoder = string -> Option<TaskPair>

  /** The contents of task_queue, processing_queue and temp_queue. */
  datatype Queues = Queues(task: seq<string>, processing: seq<string>, temp: seq<string>)

  /** The entry names a worker of the snapshot. */
  predicate Kept(d: Decoder, live: set<string>, raw: string) {
    d(raw).Some? && d(raw).value.first in live
  }

  /** The entry names a worker that is gone. */
  predicate Dead(d: Decoder, live: set<string>, raw: string) {
    d(raw).Some? && d(raw).value.first !in live
  }

  /** Entries of snapshot workers, in order. */
  function Keep(d: Decoder, live: set<string>, q: seq<string>): seq<string> {
    if q == [] then []
    else
      var raw := q[|q| - 1];
      Keep(d, live, q[..|q| - 1]) + if Kept(d, live, raw) then [raw] else []
  }

  /** Payloads of the other readable entries, in order. */
  function Requeue(d: Decoder, live: set<string>, q: seq<string>): seq<string> {
    if q == [] then []
    else
      var raw := q[|q| - 1];
      Requeue(d, live, q[..|q| - 1]) + if Dead(d, live, raw) then [d(raw).value.second] else []
  }

  /** A pass in which no command fails. */
  function Pass(d: Decoder, live: set<string>, q: Queues): Queues {
    Queues(q.task + Requeue(d, live, q.processing), q.temp + Keep(d, live, q.processing), [])
  }

  /** How many of `available` commands succeed when the one after `limit` fails. */
  function Done(limit: Option<nat>, available: nat): (n: nat)
    ensures n <= available
  {
    if limit.Some? && limit.value < available then limit.value else available
  }

  /** A pass whose LPop loop and LMove loop each stop at a failing command. */
  function BrokenPass(d: Decoder, live: set<string>, q: Queues, pops: Option<nat>, moves: Option<nat>): Queues {
    var k := Done(pops, |q.processing|);
    var temp := q.temp + Keep(d, live, q.processing[..k]);
    var m := Done(moves, |temp|);
    Queues(q.task + Requeue(d, live, q.processing[..k]), q.processing[k..] + temp[..m], temp[m..])
  }

  lemma NoFailures(d: Decoder, live: set<string>, q: Queues)
    ensures BrokenPass(d, live, q, None, None) == Pass(d, live, q)
  {
    assert q.processing[..|q.processing|] == q.processing;
    var temp := q.temp + Keep(d, live, q.processing);
    assert q.processing[|q.processing|..] + temp[..|temp|] == temp;
  }

  lemma {:induction false} KeepConcat(d: Decoder, live: set<string>, a: seq<string>, b: seq<string>)
    ensures Keep(d, live, a + b) == Keep(d, live, a) + Keep(d, live, b)
    ensures Requeue(d, live, a + b) == Requeue(d, live, a) + Requeue(d, live, b)
  {
    if b == [] {
      assert a + b == a;
    } else {
      var c, raw := b[..|b| - 1], b[|b| - 1];
      KeepConcat(d, live, a, c);
      assert (a + b)[..|a + b| - 1] == a + c && (a + b)[|a + b| - 1] == raw;
    }
  }

  lemma KeepAppend(d: Decoder, live: set<string>, q: seq<string>, raw: string)
    ensures Keep(d, live, q + [raw]) == Keep(d, live, q) + if Kept(d, live, raw) then [raw] else []
    ensures Requeue(d, live, q + [raw])
         == Requeue(d, live, q) + if Dead(d, live, raw) then [d(raw).value.second] else []
  {
    assert (q + [raw])[..|q|] == q;
  }

  /** What routing the entry at `k` adds to the two lists that grow. */
  lemma NextRouted(d: Decoder, live: set<string>, q: seq<string>, k: nat, task: seq<string>, temp: seq<string>)
    requires k < |q|
    ensures task + Requeue(d, live, q[..k + 1])
         == task + Requeue(d, live, q[..k]) + if Dead(d, live, q[k]) then [d(q[k]).value.second] else []
    ensures temp + Keep(d, live, q[..k + 1])
         == temp + Keep(d, live, q[..k]) + if Kept(d, live, q[k]) then [q[k]] else []
  {
    assert q[..k + 1] == q[..k] + [q[k]];
    KeepAppend(d, live, q[..k], q[k]);
  }

  lemma {:induction false} AllKept(d: Decoder, live: set<string>, q: seq<string>)
    ensures forall raw :: raw in Keep(d, live, q) ==> Kept(d, live, raw)
  {
    if q == [] {
    } else {
      AllKept(d, live, q[..|q| - 1]);
    }
  }

  lemma {:induction false} KeepAll(d: Decoder, live: set<string>, q: seq<string>)
    requires forall raw :: raw in q ==> Kept(d, live, raw)
    ensures Keep(d, live, q) == q && Requeue(d, live, q) == []
  {
    if q == [] {
    } else {
      var c, raw := q[..|q| - 1], q[|q| - 1];
      assert q == c + [raw] && Kept(d, live, raw);
      KeepAll(d, live, c);
    }
  }

  /** Filtering twice is filtering once. */
  lemma KeepKept(d: Decoder, live: set<string>, q: seq<string>)
    ensures Keep(d, live, Keep(d, live, q)) == Keep(d, live, q)
    ensures Requeue(d, live, Keep(d, live, q)) == []
    ensures forall raw :: raw in Keep(d, live, q) ==> Kept(d, live, raw)
  {
    AllKept(d, live, q);
    KeepAll(d, live, Keep(d, live, q));
  }

  /** With temp_queue empty, repeating a pass with the same snapshot changes nothing. */
  lemma PassIdempotent(d: Decoder, live: set<string>, q: Queues)
    requires q.temp == []
    ensures Pass(d, live, Pass(d, live, q)) == Pass(d, live, q)
  {
    KeepKept(d, live, q.processing);
    assert [] + Keep(d, live, q.processing) == Keep(d, live, q.processing);
  }

  // ---- Conservation under failures ----

  /** The work on the three lists: waiting payloads and payloads of readable entries. */
  function Work(d: Decoder, q: Queues): multiset<string> {
    multiset(q.task) + multiset(Requeue(d, {}, q.processing)) + multiset(Requeue(d, {}, q.temp))
  }

  /** Every entry of `q` that `live` keeps is kept by the snapshot `earlier` too. */
  predicate Narrows(d: Decoder, earlier: set<string>, live: set<string>, q: seq<string>) {
    forall raw :: raw in q && Kept(d, live, raw) ==> Kept(d, earlier, raw)
  }

  lemma {:induction false} KeepNarrowed(d: Decoder, earlier: set<string>, live: set<string>, q: seq<string>)
    requires Narrows(d, earlier, live, q)
    ensures Keep(d, live, Keep(d, earlier, q)) == Keep(d, live, q)
  {
    if q == [] {
    } else {
      var c, raw := q[..|q| - 1], q[|q| - 1];
      assert Kept(d, live, raw) ==> Kept(d, earlier, raw);
      KeepNarrowed(d, earlier, live, c);
      if Kept(d, earlier, raw) {
        KeepAppend(d, live, Keep(d, earlier, c), raw);
      } else {
        assert Keep(d, earlier, q) == Keep(d, earlier, c);
      }
    }
  }

  /** Filtering by an earlier snapshot only delays what is due for a narrower one. */
  lemma {:induction false} Partition(d: Decoder, earlier: set<string>, live: set<string>, q: seq<string>)
    requires Narrows(d, earlier, live, q)
    ensures multiset(Requeue(d, live, q))
         == multiset(Requeue(d, earlier, q)) + multiset(Requeue(d, live, Keep(d, earlier, q)))
  {
    if q == [] {
    } else {
      var c, raw := q[..|q| - 1], q[|q| - 1];
      assert Kept(d, live, raw) ==> Kept(d, earlier, raw);
      Partition(d, earlier, live, c);
      if Kept(d, earlier, raw) {
        KeepAppend(d, live, Keep(d, earlier, c), raw);
      } else {
        assert Keep(d, earlier, q) == Keep(d, earlier, c);
      }
    }
  }

  lemma RequeueCounts(d: Decoder, live: set<string>, a: seq<string>, b: seq<string>, x: string)
    ensures multiset(Requeue(d, live, a + b))[x]
         == multiset(Requeue(d, live, a))[x] + multiset(Requeue(d, live, b))[x]
  {
    KeepConcat(d, live, a, b);
  }

  lemma KeepCounts(d: Decoder, live: set<string>, a: seq<string>, b: seq<string>, x: string)
    ensures multiset(Keep(d, live, a + b))[x] == multiset(Keep(d, live, a))[x] + multiset(Keep(d, live, b))[x]
  {
    KeepConcat(d, live, a, b);
  }

  /** The entries that a pass pops and leaves, and those of temp_queue that it moves and leaves. */
  lemma PassParts(d: Decoder, live: set<string>, q: Queues, pops: Option<nat>, moves: Option<nat>)
    returns (popped: seq<string>, left: seq<string>, moved: seq<string>, stay: seq<string>)
    ensures popped == q.processing[..Done(pops, |q.processing|)] && q.processing == popped + left
    ensures q.temp + Keep(d, live, popped) == moved + stay
    ensures BrokenPass(d, live, q, pops, moves) == Queues(q.task + Requeue(d, live, popped), left + moved, stay)
  {
    var k := Done(pops, |q.processing|);
    var temp := q.temp + Keep(d, live, q.processing[..k]);
    var m := Done(moves, |temp|);
    popped, left, moved, stay := q.processing[..k], q.processing[k..], temp[..m], temp[m..];
  }

  /** How often `x` is due for the set `s`: on task_queue or as payload of a readable entry not of `s`. */
  function DueCount(d: Decoder, s: set<string>, q: Queues, x: string): nat {
    multiset(q.task)[x] + multiset(Requeue(d, s, q.processing))[x] + multiset(Requeue(d, s, q.temp))[x]
  }

  /** The entries popped so far, the rest, and the two halves of temp_queue, counted one value at a time. */
  lemma DueParts(d: Decoder, live: set<string>, s: set<string>, popped: seq<string>, left: seq<string>,
                 temp: seq<string>, moved: seq<string>, stay: seq<string>, x: string)
    requires Narrows(d, live, s, popped)
    requires temp + Keep(d, live, popped) == moved + stay
    ensures multiset(Requeue(d, s, popped + left))[x] + multiset(Requeue(d, s, temp))[x]
         == multiset(Requeue(d, live, popped))[x] + multiset(Requeue(d, s, left + moved))[x]
            + multiset(Requeue(d, s, stay))[x]
  {
    RequeueCounts(d, s, popped, left, x);
    RequeueCounts(d, s, temp, Keep(d, live, popped), x);
    RequeueCounts(d, s, moved, stay, x);
    RequeueCounts(d, s, left, moved, x);
    Partition(d, live, s, popped);
  }

  lemma BrokenPassDueCount(d: Decoder, live: set<string>, s: set<string>, q: Queues,
                           pops: Option<nat>, moves: Option<nat>, x: string)
    requires Narrows(d, live, s, q.processing[..Done(pops, |q.processing|)])
    ensures DueCount(d, s, BrokenPass(d, live, q, pops, moves), x) == DueCount(d, s, q, x)
  {
    var popped, left, moved, stay := PassParts(d, live, q, pops, moves);
    DueParts(d, live, s, popped, left, q.temp, moved, stay, x);
  }

  /** A pass, whatever fails in it and whatever the snapshot, loses and duplicates no work. */
  lemma BrokenPassConserves(d: Decoder, live: set<string>, q: Queues, pops: Option<nat>, moves: Option<nat>)
    ensures Work(d, BrokenPass(d, live, q, pops, moves)) == Work(d, q)
  {
    forall x: string
      ensures Work(d, BrokenPass(d, live, q, pops, moves))[x] == Work(d, q)[x]
    {
      BrokenPassDueCount(d, live, {}, q, pops, moves, x);
    }
  }

  datatype Attempt = Attempt(live: set<string>, pops: Option<nat>, moves: Option<nat>)

  /** One pass after another. */
  function Passes(d: Decoder, q: Queues, attempts: seq<Attempt>): Queues
    decreases |attempts|
  {
    if attempts == [] then q
    else
      var a := attempts[0];
      Passes(d, BrokenPass(d, a.live, q, a.pops, a.moves), attempts[1..])
  }

  /** Any sequence of passes with any failures and any snapshots loses and duplicates no work. */
  lemma {:induction false} PassesConserve(d: Decoder, q: Queues, attempts: seq<Attempt>)
    ensures Work(d, Passes(d, q, attempts)) == Work(d, q)
    decreases |attempts|
  {
    if attempts == [] {
    } else {
      var a := attempts[0];
      BrokenPassConserves(d, a.live, q, a.pops, a.moves);
      PassesConserve(d, BrokenPass(d, a.live, q, a.pops, a.moves), attempts[1..]);
    }
  }

  // ---- Healing: two failure-free passes undo any failures ----

  /** Where everything ends up for a given snapshot: tasks to run again, and entries to keep. */
  function Due(d: Decoder, live: set<string>, q: Queues): multiset<string> {
    multiset(q.task) + multiset(Requeue(d, live, q.processing)) + multiset(Requeue(d, live, q.temp))
  }

  function Held(d: Decoder, live: set<string>, q: Queues): multiset<string> {
    multiset(Keep(d, live, q.processing)) + multiset(Keep(d, live, q.temp))
  }

  lemma HeldParts(d: Decoder, earlier: set<string>, live: set<string>, popped: seq<string>, left: seq<string>,
                  temp: seq<string>, moved: seq<string>, stay: seq<string>, x: string)
    requires Narrows(d, earlier, live, popped)
    requires temp + Keep(d, earlier, popped) == moved + stay
    ensures multiset(Keep(d, live, popped + left))[x] + multiset(Keep(d, live, temp))[x]
         == multiset(Keep(d, live, left + moved))[x] + multiset(Keep(d, live, stay))[x]
  {
    KeepCounts(d, live, popped, left, x);
    KeepCounts(d, live, temp, Keep(d, earlier, popped), x);
    KeepCounts(d, live, moved, stay, x);
    KeepCounts(d, live, left, moved, x);
    KeepNarrowed(d, earlier, live, popped);
  }

  function HeldCount(d: Decoder, live: set<string>, q: Queues, x: string): nat {
    multiset(Keep(d, live, q.processing))[x] + multiset(Keep(d, live, q.temp))[x]
  }

  lemma BrokenPassHeldCount(d: Decoder, earlier: set<string>, live: set<string>, q: Queues,
                            pops: Option<nat>, moves: Option<nat>, x: string)
    requires Narrows(d, earlier, live, q.processing[..Done(pops, |q.processing|)])
    ensures HeldCount(d, live, BrokenPass(d, earlier, q, pops, moves), x) == HeldCount(d, live, q, x)
  {
    var popped, left, moved, stay := PassParts(d, earlier, q, pops, moves);
    HeldParts(d, earlier, live, popped, left, q.temp, moved, stay, x);
  }

  lemma BrokenPassKeepsDue(d: Decoder, earlier: set<string>, live: set<string>, q: Queues,
                           pops: Option<nat>, moves: Option<nat>)
    requires Narrows(d, earlier, live, q.processing[..Done(pops, |q.processing|)])
    ensures Due(d, live, BrokenPass(d, earlier, q, pops, moves)) == Due(d, live, q)
  {
    var after := BrokenPass(d, earlier, q, pops, moves);
    forall x: string
      ensures Due(d, live, after)[x] == Due(d, live, q)[x]
    {
      BrokenPassDueCount(d, earlier, live, q, pops, moves, x);
    }
  }

  lemma BrokenPassKeepsHeld(d: Decoder, earlier: set<string>, live: set<string>, q: Queues,
                            pops: Option<nat>, moves: Option<nat>)
    requires Narrows(d, earlier, live, q.processing[..Done(pops, |q.processing|)])
    ensures Held(d, live, BrokenPass(d, earlier, q, pops, moves)) == Held(d, live, q)
  {
    var after := BrokenPass(d, earlier, q, pops, moves);
    forall x: string
      ensures Held(d, live, after)[x] == Held(d, live, q)[x]
    {
      BrokenPassHeldCount(d, earlier, live, q, pops, moves, x);
    }
  }

  /** No pass pops an entry that `live` keeps under a snapshot that does not have its worker. */
  predicate NeverForgets(d: Decoder, live: set<string>, q: Queues, attempts: seq<Attempt>)
    decreases |attempts|
  {
    attempts == []
    || var a := attempts[0];
      && Narrows(d, a.live, live, q.processing[..Done(a.pops, |q.processing|)])
      && NeverForgets(d, live, BrokenPass(d, a.live, q, a.pops, a.moves), attempts[1..])
  }

  lemma {:induction false} PassesKeepDue(d: Decoder, live: set<string>, q: Queues, attempts: seq<Attempt>)
    requires NeverForgets(d, live, q, attempts)
    ensures Due(d, live, Passes(d, q, attempts)) == Due(d, live, q)
    ensures Held(d, live, Passes(d, q, attempts)) == Held(d, live, q)
    decreases |attempts|
  {
    if attempts == [] {
    } else {
      var a := attempts[0];
      BrokenPassKeepsDue(d, a.live, live, q, a.pops, a.moves);
      BrokenPassKeepsHeld(d, a.live, live, q, a.pops, a.moves);
      PassesKeepDue(d, live, BrokenPass(d, a.live, q, a.pops, a.moves), attempts[1..]);
    }
  }

  function HeldSize(d: Decoder, live: set<string>, q: Queues): nat {
    |Keep(d, live, q.processing)| + |Keep(d, live, q.temp)|
  }

  /** Filtering by an earlier snapshot first costs an entry exactly when that snapshot lacks a worker of `live`. */
  lemma {:induction false} KeepTwice(d: Decoder, earlier: set<string>, live: set<string>, q: seq<string>)
    ensures |Keep(d, live, Keep(d, earlier, q))| <= |Keep(d, live, q)|
    ensures |Keep(d, live, Keep(d, earlier, q))| == |Keep(d, live, q)| <==> Narrows(d, earlier, live, q)
  {
    if q == [] {
    } else {
      var c, raw := q[..|q| - 1], q[|q| - 1];
      assert q == c + [raw];
      KeepTwice(d, earlier, live, c);
      KeepConcat(d, live, Keep(d, earlier, c), if Kept(d, earlier, raw) then [raw] else []);
      assert [raw][..0] == [];
    }
  }

  lemma BrokenPassHeldSize(d: Decoder, earlier: set<string>, live: set<string>, q: Queues,
                           pops: Option<nat>, moves: Option<nat>)
    ensures HeldSize(d, live, BrokenPass(d, earlier, q, pops, moves)) <= HeldSize(d, live, q)
    ensures HeldSize(d, live, BrokenPass(d, earlier, q, pops, moves)) == HeldSize(d, live, q)
      <==> Narrows(d, earlier, live, q.processing[..Done(pops, |q.processing|)])
  {
    var popped, left, moved, stay := PassParts(d, earlier, q, pops, moves);
    KeepConcat(d, live, popped, left);
    KeepConcat(d, live, q.temp, Keep(d, earlier, popped));
    KeepConcat(d, live, moved, stay);
    KeepConcat(d, live, left, moved);
    KeepTwice(d, earlier, live, popped);
  }

  lemma {:induction false} PassesHeldSize(d: Decoder, live: set<string>, q: Queues, attempts: seq<Attempt>)
    ensures HeldSize(d, live, Passes(d, q, attempts)) <= HeldSize(d, live, q)
    ensures HeldSize(d, live, Passes(d, q, attempts)) == HeldSize(d, live, q) <==> NeverForgets(d, live, q, attempts)
    decreases |attempts|
  {
    if attempts == [] {
    } else {
      var a := attempts[0];
      BrokenPassHeldSize(d, a.live, live, q, a.pops, a.moves);
      PassesHeldSize(d, live, BrokenPass(d, a.live, q, a.pops, a.moves), attempts[1..]);
    }
  }

  /** Two failure-free passes settle everything, whatever temp_queue held at first. */
  lemma TwoPassesSettle(d: Decoder, live: set<string>, q: Queues)
    ensures var r := Pass(d, live, Pass(d, live, q));
      && r.temp == []
      && multiset(r.processing) == Held(d, live, q)
      && |r.processing| == HeldSize(d, live, q)
      && (forall raw :: raw in r.processing ==> Kept(d, live, raw))
      && multiset(r.task) == Due(d, live, q)
  {
    KeepConcat(d, live, q.temp, Keep(d, live, q.processing));
    KeepKept(d, live, q.processing);
    KeepKept(d, live, q.temp);
  }

  lemma {:induction false} ReadableSize(d: Decoder, live: set<string>, q: seq<string>)
    requires forall raw :: raw in q ==> Kept(d, live, raw)
    ensures |Requeue(d, {}, q)| == |q|
  {
    if q == [] {
    } else {
      var c, raw := q[..|q| - 1], q[|q| - 1];
      assert q == c + [raw] && Kept(d, live, raw);
      ReadableSize(d, live, c);
    }
  }

  /** The lists after two failure-free passes with the snapshot `live`. */
  function Healed(d: Decoder, live: set<string>, q: Queues): Queues { Pass(d, live, Pass(d, live, q)) }

  /** What two clean passes leave is all the work there was: tasks and kept entries add up to it. */
  lemma HealedSize(d: Decoder, live: set<string>, q: Queues)
    ensures |Healed(d, live, q).task| + HeldSize(d, live, q) == |Work(d, q)|
  {
    var once, r := Pass(d, live, q), Healed(d, live, q);
    NoFailures(d, live, q);
    BrokenPassConserves(d, live, q, None, None);
    NoFailures(d, live, once);
    BrokenPassConserves(d, live, once, None, None);
    TwoPassesSettle(d, live, q);
    ReadableSize(d, live, r.processing);
    assert Work(d, r) == multiset(r.task) + multiset(Requeue(d, {}, r.processing));
  }

  /**
   Healing, exactly: take any passes with any snapshots, broken at any commands, and then two
   failure-free passes with the snapshot `live`. temp_queue is empty and only entries of `live`
   are on processing_queue. They are the entries that would be there had the earlier passes
   not happened, if and only if no earlier pass popped one of them under a snapshot without
   its worker; and the tasks on task_queue are the same under the same condition.
   */
  lemma HealsIff(d: Decoder, live: set<string>, q: Queues, attempts: seq<Attempt>)
    ensures var broken, clean := Healed(d, live, Passes(d, q, attempts)), Healed(d, live, q);
      && broken.temp == clean.temp == []
      && (forall raw :: raw in broken.processing ==> Kept(d, live, raw))
      && (multiset(broken.processing) == multiset(clean.processing) <==> NeverForgets(d, live, q, attempts))
      && (multiset(broken.task) == multiset(clean.task) <==> NeverForgets(d, live, q, attempts))
  {
    var broken, clean := Healed(d, live, Passes(d, q, attempts)), Healed(d, live, q);
    TwoPassesSettle(d, live, Passes(d, q, attempts));
    TwoPassesSettle(d, live, q);
    PassesHeldSize(d, live, q, attempts);
    PassesConserve(d, q, attempts);
    HealedSize(d, live, q);
    HealedSize(d, live, Passes(d, q, attempts));
    assert |multiset(broken.task)| == |broken.task| && |multiset(clean.task)| == |clean.task|;
    assert |multiset(broken.processing)| == |broken.processing|;
    assert |multiset(clean.processing)| == |clean.processing|;
    if NeverForgets(d, live, q, attempts) {
      PassesKeepDue(d, live, q, attempts);
    }
  }

  /** Each snapshot of the history keeps every listed entry that `live` keeps: workers leave and do not come back. */
  ghost predicate WorkersOnlyLeave(d: Decoder, live: set<string>, q: Queues, attempts: seq<Attempt>) {
    forall i :: 0 <= i < |attempts| ==>
      Narrows(d, attempts[i].live, live, q.processing) && Narrows(d, attempts[i].live, live, q.temp)
  }

  lemma {:induction false} KeepIsPart(d: Decoder, live: set<string>, q: seq<string>)
    ensures forall raw :: raw in Keep(d, live, q) ==> raw in q
  {
    if q == [] {
    } else {
      KeepIsPart(d, live, q[..|q| - 1]);
    }
  }

  lemma NoNewEntries(d: Decoder, live: set<string>, q: Queues, pops: Option<nat>, moves: Option<nat>, raw: string)
    requires var after := BrokenPass(d, live, q, pops, moves); raw in after.processing || raw in after.temp
    ensures raw in q.processing || raw in q.temp
  {
    var popped := q.processing[..Done(pops, |q.processing|)];
    var temp := q.temp + Keep(d, live, popped);
    KeepIsPart(d, live, popped);
    assert raw in temp ==> raw in q.temp || raw in popped;
  }

  lemma LeavingStep(d: Decoder, live: set<string>, q: Queues, attempts: seq<Attempt>)
    requires attempts != [] && WorkersOnlyLeave(d, live, q, attempts)
    ensures var a := attempts[0];
      WorkersOnlyLeave(d, live, BrokenPass(d, a.live, q, a.pops, a.moves), attempts[1..])
  {
    var a := attempts[0];
    var after := BrokenPass(d, a.live, q, a.pops, a.moves);
    forall i, raw | 0 <= i < |attempts| - 1 && (raw in after.processing || raw in after.temp) && Kept(d, live, raw)
      ensures Kept(d, attempts[1..][i].live, raw)
    {
      NoNewEntries(d, a.live, q, a.pops, a.moves, raw);
      assert attempts[1..][i] == attempts[i + 1];
    }
  }

  lemma {:induction false} OnlyLeavingForgetsNothing(d: Decoder, live: set<string>, q: Queues, attempts: seq<Attempt>)
    requires WorkersOnlyLeave(d, live, q, attempts)
    ensures NeverForgets(d, live, q, attempts)
    decreases |attempts|
  {
    if attempts == [] {
    } else {
      var a := attempts[0];
      LeavingStep(d, live, q, attempts);
      OnlyLeavingForgetsNothing(d, live, BrokenPass(d, a.live, q, a.pops, a.moves), attempts[1..]);
    }
  }

  /** The same snapshots, with no failing command. */
  function Unbroken(attempts: seq<Attempt>): seq<Attempt> {
    seq(|attempts|, i requires 0 <= i < |attempts| => Attempt(attempts[i].live, None, None))
  }

  lemma UnbrokenOnlyLeave(d: Decoder, live: set<string>, q: Queues, attempts: seq<Attempt>)
    requires WorkersOnlyLeave(d, live, q, attempts)
    ensures WorkersOnlyLeave(d, live, q, Unbroken(attempts))
  {
  }

  lemma OnlyLeavingHeals(d: Decoder, live: set<string>, q: Queues, attempts: seq<Attempt>)
    requires WorkersOnlyLeave(d, live, q, attempts)
    ensures var broken, alone := Healed(d, live, Passes(d, q, attempts)), Healed(d, live, q);
      && broken.temp == alone.temp == []
      && multiset(broken.processing) == multiset(alone.processing)
      && (forall raw :: raw in broken.processing ==> Kept(d, live, raw))
      && multiset(broken.task) == multiset(alone.task)
  {
    OnlyLeavingForgetsNothing(d, live, q, attempts);
    HealsIff(d, live, q, attempts);
  }

  /**
   Healing when workers only leave: whichever commands failed in the earlier passes, the lists
   end up as if none had failed, and as if the two last passes had been the only ones.
   */
  lemma FailuresHeal(d: Decoder, live: set<string>, q: Queues, attempts: seq<Attempt>)
    requires WorkersOnlyLeave(d, live, q, attempts)
    ensures var broken, clean, alone :=
              Healed(d, live, Passes(d, q, attempts)), Healed(d, live, Passes(d, q, Unbroken(attempts))), Healed(d, live, q);
      && broken.temp == clean.temp == alone.temp == []
      && multiset(broken.processing) == multiset(clean.processing) == multiset(alone.processing)
      && (forall raw :: raw in broken.processing ==> Kept(d, live, raw))
      && multiset(broken.task) == multiset(clean.task) == multiset(alone.task)
  {
    OnlyLeavingHeals(d, live, q, attempts);
    UnbrokenOnlyLeave(d, live, q, attempts);
    OnlyLeavingHeals(d, live, q, Unbroken(attempts));
  }

  /** Snapshots that agree on the entries popped make the same pass. */
  lemma {:induction false} KeepAlike(d: Decoder, a: set<string>, b: set<string>, q: seq<string>)
    requires forall raw :: raw in q ==> (Kept(d, a, raw) <==> Kept(d, b, raw))
    ensures Keep(d, a, q) == Keep(d, b, q) && Requeue(d, a, q) == Requeue(d, b, q)
  {
    if q == [] {
    } else {
      var c, raw := q[..|q| - 1], q[|q| - 1];
      assert raw in q && forall x :: x in c ==> x in q;
      KeepAlike(d, a, b, c);
    }
  }

  // ---- Names ----

  /** Docker injects the first 12 characters of the container id as HOSTNAME. */
  function HostName(id: string): string { if |id| >= 12 then id[..12] else id }

  /** The names a snapshot answers to: full ids and their 12-character prefixes. */
  function Names(ids: seq<string>): set<string> {
    (set id | id in ids) + (set id | id in ids && |id| >= 12 :: id[..12])
  }

  /** Full-length container ids that differ within their first 12 characters. */
  ghost predicate DistinctNames(all: set<string>) {
    && (forall id :: id in all ==> |id| > 12)
    && (forall a, b :: a in all && b in all && HostName(a) == HostName(b) ==> a == b)
  }

  /** A worker's entries are kept exactly when its container is in the snapshot. */
  lemma NamedIffListed(all: set<string>, ids: seq<string>, id: string)
    requires DistinctNames(all) && id in all && forall i :: i in ids ==> i in all
    ensures HostName(id) in Names(ids) <==> id in ids
  {
    if HostName(id) in Names(ids) {
      var b :| b in ids && (b == HostName(id) || (|b| >= 12 && b[..12] == HostName(id)));
      assert |b| > 12;
    }
    if id in ids {
      assert id[..12] in Names(ids);
    }
  }

  // ---- Scale-down followed by a pass ----

  /** The entry was registered by container `id`. */
  predicate By(d: Decoder, id: string, raw: string) {
    d(raw).Some? && d(raw).value.first == HostName(id)
  }

  /** The entry was registered by one of the containers `who`. */
  ghost predicate Owned(d: Decoder, who: set<string>, raw: string) {
    exists id :: id in who && By(d, id, raw)
  }

  ghost predicate FromContainers(d: Decoder, all: set<string>, q: seq<string>) {
    forall raw :: raw in q ==> Owned(d, all, raw)
  }

  /** Payloads of the entries of a set of containers, in order. */
  ghost function PayloadsOf(d: Decoder, who: set<string>, q: seq<string>): seq<string> {
    if q == [] then []
    else
      var raw := q[|q| - 1];
      PayloadsOf(d, who, q[..|q| - 1]) + if Owned(d, who, raw) then [d(raw).value.second] else []
  }

  ghost function EntriesOf(d: Decoder, who: set<string>, q: seq<string>): seq<string> {
    if q == [] then []
    else
      var raw := q[|q| - 1];
      EntriesOf(d, who, q[..|q| - 1]) + if Owned(d, who, raw) then [raw] else []
  }

  lemma {:induction false} SplitByContainer(d: Decoder, all: set<string>, gone: set<string>, listed: seq<string>, q: seq<string>)
    requires DistinctNames(all) && gone <= all
    requires forall id :: id in listed <==> id in all - gone
    requires FromContainers(d, all, q)
    ensures Requeue(d, Names(listed), q) == PayloadsOf(d, gone, q)
    ensures Keep(d, Names(listed), q) == EntriesOf(d, all - gone, q)
  {
    if q == [] {
    } else {
      var raw := q[|q| - 1];
      SplitByContainer(d, all, gone, listed, q[..|q| - 1]);
      assert Owned(d, all, raw);
      var id :| id in all && By(d, id, raw);
      NamedIffListed(all, listed, id);
      assert Owned(d, gone, raw) <==> id in gone;
      assert Owned(d, all - gone, raw) <==> id in all - gone;
    }
  }

  /**
   Scale-down composed with recovery: when `gone` is removed and the rest is listed, a pass
   re-queues each entry of the removed containers exactly once, in order, and leaves every
   surviving container's entry where it was relative to the others.
   */
  lemma ScaleDownRecovers(d: Decoder, all: set<string>, gone: set<string>, listed: seq<string>, q: Queues)
    requires DistinctNames(all) && gone <= all
    requires forall id :: id in listed <==> id in all - gone
    requires FromContainers(d, all, q.processing) && q.temp == []
    ensures Pass(d, Names(listed), q)
         == Queues(q.task + PayloadsOf(d, gone, q.processing), EntriesOf(d, all - gone, q.processing), [])
  {
    SplitByContainer(d, all, gone, listed, q.processing);
  }
}
