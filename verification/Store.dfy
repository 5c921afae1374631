/**
 The program's operations on Redis as imperative code: the recovery pass, the request
 handler, and one turn of the worker's polling loop, each without interleaving.
 */
module Store {
  import opened Lists
  import opened Recovery

  datatype Codec = Codec(encode: TaskPair -> string, decode: Decoder)

  /** Unmarshalling undoes marshalling. */
  ghost predicate Sound(c: Codec) {
    forall p: TaskPair :: c.decode(c.encode(p)) == Some(p)
  }

  const STATUS_OK := 200
  const STATUS_ACCEPTED := 202
  const STATUS_BAD_REQUEST := 400
  const STATUS_INTERNAL_ERROR := 500

  /** Task types that the worker knows; the others are reported and not counted. */
  const KNOWN_TYPES: set<string> := {"prime", "is_power_of_two", "stress_cpu"}

  class RedisStore {
    var task: seq<string>
    var processing: seq<string>
    var temp: seq<string>
    var totalRequest: int
    var taskCompleted: int

    constructor ()
      ensures Contents() == Queues([], [], []) && totalRequest == 0 && taskCompleted == 0
    {
      task, processing, temp := [], [], [];
      totalRequest, taskCompleted := 0, 0;
    }

    function Contents(): Queues
      reads this
    {
      Queues(task, processing, temp)
    }

    /** The lookup table of the pass: every id and every 12-character prefix, mapped to true. */
    static method LiveNames(ids: seq<string>) returns (mp: map<string, bool>)
      ensures mp.Keys == Names(ids)
      ensures forall k :: k in mp ==> mp[k]
    {
      mp := map[];
      for i := 0 to |ids|
        invariant mp.Keys == Names(ids[..i])
        invariant forall k :: k in mp ==> mp[k]
      {
        assert ids[..i + 1] == ids[..i] + [ids[i]];
        mp := mp[ids[i] := true];
        if |ids[i]| >= 12 {
          mp := mp[ids[i][..12] := true];
        }
      }
      assert ids[..|ids|] == ids;
    }

    /** What the pass does with one popped entry: an unreadable one is dropped. */
    method Route(ids: seq<string>, mp: map<string, bool>, decode: Decoder, raw: string)
      requires mp.Keys == Names(ids) && forall k :: k in mp ==> mp[k]
      modifies this`task, this`temp
      ensures task == old(task) + if Dead(decode, Names(ids), raw) then [decode(raw).value.second] else []
      ensures temp == old(temp) + if Kept(decode, Names(ids), raw) then [raw] else []
    {
      var entry := decode(raw);
      if entry.None? {
        return;
      }
      if entry.value.first in mp && mp[entry.value.first] {
        temp := temp + [raw];
      } else {
        task := task + [entry.value.second];
      }
    }

    /** First loop of the pass: pop from the left, keep the entries of live workers on temp_queue. */
    method Drain(ids: seq<string>, mp: map<string, bool>, decode: Decoder, pops: Option<nat>)
      requires mp.Keys == Names(ids) && forall k :: k in mp ==> mp[k]
      modifies this`task, this`processing, this`temp
      ensures var popped := old(processing)[..Done(pops, |old(processing)|)];
        && task == old(task) + Requeue(decode, Names(ids), popped)
        && temp == old(temp) + Keep(decode, Names(ids), popped)
        && processing == old(processing)[|popped|..]
    {
      ghost var all := processing;
      ghost var live := Names(ids);
      var popped := 0;
      while true
        invariant popped <= |all| && processing == all[popped..]
        invariant task == old(task) + Requeue(decode, live, all[..popped])
        invariant temp == old(temp) + Keep(decode, live, all[..popped])
        invariant pops.Some? ==> popped <= pops.value
        decreases |processing|
      {
        if pops == Some(popped) || processing == [] {
          break;
        }
        var raw := processing[0];
        NextRouted(decode, live, all, popped, old(task), old(temp));
        processing := processing[1..];
        Route(ids, mp, decode, raw);
        popped := popped + 1;
      }
      assert popped == Done(pops, |all|);
    }

    /** Second loop of the pass: move temp_queue back, left to right. */
    method Restore(moves: Option<nat>)
      modifies this`processing, this`temp
      ensures processing == old(processing) + old(temp)[..Done(moves, |old(temp)|)]
      ensures temp == old(temp)[Done(moves, |old(temp)|)..]
    {
      var moved := 0;
      while true
        invariant moved <= |old(temp)| && temp == old(temp)[moved..]
        invariant processing == old(processing) + old(temp)[..moved]
        invariant moves.Some? ==> moved <= moves.value
        decreases |temp|
      {
        if moves == Some(moved) || temp == [] {
          break;
        }
        processing := processing + [temp[0]];
        temp := temp[1..];
        assert old(temp)[..moved + 1] == old(temp)[..moved] + [old(temp)[moved]];
        moved := moved + 1;
      }
    }

    /**
     The recovery pass. `pops` and `moves` say after how many successes an LPop or LMove
     fails; a failed command changes nothing and ends its loop.
     */
    method ProcessingToMain(ids: seq<string>, decode: Decoder, pops: Option<nat>, moves: Option<nat>)
      modifies this`task, this`processing, this`temp
      ensures Contents() == BrokenPass(decode, Names(ids), old(Contents()), pops, moves)
    {
      var mp := LiveNames(ids);
      Drain(ids, mp, decode, pops);
      Restore(moves);
    }

    /** POST /request. A pre-flight request is answered before anything is counted. */
    method Request(preflight: bool, body: Option<string>, pushFails: bool) returns (status: int)
      modifies this`task, this`totalRequest
      ensures preflight ==> status == STATUS_OK && totalRequest == old(totalRequest) && task == old(task)
      ensures !preflight ==> totalRequest == old(totalRequest) + 1
      ensures status == STATUS_ACCEPTED <==> !preflight && body.Some? && !pushFails
      ensures !preflight && body.None? ==> status == STATUS_BAD_REQUEST
      ensures !preflight && body.Some? && pushFails ==> status == STATUS_INTERNAL_ERROR
      ensures task == if status == STATUS_ACCEPTED then old(task) + [body.value] else old(task)
    {
      if preflight {
        return STATUS_OK;
      }
      totalRequest := totalRequest + 1;
      if body.None? {
        return STATUS_BAD_REQUEST;
      }
      if pushFails {
        return STATUS_INTERNAL_ERROR;
      }
      task := task + [body.value];
      return STATUS_ACCEPTED;
    }

    /**
     One turn of the polling loop of the worker `host`. `typeOf` is the type field of a payload,
     None when it does not parse; the two flags are what the worker reads when BLPop fails and
     at the end of the turn.
     */
    method PollOnce(host: string, c: Codec, typeOf: string -> Option<string>,
                    cancelled: bool, flagAtError: bool, flagAtEnd: bool)
      returns (exits: bool)
      requires !cancelled ==> task != []
      modifies this`task, this`processing, this`taskCompleted
      ensures exits == if cancelled then flagAtError else flagAtEnd
      ensures cancelled ==> Contents() == old(Contents()) && taskCompleted == old(taskCompleted)
      ensures !cancelled ==>
        var payload := old(task)[0];
        var raw := c.encode(TaskPair(host, payload));
        && task == old(task)[1..]
        && processing == RemoveFirst(old(processing) + [raw], raw)
        && taskCompleted
           == old(taskCompleted)
              + if typeOf(payload).Some? && typeOf(payload).value in {"prime", "is_power_of_two", "stress_cpu"} then 1 else 0
      ensures multiset(processing) == multiset(old(processing))
      ensures !cancelled && c.encode(TaskPair(host, old(task)[0])) !in old(processing) ==>
        processing == old(processing)
    {
      if cancelled {
        return flagAtError;
      }
      var payload := task[0];
      task := task[1..];
      var raw := c.encode(TaskPair(host, payload));
      processing := processing + [raw];
      RemoveAppended(old(processing), raw);
      var kind := typeOf(payload);
      if kind.None? {
        processing := RemoveFirst(processing, raw);
        return flagAtEnd;
      }
      if kind.value in KNOWN_TYPES {
        taskCompleted := taskCompleted + 1;
      }
      processing := RemoveFirst(processing, raw);
      return flagAtEnd;
    }
  }
}
