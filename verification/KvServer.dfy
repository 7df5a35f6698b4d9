/** The versioned key/value server and the clerk that retries over a lossy channel
    (src/kvsrv1/server.go and src/kvsrv1/client.go).
 */
module KvServer {

  datatype Err = OK | ErrNoKey | ErrVersion | ErrMaybe

  datatype StoreValue = StoreValue(value: string, version: nat)

  type Store = map<string, StoreValue>

  datatype PutArgs = PutArgs(key: string, value: string, version: nat)

  datatype GetReply = GetReply(value: string, version: nat, err: Err)

  // A missing key reads as the empty string; the reply's other fields keep their zero values.
  function Read(store: Store, key: string): GetReply {
    if key in store then GetReply(store[key].value, store[key].version, OK) else GetReply("", 0, ErrNoKey)
  }

  function VersionOf(store: Store, key: string): nat {
    if key in store then store[key].version else 0
  }

  function Write(store: Store, args: PutArgs): (Store, Err) {
    if args.key in store then
      if store[args.key].version == args.version then
        (store[args.key := StoreValue(args.value, args.version + 1)], OK)
      else (store, ErrVersion)
    else if args.version == 0 then (store[args.key := StoreValue(args.value, 1)], OK)
    else (store, ErrNoKey)
  }

  class KVServer {
    var kvStore: Store

    constructor ()
      ensures kvStore == map[]
    {
      kvStore := map[];
    }

    method Get(key: string) returns (reply: GetReply)
      ensures reply == Read(kvStore, key)
    {
      if key in kvStore {
        var v := kvStore[key];
        reply := GetReply(v.value, v.version, OK);
      } else {
        reply := GetReply("", 0, ErrNoKey);
      }
    }

    method Put(args: PutArgs) returns (err: Err)
      modifies this
      ensures (kvStore, err) == Write(old(kvStore), args)
    {
      if args.key in kvStore {
        var v := kvStore[args.key];
        if v.version == args.version {
          kvStore := kvStore[args.key := StoreValue(args.value, args.version + 1)];
          err := OK;
        } else {
          err := ErrVersion;
        }
      } else {
        if args.version == 0 {
          kvStore := kvStore[args.key := StoreValue(args.value, 1)];
          err := OK;
        } else {
          err := ErrNoKey;
        }
      }
    }
  }

  /// ## The clerk

  // What the channel does to one call: lose the request, run it and lose the reply, or do both.
  datatype Fate = DropRequest | DropReply | Deliver

  datatype PutOutcome = Retry | Return(err: Err)

  function PutAttempt(store: Store, args: PutArgs, retry: bool, fate: Fate): (Store, PutOutcome) {
    match fate
    case DropRequest => (store, Retry)
    case DropReply => (Write(store, args).0, Retry)
    case Deliver =>
      var (store', err) := Write(store, args);
      (store', Return(if err == ErrVersion && retry then ErrMaybe else err))
  }

  // One turn of the clerk's loop: the Puts of others that the server runs first, then the attempt.
  datatype Turn = Turn(others: seq<PutArgs>, fate: Fate)

  function WriteAll(store: Store, others: seq<PutArgs>): Store
    decreases |others|
  {
    if others == [] then store else WriteAll(Write(store, others[0]).0, others[1..])
  }

  // A clerk that is still retrying when the script ends has returned nothing.
  function RunPut(store: Store, args: PutArgs, retry: bool, script: seq<Turn>): (Store, PutOutcome)
    decreases |script|
  {
    if script == [] then (store, Retry)
    else
      var (store', outcome) := PutAttempt(WriteAll(store, script[0].others), args, retry, script[0].fate);
      if outcome.Return? then (store', outcome) else RunPut(store', args, true, script[1..])
  }

  // How often the Put itself was applied during the script.
  function Applications(store: Store, args: PutArgs, retry: bool, script: seq<Turn>): nat
    decreases |script|
  {
    if script == [] then 0
    else
      var before := WriteAll(store, script[0].others);
      var (after, outcome) := PutAttempt(before, args, retry, script[0].fate);
      (if script[0].fate != DropRequest && Write(before, args).1 == OK then 1 else 0)
      + (if outcome.Return? then 0 else Applications(after, args, true, script[1..]))
  }

  datatype GetOutcome = Unanswered | Answered(reply: GetReply)

  // A Get is tried again until one of its replies arrives; a lost attempt changes nothing.
  function RunGet(store: Store, key: string, script: seq<Turn>): (Store, GetOutcome)
    decreases |script|
  {
    if script == [] then (store, Unanswered)
    else
      var store' := WriteAll(store, script[0].others);
      if script[0].fate == Deliver then (store', Answered(Read(store', key))) else RunGet(store', key, script[1..])
  }

  class Clerk {
    const server: KVServer

    constructor (server: KVServer)
      ensures this.server == server
    {
      this.server := server;
    }

    method Get(key: string, script: seq<Turn>) returns (outcome: GetOutcome)
      modifies server
      ensures (server.kvStore, outcome) == RunGet(old(server.kvStore), key, script)
      ensures outcome.Answered? ==> outcome.reply == Read(server.kvStore, key)
    {
      var turn := 0;
      while turn < |script|
        invariant 0 <= turn <= |script|
        invariant RunGet(old(server.kvStore), key, script) == RunGet(server.kvStore, key, script[turn..])
      {
        Interfere(script[turn].others);
        assert script[turn..][1..] == script[turn + 1..];
        match script[turn].fate {
          case DropRequest =>
          case DropReply => var _ := server.Get(key);
          case Deliver =>
            var reply := server.Get(key);
            return Answered(reply);
        }
        turn := turn + 1;
      }
      return Unanswered;
    }

    // The clerk's retry loop, run against a script of what the channel and the other clerks do.
    method Put(args: PutArgs, script: seq<Turn>) returns (outcome: PutOutcome)
      modifies server
      ensures (server.kvStore, outcome) == RunPut(old(server.kvStore), args, false, script)
    {
      var retry := false;
      var turn := 0;
      while turn < |script|
        invariant 0 <= turn <= |script|
        invariant RunPut(old(server.kvStore), args, false, script)
               == RunPut(server.kvStore, args, retry, script[turn..])
      {
        Interfere(script[turn].others);
        assert script[turn..][1..] == script[turn + 1..];
        match script[turn].fate {
          case DropRequest =>
          case DropReply => var _ := server.Put(args);
          case Deliver =>
            var err := server.Put(args);
            if err == ErrVersion && retry {
              return Return(ErrMaybe);
            }
            return Return(err);
        }
        retry := true;
        turn := turn + 1;
      }
      return Retry;
    }

    method Interfere(others: seq<PutArgs>)
      modifies server
      ensures server.kvStore == WriteAll(old(server.kvStore), others)
    {
      for i := 0 to |others|
        invariant WriteAll(old(server.kvStore), others) == WriteAll(server.kvStore, others[i..])
      {
        assert others[i..][1..] == others[i + 1..];
        var _ := server.Put(others[i]);
      }
      assert others[|others|..] == [];
    }
  }

  /// ## What the server's answers say

  // A Put succeeds exactly with the version that a Get would report, the reported 0 of a missing key
  // included; it is then what a Get reports, one version up, and no other key changes.  A refused
  // Put changes nothing.
  lemma PutThenGet(store: Store, args: PutArgs, key: string)
    ensures var (store', err) := Write(store, args); var seen := Read(store, args.key);
            && (err == OK <==> args.version == seen.version)
            && (err == OK ==> Read(store', args.key) == GetReply(args.value, args.version + 1, OK))
            && (err != OK ==> store' == store && err == if seen.err == ErrNoKey then ErrNoKey else ErrVersion)
            && (key != args.key ==> Read(store', key) == Read(store, key))
    ensures Read(map[], key) == GetReply("", 0, ErrNoKey)
    ensures key in store ==> Read(store, key) == GetReply(store[key].value, store[key].version, OK)
  {
  }

  // The first turn whose reply arrives, if any.
  function FirstDelivered(script: seq<Turn>): (k: nat)
    ensures k <= |script| && (k < |script| ==> script[k].fate == Deliver)
    ensures forall i :: 0 <= i < k ==> script[i].fate != Deliver
  {
    if script == [] || script[0].fate == Deliver then 0 else 1 + FirstDelivered(script[1..])
  }

  // What the server holds when attempt k of the Put arrives, or is lost on its way.
  function StoreBefore(store: Store, args: PutArgs, script: seq<Turn>, k: nat): Store
    requires k < |script|
    decreases k
  {
    var before := WriteAll(store, script[0].others);
    if k == 0 then before
    else StoreBefore(if script[0].fate == DropRequest then before else Write(before, args).0, args, script[1..], k - 1)
  }

  // The clerk's answer is the server's answer to the first attempt whose reply arrives; only an
  // ErrVersion to a later attempt than the first becomes ErrMaybe.  In particular OK says that this
  // very attempt was applied, and without a delivered reply the clerk has not returned.
  lemma {:induction false} AnswerIsDelivered(store: Store, args: PutArgs, retry: bool, script: seq<Turn>)
    ensures var k := FirstDelivered(script); var (store', outcome) := RunPut(store, args, retry, script);
            if k == |script| then outcome == Retry
            else
              var (after, err) := Write(StoreBefore(store, args, script, k), args);
              && store' == after
              && outcome == Return(if err == ErrVersion && (retry || k > 0) then ErrMaybe else err)
    decreases |script|
  {
    if script != [] && script[0].fate != Deliver {
      var before := WriteAll(store, script[0].others);
      var after := if script[0].fate == DropRequest then before else Write(before, args).0;
      AnswerIsDelivered(after, args, true, script[1..]);
    }
  }

  // Get: the same, and its own attempts leave no trace.
  function OthersUpTo(script: seq<Turn>, k: nat): seq<PutArgs>
    requires k < |script|
    decreases k
  {
    script[0].others + if k == 0 then [] else OthersUpTo(script[1..], k - 1)
  }

  lemma {:induction false} WriteAllAppend(store: Store, a: seq<PutArgs>, b: seq<PutArgs>)
    ensures WriteAll(store, a + b) == WriteAll(WriteAll(store, a), b)
    decreases |a|
  {
    if a == [] {
      assert a + b == b;
    } else {
      assert (a + b)[1..] == a[1..] + b;
      WriteAllAppend(Write(store, a[0]).0, a[1..], b);
    }
  }

  lemma OthersInTurn(store: Store, script: seq<Turn>, k: nat)
    requires k < |script|
    ensures var first := WriteAll(store, script[0].others);
            WriteAll(store, OthersUpTo(script, k))
              == if k == 0 then first else WriteAll(first, OthersUpTo(script[1..], k - 1))
  {
    if k == 0 {
      assert script[0].others + [] == script[0].others;
    } else {
      WriteAllAppend(store, script[0].others, OthersUpTo(script[1..], k - 1));
    }
  }

  lemma {:induction false} GetIsDelivered(store: Store, key: string, script: seq<Turn>)
    ensures var k := FirstDelivered(script); var (store', outcome) := RunGet(store, key, script);
            if k == |script| then outcome == Unanswered
            else store' == WriteAll(store, OthersUpTo(script, k)) && outcome == Answered(Read(store', key))
    decreases |script|
  {
    if script != [] {
      var k := FirstDelivered(script);
      if k < |script| {
        OthersInTurn(store, script, k);
      }
      if k > 0 {
        GetIsDelivered(WriteAll(store, script[0].others), key, script[1..]);
      }
    }
  }

  /// ## At most once

  lemma VersionsGrow(store: Store, args: PutArgs, key: string)
    ensures VersionOf(store, key) <= VersionOf(Write(store, args).0, key)
    ensures key in store ==> key in Write(store, args).0
    ensures Write(store, args).1 == OK <==>
              args.version == VersionOf(store, args.key) && (args.key in store || args.version == 0)
    ensures Write(store, args).1 == OK ==> VersionOf(Write(store, args).0, args.key) == args.version + 1
  {
  }

  lemma {:induction false} VersionsGrowAll(store: Store, others: seq<PutArgs>, key: string)
    ensures VersionOf(store, key) <= VersionOf(WriteAll(store, others), key)
    ensures key in store ==> key in WriteAll(store, others)
    decreases |others|
  {
    if others != [] {
      VersionsGrow(store, others[0], key);
      VersionsGrowAll(Write(store, others[0]).0, others[1..], key);
    }
  }

  // Once applied, a Put finds a newer version for ever after: it is never applied again, and if
  // the clerk returns at all it returns ErrMaybe.
  lemma {:induction false} AppliedOnce(store: Store, args: PutArgs, script: seq<Turn>)
    requires args.key in store && VersionOf(store, args.key) > args.version
    ensures Applications(store, args, true, script) == 0
    ensures var outcome := RunPut(store, args, true, script).1; outcome == Retry || outcome == Return(ErrMaybe)
    decreases |script|
  {
    if script != [] {
      VersionsGrowAll(store, script[0].others, args.key);
      var before := WriteAll(store, script[0].others);
      if script[0].fate != Deliver {
        AppliedOnce(before, args, script[1..]);
      }
    }
  }

  // Whatever the channel loses and whatever other clerks do, a Put is applied at most once; OK
  // means it was applied, ErrVersion and ErrNoKey mean it was not.
  lemma {:induction false} PutAtMostOnce(store: Store, args: PutArgs, retry: bool, script: seq<Turn>)
    ensures var applied := Applications(store, args, retry, script);
            var outcome := RunPut(store, args, retry, script).1;
            && applied <= 1
            && (outcome == Return(OK) ==> applied == 1)
            && (outcome == Return(ErrVersion) || outcome == Return(ErrNoKey) ==> applied == 0)
    decreases |script|
  {
    if script != [] {
      var before := WriteAll(store, script[0].others);
      var (after, outcome) := PutAttempt(before, args, retry, script[0].fate);
      if !outcome.Return? {
        if script[0].fate == DropReply && Write(before, args).1 == OK {
          AppliedOnce(after, args, script[1..]);
        } else {
          PutAtMostOnce(after, args, true, script[1..]);
        }
      }
    }
  }

  // ErrVersion is only returned by a first attempt that the channel delivered.
  lemma FirstAttemptErrVersion(store: Store, args: PutArgs, script: seq<Turn>)
    requires RunPut(store, args, false, script).1 == Return(ErrVersion)
    ensures script[0].fate == Deliver
  {
    if script[0].fate != Deliver {
      var seen := WriteAll(store, script[0].others);
      NoErrVersionOnRetry(PutAttempt(seen, args, false, script[0].fate).0, args, script[1..]);
    }
  }

  lemma {:induction false} NoErrVersionOnRetry(store: Store, args: PutArgs, script: seq<Turn>)
    ensures RunPut(store, args, true, script).1 != Return(ErrVersion)
    decreases |script|
  {
    if script != [] {
      var seen := WriteAll(store, script[0].others);
      NoErrVersionOnRetry(PutAttempt(seen, args, true, script[0].fate).0, args, script[1..]);
    }
  }
}
