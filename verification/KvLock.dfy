/** The lock built on the versioned server (src/kvsrv1/lock/lock.go).

    The first part runs any number of lock clients at once, one server call at a time, each call
    losing its request or its reply as the channel pleases.  The second part is the object with its
    two retry loops, run against a script of what the channel and everybody else do.
 */
module KvLock {
  import opened KvServer

  /// ## Any number of clients

  // Where a client is: outside, in Acquire before its Get or its Put, between Acquire and
  // Release, in Release before its Get or its Put.
  datatype Pc =
    | Outside
    | AcquireGet
    | AcquirePut(version: nat, retry: bool)
    | Critical
    | ReleaseGet
    | ReleasePut(version: nat, retry: bool)

  datatype Client = Client(id: string, pc: Pc, owned: bool)

  datatype System = System(name: string, store: Store, clients: seq<Client>)

  datatype Action = CallAcquire(i: nat) | CallRelease(i: nat) | Call(i: nat, fate: Fate)

  predicate Enabled(w: System, a: Action) {
    && a.i < |w.clients|
    && match a
       case CallAcquire(i) => w.clients[i].pc == Outside
       case CallRelease(i) => w.clients[i].pc == Critical || w.clients[i].pc == Outside
       case Call(i, _) => w.clients[i].pc != Outside && w.clients[i].pc != Critical
  }

  // Acquire and Release after the reply of their Get.
  function AfterGet(client: Client, reply: GetReply): Client {
    if client.pc.AcquireGet? then
      if reply.err == OK && reply.value == "" then client.(pc := AcquirePut(reply.version, false))
      else if reply.err == OK && reply.value == client.id then client.(pc := Critical, owned := true)
      else if reply.err == ErrNoKey then client.(pc := AcquirePut(0, false))
      else client
    else
      if reply.err == OK && reply.value == client.id then client.(pc := ReleasePut(reply.version, false))
      else client.(pc := Outside, owned := false)
  }

  // Acquire and Release after one attempt of their Put.
  function AfterPut(client: Client, outcome: PutOutcome): Client
    requires client.pc.AcquirePut? || client.pc.ReleasePut?
  {
    if outcome.Retry? then client.(pc := client.pc.(retry := true))
    else if client.pc.AcquirePut? then
      if outcome.err == OK then client.(pc := Critical, owned := true) else client.(pc := AcquireGet)
    else
      if outcome.err == ErrMaybe then client.(pc := ReleaseGet) else client.(pc := Outside, owned := false)
  }

  function PutOf(w: System, client: Client): PutArgs
    requires client.pc.AcquirePut? || client.pc.ReleasePut?
  {
    PutArgs(w.name, if client.pc.AcquirePut? then client.id else "", client.pc.version)
  }

  function Do(w: System, a: Action): System
    requires Enabled(w, a)
  {
    var client := w.clients[a.i];
    match a
    case CallAcquire(i) => w.(clients := w.clients[i := client.(pc := AcquireGet)])
    case CallRelease(i) => w.(clients := w.clients[i := client.(pc := if client.owned then ReleaseGet else Outside)])
    case Call(i, fate) =>
      if client.pc.AcquireGet? || client.pc.ReleaseGet? then
        if fate == Deliver then w.(clients := w.clients[i := AfterGet(client, Read(w.store, w.name))]) else w
      else
        var (store, outcome) := PutAttempt(w.store, PutOf(w, client), client.pc.retry, fate);
        System(w.name, store, w.clients[i := AfterPut(client, outcome)])
  }

  predicate Legal(name: string, ids: seq<string>, run: seq<Action>)
    decreases |run|, 0
  {
    run != [] ==> Legal(name, ids, run[..|run| - 1]) && Enabled(Exec(name, ids, run[..|run| - 1]), run[|run| - 1])
  }

  function Exec(name: string, ids: seq<string>, run: seq<Action>): System
    requires Legal(name, ids, run)
    decreases |run|, 1
  {
    if run == [] then System(name, map[], seq(|ids|, i requires 0 <= i < |ids| => Client(ids[i], Outside, false)))
    else Do(Exec(name, ids, run[..|run| - 1]), run[|run| - 1])
  }

  function Value(w: System): string {
    if w.name in w.store then w.store[w.name].value else ""
  }

  function Version(w: System): nat {
    VersionOf(w.store, w.name)
  }

  ghost predicate DistinctIds(ids: seq<string>) {
    && (forall i :: 0 <= i < |ids| ==> ids[i] != "")
    && (forall i, j :: 0 <= i < j < |ids| ==> ids[i] != ids[j])
  }

  // What a client's position says about the stored value.  A version is only ever used for one
  // value, so a Put that still finds its version finds the value its Get saw.
  ghost predicate ClientOK(w: System, client: Client) {
    && (client.pc == Outside || client.pc == AcquireGet || client.pc.AcquirePut? ==> !client.owned)
    && (client.pc == Outside ==> Value(w) != client.id)
    && (client.pc == Critical ==> client.owned && Value(w) == client.id)
    && (client.pc.AcquirePut? ==>
          && client.pc.version <= Version(w)
          && (client.pc.version == Version(w) ==> Value(w) == "")
          && (!client.pc.retry ==> Value(w) != client.id))
    && (client.pc.ReleaseGet? || client.pc.ReleasePut? ==> client.owned)
    && (client.pc.ReleasePut? ==>
          && client.pc.version <= Version(w) && w.name in w.store
          && (client.pc.version == Version(w) <==> Value(w) == client.id)
          && (!client.pc.retry ==> client.pc.version == Version(w)))
  }

  ghost predicate LockInv(w: System, ids: seq<string>) {
    && DistinctIds(ids) && |w.clients| == |ids|
    && (forall i :: 0 <= i < |ids| ==> w.clients[i].id == ids[i])
    && (w.name in w.store ==> Version(w) >= 1)
    && (forall i {:trigger w.clients[i]} :: 0 <= i < |ids| ==> ClientOK(w, w.clients[i]))
  }

  // A Put of a lock client goes through only when the lock is free, or is the client's own.
  lemma PutEffect(w: System, ids: seq<string>, i: nat, fate: Fate)
    requires LockInv(w, ids) && i < |ids| && (w.clients[i].pc.AcquirePut? || w.clients[i].pc.ReleasePut?)
    ensures var client := w.clients[i]; var w' := Do(w, Call(i, fate));
            && (w'.store == w.store
                || (Version(w') == Version(w) + 1 && w.name in w'.store
                    && (client.pc.AcquirePut? ==> Value(w) == "" && Value(w') == client.id)
                    && (client.pc.ReleasePut? ==> Value(w) == client.id && Value(w') == "")))
  {
    assert ClientOK(w, w.clients[i]);
  }

  lemma CallerOK(w: System, ids: seq<string>, i: nat, fate: Fate)
    requires LockInv(w, ids) && i < |ids| && Enabled(w, Call(i, fate))
    ensures var w' := Do(w, Call(i, fate)); ClientOK(w', w'.clients[i]) && (w.name in w'.store ==> Version(w') >= 1)
  {
    assert ClientOK(w, w.clients[i]);
  }

  lemma OtherOK(w: System, ids: seq<string>, i: nat, fate: Fate, j: nat)
    requires LockInv(w, ids) && i < |ids| && j < |ids| && i != j && Enabled(w, Call(i, fate))
    ensures var w' := Do(w, Call(i, fate)); ClientOK(w', w'.clients[j])
  {
    assert ClientOK(w, w.clients[i]) && ClientOK(w, w.clients[j]);
    assert w.clients[i].id != w.clients[j].id && w.clients[j].id != "";
    if w.clients[i].pc.AcquirePut? || w.clients[i].pc.ReleasePut? {
      PutEffect(w, ids, i, fate);
    }
  }

  lemma LockStep(w: System, ids: seq<string>, a: Action)
    requires LockInv(w, ids) && Enabled(w, a)
    ensures LockInv(Do(w, a), ids)
  {
    var w' := Do(w, a);
    assert ClientOK(w, w.clients[a.i]);
    if a.Call? {
      CallerOK(w, ids, a.i, a.fate);
    }
    forall j | 0 <= j < |ids|
      ensures ClientOK(w', w'.clients[j])
    {
      assert ClientOK(w, w.clients[j]);
      if a.Call? && j != a.i {
        OtherOK(w, ids, a.i, a.fate, j);
      }
    }
  }

  lemma {:induction false} RunLockInv(name: string, ids: seq<string>, run: seq<Action>)
    requires DistinctIds(ids) && Legal(name, ids, run)
    ensures LockInv(Exec(name, ids, run), ids)
    decreases |run|
  {
    if run != [] {
      RunLockInv(name, ids, run[..|run| - 1]);
      LockStep(Exec(name, ids, run[..|run| - 1]), ids, run[|run| - 1]);
    }
  }

  // With distinct, non-empty IDs at most one client is between the return of its Acquire and its
  // call of Release, and the stored value is then its ID; outside the two calls and the critical
  // section, in particular when Release has returned, the stored value is not the client's ID.
  lemma MutualExclusion(name: string, ids: seq<string>, run: seq<Action>, i: nat, j: nat)
    requires DistinctIds(ids) && Legal(name, ids, run) && i < |ids| && j < |ids|
    ensures var w := Exec(name, ids, run);
            && |w.clients| == |ids|
            && (w.clients[i].pc == Critical && w.clients[j].pc == Critical ==> i == j)
            && (w.clients[i].pc == Critical ==> name in w.store && w.store[name].value == ids[i])
            && (w.clients[i].pc == Outside ==> name !in w.store || w.store[name].value != ids[i])
  {
    RunLockInv(name, ids, run);
    NameStays(name, ids, run);
    var w := Exec(name, ids, run);
    assert ClientOK(w, w.clients[i]) && ClientOK(w, w.clients[j]);
  }

  lemma {:induction false} NameStays(name: string, ids: seq<string>, run: seq<Action>)
    requires Legal(name, ids, run)
    ensures Exec(name, ids, run).name == name
    decreases |run|
  {
    if run != [] {
      NameStays(name, ids, run[..|run| - 1]);
    }
  }

  // Release never gives up with the lock still stored: its Put is answered OK or ErrMaybe.
  lemma ReleaseAnswers(name: string, ids: seq<string>, run: seq<Action>, i: nat, fate: Fate)
    requires DistinctIds(ids) && Legal(name, ids, run) && i < |Exec(name, ids, run).clients|
    requires Exec(name, ids, run).clients[i].pc.ReleasePut?
    ensures var w := Exec(name, ids, run);
            var outcome := PutAttempt(w.store, PutOf(w, w.clients[i]), w.clients[i].pc.retry, fate).1;
            outcome == Retry || outcome == Return(OK) || outcome == Return(ErrMaybe)
  {
    RunLockInv(name, ids, run);
    var w := Exec(name, ids, run);
    assert ClientOK(w, w.clients[i]);
  }

  lemma Extend(name: string, ids: seq<string>, run: seq<Action>, a: Action)
    requires Legal(name, ids, run) && Enabled(Exec(name, ids, run), a)
    ensures Legal(name, ids, run + [a]) && Exec(name, ids, run + [a]) == Do(Exec(name, ids, run), a)
  {
    assert (run + [a])[..|run|] == run;
  }

  predicate AtMostOneHolds(w: System) {
    forall i, j ::
      0 <= i < |w.clients| && 0 <= j < |w.clients| && w.clients[i].pc == Critical && w.clients[j].pc == Critical ==>
        i == j
  }

  // In every run of clients with these IDs at most one is between Acquire and Release.
  ghost predicate Excludes(name: string, ids: seq<string>) {
    forall run :: Legal(name, ids, run) ==> AtMostOneHolds(Exec(name, ids, run))
  }

  // The first client to ask for a lock that nobody has asked for gets it.
  lemma FirstHolds(name: string, ids: seq<string>, i: nat) returns (run: seq<Action>)
    requires i < |ids|
    ensures Legal(name, ids, run)
    ensures var w := Exec(name, ids, run);
            && |w.clients| == |ids| && w.name == name
            && w.store == map[name := StoreValue(ids[i], 1)]
            && w.clients == Exec(name, ids, []).clients[i := Client(ids[i], Critical, true)]
  {
    var clients := Exec(name, ids, []).clients;
    Extend(name, ids, [], CallAcquire(i));
    var r1 := [] + [CallAcquire(i)];
    assert Exec(name, ids, r1) == System(name, map[], clients[i := Client(ids[i], AcquireGet, false)]);
    Extend(name, ids, r1, Call(i, Deliver));
    var r2 := r1 + [Call(i, Deliver)];
    assert Exec(name, ids, r2) == System(name, map[], clients[i := Client(ids[i], AcquirePut(0, false), false)]);
    Extend(name, ids, r2, Call(i, Deliver));
    run := r2 + [Call(i, Deliver)];
  }

  // While it does, another client finds an ID that it takes for its own, or for nobody's.
  lemma SecondAsks(name: string, ids: seq<string>, i: nat, j: nat) returns (run: seq<Action>)
    requires i < |ids| && j < |ids| && i != j
    ensures Legal(name, ids, run)
    ensures var w := Exec(name, ids, run);
            && |w.clients| == |ids| && w.name == name
            && w.store == map[name := StoreValue(ids[i], 1)] && w.clients[i] == Client(ids[i], Critical, true)
            && (ids[i] == "" ==> w.clients[j] == Client(ids[j], AcquirePut(1, false), false))
            && (ids[i] != "" && ids[i] == ids[j] ==> w.clients[j].pc == Critical)
  {
    var r3 := FirstHolds(name, ids, i);
    var w3 := Exec(name, ids, r3);
    Extend(name, ids, r3, CallAcquire(j));
    var r4 := r3 + [CallAcquire(j)];
    assert Exec(name, ids, r4) == w3.(clients := w3.clients[j := Client(ids[j], AcquireGet, false)]);
    Extend(name, ids, r4, Call(j, Deliver));
    run := r4 + [Call(j, Deliver)];
  }

  // A shared ID lets both clients in; so does an empty one, which reads as a free lock.
  lemma BothHold(name: string, ids: seq<string>, i: nat, j: nat) returns (run: seq<Action>)
    requires i < |ids| && j < |ids| && i != j && (ids[i] == "" || ids[i] == ids[j])
    ensures Legal(name, ids, run)
    ensures var w := Exec(name, ids, run);
            |w.clients| == |ids| && w.clients[i].pc == Critical && w.clients[j].pc == Critical
  {
    run := SecondAsks(name, ids, i, j);
    if ids[i] == "" {
      var r5 := run;
      Extend(name, ids, r5, Call(j, Deliver));
      run := r5 + [Call(j, Deliver)];
    }
  }

  // For any two or more clients, the lock excludes in all runs if and only if the IDs are
  // non-empty and pairwise different.
  lemma ExclusionIffDistinctIds(name: string, ids: seq<string>)
    requires |ids| >= 2
    ensures Excludes(name, ids) <==> DistinctIds(ids)
  {
    if DistinctIds(ids) {
      forall run | Legal(name, ids, run) ensures AtMostOneHolds(Exec(name, ids, run)) {
        var w := Exec(name, ids, run);
        forall i: nat, j: nat
          | i < |w.clients| && j < |w.clients| && w.clients[i].pc == Critical && w.clients[j].pc == Critical
          ensures i == j
        {
          RunLockInv(name, ids, run);
          MutualExclusion(name, ids, run, i, j);
        }
      }
    } else if i: nat :| i < |ids| && ids[i] == "" {
      var run := BothHold(name, ids, i, if i == 0 then 1 else 0);
      assert !AtMostOneHolds(Exec(name, ids, run));
    } else {
      var i: nat, j: nat :| i < j < |ids| && ids[i] == ids[j];
      var run := BothHold(name, ids, i, j);
      assert !AtMostOneHolds(Exec(name, ids, run));
    }
  }

  // Two clients that share an ID can both be in the critical section.
  lemma SharedIdBreaks(name: string, id: string)
    ensures !Excludes(name, [id, id])
  {
    assert !DistinctIds([id, id]) by {
      assert [id, id][0] == [id, id][1];
    }
    ExclusionIffDistinctIds(name, [id, id]);
  }

  /// ## The object and its retry loops

  // One round of a loop: the scripts of its Get and of its Put.
  datatype Round = Round(get: seq<Turn>, put: seq<Turn>)

  predicate KeepsOff(puts: seq<PutArgs>, name: string, id: string) {
    forall k :: 0 <= k < |puts| ==> puts[k].key == name ==> puts[k].value != id
  }

  // Nobody else writes this client's ID under the lock's name.
  predicate OthersKeepOff(script: seq<Turn>, name: string, id: string) {
    forall k :: 0 <= k < |script| ==> KeepsOff(script[k].others, name, id)
  }

  function Stored(store: Store, name: string): string {
    if name in store then store[name].value else ""
  }

  lemma {:induction false} OthersLeave(store: Store, others: seq<PutArgs>, name: string, id: string)
    requires KeepsOff(others, name, id) && id != ""
    ensures var store' := WriteAll(store, others);
            (name in store && name in store' && store'[name] == store[name])
            || Stored(store', name) != id
    decreases |others|
  {
    if others != [] {
      OthersLeave(Write(store, others[0]).0, others[1..], name, id);
    }
  }

  // After an answered OK the store holds what was put.
  lemma {:induction false} PutOkStored(store: Store, args: PutArgs, retry: bool, script: seq<Turn>)
    requires RunPut(store, args, retry, script).1 == Return(OK)
    ensures var store' := RunPut(store, args, retry, script).0;
            args.key in store' && store'[args.key] == StoreValue(args.value, args.version + 1)
    decreases |script|
  {
    var before := WriteAll(store, script[0].others);
    if script[0].fate != Deliver {
      PutOkStored(PutAttempt(before, args, retry, script[0].fate).0, args, true, script[1..]);
    }
  }

  // A Put with the version its Get saw is refused only if somebody else has written since.
  lemma {:induction false} RefusedMeansGone(store: Store, args: PutArgs, retry: bool, script: seq<Turn>, id: string)
    requires OthersKeepOff(script, args.key, id) && id != "" && args.value != id
    requires args.key in store && store[args.key].value == id ==> store[args.key].version == args.version
    requires var outcome := RunPut(store, args, retry, script).1;
             outcome == Return(ErrVersion) || outcome == Return(ErrNoKey)
    ensures Stored(RunPut(store, args, retry, script).0, args.key) != id
    decreases |script|
  {
    OthersLeave(store, script[0].others, args.key, id);
    var before := WriteAll(store, script[0].others);
    if script[0].fate != Deliver {
      RefusedMeansGone(PutAttempt(before, args, retry, script[0].fate).0, args, true, script[1..], id);
    }
  }

  /// ### The loops as functions

  // The rounds of Acquire, and whether it has returned when the script ends.
  function RunAcquire(store: Store, client: Client, name: string, script: seq<Round>): (Store, Client, bool)
    requires client.pc == AcquireGet
    decreases |script|
  {
    if script == [] then (store, client, false)
    else
      var (store1, got) := RunGet(store, name, script[0].get);
      if got.Unanswered? then (store1, client, false)
      else
        var asked := AfterGet(client, got.reply);
        if asked.pc == Critical then (store1, asked, true)
        else if asked.pc == AcquireGet then RunAcquire(store1, asked, name, script[1..])
        else
          var (store2, outcome) := RunPut(store1, PutArgs(name, client.id, asked.pc.version), false, script[0].put);
          if outcome.Retry? then (store2, asked, false)
          else
            var answered := AfterPut(asked, outcome);
            if answered.pc == Critical then (store2, answered, true)
            else RunAcquire(store2, answered, name, script[1..])
  }

  function RunRelease(store: Store, client: Client, name: string, script: seq<Round>): (Store, Client, bool)
    requires client.pc == ReleaseGet
    decreases |script|
  {
    if script == [] then (store, client, false)
    else
      var (store1, got) := RunGet(store, name, script[0].get);
      if got.Unanswered? then (store1, client, false)
      else
        var asked := AfterGet(client, got.reply);
        if asked.pc == Outside then (store1, asked, true)
        else
          var (store2, outcome) := RunPut(store1, PutArgs(name, "", asked.pc.version), false, script[0].put);
          if outcome.Retry? then (store2, asked, false)
          else
            var answered := AfterPut(asked, outcome);
            if answered.pc == Outside then (store2, answered, true)
            else RunRelease(store2, answered, name, script[1..])
  }

  // A round in which every call is answered at once and nobody else writes.
  const QUIET := Round([Turn([], Deliver)], [Turn([], Deliver)])

  lemma QuietGet(store: Store, name: string)
    ensures RunGet(store, name, QUIET.get) == (store, Answered(Read(store, name)))
  {
    assert QUIET.get[0] == Turn([], Deliver) && WriteAll(store, []) == store;
  }

  lemma QuietPut(store: Store, args: PutArgs)
    ensures RunPut(store, args, false, QUIET.put) == (Write(store, args).0, Return(Write(store, args).1))
  {
    assert QUIET.put[0] == Turn([], Deliver) && WriteAll(store, []) == store;
  }

  // Left in peace, Acquire gets a lock that is free or its own at the first try, and never one that
  // another client holds; Release frees the lock it holds.
  lemma AcquireGetsFree(store: Store, id: string, name: string)
    requires Stored(store, name) == "" || Stored(store, name) == id
    ensures var (store', client, returned) := RunAcquire(store, Client(id, AcquireGet, false), name, [QUIET]);
            && returned && client == Client(id, Critical, true)
            && name in store' && store'[name].value == id
            && (forall k :: k != name ==> Read(store', k) == Read(store, k))
  {
    QuietGet(store, name);
    var version := Read(store, name).version;
    QuietPut(store, PutArgs(name, id, version));
    PutThenGet(store, PutArgs(name, id, version), name);
  }

  lemma {:induction false} AcquireWaits(store: Store, id: string, name: string, n: nat)
    requires Stored(store, name) != "" && Stored(store, name) != id
    ensures RunAcquire(store, Client(id, AcquireGet, false), name, seq(n, _ => QUIET))
         == (store, Client(id, AcquireGet, false), false)
  {
    if n > 0 {
      QuietGet(store, name);
      assert seq(n, _ => QUIET)[0] == QUIET && seq(n, _ => QUIET)[1..] == seq(n - 1, _ => QUIET);
      AcquireWaits(store, id, name, n - 1);
    }
  }

  lemma ReleaseFrees(store: Store, id: string, name: string)
    requires name in store && store[name].value == id
    ensures var (store', client, returned) := RunRelease(store, Client(id, ReleaseGet, true), name, [QUIET]);
            && returned && client == Client(id, Outside, false) && Stored(store', name) == ""
            && (forall k :: k != name ==> Read(store', k) == Read(store, k))
  {
    QuietGet(store, name);
    var version := Read(store, name).version;
    QuietPut(store, PutArgs(name, "", version));
    PutThenGet(store, PutArgs(name, "", version), name);
  }

  class Lock {
    const clerk: Clerk
    const name: string
    const myID: string
    var owned: bool

    constructor (clerk: Clerk, name: string, id: string)
      ensures this.clerk == clerk && this.name == name && myID == id && !owned
    {
      this.clerk, this.name, this.myID, this.owned := clerk, name, id, false;
    }

    // True when Acquire has returned; false when the script ends while it is still trying.
    method Acquire(script: seq<Round>) returns (returned: bool)
      modifies this`owned, clerk.server
      ensures returned ==> owned && name in clerk.server.kvStore && clerk.server.kvStore[name].value == myID
      ensures !returned ==> owned == old(owned)
      ensures var (store, client, ended) :=
                RunAcquire(old(clerk.server.kvStore), Client(myID, AcquireGet, old(owned)), name, script);
              (clerk.server.kvStore, owned, returned) == (store, client.owned, ended)
    {
      ghost var all := RunAcquire(clerk.server.kvStore, Client(myID, AcquireGet, owned), name, script);
      for round := 0 to |script|
        invariant owned == old(owned)
        invariant all == RunAcquire(clerk.server.kvStore, Client(myID, AcquireGet, owned), name, script[round..])
      {
        assert script[round..][0] == script[round] && script[round..][1..] == script[round + 1..];
        var got := clerk.Get(name, script[round].get);
        if got == Unanswered {
          return false;
        }
        var reply := got.reply;
        if reply.err == ErrNoKey || reply.value == "" {
          var args := PutArgs(name, myID, if reply.err == ErrNoKey then 0 else reply.version);
          ghost var before := clerk.server.kvStore;
          var outcome := clerk.Put(args, script[round].put);
          if outcome == Retry {
            return false;
          }
          if outcome == Return(OK) {
            PutOkStored(before, args, false, script[round].put);
            owned := true;
            return true;
          }
        } else if reply.value == myID {
          owned := true;
          return true;
        }
      }
      return false;
    }

    method Release(script: seq<Round>) returns (returned: bool)
      requires myID != ""
      requires forall k :: 0 <= k < |script| ==> OthersKeepOff(script[k].put, name, myID)
      modifies this`owned, clerk.server
      ensures returned ==> !owned
      ensures returned && old(owned) ==> Stored(clerk.server.kvStore, name) != myID
      ensures !old(owned) ==> returned && clerk.server.kvStore == old(clerk.server.kvStore)
      ensures old(owned) ==>
                var (store, client, ended) :=
                  RunRelease(old(clerk.server.kvStore), Client(myID, ReleaseGet, true), name, script);
                (clerk.server.kvStore, owned, returned) == (store, client.owned, ended)
    {
      if !owned {
        return true;
      }
      ghost var all := RunRelease(clerk.server.kvStore, Client(myID, ReleaseGet, true), name, script);
      for round := 0 to |script|
        invariant owned
        invariant all == RunRelease(clerk.server.kvStore, Client(myID, ReleaseGet, true), name, script[round..])
      {
        assert script[round..][0] == script[round] && script[round..][1..] == script[round + 1..];
        var got := clerk.Get(name, script[round].get);
        if got == Unanswered {
          return false;
        }
        var reply := got.reply;
        if reply.err == ErrNoKey || reply.value != myID {
          owned := false;
          return true;
        }
        var args := PutArgs(name, "", reply.version);
        ghost var before := clerk.server.kvStore;
        var outcome := clerk.Put(args, script[round].put);
        if outcome == Retry {
          return false;
        }
        if outcome != Return(ErrMaybe) {
          if outcome == Return(OK) {
            PutOkStored(before, args, false, script[round].put);
          } else {
            RefusedMeansGone(before, args, false, script[round].put, myID);
          }
          owned := false;
          return true;
        }
      }
      return false;
    }
  }
}
