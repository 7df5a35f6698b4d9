/** The data side of MapReduce: bucketing, sorting by key and grouping runs of equal keys,
    as the workers (src/mr/worker.go) and the sequential program (src/main/mrsequential.go)
    do it.  Map, reduce and hash functions are arbitrary; sorting is any sort.
 */
module MapReduceData {
  datatype KeyValue = KeyValue(key: string, value: string)

  /// ## Mapping a list to lists and joining them

  function Cat<T, U>(f: T -> seq<U>, s: seq<T>): seq<U> {
    if s == [] then [] else f(s[0]) + Cat(f, s[1..])
  }

  lemma {:induction false} CatAppend<T, U>(f: T -> seq<U>, a: seq<T>, b: seq<T>)
    ensures Cat(f, a + b) == Cat(f, a) + Cat(f, b)
  {
    if a == [] {
      assert a + b == b;
    } else {
      assert (a + b)[1..] == a[1..] + b;
      CatAppend(f, a[1..], b);
    }
  }

  lemma CatSnoc<T, U>(f: T -> seq<U>, a: seq<T>, x: T)
    ensures Cat(f, a + [x]) == Cat(f, a) + f(x)
  {
    CatAppend(f, a, [x]);
    assert Cat(f, [x]) == f(x) + Cat(f, []);
  }

  // Pieces with the same elements join to lists with the same elements.
  lemma {:induction false} CatSameBags<T, U>(f: T -> seq<U>, g: T -> seq<U>, s: seq<T>)
    requires forall x :: x in s ==> multiset(f(x)) == multiset(g(x))
    ensures multiset(Cat(f, s)) == multiset(Cat(g, s))
  {
    if s != [] {
      assert s[0] in s && forall x :: x in s[1..] ==> x in s;
      CatSameBags(f, g, s[1..]);
    }
  }

  lemma {:induction false} CatSame<T, U>(f: T -> seq<U>, g: T -> seq<U>, s: seq<T>)
    requires forall x :: x in s ==> f(x) == g(x)
    ensures Cat(f, s) == Cat(g, s)
  {
    if s != [] {
      assert s[0] in s && forall x :: x in s[1..] ==> x in s;
      CatSame(f, g, s[1..]);
    }
  }

  // The order of the pieces does not matter to the elements of the whole.
  lemma {:induction false} CatPermutes<T, U>(f: T -> seq<U>, a: seq<T>, b: seq<T>)
    requires multiset(a) == multiset(b)
    ensures multiset(Cat(f, a)) == multiset(Cat(f, b))
    decreases |a|
  {
    if a == [] {
      assert |multiset(a)| == |multiset(b)|;
    } else {
      var x := a[0];
      assert a == [x] + a[1..];
      assert x in multiset(b);
      var i :| 0 <= i < |b| && b[i] == x;
      var pre, post := b[..i], b[i + 1..];
      assert b == pre + [x] + post;
      CancelOne(x, a[1..], pre, post);
      CatPermutes(f, a[1..], pre + post);
      CatAppend(f, pre, post);
      CatAppend(f, pre + [x], post);
      CatSnoc(f, pre, x);
    }
  }

  lemma CancelOne<T>(x: T, a: seq<T>, pre: seq<T>, post: seq<T>)
    requires multiset([x] + a) == multiset(pre + [x] + post)
    ensures multiset(a) == multiset(pre + post)
  {
    var m := multiset{x};
    assert multiset([x] + a) == multiset([x]) + multiset(a);
    assert multiset(pre + [x] + post) == multiset(pre) + multiset([x]) + multiset(post);
    assert multiset([x]) == m;
    assert multiset(pre + post) == multiset(pre) + multiset(post);
    forall y ensures multiset(a)[y] == multiset(pre + post)[y] {
      assert (m + multiset(a))[y] == (multiset(pre) + m + multiset(post))[y];
    }
  }

  ghost predicate NoRepeats<T>(s: seq<T>) {
    forall i, j :: 0 <= i < j < |s| ==> s[i] != s[j]
  }

  // A list without repeats is determined, up to order, by which elements it has.
  lemma {:induction false} NoRepeatsBag<T>(s: seq<T>)
    requires NoRepeats(s)
    ensures multiset(s) == multiset(set x | x in s)
  {
    if s != [] {
      var rest := s[1..];
      assert s == [s[0]] + rest;
      NoRepeatsBag(rest);
      assert s[0] !in rest;
      assert (set x | x in s) == {s[0]} + set x | x in rest;
    }
  }

  lemma SameBag<T>(a: seq<T>, b: seq<T>)
    requires NoRepeats(a) && NoRepeats(b)
    requires forall x :: x in a <==> x in b
    ensures multiset(a) == multiset(b)
  {
    NoRepeatsBag(a);
    NoRepeatsBag(b);
    assert (set x | x in a) == set x | x in b;
  }

  /// ## Sorting by key

  // Go's `<` on strings.
  predicate Less(a: string, b: string) {
    b != [] && (a == [] || a[0] < b[0] || (a[0] == b[0] && Less(a[1..], b[1..])))
  }

  lemma {:induction false} Trichotomy(a: string, b: string)
    ensures Less(a, b) || Less(b, a) || a == b
    ensures !(Less(a, b) && Less(b, a)) && !Less(a, a)
  {
    if a != [] && b != [] && a[0] == b[0] {
      Trichotomy(a[1..], b[1..]);
      assert a == [a[0]] + a[1..] && b == [b[0]] + b[1..];
    }
    if a != [] {
      Trichotomy(a[1..], a[1..]);
    }
  }

  lemma {:induction false} LessTransitive(a: string, b: string, c: string)
    requires Less(a, b) && !Less(c, b)
    ensures Less(a, c)
  {
    Trichotomy(b, c);
    if a != [] && b != [] && c != [] && a[0] == b[0] == c[0] {
      LessTransitive(a[1..], b[1..], c[1..]);
    }
  }

  ghost predicate Ordered(s: seq<KeyValue>) {
    forall i, j :: 0 <= i < j < |s| ==> !Less(s[j].key, s[i].key)
  }

  // All that sort.Sort(ByKey(s)) promises; it is not stable.
  ghost predicate Sorts(s: seq<KeyValue>, t: seq<KeyValue>) {
    multiset(t) == multiset(s) && Ordered(t)
  }

  // A sort, standing for the library's: callers see its contract only.
  method SortByKey(s: seq<KeyValue>) returns (t: seq<KeyValue>)
    ensures Sorts(s, t)
  {
    t := [];
    for n := 0 to |s|
      invariant Sorts(s[..n], t)
    {
      var i, x := 0, s[n];
      while i < |t| && !Less(x.key, t[i].key)
        invariant 0 <= i <= |t|
        invariant forall k :: 0 <= k < i ==> !Less(x.key, t[k].key)
      {
        i := i + 1;
      }
      InsertOrders(t, i, x);
      assert t == t[..i] + t[i..] && s[..n + 1] == s[..n] + [x];
      t := t[..i] + [x] + t[i..];
    }
    assert s[..|s|] == s;
  }

  lemma InsertOrders(t: seq<KeyValue>, i: nat, x: KeyValue)
    requires Ordered(t) && i <= |t| && forall k :: 0 <= k < i ==> !Less(x.key, t[k].key)
    requires i < |t| ==> Less(x.key, t[i].key)
    ensures Ordered(t[..i] + [x] + t[i..])
  {
    forall k | i <= k < |t| ensures !Less(t[k].key, x.key) {
      Trichotomy(t[k].key, x.key);
      if k > i {
        LessTransitive(x.key, t[i].key, t[k].key);
      }
    }
    var u := t[..i] + [x] + t[i..];
    assert forall k :: 0 <= k < i ==> u[k] == t[k];
    assert forall k :: i < k < |u| ==> u[k] == t[k - 1];
  }

  /// ## Grouping

  // One call of the reduce function.
  datatype Call = Call(key: string, values: seq<string>)

  function Values(s: seq<KeyValue>): (v: seq<string>)
    ensures |v| == |s| && forall i :: 0 <= i < |s| ==> v[i] == s[i].value
  {
    if s == [] then [] else [s[0].value] + Values(s[1..])
  }

  // How far the run of the first key reaches.
  function RunLength(s: seq<KeyValue>): (n: nat)
    requires s != []
    ensures 1 <= n <= |s| && (forall i :: 0 <= i < n ==> s[i].key == s[0].key)
    ensures n < |s| ==> s[n].key != s[0].key
  {
    if |s| == 1 || s[1].key != s[0].key then 1 else 1 + RunLength(s[1..])
  }

  function Calls(s: seq<KeyValue>): seq<Call> {
    if s == [] then []
    else
      var n := RunLength(s);
      [Call(s[0].key, Values(s[..n]))] + Calls(s[n..])
  }

  function Line(key: string, output: string): string { key + " " + output + "\n" }

  function LineOf(reducef: (string, seq<string>) -> string): Call -> seq<string> {
    (c: Call) => [Line(c.key, reducef(c.key, c.values))]
  }

  // The lines written for a sorted list.
  function Lines(reducef: (string, seq<string>) -> string, s: seq<KeyValue>): seq<string> {
    Cat(LineOf(reducef), Calls(s))
  }

  lemma RunLengthIs(s: seq<KeyValue>, n: nat)
    requires 1 <= n <= |s| && (forall i :: 0 <= i < n ==> s[i].key == s[0].key)
    requires n < |s| ==> s[n].key != s[0].key
    ensures n == RunLength(s)
  {
  }

  // The grouping loop both programs share: i starts a run, j ends it, k collects.
  method ReduceSorted(reducef: (string, seq<string>) -> string, s: seq<KeyValue>) returns (lines: seq<string>)
    ensures lines == Lines(reducef, s)
  {
    lines := [];
    var i := 0;
    while i < |s|
      invariant 0 <= i <= |s|
      invariant lines + Lines(reducef, s[i..]) == Lines(reducef, s)
    {
      var j := i + 1;
      while j < |s| && s[j].key == s[i].key
        invariant i < j <= |s|
        invariant forall k :: i <= k < j ==> s[k].key == s[i].key
      {
        j := j + 1;
      }
      var values := Collect(s, i, j);
      var output := reducef(s[i].key, values);
      LinesStep(reducef, s, i, j);
      lines := lines + [Line(s[i].key, output)];
      i := j;
    }
    assert s[i..] == [];
  }

  method Collect(s: seq<KeyValue>, i: nat, j: nat) returns (values: seq<string>)
    requires i <= j <= |s|
    ensures values == Values(s[i..j])
  {
    values := [];
    for k := i to j
      invariant |values| == k - i && forall l :: 0 <= l < k - i ==> values[l] == s[i + l].value
    {
      values := values + [s[k].value];
    }
  }

  lemma LinesStep(reducef: (string, seq<string>) -> string, s: seq<KeyValue>, i: nat, j: nat)
    requires i < j <= |s| && (forall k :: i <= k < j ==> s[k].key == s[i].key)
    requires j < |s| ==> s[j].key != s[i].key
    ensures Lines(reducef, s[i..]) == [Line(s[i].key, reducef(s[i].key, Values(s[i..j])))] + Lines(reducef, s[j..])
  {
    var rest := s[i..];
    RunLengthIs(rest, j - i);
    assert rest[..j - i] == s[i..j] && rest[j - i..] == s[j..];
    assert Calls(rest) == [Call(s[i].key, Values(s[i..j]))] + Calls(s[j..]);
    assert Calls(rest)[1..] == Calls(s[j..]);
  }

  /// ## What the output should be

  function ValueFor(k: string): KeyValue -> seq<string> {
    (kv: KeyValue) => if kv.key == k then [kv.value] else []
  }

  // The values a key has anywhere in the input.
  function ValuesFor(k: string, s: seq<KeyValue>): seq<string> { Cat(ValueFor(k), s) }

  ghost predicate Mentions(s: seq<KeyValue>, k: string) {
    exists i :: 0 <= i < |s| && s[i].key == k
  }

  lemma MentionsSnoc(s: seq<KeyValue>, kv: KeyValue, k: string)
    ensures Mentions(s + [kv], k) <==> Mentions(s, k) || k == kv.key
  {
    if Mentions(s, k) {
      var i :| 0 <= i < |s| && s[i].key == k;
      assert (s + [kv])[i].key == k;
    }
    if k == kv.key {
      assert (s + [kv])[|s|].key == k;
    }
  }

  ghost function DistinctKeys(s: seq<KeyValue>): (keys: seq<string>)
    ensures forall k :: k in keys <==> Mentions(s, k)
    ensures NoRepeats(keys)
  {
    if s == [] then []
    else
      var n := |s| - 1;
      var keys := DistinctKeys(s[..n]);
      assert forall k :: Mentions(s, k) <==> Mentions(s[..n], k) || k == s[n].key by {
        assert s == s[..n] + [s[n]];
        forall k { MentionsSnoc(s[..n], s[n], k); }
      }
      if s[n].key in keys then keys else keys + [s[n].key]
  }

  function ResultFor(reducef: (string, seq<string>) -> string, s: seq<KeyValue>): string -> seq<string> {
    (k: string) => [Line(k, reducef(k, ValuesFor(k, s)))]
  }

  // One line per distinct key, reduced over all its values: neither sorted nor bucketed.
  ghost function Expected(reducef: (string, seq<string>) -> string, s: seq<KeyValue>): seq<string> {
    Cat(ResultFor(reducef, s), DistinctKeys(s))
  }

  // A reduce function that does not look at the order of its values.
  ghost predicate OrderFree(reducef: (string, seq<string>) -> string) {
    forall k, vs, ws {:trigger reducef(k, vs), reducef(k, ws)} ::
      multiset(vs) == multiset(ws) ==> reducef(k, vs) == reducef(k, ws)
  }

  /// ## Grouping a sorted list calls reduce once per key

  function KeysOf(calls: seq<Call>): (keys: seq<string>)
    ensures |keys| == |calls| && forall i :: 0 <= i < |calls| ==> keys[i] == calls[i].key
  {
    if calls == [] then [] else [calls[0].key] + KeysOf(calls[1..])
  }

  lemma {:induction false} ValuesOfRun(k: string, s: seq<KeyValue>)
    requires forall i :: 0 <= i < |s| ==> s[i].key == k
    ensures ValuesFor(k, s) == Values(s)
  {
    if s != [] {
      ValuesOfRun(k, s[1..]);
    }
  }

  lemma {:induction false} NoValues(k: string, s: seq<KeyValue>)
    requires forall i :: 0 <= i < |s| ==> s[i].key != k
    ensures ValuesFor(k, s) == []
  {
    if s != [] {
      NoValues(k, s[1..]);
    }
  }

  // In an ordered list the first key does not come back after its run.
  lemma RunIsAll(s: seq<KeyValue>, n: nat, i: nat)
    requires Ordered(s) && 0 < n <= i < |s| && s[n].key != s[0].key
    ensures s[i].key != s[0].key
  {
    if n < i {
      NotBack(s[0].key, s[n].key, s[i].key);
    }
  }

  lemma NotBack(a: string, b: string, c: string)
    requires !Less(b, a) && !Less(c, b) && a != b
    ensures c != a
  {
    Trichotomy(a, b);
  }

  // Reduce is called exactly once for each distinct key, with exactly that key's values.
  lemma {:induction false} OneCallPerKey(s: seq<KeyValue>)
    requires Ordered(s)
    ensures NoRepeats(KeysOf(Calls(s)))
    ensures forall k :: k in KeysOf(Calls(s)) <==> k in DistinctKeys(s)
    ensures forall c :: c in Calls(s) ==> c.values == ValuesFor(c.key, s)
    decreases |s|
  {
    if s != [] {
      var n := RunLength(s);
      OneCallPerKey(s[n..]);
      forall i | 0 <= i < |s| - n ensures s[n..][i].key != s[0].key {
        RunIsAll(s, n, n + i);
      }
      AddRun(s, n, Calls(s[n..]));
      assert Calls(s) == [Call(s[0].key, Values(s[..n]))] + Calls(s[n..]);
    }
  }

  lemma AddRun(s: seq<KeyValue>, n: nat, calls: seq<Call>)
    requires 1 <= n <= |s| && forall i :: 0 <= i < n ==> s[i].key == s[0].key
    requires forall i :: 0 <= i < |s| - n ==> s[n..][i].key != s[0].key
    requires NoRepeats(KeysOf(calls))
    requires forall k :: k in KeysOf(calls) <==> k in DistinctKeys(s[n..])
    requires forall c :: c in calls ==> c.values == ValuesFor(c.key, s[n..])
    ensures var all := [Call(s[0].key, Values(s[..n]))] + calls;
            && NoRepeats(KeysOf(all))
            && (forall k :: k in KeysOf(all) <==> k in DistinctKeys(s))
            && (forall c :: c in all ==> c.values == ValuesFor(c.key, s))
  {
    var c0 := Call(s[0].key, Values(s[..n]));
    RunKeys(s, n, KeysOf(calls));
    assert KeysOf([c0] + calls) == [s[0].key] + KeysOf(calls);
    ValuesFirst(s, n);
    forall c | c in calls ensures c.values == ValuesFor(c.key, s) {
      var i :| 0 <= i < |calls| && calls[i] == c;
      assert KeysOf(calls)[i] == c.key;
      assert c.key in KeysOf(calls);
      ValuesApart(c.key, s, n);
    }
  }

  lemma RunKeys(s: seq<KeyValue>, n: nat, keys: seq<string>)
    requires 1 <= n <= |s| && forall i :: 0 <= i < n ==> s[i].key == s[0].key
    requires forall i :: 0 <= i < |s| - n ==> s[n..][i].key != s[0].key
    requires NoRepeats(keys) && forall k :: k in keys <==> k in DistinctKeys(s[n..])
    ensures s[0].key !in keys && NoRepeats([s[0].key] + keys)
    ensures forall k :: k in [s[0].key] + keys <==> k in DistinctKeys(s)
  {
    SplitKeys(s, n);
    assert Mentions(s[..n], s[0].key) by { assert s[..n][0].key == s[0].key; }
    assert !Mentions(s[n..], s[0].key);
    forall k ensures Mentions(s[..n], k) ==> k == s[0].key {
      if i :| 0 <= i < n && s[..n][i].key == k {
        assert s[i].key == s[0].key;
      }
    }
  }

  lemma ValuesApart(k: string, s: seq<KeyValue>, n: nat)
    requires n <= |s| && forall i :: 0 <= i < n ==> s[i].key != k
    ensures ValuesFor(k, s) == ValuesFor(k, s[n..])
  {
    CatAppend(ValueFor(k), s[..n], s[n..]);
    assert s == s[..n] + s[n..];
    NoValues(k, s[..n]);
  }

  lemma ValuesFirst(s: seq<KeyValue>, n: nat)
    requires 1 <= n <= |s| && forall i :: 0 <= i < n ==> s[i].key == s[0].key
    requires forall i :: 0 <= i < |s| - n ==> s[n..][i].key != s[0].key
    ensures ValuesFor(s[0].key, s) == Values(s[..n])
  {
    CatAppend(ValueFor(s[0].key), s[..n], s[n..]);
    assert s == s[..n] + s[n..];
    ValuesOfRun(s[0].key, s[..n]);
    NoValues(s[0].key, s[n..]);
  }

  lemma SplitKeys(s: seq<KeyValue>, n: nat)
    requires n <= |s|
    ensures forall k :: k in DistinctKeys(s) <==> k in DistinctKeys(s[..n]) || k in DistinctKeys(s[n..])
  {
    forall k ensures k in DistinctKeys(s) <==> k in DistinctKeys(s[..n]) || k in DistinctKeys(s[n..]) {
      if i :| 0 <= i < |s| && s[i].key == k {
        if i < n { assert s[..n][i].key == k; } else { assert s[n..][i - n].key == k; }
      }
      if i :| 0 <= i < n && s[..n][i].key == k { assert s[i].key == k; }
      if i :| 0 <= i < |s| - n && s[n..][i].key == k { assert s[n + i].key == k; }
    }
  }

  lemma SameKeys(s: seq<KeyValue>, t: seq<KeyValue>)
    requires multiset(s) == multiset(t)
    ensures forall k :: k in DistinctKeys(s) <==> k in DistinctKeys(t)
  {
    assert forall kv :: kv in s <==> kv in multiset(s);
    assert forall kv :: kv in t <==> kv in multiset(t);
    forall k ensures k in DistinctKeys(s) <==> k in DistinctKeys(t) {
      if i :| 0 <= i < |s| && s[i].key == k { assert s[i] in t; }
      if i :| 0 <= i < |t| && t[i].key == k { assert t[i] in s; }
    }
  }

  lemma {:induction false} LinesByKey(reducef: (string, seq<string>) -> string, calls: seq<Call>,
                                      result: string -> seq<string>)
    requires forall c :: c in calls ==> LineOf(reducef)(c) == result(c.key)
    ensures Cat(LineOf(reducef), calls) == Cat(result, KeysOf(calls))
  {
    if calls != [] {
      assert calls[0] in calls && forall c :: c in calls[1..] ==> c in calls;
      assert KeysOf(calls)[1..] == KeysOf(calls[1..]);
      LinesByKey(reducef, calls[1..], result);
    }
  }

  // Sort, group, reduce: whatever order the sort leaves equal keys in, the lines are those
  // expected of the unsorted input.
  lemma SortedRunLines(reducef: (string, seq<string>) -> string, s: seq<KeyValue>, t: seq<KeyValue>)
    requires OrderFree(reducef) && Sorts(s, t)
    ensures multiset(Lines(reducef, t)) == multiset(Expected(reducef, s))
  {
    OneCallPerKey(t);
    SameKeys(s, t);
    var calls := Calls(t);
    forall c | c in calls ensures LineOf(reducef)(c) == ResultFor(reducef, s)(c.key) {
      CatPermutes(ValueFor(c.key), s, t);
      assert reducef(c.key, c.values) == reducef(c.key, ValuesFor(c.key, s));
    }
    LinesByKey(reducef, calls, ResultFor(reducef, s));
    SameBag(KeysOf(calls), DistinctKeys(s));
    CatPermutes(ResultFor(reducef, s), KeysOf(calls), DistinctKeys(s));
  }

  /// ## Buckets

  function ToBucket(hash: string -> nat, n: nat, r: nat): KeyValue -> seq<KeyValue>
    requires n > 0
  {
    (kv: KeyValue) => if hash(kv.key) % n == r then [kv] else []
  }

  // The pairs whose key hashes to bucket r, in order.
  function InBucket(hash: string -> nat, n: nat, r: nat, s: seq<KeyValue>): seq<KeyValue>
    requires n > 0
  {
    Cat(ToBucket(hash, n, r), s)
  }

  // A map task's output files: one pass over the pairs, each appended to its bucket.
  method FillBuckets(hash: string -> nat, n: nat, kvs: seq<KeyValue>) returns (files: seq<seq<KeyValue>>)
    requires n > 0
    ensures |files| == n && forall r :: 0 <= r < n ==> files[r] == InBucket(hash, n, r, kvs)
  {
    files := [];
    for i := 0 to n
      invariant |files| == i && forall r :: 0 <= r < i ==> files[r] == []
    {
      files := files + [[]];
    }
    for i := 0 to |kvs|
      invariant |files| == n && forall r :: 0 <= r < n ==> files[r] == InBucket(hash, n, r, kvs[..i])
    {
      var kv := kvs[i];
      var bucket := hash(kv.key) % n;
      forall r | 0 <= r < n
        ensures InBucket(hash, n, r, kvs[..i + 1])
                == InBucket(hash, n, r, kvs[..i]) + if r == bucket then [kv] else []
      {
        assert kvs[..i + 1] == kvs[..i] + [kv];
        CatSnoc(ToBucket(hash, n, r), kvs[..i], kv);
      }
      files := files[bucket := files[bucket] + [kv]];
    }
    assert kvs[..|kvs|] == kvs;
  }

  function KeyToBucket(hash: string -> nat, n: nat, r: nat): string -> seq<string>
    requires n > 0
  {
    (k: string) => if hash(k) % n == r then [k] else []
  }

  function Upto(n: nat): (s: seq<nat>)
    ensures |s| == n && forall i :: 0 <= i < n ==> s[i] == i
  {
    if n == 0 then [] else Upto(n - 1) + [n - 1]
  }

  lemma {:induction false} BucketKeys(hash: string -> nat, n: nat, r: nat, s: seq<KeyValue>)
    requires n > 0
    ensures forall k :: k in DistinctKeys(InBucket(hash, n, r, s)) <==> k in DistinctKeys(s) && hash(k) % n == r
  {
    if s != [] {
      var m := |s| - 1;
      var kv := s[m];
      BucketKeys(hash, n, r, s[..m]);
      assert s == s[..m] + [kv];
      CatSnoc(ToBucket(hash, n, r), s[..m], kv);
      var b := InBucket(hash, n, r, s[..m]);
      assert InBucket(hash, n, r, s) == b + ToBucket(hash, n, r)(kv);
      assert b + [] == b;
      KeysSnoc(s[..m], kv);
      KeysSnoc(b, kv);
    }
  }

  lemma KeysSnoc(s: seq<KeyValue>, kv: KeyValue)
    ensures forall k :: k in DistinctKeys(s + [kv]) <==> k in DistinctKeys(s) || k == kv.key
  {
    forall k { MentionsSnoc(s, kv, k); }
  }

  // A key's values all land in its bucket, in order.
  lemma {:induction false} BucketValues(hash: string -> nat, n: nat, k: string, s: seq<KeyValue>)
    requires n > 0
    ensures ValuesFor(k, InBucket(hash, n, hash(k) % n, s)) == ValuesFor(k, s)
  {
    var r := hash(k) % n;
    if s != [] {
      BucketValues(hash, n, k, s[1..]);
      CatAppend(ValueFor(k), ToBucket(hash, n, r)(s[0]), InBucket(hash, n, r, s[1..]));
      assert ToBucket(hash, n, r)(s[0]) == [s[0]] ==>
          Cat(ValueFor(k), [s[0]]) == ValueFor(k)(s[0]) + Cat(ValueFor(k), []);
    }
  }

  // Bucketing a list and joining the buckets loses nothing and repeats nothing.
  lemma {:induction false} BucketsPartition(hash: string -> nat, n: nat, keys: seq<string>)
    requires n > 0
    ensures multiset(Cat((r: nat) => Cat(KeyToBucket(hash, n, r), keys), Upto(n))) == multiset(keys)
  {
    var f := (r: nat) => Cat(KeyToBucket(hash, n, r), keys);
    if keys == [] {
      AllEmpty(f, Upto(n));
    } else {
      var k, rest := keys[0], keys[1..];
      var g := (r: nat) => Cat(KeyToBucket(hash, n, r), rest);
      BucketsPartition(hash, n, rest);
      assert keys == [k] + rest;
      OneMore(g, f, n, hash(k) % n, k);
      CatSame(g, (r: nat) => Cat(KeyToBucket(hash, n, r), rest), Upto(n));
      CatSame(f, (r: nat) => Cat(KeyToBucket(hash, n, r), keys), Upto(n));
    }
  }

  lemma {:induction false} AllEmpty<T, U>(f: T -> seq<U>, s: seq<T>)
    requires forall x :: x in s ==> f(x) == []
    ensures Cat(f, s) == []
  {
    if s != [] {
      assert s[0] in s && forall x :: x in s[1..] ==> x in s;
      AllEmpty(f, s[1..]);
    }
  }

  lemma {:induction false} OneMore<U>(g: nat -> seq<U>, f: nat -> seq<U>, n: nat, b: nat, x: U)
    requires forall r: nat :: r < n ==> f(r) == if r == b then [x] + g(r) else g(r)
    ensures multiset(Cat(f, Upto(n))) == multiset(Cat(g, Upto(n))) + if b < n then multiset{x} else multiset{}
  {
    if n > 0 {
      var r: nat := n - 1;
      OneMore(g, f, r, b, x);
      CatSnoc<nat, U>(f, Upto(r), r);
      CatSnoc<nat, U>(g, Upto(r), r);
      assert multiset(f(r)) == multiset(g(r)) + if r == b then multiset{x} else multiset{};
      MoreAtEnd(Cat(f, Upto(r)), f(r), Cat(g, Upto(r)), g(r), r, b, x);
    }
  }

  lemma MoreAtEnd<U>(fs: seq<U>, f: seq<U>, gs: seq<U>, g: seq<U>, r: nat, b: nat, x: U)
    requires multiset(fs) == multiset(gs) + if b < r then multiset{x} else multiset{}
    requires multiset(f) == multiset(g) + if r == b then multiset{x} else multiset{}
    ensures multiset(fs + f) == multiset(gs + g) + if b < r + 1 then multiset{x} else multiset{}
  {
  }

  // Partition equivalence: the lines expected of the buckets, taken together, are those
  // expected of the whole input, for every hash function and every number of buckets.
  lemma PartitionExpected(reducef: (string, seq<string>) -> string, hash: string -> nat, n: nat, s: seq<KeyValue>)
    requires n > 0
    ensures multiset(Cat((r: nat) => Expected(reducef, InBucket(hash, n, r, s)), Upto(n)))
            == multiset(Expected(reducef, s))
  {
    var result := ResultFor(reducef, s);
    var keys := DistinctKeys(s);
    var f := (r: nat) => Expected(reducef, InBucket(hash, n, r, s));
    var g := (r: nat) => Cat(result, Cat(KeyToBucket(hash, n, r), keys));
    var h := (r: nat) => Cat(KeyToBucket(hash, n, r), keys);
    forall r | r in Upto(n) ensures multiset(f(r)) == multiset(g(r)) {
      BucketExpected(reducef, hash, n, r, s);
    }
    CatSameBags(f, g, Upto(n));
    CatCat(result, h, g, Upto(n));
    BucketsPartition(hash, n, keys);
    CatSame(h, (r: nat) => Cat(KeyToBucket(hash, n, r), keys), Upto(n));
    CatPermutes(result, Cat(h, Upto(n)), keys);
    CatSame(f, (r: nat) => Expected(reducef, InBucket(hash, n, r, s)), Upto(n));
  }

  lemma {:induction false} CatCat<T, U, V>(f: U -> seq<V>, h: T -> seq<U>, g: T -> seq<V>, s: seq<T>)
    requires forall x :: x in s ==> g(x) == Cat(f, h(x))
    ensures Cat(g, s) == Cat(f, Cat(h, s))
  {
    if s != [] {
      assert s[0] in s && forall x :: x in s[1..] ==> x in s;
      CatCat(f, h, g, s[1..]);
      CatAppend(f, h(s[0]), Cat(h, s[1..]));
    }
  }

  lemma BucketExpected(reducef: (string, seq<string>) -> string, hash: string -> nat, n: nat, r: nat,
                       s: seq<KeyValue>)
    requires n > 0
    ensures multiset(Expected(reducef, InBucket(hash, n, r, s)))
            == multiset(Cat(ResultFor(reducef, s), Cat(KeyToBucket(hash, n, r), DistinctKeys(s))))
  {
    var bucket := InBucket(hash, n, r, s);
    var mine := Cat(KeyToBucket(hash, n, r), DistinctKeys(s));
    BucketKeys(hash, n, r, s);
    KeysKept(hash, n, r, DistinctKeys(s));
    forall k | k in DistinctKeys(bucket) ensures ResultFor(reducef, bucket)(k) == ResultFor(reducef, s)(k) {
      BucketValues(hash, n, k, s);
    }
    CatSame(ResultFor(reducef, bucket), ResultFor(reducef, s), DistinctKeys(bucket));
    SameBag(DistinctKeys(bucket), mine);
    CatPermutes(ResultFor(reducef, s), DistinctKeys(bucket), mine);
  }

  lemma {:induction false} KeysKept(hash: string -> nat, n: nat, r: nat, keys: seq<string>)
    requires n > 0 && NoRepeats(keys)
    ensures NoRepeats(Cat(KeyToBucket(hash, n, r), keys))
    ensures forall k :: k in Cat(KeyToBucket(hash, n, r), keys) <==> k in keys && hash(k) % n == r
  {
    if keys != [] {
      KeysKept(hash, n, r, keys[1..]);
      assert keys == [keys[0]] + keys[1..];
      assert keys[0] !in keys[1..];
    }
  }
}
