/** The data path of MapReduce: hash bucketing of map output, sort and group in a reduce task,
    and the sequential program it has to agree with. */
module MrTransform {
  import opened Strings
  import opened Tallies

  datatype KeyValue = KeyValue(key: string, value: string)

  type ReduceF = (string, seq<string>) -> string

  /** A reduce function that does not look at the order of the values; the sort is not stable. */
  ghost predicate OrderBlind(reducef: ReduceF) {
    forall k, vs, ws :: multiset(vs) == multiset(ws) ==> reducef(k, vs) == reducef(k, ws)
  }

  /** One line of output, as printed with format "%v %v\n". */
  function Format(key: string, output: string): string {
    key + " " + output + "\n"
  }

  /** Where the first space of a line is, or its length. */
  function FirstSpace(line: string): (i: nat)
    ensures i <= |line| && (i < |line| ==> line[i] == ' ') && ' ' !in line[..i]
  {
    if line == [] || line[0] == ' ' then 0
    else
      var i := FirstSpace(line[1..]);
      assert line[..i + 1] == [line[0]] + line[1..][..i];
      i + 1
  }

  /** A line can be read back: the key is what stands before the first space, the output what follows up to the end. */
  lemma LineReadsBack(key: string, output: string)
    requires ' ' !in key
    ensures var line := Format(key, output); var i := FirstSpace(line);
            i < |line| - 1 && line[..i] == key && line[i + 1..|line| - 1] == output && line[|line| - 1] == '\n'
  {
    var line := Format(key, output);
    var i := FirstSpace(line);
    assert line[..|key|] == key && line[|key|] == ' ';
    assert forall j :: 0 <= j < |key| ==> line[j] == key[j] && key[j] in key;
    assert forall j :: 0 <= j < i ==> line[j] == line[..i][j] && line[..i][j] in line[..i];
    assert i == |key|;
  }

  // --- Bucketing ---

  /** The pairs of a map output that belong to reduce task r, in their order. */
  function BucketOf(kva: seq<KeyValue>, hash: string -> nat, n: nat, r: nat): seq<KeyValue>
    requires n > 0
    decreases |kva|
  {
    if kva == [] then []
    else
      var kv := kva[|kva| - 1];
      BucketOf(kva[..|kva| - 1], hash, n, r) + if hash(kv.key) % n == r then [kv] else []
  }

  lemma BucketOfAppend(kva: seq<KeyValue>, kv: KeyValue, hash: string -> nat, n: nat, r: nat)
    requires n > 0
    ensures BucketOf(kva + [kv], hash, n, r) ==
            BucketOf(kva, hash, n, r) + if hash(kv.key) % n == r then [kv] else []
  {
    assert (kva + [kv])[..|kva + [kv]| - 1] == kva;
  }

  /** The bucketing loop of doMap. */
  method Buckets(kva: seq<KeyValue>, hash: string -> nat, n: nat) returns (b: seq<seq<KeyValue>>)
    requires n > 0
    ensures |b| == n
    ensures forall r :: 0 <= r < n ==> b[r] == BucketOf(kva, hash, n, r)
  {
    var intermediate := new seq<KeyValue>[n](_ => []);
    for i := 0 to |kva|
      invariant forall r :: 0 <= r < n ==> intermediate[r] == BucketOf(kva[..i], hash, n, r)
    {
      var h := hash(kva[i].key) % n;
      assert kva[..i + 1] == kva[..i] + [kva[i]];
      forall r | 0 <= r < n
        ensures BucketOf(kva[..i + 1], hash, n, r) ==
                BucketOf(kva[..i], hash, n, r) + if h == r then [kva[i]] else []
      {
        BucketOfAppend(kva[..i], kva[i], hash, n, r);
      }
      intermediate[h] := intermediate[h] + [kva[i]];
    }
    assert kva[..|kva|] == kva;
    b := intermediate[..];
  }

  /** Every pair goes to the bucket its key hashes to, as often as it occurs, and to no other. */
  lemma {:induction false} BucketCounts(kva: seq<KeyValue>, hash: string -> nat, n: nat, r: nat, kv: KeyValue)
    requires n > 0
    ensures multiset(BucketOf(kva, hash, n, r))[kv] == if hash(kv.key) % n == r then multiset(kva)[kv] else 0
    decreases |kva|
  {
    if kva != [] {
      var last := kva[|kva| - 1];
      BucketCounts(kva[..|kva| - 1], hash, n, r, kv);
      assert kva == kva[..|kva| - 1] + [last];
    }
  }

  // --- Sort and group ---

  ghost predicate Sorted(a: seq<KeyValue>) {
    forall i, j :: 0 <= i < j < |a| ==> Leq(a[i].key, a[j].key)
  }

  /** What sort.Sort(ByKey(a)) may leave: any ordering of a by key. */
  ghost predicate SortedFrom(sorted: seq<KeyValue>, a: seq<KeyValue>) {
    Sorted(sorted) && multiset(sorted) == multiset(a)
  }

  /** The values stored under a key, in their order. */
  ghost function ValuesOf(a: seq<KeyValue>, key: string): seq<string>
    decreases |a|
  {
    if a == [] then []
    else ValuesOf(a[..|a| - 1], key) + if a[|a| - 1].key == key then [a[|a| - 1].value] else []
  }

  ghost predicate HasKey(a: seq<KeyValue>, key: string) {
    exists i :: 0 <= i < |a| && a[i].key == key
  }

  lemma ValuesOfAppend(a: seq<KeyValue>, kv: KeyValue, key: string)
    ensures ValuesOf(a + [kv], key) == ValuesOf(a, key) + if kv.key == key then [kv.value] else []
  {
    assert (a + [kv])[..|a + [kv]| - 1] == a;
  }

  lemma {:induction false} ValuesOfAbsent(a: seq<KeyValue>, key: string)
    requires !HasKey(a, key)
    ensures ValuesOf(a, key) == []
    decreases |a|
  {
    if a != [] {
      assert a[|a| - 1].key != key;
      ValuesOfAbsent(a[..|a| - 1], key);
    }
  }

  lemma {:induction false} ValuesCount(a: seq<KeyValue>, key: string, value: string)
    ensures multiset(ValuesOf(a, key))[value] == multiset(a)[KeyValue(key, value)]
    decreases |a|
  {
    if a != [] {
      ValuesCount(a[..|a| - 1], key, value);
      assert a == a[..|a| - 1] + [a[|a| - 1]];
    }
  }

  /** The line a key gets when its values are those in a. */
  ghost function LineOf(a: seq<KeyValue>, reducef: ReduceF): string -> string {
    (key: string) => Format(key, reducef(key, ValuesOf(a, key)))
  }

  /** The lines are one per distinct key of a, in key order, each from all values of its key. */
  ghost predicate IsGrouping(a: seq<KeyValue>, reducef: ReduceF, keys: seq<string>, lines: seq<string>) {
    && Ascending(keys)
    && (forall k :: k in keys <==> HasKey(a, k))
    && lines == Image(keys, LineOf(a, reducef))
  }

  ghost predicate GroupsTo(a: seq<KeyValue>, reducef: ReduceF, lines: seq<string>) {
    exists keys :: IsGrouping(a, reducef, keys, lines)
  }

  lemma SmallerBefore(a: seq<KeyValue>, i: nat, k: nat)
    requires Sorted(a) && k < i < |a| && a[i - 1].key != a[i].key
    ensures Less(a[k].key, a[i].key) && a[k].key != a[i].key
  {
    LeqTotal(a[i - 1].key, a[i].key);
    LeqTotal(a[i].key, a[i].key);
    if Leq(a[i].key, a[k].key) {
      if k < i - 1 {
        LeqTransitive(a[i].key, a[k].key, a[i - 1].key);
      }
    }
  }

  lemma LargerAfter(a: seq<KeyValue>, i: nat, j: nat, k: nat)
    requires Sorted(a) && i < j <= k < |a| && a[j].key != a[i].key
    ensures a[k].key != a[i].key
  {
    LeqTotal(a[i].key, a[j].key);
  }

  /** A run of one key in a sorted sequence: the keys before it are smaller, and its values are
      all the values of the key. */
  lemma RunOfKey(a: seq<KeyValue>, i: nat, j: nat, values: seq<string>)
    requires Sorted(a) && i < j <= |a|
    requires forall k :: i <= k < j ==> a[k].key == a[i].key
    requires j == |a| || a[j].key != a[i].key
    requires i == 0 || a[i - 1].key != a[i].key
    requires |values| == j - i && forall k :: 0 <= k < |values| ==> values[k] == a[i + k].value
    ensures ValuesOf(a, a[i].key) == values
    ensures forall k :: 0 <= k < i ==> Less(a[k].key, a[i].key)
  {
    forall k | 0 <= k < i ensures Less(a[k].key, a[i].key) && a[k].key != a[i].key {
      SmallerBefore(a, i, k);
    }
    forall k | j <= k < |a| ensures a[k].key != a[i].key {
      LargerAfter(a, i, j, k);
    }
    ValuesOfAbsent(a[..i], a[i].key);
    ValuesOfRun(a, i, j, values);
    ValuesOfTail(a, j, a[i].key);
  }

  lemma {:induction false} ValuesOfRun(a: seq<KeyValue>, i: nat, j: nat, values: seq<string>)
    requires i < |a| && i <= j <= |a| && ValuesOf(a[..i], a[i].key) == []
    requires forall k :: i <= k < j ==> a[k].key == a[i].key
    requires |values| == j - i && forall k :: 0 <= k < |values| ==> values[k] == a[i + k].value
    ensures ValuesOf(a[..j], a[i].key) == values
    decreases j
  {
    if i < j {
      ValuesOfRun(a, i, j - 1, values[..|values| - 1]);
      assert a[..j] == a[..j - 1] + [a[j - 1]];
      ValuesOfAppend(a[..j - 1], a[j - 1], a[i].key);
      assert values == values[..|values| - 1] + [a[j - 1].value];
    }
  }

  lemma {:induction false} ValuesOfTail(a: seq<KeyValue>, j: nat, key: string)
    requires j <= |a| && forall k :: j <= k < |a| ==> a[k].key != key
    ensures ValuesOf(a, key) == ValuesOf(a[..j], key)
    decreases |a|
  {
    if j < |a| {
      ValuesOfTail(a[..|a| - 1], j, key);
      assert a[..|a| - 1][..j] == a[..j];
    } else {
      assert a[..j] == a;
    }
  }

  /** The group loop shared by doReduce and the sequential program. */
  method Group(a: seq<KeyValue>, reducef: ReduceF) returns (lines: seq<string>)
    requires Sorted(a)
    ensures GroupsTo(a, reducef, lines)
  {
    lines := [];
    ghost var keys: seq<string> := [];
    var i := 0;
    while i < |a|
      invariant 0 <= i <= |a|
      invariant i == 0 || i == |a| || a[i - 1].key != a[i].key
      invariant Ascending(keys)
      invariant forall k :: k in keys <==> HasKey(a[..i], k)
      invariant lines == Image(keys, LineOf(a, reducef))
    {
      var j := i + 1;
      while j < |a| && a[j].key == a[i].key
        invariant i < j <= |a|
        invariant forall k :: i <= k < j ==> a[k].key == a[i].key
      {
        j := j + 1;
      }
      var values: seq<string> := [];
      for k := i to j
        invariant |values| == k - i
        invariant forall m :: 0 <= m < |values| ==> values[m] == a[i + m].value
      {
        values := values + [a[k].value];
      }
      RunOfKey(a, i, j, values);
      GroupGrows(a, i, j, keys);
      var output := reducef(a[i].key, values);
      ImageConcat(keys, [a[i].key], LineOf(a, reducef));
      lines := lines + [Format(a[i].key, output)];
      keys := keys + [a[i].key];
      i := j;
    }
    assert a[..|a|] == a;
    assert IsGrouping(a, reducef, keys, lines);
  }

  lemma GroupGrows(a: seq<KeyValue>, i: nat, j: nat, keys: seq<string>)
    requires i < j <= |a| && Ascending(keys)
    requires forall k :: k in keys <==> HasKey(a[..i], k)
    requires forall k :: i <= k < j ==> a[k].key == a[i].key
    requires forall k :: 0 <= k < i ==> Less(a[k].key, a[i].key)
    ensures Ascending(keys + [a[i].key])
    ensures forall k :: k in keys + [a[i].key] <==> HasKey(a[..j], k)
  {
    forall m | 0 <= m < |keys| ensures Less(keys[m], a[i].key) {
      assert keys[m] in keys;
      var p :| 0 <= p < i && a[..i][p].key == keys[m];
      assert a[p].key == keys[m];
    }
    forall k ensures k in keys + [a[i].key] <==> HasKey(a[..j], k) {
      if k in keys {
        var p :| 0 <= p < i && a[..i][p].key == k;
        assert a[..j][p].key == k;
      }
      if HasKey(a[..j], k) {
        var p :| 0 <= p < j && a[..j][p].key == k;
        if p < i { assert a[..i][p].key == k; }
      }
      if k == a[i].key { assert a[..j][i].key == k; }
    }
  }

  // --- Both programs ---

  ghost function Flatten<T>(parts: seq<seq<T>>): seq<T>
    decreases |parts|
  {
    if parts == [] then [] else Flatten(parts[..|parts| - 1]) + parts[|parts| - 1]
  }

  lemma FlattenAppend<T>(parts: seq<seq<T>>, p: seq<T>)
    ensures Flatten(parts + [p]) == Flatten(parts) + p
  {
    assert (parts + [p])[..|parts + [p]| - 1] == parts;
  }

  /** The sequential program: collect all map outputs, sort with any sort, group. */
  method Sequential(outputs: seq<seq<KeyValue>>, reducef: ReduceF, sort: seq<KeyValue> -> seq<KeyValue>)
      returns (lines: seq<string>)
    requires forall a :: SortedFrom(sort(a), a)
    ensures SequentialOutput(outputs, reducef, lines)
  {
    var intermediate: seq<KeyValue> := [];
    for i := 0 to |outputs|
      invariant intermediate == Flatten(outputs[..i])
    {
      assert outputs[..i + 1] == outputs[..i] + [outputs[i]];
      FlattenAppend(outputs[..i], outputs[i]);
      intermediate := intermediate + outputs[i];
    }
    assert outputs[..|outputs|] == outputs;
    lines := Group(sort(intermediate), reducef);
  }

  /** The files reduce task r reads, one per map task. */
  ghost function BucketFiles(outputs: seq<seq<KeyValue>>, hash: string -> nat, n: nat, r: nat): seq<seq<KeyValue>>
    requires n > 0
  {
    seq(|outputs|, i requires 0 <= i < |outputs| => BucketOf(outputs[i], hash, n, r))
  }

  lemma {:induction false} FlattenBuckets(outputs: seq<seq<KeyValue>>, hash: string -> nat, n: nat, r: nat,
                                          kv: KeyValue)
    requires n > 0
    ensures multiset(Flatten(BucketFiles(outputs, hash, n, r)))[kv] ==
            if hash(kv.key) % n == r then multiset(Flatten(outputs))[kv] else 0
    decreases |outputs|
  {
    if outputs != [] {
      var init, last := outputs[..|outputs| - 1], outputs[|outputs| - 1];
      var files := BucketFiles(outputs, hash, n, r);
      FlattenBuckets(init, hash, n, r, kv);
      BucketCounts(last, hash, n, r, kv);
      assert files[..|files| - 1] == BucketFiles(init, hash, n, r);
    }
  }

  /** A line depends only on which pairs there are under its key. */
  lemma SameLine(a: seq<KeyValue>, b: seq<KeyValue>, reducef: ReduceF, key: string)
    requires OrderBlind(reducef)
    requires forall v :: multiset(a)[KeyValue(key, v)] == multiset(b)[KeyValue(key, v)]
    ensures LineOf(a, reducef)(key) == LineOf(b, reducef)(key)
  {
    forall v ensures multiset(ValuesOf(a, key))[v] == multiset(ValuesOf(b, key))[v] {
      ValuesCount(a, key, v);
      ValuesCount(b, key, v);
    }
    assert multiset(ValuesOf(a, key)) == multiset(ValuesOf(b, key));
  }

  lemma HasKeyCount(a: seq<KeyValue>, key: string)
    ensures HasKey(a, key) <==> exists v :: multiset(a)[KeyValue(key, v)] > 0
  {
    if HasKey(a, key) {
      var i :| 0 <= i < |a| && a[i].key == key;
      assert a[i] in multiset(a) && a[i] == KeyValue(key, a[i].value);
    }
    if exists v :: multiset(a)[KeyValue(key, v)] > 0 {
      var v :| multiset(a)[KeyValue(key, v)] > 0;
      assert KeyValue(key, v) in a;
    }
  }

  /** What reduce task r may write: the grouping of any sort of its bucket. */
  ghost predicate ReduceOutput(outputs: seq<seq<KeyValue>>, hash: string -> nat, n: nat, r: nat, reducef: ReduceF,
                               lines: seq<string>)
    requires n > 0
  {
    exists sorted :: SortedFrom(sorted, Flatten(BucketFiles(outputs, hash, n, r))) && GroupsTo(sorted, reducef, lines)
  }

  /** What the sequential program may print. */
  ghost predicate SequentialOutput(outputs: seq<seq<KeyValue>>, reducef: ReduceF, lines: seq<string>) {
    exists sorted :: SortedFrom(sorted, Flatten(outputs)) && GroupsTo(sorted, reducef, lines)
  }

  /** The lines of a part that holds exactly the pairs of some keys are the lines those keys get from
      the whole input. */
  lemma PartLines(part: seq<KeyValue>, all: seq<KeyValue>, hash: string -> nat, n: nat, r: nat, reducef: ReduceF,
                  keys: seq<string>, lines: seq<string>)
    requires n > 0 && OrderBlind(reducef) && IsGrouping(part, reducef, keys, lines)
    requires forall kv: KeyValue :: multiset(part)[kv] == if hash(kv.key) % n == r then multiset(all)[kv] else 0
    ensures lines == Image(keys, LineOf(all, reducef))
    ensures forall k :: k in keys <==> HasKey(all, k) && hash(k) % n == r
  {
    forall k ensures k in keys <==> HasKey(all, k) && hash(k) % n == r {
      BucketHasKey(part, all, hash, n, r, k);
    }
    forall k | k in keys ensures LineOf(part, reducef)(k) == LineOf(all, reducef)(k) {
      SameLine(part, all, reducef, k);
    }
    ImageSame(keys, LineOf(part, reducef), LineOf(all, reducef));
  }

  /** A reduce task writes one line for each key of its bucket, with all the values the key has in
      the whole input. */
  lemma BucketLines(outputs: seq<seq<KeyValue>>, hash: string -> nat, n: nat, r: nat, reducef: ReduceF,
                    lines: seq<string>)
      returns (keys: seq<string>)
    requires n > 0 && OrderBlind(reducef) && ReduceOutput(outputs, hash, n, r, reducef, lines)
    ensures Ascending(keys) && lines == Image(keys, LineOf(Flatten(outputs), reducef))
    ensures forall k :: k in keys <==> HasKey(Flatten(outputs), k) && hash(k) % n == r
  {
    var sorted :| SortedFrom(sorted, Flatten(BucketFiles(outputs, hash, n, r))) && GroupsTo(sorted, reducef, lines);
    keys :| IsGrouping(sorted, reducef, keys, lines);
    forall kv: KeyValue
      ensures multiset(sorted)[kv] == if hash(kv.key) % n == r then multiset(Flatten(outputs))[kv] else 0
    {
      FlattenBuckets(outputs, hash, n, r, kv);
    }
    PartLines(sorted, Flatten(outputs), hash, n, r, reducef, keys, lines);
  }

  lemma BucketHasKey(part: seq<KeyValue>, all: seq<KeyValue>, hash: string -> nat, n: nat, r: nat, k: string)
    requires n > 0
    requires forall kv :: multiset(part)[kv] == if hash(kv.key) % n == r then multiset(all)[kv] else 0
    ensures HasKey(part, k) <==> HasKey(all, k) && hash(k) % n == r
  {
    HasKeyCount(part, k);
    HasKeyCount(all, k);
    forall v ensures multiset(part)[KeyValue(k, v)] == if hash(k) % n == r then multiset(all)[KeyValue(k, v)] else 0 {
    }
  }

  lemma SequentialLines(outputs: seq<seq<KeyValue>>, reducef: ReduceF, lines: seq<string>) returns (keys: seq<string>)
    requires OrderBlind(reducef) && SequentialOutput(outputs, reducef, lines)
    ensures Ascending(keys) && lines == Image(keys, LineOf(Flatten(outputs), reducef))
    ensures forall k :: k in keys <==> HasKey(Flatten(outputs), k)
  {
    var all := Flatten(outputs);
    var sorted :| SortedFrom(sorted, all) && GroupsTo(sorted, reducef, lines);
    keys :| IsGrouping(sorted, reducef, keys, lines);
    forall k ensures k in keys <==> HasKey(all, k) {
      HasKeyCount(sorted, k);
      HasKeyCount(all, k);
    }
    forall k | k in keys ensures LineOf(sorted, reducef)(k) == LineOf(all, reducef)(k) {
      SameLine(sorted, all, reducef, k);
    }
    ImageSame(keys, LineOf(sorted, reducef), LineOf(all, reducef));
  }

  lemma {:induction false} AscendingOnce(keys: seq<string>, k: string)
    requires Ascending(keys)
    ensures multiset(keys)[k] == if k in keys then 1 else 0
    decreases |keys|
  {
    if keys != [] {
      var init, last := keys[..|keys| - 1], keys[|keys| - 1];
      AscendingOnce(init, k);
      assert keys == init + [last];
      LeqTotal(last, last);
      forall i | 0 <= i < |init| ensures init[i] != last {
        assert Less(keys[i], last);
      }
    }
  }

  /** Shuffling refines the sequential program: the lines of the reduce tasks, put together, are
      a rearrangement of the lines the sequential program prints. */
  lemma ShuffleRefinesSequential(outputs: seq<seq<KeyValue>>, hash: string -> nat, n: nat, reducef: ReduceF,
                                 outs: seq<seq<string>>, printed: seq<string>)
    requires n > 0 && |outs| == n && OrderBlind(reducef)
    requires forall r :: 0 <= r < n ==> ReduceOutput(outputs, hash, n, r, reducef, outs[r])
    requires SequentialOutput(outputs, reducef, printed)
    ensures multiset(Flatten(outs)) == multiset(printed)
  {
    var line := LineOf(Flatten(outputs), reducef);
    var all := SequentialLines(outputs, reducef, printed);
    var keys := CollectKeys(outputs, hash, n, reducef, outs, n);
    assert outs[..n] == outs;
    forall k ensures multiset(keys)[k] == multiset(all)[k] {
      AscendingOnce(all, k);
    }
    ImageMultiset(keys, all, line);
  }

  /** The keys handled by the first m reduce tasks. */
  lemma {:induction false} CollectKeys(outputs: seq<seq<KeyValue>>, hash: string -> nat, n: nat, reducef: ReduceF,
                                       outs: seq<seq<string>>, m: nat) returns (keys: seq<string>)
    requires n > 0 && m <= n && |outs| == n && OrderBlind(reducef)
    requires forall r :: 0 <= r < n ==> ReduceOutput(outputs, hash, n, r, reducef, outs[r])
    ensures Flatten(outs[..m]) == Image(keys, LineOf(Flatten(outputs), reducef))
    ensures forall k :: multiset(keys)[k] == if HasKey(Flatten(outputs), k) && hash(k) % n < m then 1 else 0
    decreases m
  {
    if m == 0 {
      keys := [];
    } else {
      var line := LineOf(Flatten(outputs), reducef);
      var before := CollectKeys(outputs, hash, n, reducef, outs, m - 1);
      var mine := BucketLines(outputs, hash, n, m - 1, reducef, outs[m - 1]);
      keys := before + mine;
      assert outs[..m] == outs[..m - 1] + [outs[m - 1]];
      FlattenAppend(outs[..m - 1], outs[m - 1]);
      ImageConcat(before, mine, line);
      forall k ensures multiset(keys)[k] == if HasKey(Flatten(outputs), k) && hash(k) % n < m then 1 else 0 {
        AscendingOnce(mine, k);
        assert multiset(keys)[k] == multiset(before)[k] + multiset(mine)[k];
      }
    }
  }
}
