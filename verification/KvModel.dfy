/** The sequential specification of one key, what it means for a concurrent history to be
    linearizable against it, and why checking each key on its own is enough. */
module KvModel {
  import opened KvServer
  import opened Strings

  /** op 0 is a get, op 1 a put. */
  datatype KvInput = KvInput(op: nat, key: string, value: string, version: nat)
  datatype KvOutput = KvOutput(value: string, version: nat, err: Err)
  datatype KvState = KvState(value: string, version: nat)
  datatype Operation = Operation(input: KvInput, output: KvOutput, call: int, ret: int)
  datatype Verdict = Verdict(ok: bool, next: KvState)

  const INIT := KvState("", 0)

  function Step(st: KvState, inp: KvInput, out: KvOutput): Verdict {
    if inp.op == 0 then
      Verdict(out.value == st.value, st)
    else if inp.op == 1 then
      if st.version == inp.version then
        Verdict(out.err == OK || out.err == ErrMaybe, KvState(inp.value, st.version + 1))
      else
        Verdict(out.err == ErrVersion || out.err == ErrMaybe, st)
    else
      Verdict(false, st)
  }

  /** Which outputs a specification accepts in a state. */
  type Spec = (KvState, KvInput, KvOutput) -> bool

  /** The specification the linearizability checker uses. */
  const MODEL: Spec := (st: KvState, inp: KvInput, out: KvOutput) => Step(st, inp, out).ok

  /** What the server documents: a get reports value and version, or ErrNoKey for an absent key;
      a put answers ErrNoKey exactly when it names a version for an absent key. */
  const EXACT: Spec := (st: KvState, inp: KvInput, out: KvOutput) =>
    if inp.op == 0 then
      out == KvOutput(st.value, st.version, if st.version == 0 then ErrNoKey else OK)
    else if inp.op == 1 then
      if st.version == inp.version then out.err == OK || out.err == ErrMaybe
      else if st.version == 0 then out.err == ErrNoKey
      else out.err == ErrVersion || out.err == ErrMaybe
    else false

  /** The documented behaviour of a call that was never resent: the answer is certain. */
  const CERTAIN: Spec := (st: KvState, inp: KvInput, out: KvOutput) =>
    EXACT(st, inp, out) && (inp.op == 1 ==> out.err != ErrMaybe)

  /** The state after an operation; it does not depend on the output. */
  function After(st: KvState, inp: KvInput): KvState {
    if inp.op == 1 && st.version == inp.version then KvState(inp.value, st.version + 1) else st
  }

  lemma StepMovesAsAfter(st: KvState, inp: KvInput, out: KvOutput)
    ensures Step(st, inp, out).next == After(st, inp)
    ensures MODEL(st, inp, out) <== EXACT(st, inp, out) && !(inp.op == 1 && out.err == ErrNoKey)
  {
  }

  /** What the checker's specification accepts, by the documented behaviour: of a Get any answer with the documented
      value, whatever version and error it reports; a Put's documented answers, but for an absent key that a version is
      named for, where ErrNoKey is documented, ErrVersion and ErrMaybe; and no other operation. */
  lemma StepAgainstDocumented(st: KvState, inp: KvInput, out: KvOutput)
    ensures inp.op == 0 ==>
              (MODEL(st, inp, out) <==> exists version, err :: EXACT(st, inp, KvOutput(out.value, version, err)))
    ensures inp.op == 1 && (st.version != 0 || inp.version == 0) ==> (MODEL(st, inp, out) <==> EXACT(st, inp, out))
    ensures inp.op == 1 && st.version == 0 && inp.version != 0 ==>
              (MODEL(st, inp, out) <==> out.err == ErrVersion || out.err == ErrMaybe)
    ensures inp.op > 1 ==> !MODEL(st, inp, out)
  {
    if inp.op == 0 && out.value == st.value {
      var err := if st.version == 0 then ErrNoKey else OK;
      assert EXACT(st, inp, KvOutput(out.value, st.version, err));
    }
  }

  /** Replaying one key's operations. */
  ghost predicate Accepts(spec: Spec, ops: seq<Operation>, st: KvState)
    decreases |ops|
  {
    ops == [] ||
    (spec(st, ops[0].input, ops[0].output) && Accepts(spec, ops[1..], After(st, ops[0].input)))
  }

  /** All keys at once; a key not in the map is still in its initial state. */
  type World = map<string, KvState>

  ghost function At(w: World, key: string): KvState {
    if key in w then w[key] else INIT
  }

  ghost function AfterAll(w: World, inp: KvInput): World {
    w[inp.key := After(At(w, inp.key), inp)]
  }

  ghost predicate AcceptsAll(spec: Spec, ops: seq<Operation>, w: World)
    decreases |ops|
  {
    ops == [] ||
    (spec(At(w, ops[0].input.key), ops[0].input, ops[0].output)
     && AcceptsAll(spec, ops[1..], AfterAll(w, ops[0].input)))
  }

  /** No operation is placed before one that had returned when it was called. */
  ghost predicate RespectsTime(ops: seq<Operation>)
    decreases |ops|
  {
    ops == [] ||
    ((forall x :: x in ops[1..] ==> ops[0].call <= x.ret) && RespectsTime(ops[1..]))
  }

  ghost predicate WellTimed(h: seq<Operation>) {
    forall x :: x in h ==> x.call <= x.ret
  }

  ghost predicate Linearizes(spec: Spec, h: seq<Operation>, ops: seq<Operation>) {
    multiset(ops) == multiset(h) && RespectsTime(ops) && Accepts(spec, ops, INIT)
  }

  ghost predicate LinearizesAll(spec: Spec, h: seq<Operation>, ops: seq<Operation>) {
    multiset(ops) == multiset(h) && RespectsTime(ops) && AcceptsAll(spec, ops, map[])
  }

  ghost predicate Linearizable(spec: Spec, h: seq<Operation>) {
    exists ops :: Linearizes(spec, h, ops)
  }

  ghost predicate LinearizableAll(spec: Spec, h: seq<Operation>) {
    exists ops :: LinearizesAll(spec, h, ops)
  }

  /** The operations on one key, in their order. */
  function OfKey(h: seq<Operation>, key: string): seq<Operation>
    decreases |h|
  {
    if h == [] then []
    else (if h[0].input.key == key then [h[0]] else []) + OfKey(h[1..], key)
  }

  ghost predicate HasKey(h: seq<Operation>, key: string) {
    exists x :: x in h && x.input.key == key
  }

  lemma {:induction false} OfKeyElements(h: seq<Operation>, key: string, x: Operation)
    ensures x in OfKey(h, key) <==> x in h && x.input.key == key
    decreases |h|
  {
    if h != [] {
      OfKeyElements(h[1..], key, x);
    }
  }

  lemma {:induction false} OfKeyMultiset(h: seq<Operation>, key: string, x: Operation)
    ensures multiset(OfKey(h, key))[x] == if x.input.key == key then multiset(h)[x] else 0
    decreases |h|
  {
    if h != [] {
      OfKeyMultiset(h[1..], key, x);
      assert h == [h[0]] + h[1..];
    }
  }

  lemma {:induction false} OfKeyAppend(a: seq<Operation>, b: seq<Operation>, key: string)
    ensures OfKey(a + b, key) == OfKey(a, key) + OfKey(b, key)
    decreases |a|
  {
    if a == [] {
      assert a + b == b;
    } else {
      OfKeyAppend(a[1..], b, key);
      assert (a + b)[0] == a[0] && (a + b)[1..] == a[1..] + b;
      var head := if a[0].input.key == key then [a[0]] else [];
      assert OfKey(a, key) == head + OfKey(a[1..], key);
      assert OfKey(a + b, key) == head + OfKey(a[1..] + b, key);
    }
  }

  /** Replaying each key on its own accepts exactly when replaying the whole map does. */
  lemma {:induction false} ReplayPerKey(spec: Spec, ops: seq<Operation>, w: World)
    ensures AcceptsAll(spec, ops, w) <==> forall k :: Accepts(spec, OfKey(ops, k), At(w, k))
    decreases |ops|
  {
    if ops != [] {
      var key := ops[0].input.key;
      var w' := AfterAll(w, ops[0].input);
      var ok := spec(At(w, key), ops[0].input, ops[0].output);
      ReplayPerKey(spec, ops[1..], w');
      assert OfKey(ops, key) == [ops[0]] + OfKey(ops[1..], key);
      assert OfKey(ops, key)[1..] == OfKey(ops[1..], key);
      assert Accepts(spec, OfKey(ops, key), At(w, key)) <==> ok && Accepts(spec, OfKey(ops[1..], key), At(w', key));
      forall k | k != key
        ensures Accepts(spec, OfKey(ops, k), At(w, k)) <==> Accepts(spec, OfKey(ops[1..], k), At(w', k))
      {
        assert OfKey(ops, k) == OfKey(ops[1..], k);
      }
    } else {
      forall k ensures Accepts(spec, OfKey(ops, k), At(w, k)) {
        assert OfKey(ops, k) == [];
      }
    }
  }

  lemma {:induction false} OfKeyRespectsTime(ops: seq<Operation>, key: string)
    requires RespectsTime(ops)
    ensures RespectsTime(OfKey(ops, key))
    decreases |ops|
  {
    if ops != [] {
      OfKeyRespectsTime(ops[1..], key);
      if ops[0].input.key == key {
        assert OfKey(ops, key)[1..] == OfKey(ops[1..], key);
        forall x | x in OfKey(ops[1..], key) ensures ops[0].call <= x.ret {
          OfKeyElements(ops[1..], key, x);
        }
      } else {
        assert OfKey(ops, key) == OfKey(ops[1..], key);
      }
    }
  }

  /** A linearization of the whole history, restricted to a key, linearizes that key's part. */
  lemma RestrictLinearization(spec: Spec, h: seq<Operation>, ops: seq<Operation>, key: string)
    requires LinearizesAll(spec, h, ops)
    ensures Linearizes(spec, OfKey(h, key), OfKey(ops, key))
  {
    forall x ensures multiset(OfKey(h, key))[x] == multiset(OfKey(ops, key))[x] {
      OfKeyMultiset(h, key, x);
      OfKeyMultiset(ops, key, x);
    }
    OfKeyRespectsTime(ops, key);
    ReplayPerKey(spec, ops, map[]);
    assert At(map[], key) == INIT;
  }

  /** Interleaves two orders by the call times at their heads. */
  ghost function Merge(a: seq<Operation>, b: seq<Operation>): seq<Operation>
    decreases |a| + |b|
  {
    if a == [] then b
    else if b == [] then a
    else if a[0].call <= b[0].call then [a[0]] + Merge(a[1..], b)
    else [b[0]] + Merge(a, b[1..])
  }

  lemma HeadAndRest(a: seq<Operation>)
    requires a != []
    ensures multiset(a) == multiset{a[0]} + multiset(a[1..])
  {
    assert a == [a[0]] + a[1..];
  }

  lemma {:induction false} MergeMultiset(a: seq<Operation>, b: seq<Operation>)
    ensures multiset(Merge(a, b)) == multiset(a) + multiset(b)
    decreases |a| + |b|
  {
    if a != [] && b != [] {
      if a[0].call <= b[0].call {
        MergeMultiset(a[1..], b);
        HeadAndRest(a);
        HeadAndRest(Merge(a, b));
        assert Merge(a, b)[1..] == Merge(a[1..], b);
      } else {
        MergeMultiset(a, b[1..]);
        HeadAndRest(b);
        HeadAndRest(Merge(a, b));
        assert Merge(a, b)[1..] == Merge(a, b[1..]);
      }
    }
  }

  lemma MergeElements(a: seq<Operation>, b: seq<Operation>, x: Operation)
    ensures x in Merge(a, b) <==> x in a || x in b
  {
    MergeMultiset(a, b);
    assert x in multiset(Merge(a, b)) <==> x in multiset(a) || x in multiset(b);
  }

  lemma HeadPrecedesAll(a: seq<Operation>, t: int)
    requires a != [] && RespectsTime(a) && WellTimed(a) && t <= a[0].call
    ensures forall x :: x in a ==> t <= x.ret
  {
    forall x | x in a ensures t <= x.ret {
      assert x == a[0] || x in a[1..];
    }
  }

  lemma {:induction false} MergeRespectsTime(a: seq<Operation>, b: seq<Operation>)
    requires RespectsTime(a) && RespectsTime(b) && WellTimed(a) && WellTimed(b)
    ensures RespectsTime(Merge(a, b))
    decreases |a| + |b|
  {
    if a != [] && b != [] {
      var m := Merge(a, b);
      if a[0].call <= b[0].call {
        MergeRespectsTime(a[1..], b);
        HeadPrecedesAll(b, a[0].call);
        assert m[1..] == Merge(a[1..], b);
        forall x | x in m[1..] ensures a[0].call <= x.ret {
          MergeElements(a[1..], b, x);
        }
      } else {
        MergeRespectsTime(a, b[1..]);
        HeadPrecedesAll(a, b[0].call);
        assert m[1..] == Merge(a, b[1..]);
        forall x | x in m[1..] ensures b[0].call <= x.ret {
          MergeElements(a, b[1..], x);
        }
      }
    }
  }

  lemma {:induction false} MergeOfKey(a: seq<Operation>, b: seq<Operation>, key: string)
    requires OfKey(a, key) == [] || OfKey(b, key) == []
    ensures OfKey(Merge(a, b), key) == OfKey(a, key) + OfKey(b, key)
    decreases |a| + |b|
  {
    if a != [] && b != [] {
      if a[0].call <= b[0].call {
        MergeOfKey(a[1..], b, key);
        assert Merge(a, b)[1..] == Merge(a[1..], b);
      } else {
        MergeOfKey(a, b[1..], key);
        assert Merge(a, b)[1..] == Merge(a, b[1..]);
      }
    }
  }

  /** The operations whose key is in a set, in their order. */
  ghost function OfKeys(h: seq<Operation>, keys: set<string>): seq<Operation>
    decreases |h|
  {
    if h == [] then []
    else (if h[0].input.key in keys then [h[0]] else []) + OfKeys(h[1..], keys)
  }

  lemma {:induction false} OfKeysMultiset(h: seq<Operation>, keys: set<string>, x: Operation)
    ensures multiset(OfKeys(h, keys))[x] == if x.input.key in keys then multiset(h)[x] else 0
    decreases |h|
  {
    if h != [] {
      OfKeysMultiset(h[1..], keys, x);
      assert h == [h[0]] + h[1..];
    }
  }

  lemma {:induction false} OfKeyEmpty(h: seq<Operation>, key: string)
    requires !HasKey(h, key)
    ensures OfKey(h, key) == []
    decreases |h|
  {
    if h != [] {
      assert h[0] in h;
      OfKeyEmpty(h[1..], key);
    }
  }

  lemma NoKeys(spec: Spec, h: seq<Operation>)
    ensures OfKeys(h, {}) == [] && LinearizesAll(spec, [], [])
    decreases |h|
  {
    if h != [] {
      NoKeys(spec, h[1..]);
    }
  }

  /** Linearizations of the single keys combine into one of all the keys in the set. */
  lemma {:induction false} CombineKeys(spec: Spec, h: seq<Operation>, keys: set<string>) returns (ops: seq<Operation>)
    requires WellTimed(h)
    requires forall k :: k in keys ==> Linearizable(spec, OfKey(h, k))
    ensures LinearizesAll(spec, OfKeys(h, keys), ops)
    decreases |keys|
  {
    if keys == {} {
      ops := [];
      NoKeys(spec, h);
    } else {
      var key :| key in keys;
      var rest := keys - {key};
      var a := CombineKeys(spec, h, rest);
      var b :| Linearizes(spec, OfKey(h, key), b);
      assert rest + {key} == keys;
      CombineOne(spec, h, rest, key, a, b);
      ops := Merge(a, b);
    }
  }

  lemma CombineOne(spec: Spec, h: seq<Operation>, rest: set<string>, key: string, a: seq<Operation>, b: seq<Operation>)
    requires WellTimed(h) && key !in rest
    requires LinearizesAll(spec, OfKeys(h, rest), a) && Linearizes(spec, OfKey(h, key), b)
    ensures LinearizesAll(spec, OfKeys(h, rest + {key}), Merge(a, b))
  {
    forall x ensures multiset(OfKeys(h, rest + {key}))[x] == multiset(Merge(a, b))[x] {
      OfKeysMultiset(h, rest, x);
      OfKeyMultiset(h, key, x);
      OfKeysMultiset(h, rest + {key}, x);
      MergeMultiset(a, b);
    }
    forall x | x in a ensures x in h && x.input.key != key {
      OfKeysMultiset(h, rest, x);
      assert x in multiset(a);
      assert x in multiset(h);
    }
    forall x | x in b ensures x in h && x.input.key == key {
      OfKeyMultiset(h, key, x);
      assert x in multiset(b);
      assert x in multiset(h);
    }
    MergeRespectsTime(a, b);
    MergeReplays(spec, a, b, key);
  }

  lemma MergeReplays(spec: Spec, a: seq<Operation>, b: seq<Operation>, key: string)
    requires AcceptsAll(spec, a, map[]) && Accepts(spec, b, INIT)
    requires forall x :: x in a ==> x.input.key != key
    requires forall x :: x in b ==> x.input.key == key
    ensures AcceptsAll(spec, Merge(a, b), map[])
  {
    ReplayPerKey(spec, a, map[]);
    forall k ensures Accepts(spec, OfKey(Merge(a, b), k), At(map[], k)) {
      if k == key {
        OfKeyEmpty(a, k);
        OfOneKey(b, k);
        MergeOfKey(a, b, k);
        assert [] + b == b;
      } else {
        OfKeyEmpty(b, k);
        MergeOfKey(a, b, k);
        assert OfKey(a, k) + [] == OfKey(a, k);
      }
    }
    ReplayPerKey(spec, Merge(a, b), map[]);
  }

  lemma {:induction false} OfOneKey(b: seq<Operation>, key: string)
    requires forall x :: x in b ==> x.input.key == key
    ensures OfKey(b, key) == b
    decreases |b|
  {
    if b != [] {
      assert b[0] in b;
      OfOneKey(b[1..], key);
      assert b == [b[0]] + b[1..];
    }
  }

  /** Locality: the whole history is linearizable exactly when each key's part is. */
  lemma Locality(spec: Spec, h: seq<Operation>)
    requires WellTimed(h)
    ensures LinearizableAll(spec, h) <==> forall k :: HasKey(h, k) ==> Linearizable(spec, OfKey(h, k))
  {
    if LinearizableAll(spec, h) {
      var ops :| LinearizesAll(spec, h, ops);
      forall k ensures Linearizable(spec, OfKey(h, k)) {
        RestrictLinearization(spec, h, ops, k);
      }
    }
    if forall k :: HasKey(h, k) ==> Linearizable(spec, OfKey(h, k)) {
      var keys := set x | x in h :: x.input.key;
      forall k | k in keys ensures Linearizable(spec, OfKey(h, k)) {
        assert HasKey(h, k);
      }
      var ops := CombineKeys(spec, h, keys);
      forall x ensures multiset(OfKeys(h, keys))[x] == multiset(h)[x] {
        OfKeysMultiset(h, keys, x);
      }
      assert LinearizesAll(spec, h, ops);
    }
  }

  /** The parts a history is cut into: one per key that occurs, in key order. */
  ghost predicate IsPartition(h: seq<Operation>, keys: seq<string>, parts: seq<seq<Operation>>) {
    && Ascending(keys)
    && (forall k :: k in keys <==> HasKey(h, k))
    && |parts| == |keys|
    && forall i :: 0 <= i < |keys| ==> parts[i] == OfKey(h, keys[i])
  }

  /** Checking the parts one by one decides linearizability of the whole history. */
  lemma PartsDecide(spec: Spec, h: seq<Operation>, keys: seq<string>, parts: seq<seq<Operation>>)
    requires WellTimed(h) && IsPartition(h, keys, parts)
    ensures LinearizableAll(spec, h) <==> forall i :: 0 <= i < |parts| ==> Linearizable(spec, parts[i])
  {
    Locality(spec, h);
    forall k | (forall i :: 0 <= i < |parts| ==> Linearizable(spec, parts[i])) && HasKey(h, k)
      ensures Linearizable(spec, OfKey(h, k))
    {
      assert k in keys;
    }
    forall i | 0 <= i < |parts| && LinearizableAll(spec, h)
      ensures Linearizable(spec, parts[i])
    {
      assert keys[i] in keys;
    }
  }

  lemma PartsGrow(h: seq<Operation>, i: nat, k: string)
    requires i < |h|
    ensures OfKey(h[..i + 1], k) == OfKey(h[..i], k) + if k == h[i].input.key then [h[i]] else []
    ensures HasKey(h[..i + 1], k) <==> HasKey(h[..i], k) || k == h[i].input.key
  {
    assert h[..i + 1] == h[..i] + [h[i]];
    OfKeyAppend(h[..i], [h[i]], k);
    assert [h[i]][1..] == [];
    assert OfKey([h[i]][1..], k) == [];
    if k == h[i].input.key { assert h[i] in h[..i + 1]; }
  }

  /** The bucket map after the first i operations. */
  ghost predicate Buckets(m: map<string, seq<Operation>>, h: seq<Operation>) {
    forall k :: (k in m <==> HasKey(h, k)) && (k in m ==> m[k] == OfKey(h, k))
  }

  lemma BucketsGrow(m: map<string, seq<Operation>>, h: seq<Operation>, i: nat)
    requires i < |h| && Buckets(m, h[..i])
    ensures var key := h[i].input.key;
            Buckets(m[key := (if key in m then m[key] else []) + [h[i]]], h[..i + 1])
  {
    var key := h[i].input.key;
    var m' := m[key := (if key in m then m[key] else []) + [h[i]]];
    forall k
      ensures (k in m' <==> HasKey(h[..i + 1], k)) && (k in m' ==> m'[k] == OfKey(h[..i + 1], k))
    {
      PartsGrow(h, i, k);
      if !HasKey(h[..i], k) { OfKeyEmpty(h[..i], k); }
    }
  }

  method Partition(h: seq<Operation>) returns (keys: seq<string>, parts: seq<seq<Operation>>)
    ensures IsPartition(h, keys, parts)
  {
    var m: map<string, seq<Operation>> := map[];
    keys := [];
    for i := 0 to |h|
      invariant Ascending(keys) && SameKeys(keys, m)
      invariant Buckets(m, h[..i])
    {
      m, keys := AddToBucket(m, keys, h, i);
    }
    assert h[..|h|] == h;
    parts := Parts(keys, m);
  }

  ghost predicate SameKeys(keys: seq<string>, m: map<string, seq<Operation>>) {
    forall k :: k in keys <==> k in m
  }

  /** One more operation: it joins its key's bucket, or starts one. */
  method AddToBucket(m: map<string, seq<Operation>>, keys: seq<string>, h: seq<Operation>, i: nat)
      returns (m': map<string, seq<Operation>>, keys': seq<string>)
    requires i < |h| && Ascending(keys) && SameKeys(keys, m) && Buckets(m, h[..i])
    ensures Ascending(keys') && SameKeys(keys', m') && Buckets(m', h[..i + 1])
  {
    var key := h[i].input.key;
    BucketsGrow(m, h, i);
    keys' := keys;
    if key !in m {
      keys' := Insert(keys, key);
      m' := m[key := [] + [h[i]]];
    } else {
      m' := m[key := m[key] + [h[i]]];
    }
  }

  /** The buckets in the order of their keys. */
  method Parts(keys: seq<string>, m: map<string, seq<Operation>>) returns (parts: seq<seq<Operation>>)
    requires SameKeys(keys, m)
    ensures |parts| == |keys|
    ensures forall i :: 0 <= i < |keys| ==> keys[i] in m && parts[i] == m[keys[i]]
  {
    parts := [];
    for i := 0 to |keys|
      invariant |parts| == i
      invariant forall j :: 0 <= j < i ==> keys[j] in m && parts[j] == m[keys[j]]
    {
      assert keys[i] in keys;
      parts := parts + [m[keys[i]]];
    }
  }
}
