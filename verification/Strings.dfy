/** Byte-wise string order, as Go's comparison of strings and sort.Strings use it. */
module Strings {

  predicate Leq(a: string, b: string) {
    if a == [] then true
    else if b == [] then false
    else if a[0] == b[0] then Leq(a[1..], b[1..])
    else a[0] < b[0]
  }

  predicate Less(a: string, b: string) {
    !Leq(b, a)
  }

  /** The first difference decides; a proper beginning comes first. */
  lemma {:induction false} LeqByFirstDifference(a: string, b: string)
    ensures Leq(a, b) <==> a <= b || exists i :: 0 <= i < |a| && i < |b| && a[..i] == b[..i] && a[i] < b[i]
  {
    if a != [] && b != [] && a[0] == b[0] {
      var a', b' := a[1..], b[1..];
      LeqByFirstDifference(a', b');
      assert a == [a[0]] + a' && b == [b[0]] + b';
      if i :| 0 <= i < |a'| && i < |b'| && a'[..i] == b'[..i] && a'[i] < b'[i] {
        assert a[..i + 1] == [a[0]] + a'[..i] && b[..i + 1] == [b[0]] + b'[..i];
        assert a[i + 1] < b[i + 1];
      }
      if i :| 0 <= i < |a| && i < |b| && a[..i] == b[..i] && a[i] < b[i] {
        assert a'[..i - 1] == a[..i][1..] && b'[..i - 1] == b[..i][1..];
        assert a'[i - 1] < b'[i - 1];
      }
    } else if a != [] && b != [] && a[0] < b[0] {
      assert a[..0] == b[..0];
    } else if a != [] && b != [] {
      assert forall i :: 0 < i < |a| && i < |b| ==> a[..i][0] != b[..i][0];
    }
  }

  lemma {:induction false} LeqTotal(a: string, b: string)
    ensures Leq(a, a)
    ensures Leq(a, b) || Leq(b, a)
    ensures Leq(a, b) && Leq(b, a) ==> a == b
    decreases |a| + |b|
  {
    if a != [] {
      LeqReflexive(a);
      if b != [] && a[0] == b[0] {
        LeqTotal(a[1..], b[1..]);
        assert a == [a[0]] + a[1..] && b == [b[0]] + b[1..];
      }
    }
  }

  lemma {:induction false} LeqReflexive(a: string)
    ensures Leq(a, a)
  {
    if a != [] {
      LeqReflexive(a[1..]);
    }
  }

  lemma {:induction false} LeqTransitive(a: string, b: string, c: string)
    requires Leq(a, b) && Leq(b, c)
    ensures Leq(a, c)
  {
    if a != [] && a[0] == b[0] && b[0] == c[0] {
      LeqTransitive(a[1..], b[1..], c[1..]);
    }
  }

  ghost predicate Ascending(keys: seq<string>) {
    forall i, j :: 0 <= i < j < |keys| ==> Less(keys[i], keys[j])
  }

  /** Puts a new key in its place. */
  method Insert(keys: seq<string>, key: string) returns (r: seq<string>)
    requires Ascending(keys) && key !in keys
    ensures Ascending(r) && forall k :: k in r <==> k in keys || k == key
    ensures |r| == |keys| + 1
  {
    var i := 0;
    while i < |keys| && Less(keys[i], key)
      invariant 0 <= i <= |keys|
      invariant forall j :: 0 <= j < i ==> Less(keys[j], key)
    {
      i := i + 1;
    }
    r := keys[..i] + [key] + keys[i..];
    forall j | i <= j < |keys| ensures Less(key, keys[j]) {
      LeqTotal(keys[i], key);
      if Leq(keys[j], key) {
        if j > i {
          LeqTotal(keys[i], keys[j]);
          LeqTransitive(keys[j], key, keys[i]);
        }
      }
    }
    assert keys == keys[..i] + keys[i..];
    forall a, b | 0 <= a < b < |r| ensures Less(r[a], r[b]) {
      if b < i {
      } else if b == i {
      } else if a == i {
        assert r[b] == keys[b - 1];
      } else {
        assert r[b] == keys[b - 1] && r[a] == keys[if a < i then a else a - 1];
      }
    }
  }
}
