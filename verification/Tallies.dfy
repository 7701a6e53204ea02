/** Sums over a sequence and sizes of sets, for counting arguments. */
module Tallies {

  ghost function Tally<T>(s: seq<T>, f: T -> nat): nat
    decreases |s|
  {
    if s == [] then 0 else f(s[0]) + Tally(s[1..], f)
  }

  lemma {:induction false} TallyAppend<T>(s: seq<T>, x: T, f: T -> nat)
    ensures Tally(s + [x], f) == Tally(s, f) + f(x)
    decreases |s|
  {
    if s == [] {
      assert s + [x] == [x] && [x][1..] == [];
    } else {
      TallyAppend(s[1..], x, f);
      assert (s + [x])[1..] == s[1..] + [x];
    }
  }

  lemma {:induction false} TallyUpdate<T>(s: seq<T>, i: nat, x: T, f: T -> nat)
    requires i < |s|
    ensures Tally(s[i := x], f) + f(s[i]) == Tally(s, f) + f(x)
    decreases |s|
  {
    if i == 0 {
      assert s[i := x][1..] == s[1..];
    } else {
      TallyUpdate(s[1..], i - 1, x, f);
      assert s[i := x][1..] == s[1..][i - 1 := x];
    }
  }

  lemma {:induction false} TallyBetween<T>(s: seq<T>, lo: T -> nat, f: T -> nat, slack: T -> nat)
    requires forall i :: 0 <= i < |s| ==> lo(s[i]) <= f(s[i]) <= lo(s[i]) + slack(s[i])
    ensures Tally(s, lo) <= Tally(s, f) <= Tally(s, lo) + Tally(s, slack)
    decreases |s|
  {
    if s != [] {
      assert lo(s[0]) <= f(s[0]) <= lo(s[0]) + slack(s[0]);
      forall i | 0 <= i < |s[1..]| ensures lo(s[1..][i]) <= f(s[1..][i]) <= lo(s[1..][i]) + slack(s[1..][i]) {
        assert s[1..][i] == s[i + 1];
      }
      TallyBetween(s[1..], lo, f, slack);
    }
  }

  lemma {:induction false} TallyZero<T>(s: seq<T>, f: T -> nat)
    requires forall i :: 0 <= i < |s| ==> f(s[i]) == 0
    ensures Tally(s, f) == 0
    decreases |s|
  {
    if s != [] {
      assert f(s[0]) == 0;
      forall i | 0 <= i < |s[1..]| ensures f(s[1..][i]) == 0 {
        assert s[1..][i] == s[i + 1];
      }
      TallyZero(s[1..], f);
    }
  }

  /** The images of a sequence, in its order. */
  ghost function Image<S, T>(s: seq<S>, f: S -> T): seq<T> {
    seq(|s|, i requires 0 <= i < |s| => f(s[i]))
  }

  lemma ImageConcat<S, T>(a: seq<S>, b: seq<S>, f: S -> T)
    ensures Image(a + b, f) == Image(a, f) + Image(b, f)
  {
  }

  lemma ImageSame<S, T>(s: seq<S>, f: S -> T, g: S -> T)
    requires forall x :: x in s ==> f(x) == g(x)
    ensures Image(s, f) == Image(s, g)
  {
    assert forall i :: 0 <= i < |s| ==> s[i] in s;
  }

  /** Rearranged sequences stay so when the first element of one is taken out of both. */
  lemma TakeOut<S>(a: seq<S>, b: seq<S>) returns (i: nat)
    requires multiset(a) == multiset(b) && a != []
    ensures i < |b| && b[i] == a[0]
    ensures multiset(a[1..]) == multiset(b[..i] + b[i + 1..])
  {
    assert a[0] in multiset(b);
    i :| 0 <= i < |b| && b[i] == a[0];
    assert b == b[..i] + [b[i]] + b[i + 1..];
    assert a == [a[0]] + a[1..];
    assert multiset(b) == multiset(b[..i] + b[i + 1..]) + multiset{a[0]};
    assert multiset(a) == multiset(a[1..]) + multiset{a[0]};
    assert multiset(a[1..]) == multiset(a) - multiset{a[0]};
    assert multiset(b[..i] + b[i + 1..]) == multiset(b) - multiset{a[0]};
  }

  /** Rearranging a sequence rearranges its images. */
  lemma {:induction false} ImageMultiset<S, T>(a: seq<S>, b: seq<S>, f: S -> T)
    requires multiset(a) == multiset(b)
    ensures multiset(Image(a, f)) == multiset(Image(b, f))
    decreases |a|
  {
    if a == [] {
      assert |multiset(b)| == 0;
      assert b == [];
    } else {
      var i := TakeOut(a, b);
      var l, r := b[..i], b[i + 1..];
      ImageMultiset(a[1..], l + r, f);
      assert a == [a[0]] + a[1..] && b == l + ([a[0]] + r);
      ImageConcat([a[0]], a[1..], f);
      ImageConcat(l, [a[0]] + r, f);
      ImageConcat([a[0]], r, f);
      ImageConcat(l, r, f);
    }
  }

  lemma SubsetSize<T>(a: set<T>, b: set<T>)
    requires a <= b
    ensures |a| <= |b|
  {
    assert b == a + (b - a);
  }
}
