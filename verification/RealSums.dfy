/** Sums of a real-valued function over a sequence. */
module RealSums {

  /** The two halves of the recursion keep the verifier from unrolling it on its own. */
  ghost function Total<T(!new)>(g: T -> real, s: seq<T>): real
    decreases |s|, 1
  {
    if s == [] then 0.0 else TotalThen(g, s[..|s| - 1], s[|s| - 1])
  }

  ghost function TotalThen<T(!new)>(g: T -> real, s: seq<T>, t: T): real
    decreases |s| + 1, 0
  {
    Total(g, s) + g(t)
  }

  lemma TotalLast<T(!new)>(g: T -> real, s: seq<T>)
    requires s != []
    ensures Total(g, s) == Total(g, s[..|s| - 1]) + g(s[|s| - 1])
  {
    assert Total(g, s) == TotalThen(g, s[..|s| - 1], s[|s| - 1]);
  }

  lemma TotalAppend<T(!new)>(g: T -> real, s: seq<T>, t: T)
    ensures Total(g, s + [t]) == Total(g, s) + g(t)
  {
    TotalLast(g, s + [t]);
    assert (s + [t])[..|s|] == s;
  }

  lemma {:induction false} TotalConcat<T(!new)>(g: T -> real, a: seq<T>, b: seq<T>)
    ensures Total(g, a + b) == Total(g, a) + Total(g, b)
    decreases |b|
  {
    if b == [] {
      assert a + b == a;
    } else {
      var c, t := b[..|b| - 1], b[|b| - 1];
      TotalLast(g, b);
      TotalConcat(g, a, c);
      assert a + b == (a + c) + [t];
      TotalAppend(g, a + c, t);
    }
  }

  lemma {:induction false} TotalEq<T(!new)>(g: T -> real, h: T -> real, s: seq<T>)
    requires forall t :: t in s ==> g(t) == h(t)
    ensures Total(g, s) == Total(h, s)
    decreases |s|
  {
    if s != [] {
      TotalLast(g, s);
      TotalLast(h, s);
      TotalEq(g, h, s[..|s| - 1]);
    }
  }

  lemma {:induction false} TotalZero<T(!new)>(g: T -> real, s: seq<T>)
    requires forall t :: t in s ==> g(t) == 0.0
    ensures Total(g, s) == 0.0
    decreases |s|
  {
    if s != [] {
      TotalLast(g, s);
      TotalZero(g, s[..|s| - 1]);
    }
  }

  /** Every term is `c` times the other sum's term. */
  lemma {:induction false} TotalScaled<T(!new)>(g: T -> real, h: T -> real, c: real, s: seq<T>)
    requires forall t :: t in s ==> h(t) == c * g(t)
    ensures Total(h, s) == c * Total(g, s)
    decreases |s|
  {
    if s != [] {
      var r, t := s[..|s| - 1], s[|s| - 1];
      TotalLast(g, s);
      TotalLast(h, s);
      TotalScaled(g, h, c, r);
      Distribute(c, Total(g, r), g(t));
    }
  }

  lemma Distribute(c: real, a: real, b: real)
    ensures c * (a + b) == c * a + c * b
  {
  }

  lemma {:induction false} TotalPlus<T(!new)>(g: T -> real, h: T -> real, k: T -> real, s: seq<T>)
    requires forall t :: t in s ==> k(t) == g(t) + h(t)
    ensures Total(k, s) == Total(g, s) + Total(h, s)
    decreases |s|
  {
    if s != [] {
      TotalLast(g, s);
      TotalLast(h, s);
      TotalLast(k, s);
      TotalPlus(g, h, k, s[..|s| - 1]);
    }
  }

  /** Taking out the element between `a` and `b`. */
  lemma TotalWithout<T(!new)>(g: T -> real, a: seq<T>, t: T, b: seq<T>)
    ensures Total(g, a + [t] + b) == Total(g, a + b) + g(t)
  {
    TotalConcat(g, a + [t], b);
    TotalAppend(g, a, t);
    TotalConcat(g, a, b);
  }

  /** Exchanging one element. */
  lemma TotalUpdate<T(!new)>(g: T -> real, s: seq<T>, i: nat, t: T)
    requires i < |s|
    ensures Total(g, s[i := t]) == Total(g, s) - g(s[i]) + g(t)
  {
    var front, back := s[..i], s[i + 1..];
    assert s == front + [s[i]] + back && s[i := t] == front + [t] + back;
    TotalWithout(g, front, s[i], back);
    TotalWithout(g, front, t, back);
  }

  /** The order does not matter. */
  lemma {:induction false} TotalPermuted<T(!new)>(g: T -> real, a: seq<T>, b: seq<T>)
    requires multiset(a) == multiset(b)
    ensures Total(g, a) == Total(g, b)
    decreases |a|
  {
    if a == [] {
      assert |b| == |multiset(b)| == |multiset(a)| == 0;
    } else {
      var r, t := a[..|a| - 1], a[|a| - 1];
      TotalLast(g, a);
      assert a == r + [t];
      assert t in multiset(b);
      var i :| 0 <= i < |b| && b[i] == t;
      var front, back := b[..i], b[i + 1..];
      assert b == front + [t] + back;
      SameRest(r, t, front, back);
      TotalPermuted(g, r, front + back);
      TotalWithout(g, front, t, back);
    }
  }

  lemma SameRest<T(!new)>(r: seq<T>, t: T, front: seq<T>, back: seq<T>)
    requires multiset(r + [t]) == multiset(front + [t] + back)
    ensures multiset(r) == multiset(front + back) && |r| == |front + back|
  {
    assert multiset(r) == multiset(r + [t]) - multiset{t};
    assert multiset(front + back) == multiset(front + [t] + back) - multiset{t};
    assert |multiset(r)| == |r| && |multiset(front + back)| == |front + back|;
  }

  ghost function Concat<T>(parts: seq<seq<T>>): seq<T>
    decreases |parts|, 1
  {
    if parts == [] then [] else ConcatThen(parts[..|parts| - 1], parts[|parts| - 1])
  }

  ghost function ConcatThen<T>(parts: seq<seq<T>>, p: seq<T>): seq<T>
    decreases |parts| + 1, 0
  {
    Concat(parts) + p
  }

  lemma ConcatAppend<T>(parts: seq<seq<T>>, p: seq<T>)
    ensures Concat(parts + [p]) == Concat(parts) + p
  {
    assert Concat(parts + [p]) == ConcatThen((parts + [p])[..|parts|], p);
    assert (parts + [p])[..|parts|] == parts;
  }
}
