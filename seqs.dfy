/** List comprehensions over sequences: `[x for x in s if keep(x)]`, conversions of every
    element, and counting. */
module Seqs {
  import opened Wrappers

  /** `[f(x) for x in s]` where every `f(x)` may raise: the list of results when none does. */
  function MapAll<S, T>(s: seq<S>, f: S -> Option<T>): (r: Option<seq<T>>)
    ensures r.Some? <==> forall i | 0 <= i < |s| :: f(s[i]).Some?
    ensures r.Some? ==> |r.value| == |s| && forall i | 0 <= i < |s| :: f(s[i]) == Some(r.value[i])
    decreases |s|
  {
    if s == [] then Some([])
    else
      match f(s[0])
      case None => None
      case Some(x) =>
        match MapAll(s[1..], f)
        case None => None
        case Some(xs) => Some([x] + xs)
  }

  /** A converted element is exactly the conversion of some element. */
  lemma MapAllMember<S, T>(s: seq<S>, f: S -> Option<T>, y: T)
    requires MapAll(s, f).Some?
    ensures y in MapAll(s, f).value <==> exists x | x in s :: f(x) == Some(y)
  {
    var r := MapAll(s, f).value;
    if y in r {
      var i :| 0 <= i < |r| && r[i] == y;
      assert s[i] in s;
    }
    if exists x | x in s :: f(x) == Some(y) {
      var x :| x in s && f(x) == Some(y);
      var i :| 0 <= i < |s| && s[i] == x;
      assert r[i] in r;
    }
  }

  /** `[x for x in s if keep(x)]` */
  function Filter<T(!new)>(s: seq<T>, keep: T -> bool): (r: seq<T>)
    ensures |r| <= |s|
    ensures forall x :: x in r <==> x in s && keep(x)
    ensures forall i | 0 <= i < |r| :: keep(r[i])
    decreases |s|
  {
    if s == [] then []
    else if keep(s[0]) then [s[0]] + Filter(s[1..], keep)
    else Filter(s[1..], keep)
  }

  /** Filtering keeps the relative order: `Filter` of a concatenation is the concatenation. */
  lemma {:induction false} FilterAppend<T(!new)>(a: seq<T>, b: seq<T>, keep: T -> bool)
    ensures Filter(a + b, keep) == Filter(a, keep) + Filter(b, keep)
    decreases |a|
  {
    if a == [] {
      assert a + b == b;
    } else {
      assert (a + b)[1..] == a[1..] + b;
      FilterAppend(a[1..], b, keep);
    }
  }

  /** A one-element list keeps its element or nothing. */
  lemma FilterSingle<T(!new)>(x: T, keep: T -> bool)
    ensures Filter([x], keep) == if keep(x) then [x] else []
  {
    assert [x][1..] == [];
  }

  /** `[y for x in s for y in f(x)]`: the lists `f` makes of the elements, concatenated in
      order. */
  function ConcatMap<T, U>(s: seq<T>, f: T -> seq<U>): seq<U>
    decreases |s|
  {
    if s == [] then [] else ConcatMap(s[..|s| - 1], f) + f(s[|s| - 1])
  }

  /** One more element visited. */
  lemma ConcatMapNext<T, U>(s: seq<T>, f: T -> seq<U>, i: nat)
    requires i < |s|
    ensures ConcatMap(s[..i + 1], f) == ConcatMap(s[..i], f) + f(s[i])
  {
    assert s[..i + 1][..i] == s[..i];
  }

  /** One more element visited, after what was collected before the loop. */
  lemma ConcatMapAfter<T, U>(pre: seq<U>, s: seq<T>, f: T -> seq<U>, i: nat)
    requires i < |s|
    ensures pre + ConcatMap(s[..i + 1], f) == (pre + ConcatMap(s[..i], f)) + f(s[i])
    ensures ConcatMap(s[..i + 1], f) == [] <==> ConcatMap(s[..i], f) == [] && f(s[i]) == []
  {
    ConcatMapNext(s, f, i);
    assert pre + (ConcatMap(s[..i], f) + f(s[i])) == (pre + ConcatMap(s[..i], f)) + f(s[i]);
  }

  /** An element of the concatenation comes from the list made of some element. */
  lemma {:induction false} ConcatMapMember<T, U>(s: seq<T>, f: T -> seq<U>, y: U)
    ensures y in ConcatMap(s, f) <==> exists i | 0 <= i < |s| :: y in f(s[i])
    decreases |s|
  {
    if s != [] {
      var p := s[..|s| - 1];
      ConcatMapMember(p, f, y);
      if y in ConcatMap(p, f) {
        var i :| 0 <= i < |p| && y in f(p[i]);
        assert s[i] == p[i];
      }
      if exists i | 0 <= i < |s| :: y in f(s[i]) {
        var i :| 0 <= i < |s| && y in f(s[i]);
        if i < |p| {
          assert p[i] == s[i];
        }
      }
    }
  }

  /** The concatenation is empty exactly when every element makes an empty list. */
  lemma {:induction false} ConcatMapEmpty<T, U>(s: seq<T>, f: T -> seq<U>)
    ensures ConcatMap(s, f) == [] <==> forall i | 0 <= i < |s| :: f(s[i]) == []
    decreases |s|
  {
    if s != [] {
      var p := s[..|s| - 1];
      ConcatMapEmpty(p, f);
      assert forall i | 0 <= i < |p| :: p[i] == s[i];
    }
  }

  /** `[i for i in range(n) if p(i)]` */
  function Where(n: nat, p: nat -> bool): seq<nat>
    decreases n
  {
    if n == 0 then [] else Where(n - 1, p) + (if p(n - 1) then [n - 1] else [])
  }

  /** The listed indices are exactly those below `n` that satisfy `p`. */
  lemma {:induction false} WhereMeaning(n: nat, p: nat -> bool)
    ensures forall i: nat :: i in Where(n, p) <==> i < n && p(i)
    ensures Where(n, p) == [] <==> forall i: nat | i < n :: !p(i)
    decreases n
  {
    if n > 0 {
      WhereMeaning(n - 1, p);
    }
  }

  /** The listed indices are strictly increasing, so none is listed twice. */
  lemma {:induction false} WhereIncreasing(n: nat, p: nat -> bool)
    ensures forall i, j | 0 <= i < j < |Where(n, p)| :: Where(n, p)[i] < Where(n, p)[j]
    decreases n
  {
    if n > 0 {
      WhereIncreasing(n - 1, p);
      WhereMeaning(n - 1, p);
      var w := Where(n - 1, p);
      assert forall i | 0 <= i < |w| :: w[i] in w;
    }
  }

  /** `sum(1 for x in s if keep(x))` */
  function Count<T>(s: seq<T>, keep: T -> bool): (r: nat)
    ensures r <= |s|
    decreases |s|
  {
    if s == [] then 0 else (if keep(s[0]) then 1 else 0) + Count(s[1..], keep)
  }

  /** Counting is the length of the filtered list. */
  lemma {:induction false} CountIsFilterLength<T(!new)>(s: seq<T>, keep: T -> bool)
    ensures Count(s, keep) == |Filter(s, keep)|
    decreases |s|
  {
    if s != [] {
      CountIsFilterLength(s[1..], keep);
    }
  }

  /** Counting over one more element at the end. */
  lemma {:induction false} CountSnoc<T>(s: seq<T>, x: T, keep: T -> bool)
    ensures Count(s + [x], keep) == Count(s, keep) + (if keep(x) then 1 else 0)
    decreases |s|
  {
    if s != [] {
      assert (s + [x])[1..] == s[1..] + [x];
      CountSnoc(s[1..], x, keep);
    }
  }

  /** Every element is counted exactly when each one passes the test. */
  lemma {:induction false} CountFull<T>(s: seq<T>, keep: T -> bool)
    ensures Count(s, keep) == |s| <==> forall i | 0 <= i < |s| :: keep(s[i])
    decreases |s|
  {
    if s != [] {
      CountFull(s[1..], keep);
      assert forall i | 1 <= i < |s| :: s[1..][i - 1] == s[i];
    }
  }
}
