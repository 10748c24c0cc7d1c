/** Python's `dict`: a finite map that remembers the order in which keys were first inserted.
    Assigning to a key that is already present keeps its position; a new key goes last. */
module Dicts {
  import opened Wrappers
  import opened Seqs

  datatype OMap<K, V> = OMap(keys: seq<K>, values: map<K, V>)

  /** No element occurs twice: the last one is absent from the rest, which is itself repetition-free. */
  predicate Distinct<T(==)>(s: seq<T>)
    decreases |s|
  {
    s == [] || (s[|s| - 1] !in s[..|s| - 1] && Distinct(s[..|s| - 1]))
  }

  /** In a repetition-free sequence, two positions hold different elements. */
  lemma {:induction false} DistinctIndices<T>(s: seq<T>, i: nat, j: nat)
    requires Distinct(s) && i < j < |s|
    ensures s[i] != s[j]
    decreases |s|
  {
    var p := s[..|s| - 1];
    assert p[i] == s[i];
    if j < |s| - 1 {
      DistinctIndices(p, i, j);
    }
  }

  /** A sequence whose positions all hold different elements is repetition-free. */
  lemma {:induction false} IndicesDistinct<T>(s: seq<T>)
    requires forall i, j | 0 <= i < j < |s| :: s[i] != s[j]
    ensures Distinct(s)
    decreases |s|
  {
    if s != [] {
      var p := s[..|s| - 1];
      assert forall i | 0 <= i < |p| :: p[i] == s[i];
      IndicesDistinct(p);
      forall i | 0 <= i < |p|
        ensures p[i] != s[|s| - 1]
      {
      }
    }
  }

  /** A repetition-free sequence holds each of its elements once. */
  lemma {:induction false} DistinctOnce<T>(s: seq<T>, x: T)
    requires Distinct(s)
    ensures multiset(s)[x] <= 1
    decreases |s|
  {
    if s != [] {
      var p := s[..|s| - 1];
      assert s == p + [s[|s| - 1]];
      DistinctOnce(p, x);
      if x == s[|s| - 1] {
        assert x !in multiset(p);
      }
    }
  }

  /** Reordering a repetition-free sequence cannot introduce a repetition. */
  lemma DistinctPermutation<T>(a: seq<T>, b: seq<T>)
    requires Distinct(a) && multiset(a) == multiset(b)
    ensures Distinct(b)
  {
    forall i, j | 0 <= i < j < |b|
      ensures b[i] != b[j]
    {
      DistinctOnce(a, b[i]);
      assert b == b[..i] + [b[i]] + b[i + 1..j] + [b[j]] + b[j + 1..];
    }
    IndicesDistinct(b);
  }

  /** One element more keeps a sequence repetition-free when it is new. */
  lemma DistinctSnoc<T>(s: seq<T>, x: T)
    requires Distinct(s) && x !in s
    ensures Distinct(s + [x])
  {
    assert (s + [x])[..|s|] == s;
  }

  /** The key order lists every key of the map exactly once. */
  predicate WellFormed<K(==,!new), V>(m: OMap<K, V>) {
    Distinct(m.keys) && (forall k | k in m.keys :: k in m.values) && (forall k | k in m.values :: k in m.keys)
  }

  type Dict<K(==,!new), V> = m: OMap<K, V> | WellFormed(m) witness OMap([], map[])

  /** The key order of a dictionary repeats no key: the `j`-th key is not among the earlier ones. */
  lemma LastKeyNew<K(!new), V>(u: Dict<K, V>, j: nat)
    requires 0 < j <= |u.keys|
    ensures u.keys[j - 1] !in u.keys[..j - 1]
  {
    forall i | 0 <= i < j - 1
      ensures u.keys[i] != u.keys[j - 1]
    {
      DistinctIndices(u.keys, i, j - 1);
    }
  }

  function Empty<K(==,!new), V>(): (r: Dict<K, V>)
    ensures r.keys == [] && r.values == map[]
  {
    OMap([], map[])
  }

  /** `d[k] = v` */
  function Put<K(==,!new), V>(d: Dict<K, V>, k: K, v: V): (r: Dict<K, V>)
    ensures r.values == d.values[k := v]
    ensures r.keys == if k in d.values then d.keys else d.keys + [k]
  {
    if k in d.values then
      PutWellFormed(d, k, v);
      OMap(d.keys, d.values[k := v])
    else
      PutWellFormed(d, k, v);
      OMap(d.keys + [k], d.values[k := v])
  }

  /** Writing a key keeps the key order and the map in step. */
  lemma PutWellFormed<K(!new), V>(d: Dict<K, V>, k: K, v: V)
    ensures k in d.values ==> WellFormed(OMap(d.keys, d.values[k := v]))
    ensures k !in d.values ==> WellFormed(OMap(d.keys + [k], d.values[k := v]))
  {
    if k !in d.values {
      DistinctSnoc(d.keys, k);
    }
  }

  /** `k in d` */
  predicate Has<K(==,!new), V>(d: Dict<K, V>, k: K) {
    k in d.values
  }

  /** `d.get(k)` with an explicit default. */
  function GetOr<K(==,!new), V>(d: Dict<K, V>, k: K, default: V): V {
    if k in d.values then d.values[k] else default
  }

  /** Rewrites the value stored under a key already present, leaving the key order alone. */
  function Update<K(==,!new), V>(d: Dict<K, V>, k: K, v: V): (r: Dict<K, V>)
    requires k in d.values
    ensures r.keys == d.keys && r.values == d.values[k := v]
  {
    OMap(d.keys, d.values[k := v])
  }

  /** A second write to the same key replaces the first. */
  lemma UpdateTwice<K(!new), V>(d: Dict<K, V>, k: K, a: V, b: V)
    requires k in d.values
    ensures Update(Update(d, k, a), k, b) == Update(d, k, b)
  {
    assert d.values[k := a][k := b] == d.values[k := b];
  }

  /** `{k: v for k, v in d.items() if keep(k)}`, in key order. */
  function FilterKeys<K(==,!new), V>(d: Dict<K, V>, keep: K -> bool): (r: Dict<K, V>)
    ensures forall k :: k in r.values <==> k in d.values && keep(k)
    ensures forall k | k in r.values :: r.values[k] == d.values[k]
  {
    FilterPrefix(d, keep, |d.keys|)
  }

  /** The same filter over the first `n` keys only. */
  function FilterPrefix<K(==,!new), V>(d: Dict<K, V>, keep: K -> bool, n: nat): (r: Dict<K, V>)
    requires n <= |d.keys|
    ensures forall k :: k in r.values <==> k in d.keys[..n] && keep(k)
    ensures forall k | k in r.values :: r.values[k] == d.values[k]
    ensures forall k | k in r.keys :: k in d.keys[..n]
  {
    if n == 0 then Empty()
    else
      var r := FilterPrefix(d, keep, n - 1);
      var k := d.keys[n - 1];
      assert d.keys[..n] == d.keys[..n - 1] + [k];
      LastKeyNew(d, n);
      if keep(k) then Put(r, k, d.values[k]) else r
  }

  /** `d` after `for k in src: if keep(k): d[k] = make(src[k])` has visited the first `n` keys
      of `src`. */
  function Collect<K(==,!new), S, V>(d: Dict<K, V>, src: Dict<K, S>, keep: K -> bool, make: S -> V, n: nat): Dict<K, V>
    requires n <= |src.keys|
    decreases n
  {
    if n == 0 then d
    else
      var k := src.keys[n - 1];
      var r := Collect(d, src, keep, make, n - 1);
      if keep(k) then Put(r, k, make(src.values[k])) else r
  }

  /** One more key visited. */
  lemma CollectNext<K(!new), S, V>(d: Dict<K, V>, src: Dict<K, S>, keep: K -> bool, make: S -> V, n: nat)
    requires n < |src.keys|
    ensures Collect(d, src, keep, make, n + 1) ==
      if keep(src.keys[n]) then Put(Collect(d, src, keep, make, n), src.keys[n], make(src.values[src.keys[n]]))
      else Collect(d, src, keep, make, n)
  {
  }

  /** The loop adds exactly the kept keys it visited, each with the value made from its source
      value, and keeps every other entry of `d`. */
  lemma {:induction false} CollectContents<K(!new), S, V>(d: Dict<K, V>, src: Dict<K, S>, keep: K -> bool, make: S -> V, n: nat)
    requires n <= |src.keys|
    ensures var r := Collect(d, src, keep, make, n);
      && (forall k :: k in r.values <==> k in d.values || (k in src.keys[..n] && keep(k)))
      && (forall k | k in r.values :: r.values[k] == if k in src.keys[..n] && keep(k) then make(src.values[k]) else d.values[k])
    decreases n
  {
    if n > 0 {
      CollectContents(d, src, keep, make, n - 1);
      assert src.keys[..n] == src.keys[..n - 1] + [src.keys[n - 1]];
    }
  }

  /** The whole loop, on a table that starts empty: exactly the kept keys of `src`. */
  lemma CollectAll<K(!new), S, V>(src: Dict<K, S>, keep: K -> bool, make: S -> V)
    ensures var r := Collect(Empty(), src, keep, make, |src.keys|);
      && (forall k :: k in r.values <==> k in src.values && keep(k))
      && (forall k | k in r.values :: r.values[k] == make(src.values[k]))
  {
    CollectContents(Empty(), src, keep, make, |src.keys|);
    assert src.keys[..|src.keys|] == src.keys;
  }

  /** The keys among the first `n` that `labelOf` sends to `x`, in order. */
  function Labelled<K(==,!new), L(==)>(keys: seq<K>, labelOf: K -> Option<L>, n: nat, x: L): seq<K>
    requires n <= |keys|
    decreases n
  {
    if n == 0 then []
    else Labelled(keys, labelOf, n - 1, x) + (if labelOf(keys[n - 1]) == Some(x) then [keys[n - 1]] else [])
  }

  /** The labelled keys are the ones `Filter` keeps, so exactly those of the first `n` keys
      with label `x`. */
  lemma {:induction false} LabelledFilters<K(!new), L(!new)>(keys: seq<K>, labelOf: K -> Option<L>, n: nat, x: L)
    requires n <= |keys|
    ensures Labelled(keys, labelOf, n, x) == Filter(keys[..n], HasLabel(labelOf, x))
    ensures forall k :: k in Labelled(keys, labelOf, n, x) <==> k in keys[..n] && labelOf(k) == Some(x)
    decreases n
  {
    if n > 0 {
      LabelledFilters(keys, labelOf, n - 1, x);
      assert keys[..n] == keys[..n - 1] + [keys[n - 1]];
      FilterAppend(keys[..n - 1], [keys[n - 1]], HasLabel(labelOf, x));
      FilterSingle(keys[n - 1], HasLabel(labelOf, x));
    }
  }

  /** The filter `labelOf(k) == x`. */
  function HasLabel<K, L(==)>(labelOf: K -> Option<L>, x: L): K -> bool {
    k => labelOf(k) == Some(x)
  }

  /** `groups.setdefault(labelOf(k), []).append(k)` over the first `n` keys, skipping the keys
      `labelOf` sends to `None`. */
  function GroupBy<K(==,!new), L(==,!new)>(keys: seq<K>, labelOf: K -> Option<L>, n: nat): Dict<L, seq<K>>
    requires n <= |keys|
    decreases n
  {
    if n == 0 then Empty()
    else
      var u := GroupBy(keys, labelOf, n - 1);
      var k := keys[n - 1];
      match labelOf(k)
      case None => u
      case Some(x) => Put(u, x, GetOr(u, x, []) + [k])
  }

  /** One more key visited. */
  lemma GroupByNext<K(!new), L(!new)>(keys: seq<K>, labelOf: K -> Option<L>, n: nat)
    requires n < |keys|
    ensures GroupBy(keys, labelOf, n + 1) ==
      (match labelOf(keys[n])
       case None => GroupBy(keys, labelOf, n)
       case Some(x) => Put(GroupBy(keys, labelOf, n), x, GetOr(GroupBy(keys, labelOf, n), x, []) + [keys[n]]))
  {
  }

  /** The entry of `x` after one more key: the key is appended when it has label `x`, and the
      entry is untouched otherwise. */
  lemma GroupByEntryNext<K(!new), L(!new)>(keys: seq<K>, labelOf: K -> Option<L>, n: nat, x: L)
    requires n < |keys|
    ensures var u := GroupBy(keys, labelOf, n); var w := GroupBy(keys, labelOf, n + 1);
      if labelOf(keys[n]) == Some(x) then x in w.values && w.values[x] == GetOr(u, x, []) + [keys[n]]
      else (x in w.values <==> x in u.values) && (x in u.values ==> w.values[x] == u.values[x])
  {
    GroupByNext(keys, labelOf, n);
  }

  /** The entry of `x` in `m` is present exactly when `l` is not empty, and is then `l`. */
  predicate EntryIs<K(==), L>(m: map<L, seq<K>>, x: L, l: seq<K>) {
    (x in m <==> l != []) && (x in m ==> m[x] == l)
  }

  /** The keys with label `x` after one more key that has it. */
  lemma LabelledHit<K(!new), L(!new)>(keys: seq<K>, labelOf: K -> Option<L>, n: nat, x: L)
    requires 0 < n <= |keys| && labelOf(keys[n - 1]) == Some(x)
    ensures Labelled(keys, labelOf, n, x) == Labelled(keys, labelOf, n - 1, x) + [keys[n - 1]]
  {
  }

  /** Appending a key to the entry of `x` appends it to the keys the entry holds. */
  lemma EntryGrows<K, L>(u: map<L, seq<K>>, w: map<L, seq<K>>, x: L, before: seq<K>, now: seq<K>, k: K)
    requires EntryIs(u, x, before) && now == before + [k]
    requires x in w && w[x] == (if x in u then u[x] else []) + [k]
    ensures EntryIs(w, x, now)
  {
  }

  /** A key with label `x` extends the entry of `x` by itself. */
  lemma GroupByHit<K(!new), L(!new)>(keys: seq<K>, labelOf: K -> Option<L>, n: nat, x: L)
    requires 0 < n <= |keys| && labelOf(keys[n - 1]) == Some(x)
    requires EntryIs(GroupBy(keys, labelOf, n - 1).values, x, Labelled(keys, labelOf, n - 1, x))
    ensures EntryIs(GroupBy(keys, labelOf, n).values, x, Labelled(keys, labelOf, n, x))
  {
    GroupByEntryNext(keys, labelOf, n - 1, x);
    LabelledHit(keys, labelOf, n, x);
    EntryGrows(GroupBy(keys, labelOf, n - 1).values, GroupBy(keys, labelOf, n).values, x,
               Labelled(keys, labelOf, n - 1, x), Labelled(keys, labelOf, n, x), keys[n - 1]);
  }

  /** A key without label `x` leaves the entry of `x` alone. */
  lemma GroupByMiss<K(!new), L(!new)>(keys: seq<K>, labelOf: K -> Option<L>, n: nat, x: L)
    requires 0 < n <= |keys| && labelOf(keys[n - 1]) != Some(x)
    requires EntryIs(GroupBy(keys, labelOf, n - 1).values, x, Labelled(keys, labelOf, n - 1, x))
    ensures EntryIs(GroupBy(keys, labelOf, n).values, x, Labelled(keys, labelOf, n, x))
  {
    GroupByEntryNext(keys, labelOf, n - 1, x);
    assert Labelled(keys, labelOf, n, x) == Labelled(keys, labelOf, n - 1, x);
  }

  /** One label: present exactly when some key has it, and then mapped to those keys in order. */
  lemma {:induction false} GroupByAt<K(!new), L(!new)>(keys: seq<K>, labelOf: K -> Option<L>, n: nat, x: L)
    requires n <= |keys|
    ensures EntryIs(GroupBy(keys, labelOf, n).values, x, Labelled(keys, labelOf, n, x))
    decreases n
  {
    if n > 0 {
      GroupByAt(keys, labelOf, n - 1, x);
      if labelOf(keys[n - 1]) == Some(x) {
        GroupByHit(keys, labelOf, n, x);
      } else {
        GroupByMiss(keys, labelOf, n, x);
      }
    }
  }

  /** Each label in the table maps to its keys in order, and a label is present exactly when
      some key has it. */
  lemma GroupByMembers<K(!new), L(!new)>(keys: seq<K>, labelOf: K -> Option<L>, n: nat)
    requires n <= |keys|
    ensures forall x :: x in GroupBy(keys, labelOf, n).values <==> Labelled(keys, labelOf, n, x) != []
    ensures forall x | x in GroupBy(keys, labelOf, n).values :: GroupBy(keys, labelOf, n).values[x] == Labelled(keys, labelOf, n, x)
  {
    forall x
      ensures x in GroupBy(keys, labelOf, n).values <==> Labelled(keys, labelOf, n, x) != []
      ensures x in GroupBy(keys, labelOf, n).values ==> GroupBy(keys, labelOf, n).values[x] == Labelled(keys, labelOf, n, x)
    {
      GroupByAt(keys, labelOf, n, x);
    }
  }

  /** A key together with the members grouped under it. */
  datatype Shared<K, V> = Shared(key: K, members: seq<V>)

  /** The groups with more than one member among the first `j` keys, in key order. */
  function SharedUpTo<K(==,!new), V>(u: Dict<K, seq<V>>, j: nat): seq<Shared<K, V>>
    requires j <= |u.keys|
    decreases j
  {
    if j == 0 then []
    else
      var k := u.keys[j - 1];
      SharedUpTo(u, j - 1) + if |u.values[k]| > 1 then [Shared(k, u.values[k])] else []
  }

  /** The keys of a list of groups, in order. */
  function KeysOf<K, V>(r: seq<Shared<K, V>>): (ks: seq<K>)
    ensures |ks| == |r| && forall i | 0 <= i < |r| :: ks[i] == r[i].key
  {
    seq(|r|, i requires 0 <= i < |r| => r[i].key)
  }

  lemma KeysSnoc<K, V>(r: seq<Shared<K, V>>, g: Shared<K, V>)
    ensures KeysOf(r + [g]) == KeysOf(r) + [g.key]
  {
    assert KeysOf(r + [g])[..|r|] == KeysOf(r);
  }

  /** Each reported group is a key with several members, reported with those members; every
      such key is reported; no key is reported twice. */
  predicate SharedSpec<K(==,!new), V(==)>(u: Dict<K, seq<V>>, j: nat)
    requires j <= |u.keys|
  {
    var r := SharedUpTo(u, j);
    && (forall g | g in r :: g.key in u.keys[..j] && g.members == u.values[g.key] && |g.members| > 1)
    && (forall k | k in u.keys[..j] && |u.values[k]| > 1 :: exists g | g in r :: g.key == k)
    && Distinct(KeysOf(r))
  }

  lemma {:induction false} SharedUpToSpec<K(!new), V>(u: Dict<K, seq<V>>, j: nat)
    requires j <= |u.keys|
    ensures SharedSpec(u, j)
    decreases j
  {
    if j > 0 {
      SharedUpToSpec(u, j - 1);
      SharedStep(u, j);
    }
  }

  lemma SharedStep<K(!new), V>(u: Dict<K, seq<V>>, j: nat)
    requires 0 < j <= |u.keys| && SharedSpec(u, j - 1)
    ensures SharedSpec(u, j)
  {
    var k := u.keys[j - 1];
    assert u.keys[..j] == u.keys[..j - 1] + [k];
    LastKeyNew(u, j);
    if |u.values[k]| > 1 {
      SharedHit(u, j);
    } else {
      assert SharedUpTo(u, j) == SharedUpTo(u, j - 1);
    }
  }

  /** The `j`-th key has several members: its group is appended, and its key is new. */
  lemma SharedHit<K(!new), V>(u: Dict<K, seq<V>>, j: nat)
    requires 0 < j <= |u.keys| && SharedSpec(u, j - 1)
    requires u.keys[..j] == u.keys[..j - 1] + [u.keys[j - 1]] && u.keys[j - 1] !in u.keys[..j - 1]
    requires |u.values[u.keys[j - 1]]| > 1
    ensures SharedSpec(u, j)
  {
    var k := u.keys[j - 1];
    var p := SharedUpTo(u, j - 1);
    var g := Shared(k, u.values[k]);
    var r := p + [g];
    assert SharedUpTo(u, j) == r;
    KeysSnoc(p, g);
    assert forall i | 0 <= i < |p| :: p[i] in p;
    DistinctSnoc(KeysOf(p), k);
    assert forall h | h in r :: h in p || h == g;
    forall w | w in u.keys[..j] && |u.values[w]| > 1
      ensures exists h | h in r :: h.key == w
    {
      if w == k {
        assert g in r;
      } else {
        var h :| h in p && h.key == w;
        assert h in r;
      }
    }
  }
}
