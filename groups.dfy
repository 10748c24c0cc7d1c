/** Grouping the keys of a dictionary under a fixed table of named lists, as the feature
    parser's `_build_categories` and the pin parser's `_build_groups` both do: each table
    entry becomes a group of its names that are present (empty groups are dropped), and the
    keys no entry lists go, sorted, into one trailing catch-all group. */
module Groups {
  import opened Wrappers
  import opened Strings
  import opened Dicts
  import opened Seqs

  /** `FeatureCategory` and `PinGroup`: a name, the member names, an optional description. */
  datatype Group = Group(name: string, members: seq<string>, description: Option<string>)

  /** `[name for name in names if name in d]` */
  function Existing<V>(names: seq<string>, d: Dict<string, V>): seq<string> {
    Filter(names, n => n in d.values)
  }

  /** The table's groups that have at least one member present, in table order. */
  function Named<V>(table: seq<(string, seq<string>)>, d: Dict<string, V>): (r: seq<Group>)
    ensures |r| <= |table|
    ensures forall c | c in r :: c.members != [] && c.description == None && (forall n | n in c.members :: n in d.values)
    decreases |table|
  {
    if table == [] then []
    else
      var present := Existing(table[0].1, d);
      (if present != [] then [Group(table[0].0, present, None)] else []) + Named(table[1..], d)
  }

  /** Every name some group lists. */
  function Categorized(cats: seq<Group>): set<string> {
    set c, n | c in cats && n in c.members :: n
  }

  /** The keys of `d` no named group lists, in key order. */
  function Uncategorized<V>(table: seq<(string, seq<string>)>, d: Dict<string, V>): seq<string> {
    var listed := Categorized(Named(table, d));
    Filter(d.keys, n => n !in listed)
  }

  /** The table's non-empty groups followed, when some key of `d` is in none of them, by one
      more group of those keys, sorted. */
  function Build<V>(table: seq<(string, seq<string>)>, d: Dict<string, V>, otherName: string, otherDescription: string): seq<Group> {
    var named := Named(table, d);
    var other := Uncategorized(table, d);
    if other != [] then named + [Group(otherName, Sort(other), Some(otherDescription))]
    else named
  }

  /** A table entry naming a present key yields a group of that name listing it. */
  lemma {:induction false} NamedMembership<V>(table: seq<(string, seq<string>)>, d: Dict<string, V>, i: nat, n: string)
    requires i < |table| && n in table[i].1 && n in d.values
    ensures exists c | c in Named(table, d) :: c.name == table[i].0 && n in c.members
    decreases |table|
  {
    var present := Existing(table[0].1, d);
    var head := if present != [] then [Group(table[0].0, present, None)] else [];
    var r := Named(table, d);
    assert r == head + Named(table[1..], d);
    if i == 0 {
      assert n in present;
      assert r[0] == Group(table[0].0, present, None);
    } else {
      NamedMembership(table[1..], d, i - 1, n);
      var c :| c in Named(table[1..], d) && c.name == table[i].0 && n in c.members;
      assert c in r;
    }
  }

  /** Every group lists only keys that exist, and none is empty. */
  lemma ListExisting<V>(table: seq<(string, seq<string>)>, d: Dict<string, V>, otherName: string, otherDescription: string)
    ensures forall c | c in Build(table, d, otherName, otherDescription) :: c.members != [] && forall n | n in c.members :: n in d.values
  {
    var other := Uncategorized(table, d);
    forall n | n in Sort(other)
      ensures n in d.values
    {
      SortSameElements(other, n);
    }
  }

  /** The group list is the named groups, then at most one more group: sorted, made of present
      keys that no named group lists, and there exactly when some key is in no named group. */
  lemma OtherLast<V>(table: seq<(string, seq<string>)>, d: Dict<string, V>, otherName: string, otherDescription: string)
    ensures var named := Named(table, d);
      var cats := Build(table, d, otherName, otherDescription);
      && |named| <= |cats| <= |named| + 1
      && cats[..|named|] == named
      && (|cats| == |named| + 1 ==>
            var o := cats[|named|];
            && o.name == otherName && Sorted(o.members)
            && (forall n | n in o.members :: n in d.values && forall c | c in named :: n !in c.members))
      && (|cats| == |named| <==> forall n | n in d.values :: n in Categorized(named))
  {
    var named := Named(table, d);
    var other := Uncategorized(table, d);
    var listed := Categorized(named);
    forall n | n in Sort(other)
      ensures n in d.values && n !in listed
    {
      SortSameElements(other, n);
    }
    if other == [] {
      forall n | n in d.values
        ensures n in listed
      {
        assert n in d.keys;
      }
    } else {
      assert other[0] in d.values && other[0] !in listed;
    }
  }

  /** Every key appears in some group. */
  lemma Cover<V>(table: seq<(string, seq<string>)>, d: Dict<string, V>, otherName: string, otherDescription: string, n: string)
    requires n in d.values
    ensures exists c | c in Build(table, d, otherName, otherDescription) :: n in c.members
  {
    var named := Named(table, d);
    var cats := Build(table, d, otherName, otherDescription);
    OtherLast(table, d, otherName, otherDescription);
    if n in Categorized(named) {
      var c :| c in named && n in c.members;
      assert c in cats;
    } else {
      var other := Uncategorized(table, d);
      assert n in d.keys;
      assert n in other;
      SortSameElements(other, n);
      assert cats[|cats| - 1].members == Sort(other);
    }
  }

  /** A key listed under two table entries is shown in both groups. */
  lemma ListedTwice<V>(table: seq<(string, seq<string>)>, d: Dict<string, V>, otherName: string, otherDescription: string, i: nat, j: nat, n: string)
    requires i < |table| && j < |table| && n in table[i].1 && n in table[j].1 && n in d.values
    ensures exists c | c in Build(table, d, otherName, otherDescription) :: c.name == table[i].0 && n in c.members
    ensures exists c | c in Build(table, d, otherName, otherDescription) :: c.name == table[j].0 && n in c.members
  {
    NamedMembership(table, d, i, n);
    NamedMembership(table, d, j, n);
    OtherLast(table, d, otherName, otherDescription);
    var named := Named(table, d);
    var cats := Build(table, d, otherName, otherDescription);
    forall c | c in named
      ensures c in cats
    {
      var k :| 0 <= k < |named| && named[k] == c;
      assert cats[..|named|][k] == c;
    }
  }

}
