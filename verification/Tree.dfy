/** JSON objects as maps: `serde_json`'s ordered map, and objects whose members come in any order. */
module Tree {
  import opened JsonText

  // ---------------------------------------------------------------- the order of keys

  predicate Less(a: string, b: string) {
    b != "" && (a == "" || a[0] < b[0] || (a[0] == b[0] && Less(a[1..], b[1..])))
  }

  lemma LessIrreflexive(a: string)
    ensures !Less(a, a)
  {
  }

  lemma {:induction false} LessTransitive(a: string, b: string, c: string)
    requires Less(a, b) && Less(b, c)
    ensures Less(a, c)
  {
    if a != "" && a[0] == b[0] && b[0] == c[0] { LessTransitive(a[1..], b[1..], c[1..]); }
  }

  lemma {:induction false} LessTotal(a: string, b: string)
    ensures a == b || Less(a, b) || Less(b, a)
  {
    if a != "" && b != "" && a[0] == b[0] {
      LessTotal(a[1..], b[1..]);
      assert a == [a[0]] + a[1..] && b == [b[0]] + b[1..];
    }
  }

  /** `a` and `b` share their first `n` characters, and then `a` ends or has the smaller character. */
  predicate DiffersAt(a: string, b: string, n: nat) {
    n <= |a| && n < |b| && (forall i :: 0 <= i < n ==> a[i] == b[i]) && (n == |a| || a[n] < b[n])
  }

  lemma {:induction false} LessAt(a: string, b: string, n: nat)
    requires DiffersAt(a, b, n)
    ensures Less(a, b)
  {
    if n > 0 { LessAt(a[1..], b[1..], n - 1); }
  }

  lemma {:induction false} FirstDifference(a: string, b: string) returns (n: nat)
    requires Less(a, b)
    ensures DiffersAt(a, b, n)
  {
    if a == "" || a[0] != b[0] {
      n := 0;
    } else {
      var k := FirstDifference(a[1..], b[1..]);
      n := k + 1;
      assert forall i :: 0 < i < n ==> a[i] == a[1..][i - 1] && b[i] == b[1..][i - 1];
    }
  }

  /** The order of keys is alphabetical. */
  lemma LessIsAlphabetical(a: string, b: string)
    ensures Less(a, b) <==> exists n: nat :: DiffersAt(a, b, n)
  {
    if Less(a, b) {
      var n := FirstDifference(a, b);
    }
    if n: nat :| DiffersAt(a, b, n) { LessAt(a, b, n); }
  }

  // ---------------------------------------------------------------- members and their meaning

  /** Later members of the same key are shadowed; every use below is on distinct keys. */
  function MapOf(fs: seq<Field>): map<string, Json> {
    if fs == [] then map[] else MapOf(fs[1..])[fs[0].key := fs[0].value]
  }

  predicate Distinct(fs: seq<Field>) {
    forall i, j :: 0 <= i < j < |fs| ==> fs[i].key != fs[j].key
  }

  predicate Sorted(fs: seq<Field>) {
    forall i, j :: 0 <= i < j < |fs| ==> Less(fs[i].key, fs[j].key)
  }

  lemma SortedDistinct(fs: seq<Field>)
    requires Sorted(fs)
    ensures Distinct(fs)
  {
    forall i, j | 0 <= i < j < |fs|
      ensures fs[i].key != fs[j].key
    {
      LessIrreflexive(fs[i].key);
    }
  }

  lemma {:induction false} MapOfKeys(fs: seq<Field>, k: string) returns (i: nat)
    requires k in MapOf(fs)
    ensures i < |fs| && fs[i].key == k
  {
    if fs[0].key == k {
      i := 0;
    } else {
      i := MapOfKeys(fs[1..], k);
      i := i + 1;
    }
  }

  lemma {:induction false} MapOfHas(fs: seq<Field>, i: nat)
    requires i < |fs|
    ensures fs[i].key in MapOf(fs)
    ensures Distinct(fs) ==> MapOf(fs)[fs[i].key] == fs[i].value
  {
    if i > 0 { MapOfHas(fs[1..], i - 1); }
  }

  /** An ordered map is determined by what it maps. */
  lemma {:induction false} SortedUnique(a: seq<Field>, b: seq<Field>)
    requires Sorted(a) && Sorted(b) && MapOf(a) == MapOf(b)
    ensures a == b
  {
    if a == [] || b == [] {
      if a != [] { MapOfHas(a, 0); }
      if b != [] { MapOfHas(b, 0); }
    } else {
      SortedDistinct(a);
      SortedDistinct(b);
      MapOfHas(a, 0);
      MapOfHas(b, 0);
      var i := MapOfKeys(b, a[0].key);
      var j := MapOfKeys(a, b[0].key);
      if i > 0 && j > 0 {
        LessTransitive(a[0].key, b[0].key, a[0].key);
        LessIrreflexive(a[0].key);
      }
      HeadNotInTail(a);
      HeadNotInTail(b);
      assert MapOf(a[1..]) == MapOf(a) - {a[0].key};
      assert MapOf(b[1..]) == MapOf(b) - {b[0].key};
      SortedUnique(a[1..], b[1..]);
      assert a == [a[0]] + a[1..] && b == [b[0]] + b[1..];
    }
  }

  lemma HeadNotInTail(fs: seq<Field>)
    requires fs != [] && Distinct(fs)
    ensures fs[0].key !in MapOf(fs[1..])
  {
    if fs[0].key in MapOf(fs[1..]) {
      var i := MapOfKeys(fs[1..], fs[0].key);
    }
  }

  // ---------------------------------------------------------------- insertion

  /** Insert or replace, keeping the order: `Map::insert`. */
  function Put(fs: seq<Field>, k: string, v: Json): (r: seq<Field>)
    requires Sorted(fs)
    ensures Sorted(r) && MapOf(r) == MapOf(fs)[k := v]
  {
    var r :=
      if fs == [] then [Field(k, v)]
      else if k == fs[0].key then [Field(k, v)] + fs[1..]
      else if Less(k, fs[0].key) then [Field(k, v)] + fs
      else [fs[0]] + Put(fs[1..], k, v);
    PutCorrect(fs, k, v, r);
    r
  }

  lemma {:induction false} PutCorrect(fs: seq<Field>, k: string, v: Json, r: seq<Field>)
    requires Sorted(fs)
    requires fs == [] ==> r == [Field(k, v)]
    requires fs != [] && k == fs[0].key ==> r == [Field(k, v)] + fs[1..]
    requires fs != [] && k != fs[0].key && Less(k, fs[0].key) ==> r == [Field(k, v)] + fs
    requires fs != [] && k != fs[0].key && !Less(k, fs[0].key) ==>
      r != [] && r[0] == fs[0] && Sorted(r[1..]) && MapOf(r[1..]) == MapOf(fs[1..])[k := v]
    ensures Sorted(r) && MapOf(r) == MapOf(fs)[k := v]
  {
    if fs == [] {
      assert r[1..] == [];
    } else if k == fs[0].key {
      assert r[1..] == fs[1..];
    } else if Less(k, fs[0].key) {
      assert r[1..] == fs;
      forall j | 0 < j < |fs| { LessTransitive(k, fs[0].key, fs[j].key); }
    } else {
      LessTotal(k, fs[0].key);
      forall j | 0 < j < |r|
        ensures Less(r[0].key, r[j].key)
      {
        MapOfHas(r[1..], j - 1);
        if r[j].key != k {
          var i := MapOfKeys(fs[1..], r[j].key);
          assert Less(fs[0].key, fs[i + 1].key);
        }
      }
      assert forall i, j :: 0 < i < j < |r| ==> r[i] == r[1..][i - 1] && r[j] == r[1..][j - 1];
    }
  }

  predicate Least(ks: set<string>, k: string) {
    k in ks && forall k' :: k' in ks ==> k == k' || Less(k, k')
  }

  lemma {:induction false} HasLeast(ks: set<string>)
    requires ks != {}
    ensures exists k :: Least(ks, k)
    decreases |ks|
  {
    var k :| k in ks;
    if ks - {k} == {} {
      assert ks == (ks - {k}) + {k} == {k};
      assert Least({k}, k);
    } else {
      HasLeast(ks - {k});
      var l :| Least(ks - {k}, l);
      LessTotal(k, l);
      if Less(k, l) {
        forall k' | k' in ks && k' != k && k' != l { LessTransitive(k, l, k'); }
        assert Least(ks, k);
      } else {
        assert Least(ks, l);
      }
    }
  }

  lemma LeastUnique(ks: set<string>, k: string, l: string)
    requires Least(ks, k) && Least(ks, l)
    ensures k == l
  {
    if k != l {
      LessTransitive(k, l, k);
      LessIrreflexive(k);
    }
  }

  /** The ordered map with the given contents; by SortedUnique there is only one. */
  function Listing(o: map<string, Json>): (r: seq<Field>)
    ensures Sorted(r) && MapOf(r) == o
    decreases |o.Keys|
  {
    if o == map[] then []
    else
      assert o.Keys != {};
      HasLeast(o.Keys);
      assert forall k, l | Least(o.Keys, k) && Least(o.Keys, l) :: k == l by {
        forall k, l | Least(o.Keys, k) && Least(o.Keys, l) ensures k == l { LeastUnique(o.Keys, k, l); }
      }
      var k :| Least(o.Keys, k);
      var rest := Listing(o - {k});
      var r := [Field(k, o[k])] + rest;
      ListingStep(o, k, rest, r);
      r
  }

  lemma ListingStep(o: map<string, Json>, k: string, rest: seq<Field>, r: seq<Field>)
    requires Least(o.Keys, k) && Sorted(rest) && MapOf(rest) == o - {k} && r == [Field(k, o[k])] + rest
    ensures Sorted(r) && MapOf(r) == o
  {
    assert r[1..] == rest;
    forall j | 0 < j < |r|
      ensures Less(r[0].key, r[j].key)
    {
      MapOfHas(rest, j - 1);
    }
    assert forall i, j :: 0 < i < j < |r| ==> r[i] == rest[i - 1] && r[j] == rest[j - 1];
  }
}
