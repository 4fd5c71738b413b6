/** Objects keyed by an enumeration of member names, and the same objects keyed by text. */
module Naming {

  ghost predicate Injective<K(!new)>(name: K -> string) {
    forall a: K, b: K :: name(a) == name(b) ==> a == b
  }

  function NamedBy<K(!new), V>(name: K -> string, o: map<K, V>): (m: map<string, V>)
    requires Injective(name)
  {
    map k | k in o :: name(k) := o[k]
  }

  /** The members of `m` whose names are known; others are ignored. */
  function KnownBy<K, V>(name: K -> string, all: set<K>, m: map<string, V>): map<K, V> {
    map k | k in all && name(k) in m :: m[name(k)]
  }

  lemma NamedByMember<K(!new), V>(name: K -> string, o: map<K, V>, k: K)
    requires Injective(name)
    ensures name(k) in NamedBy(name, o) <==> k in o
    ensures k in o ==> NamedBy(name, o)[name(k)] == o[k]
  {
    if name(k) in NamedBy(name, o) {
      var k' :| k' in o && name(k') == name(k);
    }
  }

  lemma KnownByNamedBy<K(!new), V>(name: K -> string, all: set<K>, o: map<K, V>)
    requires Injective(name) && o.Keys <= all
    ensures KnownBy(name, all, NamedBy(name, o)) == o
  {
    forall k: K
      ensures name(k) in NamedBy(name, o) <==> k in o
      ensures k in o ==> NamedBy(name, o)[name(k)] == o[k]
    {
      NamedByMember(name, o, k);
    }
  }
}
