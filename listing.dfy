/** The directory-listing filter both manifest builders apply: keep the names
    that end in ".jar" (case-sensitive), in listing order. */
module Listing {
  import opened Paths

  predicate IsJar(name: string)
  {
    EndsWith(name, ".jar")
  }

  /** The `.jar` names of a listing, in the order `os.listdir` gave them. */
  function Jars(listing: seq<string>): seq<string>
  {
    if listing == [] then []
    else
      var last := listing[|listing| - 1];
      Jars(listing[..|listing| - 1]) + (if IsJar(last) then [last] else [])
  }

  /** The set of `.jar` names of a listing. */
  function JarSet(listing: seq<string>): set<string>
  {
    set name | name in listing && IsJar(name)
  }

  predicate Distinct(s: seq<string>)
  {
    forall i, j :: 0 <= i < j < |s| ==> s[i] != s[j]
  }

  /** Exactly the `.jar` names of the listing survive the filter. */
  lemma {:induction false} JarsMembers(listing: seq<string>)
    ensures forall name :: name in Jars(listing) <==> name in listing && IsJar(name)
    ensures |Jars(listing)| <= |listing|
  {
    if listing != [] {
      var init := listing[..|listing| - 1];
      JarsMembers(init);
      assert listing == init + [listing[|listing| - 1]];
    }
  }

  /** Filtering keeps order: the filter of a concatenation is the concatenation of
      the filters. */
  lemma {:induction false} JarsAppend(a: seq<string>, b: seq<string>)
    ensures Jars(a + b) == Jars(a) + Jars(b)
  {
    if b == [] {
      assert a + b == a;
    } else {
      var init := b[..|b| - 1];
      var last := b[|b| - 1];
      JarsAppend(a, init);
      assert (a + b)[..|a + b| - 1] == a + init;
      assert (a + b)[|a + b| - 1] == last;
      assert Jars(b) == Jars(init) + (if IsJar(last) then [last] else []);
      assert Jars(a + b) == Jars(a + init) + (if IsJar(last) then [last] else []);
    }
  }

  /** A listing without repeated names has as many distinct `.jar` names as `.jar`
      entries. */
  lemma {:induction false} JarCount(listing: seq<string>)
    requires Distinct(listing)
    ensures |JarSet(listing)| == |Jars(listing)|
  {
    if listing != [] {
      var init := listing[..|listing| - 1];
      var last := listing[|listing| - 1];
      assert listing == init + [last];
      assert Distinct(init);
      JarCount(init);
      assert last !in init;
      if IsJar(last) {
        assert JarSet(listing) == JarSet(init) + {last};
        assert last !in JarSet(init);
      } else {
        assert JarSet(listing) == JarSet(init);
      }
    }
  }
}
