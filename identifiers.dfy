/**
 * Sets of Sopel `tools.Identifier` values. An Identifier keeps the text it
 * was built from but compares and hashes by a normalised (IRC case-mapped)
 * form, so a Python set of Identifiers holds at most one element per
 * normalised key, and `set.add` keeps the element already there. The model
 * is a map from the normalised key to the element the set holds. The
 * normalisation itself belongs to the host framework and is a parameter.
 */
module Identifiers {

  /**
   * What the model relies on about the host's normalisation: applying it
   * twice changes nothing, and only the empty name normalises to the empty
   * name (a case mapping may lengthen a name, as lowering U+0130 does).
   */
  ghost predicate IsNormalisation(norm: string -> string)
  {
    (forall s :: norm(norm(s)) == norm(s)) && (forall s :: norm(s) == "" <==> s == "")
  }

  /** A Python set of Identifiers: normalised key |-> the element kept. */
  type IdSet = map<string, string>

  /** Every element sits under its own key and is non-empty. */
  ghost predicate WellFormed(m: IdSet, norm: string -> string)
  {
    forall k :: k in m ==> m[k] != "" && norm(m[k]) == k
  }

  /**
   * `{Identifier(s) for s in list if s != ''}`: the set rebuilt from a
   * stored list. Elements are added in list order, so of several entries
   * with the same key the first one is kept.
   */
  function Rebuild(list: seq<string>, norm: string -> string): (m: IdSet)
    ensures WellFormed(m, norm)
    ensures forall k :: k in m ==> m[k] in list
    ensures forall s :: s in list && s != "" ==> norm(s) in m
  {
    if list == [] then map[]
    else
      var m := Rebuild(list[1..], norm);
      if list[0] == "" then m else m[norm(list[0]) := list[0]]
  }

  /** `set.add(x)`: the key of `x` becomes present; elements already there stay. */
  function Insert(m: IdSet, x: string, norm: string -> string): (r: IdSet)
    ensures r.Keys == m.Keys + {norm(x)}
    ensures forall k :: k in m ==> r[k] == m[k]
    ensures norm(x) !in m ==> r[norm(x)] == x
    ensures WellFormed(m, norm) && x != "" ==> WellFormed(r, norm)
  {
    if norm(x) in m then m else m[norm(x) := x]
  }

  /** `set.remove(Identifier(x))` on a set that holds the key of `x`. */
  function Remove(m: IdSet, x: string, norm: string -> string): (r: IdSet)
    ensures r.Keys == m.Keys - {norm(x)}
    ensures forall k :: k in r ==> r[k] == m[k]
    ensures WellFormed(m, norm) ==> WellFormed(r, norm)
  {
    m - {norm(x)}
  }

  /** Python's `x in list` where `x` is an Identifier: some entry equals `x` modulo normalisation. */
  predicate InList(list: seq<string>, x: string, norm: string -> string): (r: bool)
    ensures x in list ==> r
    ensures r <==> exists i :: 0 <= i < |list| && norm(list[i]) == norm(x)
  {
    exists c :: c in list && norm(c) == norm(x)
  }

  predicate Distinct<T(==)>(s: seq<T>)
  {
    forall i, j :: 0 <= i < j < |s| ==> s[i] != s[j]
  }

  /** `s` lists the elements of `xs`, each once, in some order. */
  ghost predicate Lists(s: seq<string>, xs: set<string>)
  {
    Distinct(s) && forall x :: x in s <==> x in xs
  }

  /** Iterating over a Python set: every element once, in an order the model leaves open. */
  method Enumerate(xs: set<string>) returns (s: seq<string>)
    ensures Lists(s, xs)
  {
    s := [];
    var left := xs;
    while left != {}
      invariant left <= xs
      invariant Distinct(s)
      invariant forall x :: x in s <==> x in xs && x !in left
      decreases left
    {
      var x :| x in left;
      s := s + [x];
      left := left - {x};
    }
  }

  /**
   * Rebuild the set stored as `list`, `set.add(value)`, and store the set
   * again: the list written back holds each element of the grown set once.
   */
  method StoreAdded(list: seq<string>, value: string, norm: string -> string) returns (stored: seq<string>)
    requires value != ""
    ensures Rebuild(stored, norm) == Insert(Rebuild(list, norm), value, norm)
    ensures Lists(stored, Rebuild(stored, norm).Values)
    ensures forall i, j :: 0 <= i < j < |stored| ==> norm(stored[i]) != norm(stored[j])
  {
    var s := Rebuild(list, norm);
    s := Insert(s, value, norm);
    stored := Enumerate(s.Values);
    RebuildOfListing(s, stored, norm);
    NoCaseVariants(s, stored, norm);
  }

  /**
   * Rebuild the set stored as `list`, `set.remove(Identifier(value))`, and
   * store the set again: the list written back holds each remaining element once.
   */
  method StoreRemoved(list: seq<string>, value: string, norm: string -> string) returns (stored: seq<string>)
    ensures Rebuild(stored, norm) == Remove(Rebuild(list, norm), value, norm)
    ensures Lists(stored, Rebuild(stored, norm).Values)
  {
    var s := Rebuild(list, norm);
    s := Remove(s, value, norm);
    stored := Enumerate(s.Values);
    RebuildOfListing(s, stored, norm);
  }

  /** The first non-empty entry with a given key is the element the rebuilt set keeps. */
  lemma {:induction false} RebuildKeepsFirst(list: seq<string>, norm: string -> string, i: nat)
    requires i < |list| && list[i] != ""
    requires forall j :: 0 <= j < i ==> list[j] == "" || norm(list[j]) != norm(list[i])
    ensures Rebuild(list, norm)[norm(list[i])] == list[i]
  {
    if i > 0 {
      RebuildKeepsFirst(list[1..], norm, i - 1);
    }
  }

  /**
   * Storing a set as a list and rebuilding the set from that list gives the
   * same set back: persisting a pattern or channel set loses nothing.
   */
  lemma RebuildOfListing(m: IdSet, s: seq<string>, norm: string -> string)
    requires WellFormed(m, norm) && Lists(s, m.Values)
    ensures Rebuild(s, norm) == m
  {
    // Each rebuilt element is a listed element of `m` filed under its own
    // key, which in a well-formed `m` is where `m` holds it.
  }

  /** A listing of a set never holds two spellings of one name. */
  lemma NoCaseVariants(m: IdSet, s: seq<string>, norm: string -> string)
    requires WellFormed(m, norm) && Lists(s, m.Values)
    ensures forall i, j :: 0 <= i < j < |s| ==> norm(s[i]) != norm(s[j])
  {
    forall i, j | 0 <= i < j < |s|
      ensures norm(s[i]) != norm(s[j])
    {
      assert s[i] in m.Values && s[j] in m.Values;
      var ki :| ki in m && m[ki] == s[i];
      var kj :| kj in m && m[kj] == s[j];
    }
  }

  /** A set of one element has one listing. */
  lemma ListsSingleton(items: seq<string>, x: string)
    requires Lists(items, {x})
    ensures items == [x]
  {
    assert x in items;
    forall i | 0 <= i < |items|
      ensures items[i] == x
    {
      assert items[i] in items;
    }
    var last := |items| - 1;
    assert items[0] == items[last];
  }

  /**
   * A listing of a set shows each key exactly once: whatever was added, and
   * however often, one listed element carries the key of `x`.
   */
  lemma ListedOnce(m: IdSet, items: seq<string>, x: string, norm: string -> string)
    requires WellFormed(m, norm) && Lists(items, m.Values) && norm(x) in m
    ensures exists i :: 0 <= i < |items| && norm(items[i]) == norm(x)
    ensures forall i, j :: 0 <= i < |items| && 0 <= j < |items| && norm(items[i]) == norm(x) && norm(items[j]) == norm(x) ==> i == j
  {
    var e := m[norm(x)];
    assert e in m.Values;
    var i :| 0 <= i < |items| && items[i] == e;
    forall j | 0 <= j < |items| && norm(items[j]) == norm(x)
      ensures items[j] == e
    {
      assert items[j] in m.Values;
      var k :| k in m && m[k] == items[j];
    }
  }

  /**
   * An Identifier is in a stored list exactly when its key is in the set
   * rebuilt from that list; empty entries never match a non-empty name.
   */
  lemma InListIff(list: seq<string>, x: string, norm: string -> string)
    requires IsNormalisation(norm) && x != ""
    ensures InList(list, x, norm) <==> norm(x) in Rebuild(list, norm)
  {
    var m := Rebuild(list, norm);
    if InList(list, x, norm) {
      var c :| c in list && norm(c) == norm(x);
      assert norm(x) != "";
    }
    if norm(x) in m {
      assert m[norm(x)] in list && norm(m[norm(x)]) == norm(x);
    }
  }
}
