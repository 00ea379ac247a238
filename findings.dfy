/**
 * `.cvtpattern add` as written: `regexes.add(text[3])` and
 * `strings.add(text[3])` add the plain str, not `tools.Identifier(text[3])`.
 * A set of Identifiers then finds the str only when the str is spelled
 * exactly like a key, so a case variant of a stored pattern, or the same
 * text of a stored pattern that is not normalised, is stored as a second
 * element, and `match_items`, which reads the stored list and compares
 * case-sensitively, relays on it. The rest of the model adds the
 * Identifier (`Identifiers.StoreAdded`), which stores one spelling per name.
 */
module Findings {
  import opened Text
  import opened Identifiers
  import opened Matcher

  /**
   * `set.add(value)` with a plain str on a set of Identifiers finds an
   * element: the str hashes by its own text and an Identifier by its key,
   * so only a key spelled exactly like `value` is probed (distinct texts
   * are taken not to collide), and that Identifier equals the str when
   * the str normalises to the key.
   */
  predicate PlainStrFound(m: IdSet, value: string, norm: string -> string): (r: bool)
    ensures r ==> norm(value) in m
    ensures value !in m ==> !r
  {
    value in m && norm(value) == value
  }

  /**
   * `stored` is a list the plain-str add can store: the set's elements as
   * listed, plus the str when the set did not find it, in whatever order
   * set iteration gives. A str not found is stored beside every element,
   * even one spelled exactly like it.
   */
  ghost predicate StoredAsWritten(stored: seq<string>, listing: seq<string>, m: IdSet, value: string,
                                  norm: string -> string): (r: bool)
    ensures r ==> |stored| == |listing| + (if PlainStrFound(m, value, norm) then 0 else 1)
    ensures r && !PlainStrFound(m, value, norm) ==> value in stored
  {
    var added := if PlainStrFound(m, value, norm) then multiset{} else multiset{value};
    assert |multiset(stored)| == |stored| && |multiset(listing)| == |listing|;
    assert value in multiset(stored) <==> value in stored;
    multiset(stored) == multiset(listing) + added
  }

  /** A list holding `a` and `b` (twice `a` when they are equal) has them at two distinct indices. */
  lemma PairAt(s: seq<string>, a: string, b: string)
    requires multiset{a, b} <= multiset(s)
    ensures exists i, j :: 0 <= i < j < |s| && ((s[i] == a && s[j] == b) || (s[i] == b && s[j] == a))
    decreases |s|
  {
    assert a in multiset(s);
    var t := s[1..];
    assert s == [s[0]] + t;
    assert multiset(s) == multiset{s[0]} + multiset(t);
    if s[0] == a {
      assert b in multiset(t);
      var j :| 0 <= j < |t| && t[j] == b;
      assert s[0] == a && s[j + 1] == b;
    } else if s[0] == b {
      assert a in multiset(t);
      var j :| 0 <= j < |t| && t[j] == a;
      assert s[0] == b && s[j + 1] == a;
    } else {
      assert multiset{a, b} <= multiset(t);
      PairAt(t, a, b);
      var i, j :| 0 <= i < j < |t| && ((t[i] == a && t[j] == b) || (t[i] == b && t[j] == a));
      assert s[i + 1] == t[i] && s[j + 1] == t[j];
    }
  }

  /**
   * As written, adding a name whose key is present but which the set does
   * not find stores two entries equal modulo normalisation, in every order
   * set iteration may give: a case variant of the stored spelling, or the
   * stored spelling itself when it is not already normalised.
   */
  lemma CaseVariantStoredTwice(m: IdSet, listing: seq<string>, value: string, norm: string -> string,
                               stored: seq<string>)
    requires WellFormed(m, norm) && Lists(listing, m.Values)
    requires norm(value) in m && !PlainStrFound(m, value, norm)
    requires StoredAsWritten(stored, listing, m, value, norm)
    ensures exists i, j :: 0 <= i < j < |stored| && norm(stored[i]) == norm(stored[j])
  {
    var e := m[norm(value)];
    assert e in m.Values;
    assert e in multiset(listing);
    assert multiset{e, value} <= multiset(stored);
    PairAt(stored, e, value);
    var i, j :| 0 <= i < j < |stored| && ((stored[i] == e && stored[j] == value) || (stored[i] == value && stored[j] == e));
    assert norm(stored[i]) == norm(stored[j]);
  }

  /**
   * The input that shows it: with `stringpatterns = ["foo"]`,
   * `.cvtpattern add string FOO` stores "foo" and "FOO", once each, in an
   * order set iteration decides, and the feed line "disk FOO" is then
   * relayed on the "FOO" entry.
   */
  lemma CaseVariantRelayed(norm: string -> string, listing: seq<string>, stored: seq<string>)
    requires norm("foo") == "foo" && norm("FOO") == "foo"
    requires Lists(listing, Rebuild(["foo"], norm).Values)
    requires StoredAsWritten(stored, listing, Rebuild(["foo"], norm), "FOO", norm)
    ensures multiset(stored) == multiset{"foo", "FOO"}
    ensures AnyContains(stored, "disk FOO")
  {
    var m := Rebuild(["foo"], norm);
    assert m == map["foo" := "foo"];
    assert m.Values == {"foo"};
    ListsSingleton(listing, "foo");
    assert !PlainStrFound(m, "FOO", norm);
    assert "FOO" in multiset(stored);
    var k :| 0 <= k < |stored| && stored[k] == "FOO";
    assert OccursAt("disk FOO", "FOO", 5);
    ContainsIff("disk FOO", "FOO");
    assert Contains("disk FOO", stored[k]);
  }

  /**
   * Re-adding a stored pattern that is not in normalised form: with
   * `regexpatterns = ["ERROR.*"]`, `.cvtpattern add regex ERROR.*` stores
   * the identical text a second time.
   */
  lemma IdenticalStoredTwice(norm: string -> string, listing: seq<string>, stored: seq<string>)
    requires norm("ERROR.*") == "error.*"
    requires Lists(listing, Rebuild(["ERROR.*"], norm).Values)
    requires StoredAsWritten(stored, listing, Rebuild(["ERROR.*"], norm), "ERROR.*", norm)
    ensures stored == ["ERROR.*", "ERROR.*"]
  {
    var m := Rebuild(["ERROR.*"], norm);
    assert m == map["error.*" := "ERROR.*"];
    assert m.Values == {"ERROR.*"};
    ListsSingleton(listing, "ERROR.*");
    assert !PlainStrFound(m, "ERROR.*", norm);
    assert multiset(stored) == multiset{"ERROR.*", "ERROR.*"};
    forall k | 0 <= k < |stored|
      ensures stored[k] == "ERROR.*"
    {
      assert stored[k] in multiset(stored);
    }
  }

  /**
   * With the Identifier added, the same command leaves the stored list at
   * `["foo"]`, and "disk FOO" is not relayed.
   */
  lemma CaseVariantNotStored(norm: string -> string, stored: seq<string>)
    requires norm("foo") == "foo" && norm("FOO") == "foo"
    requires Lists(stored, Insert(Rebuild(["foo"], norm), "FOO", norm).Values)
    ensures stored == ["foo"]
    ensures !AnyContains(stored, "disk FOO")
  {
    var m := Rebuild(["foo"], norm);
    assert m == map["foo" := "foo"];
    assert Insert(m, "FOO", norm).Values == {"foo"};
    ListsSingleton(stored, "foo");
    ContainsIff("disk FOO", "foo");
    forall k | 0 <= k <= |"disk FOO"| - |"foo"|
      ensures !OccursAt("disk FOO", "foo", k)
    {
      // "disk FOO" holds no lower-case 'f'.
      assert "disk FOO"[k..k + 3][0] == "disk FOO"[k] != 'f';
    }
  }
}
