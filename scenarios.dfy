/**
 * Three scenarios verified against the `Plugin` contracts:
 * a relayed feed line, a pattern added twice and then listed, and
 * `cvtfeed off` in a channel that never had the feed.
 */
module Scenarios {
  import opened Wrappers
  import opened Text
  import opened Identifiers
  import opened Matcher
  import opened Bot
  import opened CvtFeed

  /** A line from FeedBot in #feed that the regex `ERROR.*` matches reaches #ops unchanged. */
  method RelayErrorLine(norm: string -> string, re: RegexEngine)
    requires IsNormalisation(norm)
    requires re("ERROR.*", "ERROR disk full") == Some(true)
  {
    var p := new Plugin(norm, [], ["ERROR.*"], ["#ops"], Some("FeedBot"), Some("#feed"));
    var r := p.MatchItems(Some("FeedBot"), "#feed", "ERROR disk full", re);
    assert Decide(["ERROR.*"], [], "ERROR disk full", re) == Some(true);
    assert r == Returned([Say("ERROR disk full", "#ops")]);

    r := p.MatchItems(Some("SomeoneElse"), "#feed", "ERROR disk full", re);
    assert r == Returned([]);
  }

  /** `cvtpattern add string outage`, twice, on an empty configuration: the set holds the pattern once. */
  method AddTwice(norm: string -> string) returns (p: Plugin)
    requires IsNormalisation(norm)
    ensures fresh(p) && p.Valid() && p.Strings() == map[norm("outage") := "outage"]
  {
    p := new Plugin(norm, [], [], ["#ops"], None, None);
    var add := [".cvtpattern", "add", "string", "outage"];
    assert forall i :: 0 <= i < |add| ==> IsWord(add[i]);
    WordsOfJoin(add);
    var line := Join(add, " ");
    assert Words(line) == add && IsAddCommand(add) && !IsListCommand(add);

    var out := p.ManagePattern(line, "#ops");
    assert out == [Save, Reply(SuccessAdd("outage"))];
    assert p.Strings() == map[norm("outage") := "outage"];
    out := p.ManagePattern(line, "#ops");
    assert out == [Save, Reply(SuccessAdd("outage"))];
  }

  /** Then `cvtpattern list string` shows the pattern once. */
  method AddTwiceThenList(norm: string -> string)
    requires IsNormalisation(norm)
  {
    var p := AddTwice(norm);
    var list := [".cvtpattern", "list", "string"];
    assert forall i :: 0 <= i < |list| ==> IsWord(list[i]);
    WordsOfJoin(list);
    var line := Join(list, " ");
    assert Words(line) == list && IsListCommand(list) && !IsAddCommand(list) && !IsDelCommand(list);

    var out := p.ManagePattern(line, "#ops");
    assert p.Strings().Values == {"outage"};
    assert IsListing(out[0].text, {"outage"});
    ghost var items :| Lists(items, {"outage"}) && out[0].text == Patterns(items);
    ListsSingleton(items, "outage");
    assert Join(["outage"], ", ") == "outage";
    assert out == [Say(Patterns(["outage"]), "#ops")];
  }

  /** `cvtfeed off` in a channel that is not a destination changes nothing. */
  method DisableUnlistedChannel(norm: string -> string)
    requires IsNormalisation(norm) && norm("#random") != norm("#ops")
  {
    var p := new Plugin(norm, [], [], ["#ops"], None, None);
    var off := [".cvtfeed", "off"];
    WordsOfJoin(off);
    var out := p.ManageChannel(Join(off, " "), "#random");
    assert out == [Say(AlreadyDisabled, "#random")];
    assert p.destinationChannels == ["#ops"];
  }
}
