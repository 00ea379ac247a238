/**
 * The relay decision of `match_items`: regex patterns are tried first with
 * an anchored match; only when none matches are the string patterns tried
 * as substrings. A matching line is sent unchanged to every destination.
 */
module Matcher {
  import opened Wrappers
  import opened Text
  import opened Bot

  /**
   * Python's `re.match(pattern, line) is not None`: `Some(true)` when the
   * pattern matches at the start of the line, `Some(false)` when it does
   * not, `None` when the pattern does not compile and `re.match` raises.
   */
  type RegexEngine = (string, string) -> Option<bool>

  /**
   * `any(re.match(r, line) for r in patterns)`, evaluated left to right and
   * stopping at the first match; `None` when a pattern raises before any
   * pattern matched, which aborts the handler.
   */
  function RegexScan(patterns: seq<string>, line: string, re: RegexEngine): (r: Option<bool>)
    ensures r == Some(false) <==> forall i :: 0 <= i < |patterns| ==> re(patterns[i], line) == Some(false)
    ensures r == None ==> exists i :: 0 <= i < |patterns| && re(patterns[i], line) == None
  {
    if patterns == [] then Some(false)
    else
      match re(patterns[0], line)
      case None => None
      case Some(true) => Some(true)
      case Some(false) => RegexScan(patterns[1..], line, re)
  }

  /** `any(p in line for p in patterns)`. */
  function AnyContains(patterns: seq<string>, line: string): (r: bool)
    ensures r <==> exists i :: 0 <= i < |patterns| && Contains(line, patterns[i])
  {
    patterns != [] && (Contains(line, patterns[0]) || AnyContains(patterns[1..], line))
  }

  /**
   * The decision for a line from the feed source: `Some(true)` relay it,
   * `Some(false)` drop it, `None` a regex failed to compile first.
   */
  function Decide(regexes: seq<string>, strings: seq<string>, line: string, re: RegexEngine): (r: Option<bool>)
    ensures RegexScan(regexes, line, re) == Some(true) ==> r == Some(true)
    ensures r == None <==> exists i :: FirstOutcome(regexes, line, re, i, None)
    ensures RegexScan(regexes, line, re) == Some(false) ==>
      (r == Some(true) <==> exists i :: 0 <= i < |strings| && Contains(line, strings[i]))
  {
    RegexScanIff(regexes, line, re);
    match RegexScan(regexes, line, re)
    case Some(false) => Some(AnyContains(strings, line))
    case other => other
  }

  /** No regex before index `i` raised or matched. */
  ghost predicate NoneBefore(patterns: seq<string>, line: string, re: RegexEngine, i: int)
    requires i <= |patterns|
  {
    forall j :: 0 <= j < i ==> re(patterns[j], line) == Some(false)
  }

  /** Regex `i` is the first that does not simply fail to match, and it gives `outcome`. */
  ghost predicate FirstOutcome(patterns: seq<string>, line: string, re: RegexEngine, i: int, outcome: Option<bool>)
  {
    0 <= i < |patterns| && re(patterns[i], line) == outcome && NoneBefore(patterns, line, re, i)
  }

  /** The three outcomes of the regex scan, each stated without the recursion. */
  lemma {:induction false} RegexScanIff(patterns: seq<string>, line: string, re: RegexEngine)
    ensures RegexScan(patterns, line, re) == Some(true) <==> exists i :: FirstOutcome(patterns, line, re, i, Some(true))
    ensures RegexScan(patterns, line, re) == None <==> exists i :: FirstOutcome(patterns, line, re, i, None)
    ensures RegexScan(patterns, line, re) == Some(false) <==> NoneBefore(patterns, line, re, |patterns|)
  {
    if patterns != [] {
      var tail := patterns[1..];
      RegexScanIff(tail, line, re);
      if re(patterns[0], line) == Some(false) {
        forall i, o | FirstOutcome(tail, line, re, i, o)
          ensures FirstOutcome(patterns, line, re, i + 1, o)
        {
        }
        forall i, o | FirstOutcome(patterns, line, re, i, o) && o != Some(false)
          ensures FirstOutcome(tail, line, re, i - 1, o)
        {
        }
      } else {
        assert FirstOutcome(patterns, line, re, 0, re(patterns[0], line));
        forall i, o | FirstOutcome(patterns, line, re, i, o)
          ensures i == 0
        {
        }
      }
    }
  }

  /** A regex that matches before any earlier one raised decides alone: the string patterns are not consulted. */
  lemma RegexMatchRelays(regexes: seq<string>, strings: seq<string>, line: string, re: RegexEngine, i: int)
    requires FirstOutcome(regexes, line, re, i, Some(true))
    ensures Decide(regexes, strings, line, re) == Some(true)
  {
    RegexScanIff(regexes, line, re);
  }

  /**
   * When every regex compiles, a line is relayed exactly when some regex
   * matches it or some string pattern occurs in it.
   */
  lemma DecideWhenRegexesCompile(regexes: seq<string>, strings: seq<string>, line: string, re: RegexEngine)
    requires forall i :: 0 <= i < |regexes| ==> re(regexes[i], line) != None
    ensures Decide(regexes, strings, line, re) != None
    ensures Decide(regexes, strings, line, re) == Some(true) <==>
      (exists i :: 0 <= i < |regexes| && re(regexes[i], line) == Some(true)) ||
      (exists i :: 0 <= i < |strings| && Contains(line, strings[i]))
  {
    RegexScanIff(regexes, line, re);
    if exists i :: 0 <= i < |regexes| && re(regexes[i], line) == Some(true) {
      var i :| 0 <= i < |regexes| && re(regexes[i], line) == Some(true);
      FirstMatch(regexes, line, re, i);
    }
  }

  /** Some regex matches and none raises, so a first matching one exists. */
  lemma {:induction false} FirstMatch(patterns: seq<string>, line: string, re: RegexEngine, i: int)
    requires 0 <= i < |patterns| && re(patterns[i], line) == Some(true)
    requires forall j :: 0 <= j < |patterns| ==> re(patterns[j], line) != None
    ensures exists f :: FirstOutcome(patterns, line, re, f, Some(true))
    decreases i
  {
    if !NoneBefore(patterns, line, re, i) {
      var j :| 0 <= j < i && re(patterns[j], line) != Some(false);
      assert re(patterns[j], line) != None;
      assert re(patterns[j], line) == Some(true) by {
        var o := re(patterns[j], line);
        assert o.Some? && o.value != false;
      }
      FirstMatch(patterns, line, re, j);
    } else {
      assert FirstOutcome(patterns, line, re, i, Some(true));
    }
  }

  /** `out` sends the line, unchanged, once to each channel, in list order. */
  ghost predicate SentToEach(out: seq<Effect>, line: string, channels: seq<string>)
  {
    |out| == |channels| && forall i :: 0 <= i < |channels| ==> out[i] == Say(line, channels[i])
  }

  /** `for channel in channels: bot.say(line, channel)`. */
  method FanOut(line: string, channels: seq<string>) returns (out: seq<Effect>)
    ensures SentToEach(out, line, channels)
  {
    out := [];
    for n := 0 to |channels|
      invariant SentToEach(out, line, channels[..n])
    {
      out := out + [Say(line, channels[n])];
    }
    assert channels[..|channels|] == channels;
  }
}
