# cvtfeed — a verified model of the Miraheze CVT feed relay plugin

`cvtfeed.py` is a plugin for the Sopel IRC bot. It watches a feed channel.
A line can come from the configured feed account in the configured feed
channel. If that line matches one of the admin-managed regex patterns
(anchored `re.match`), or failing that contains one of the string patterns,
the bot repeats it unchanged in every destination channel. Admins manage the
patterns with `.cvtpattern list|add|del string|regex [value]`. They turn the
feed on and off for the current channel with `.cvtfeed on|off`.

The model has one module per concern:

- `Wrappers`: `Option`, for Python's `None`.
- `Bot`: what a handler asks of the bot, as an ordered list of effects: `Say(text, target)`
  (`bot.say`), `Reply(text)` (`bot.reply`) and `Save` (`bot.config.save()`).
- `Text`: the string operations the plugin uses. These are `str.split()` with no argument
  (`Words`, over Python's whitespace characters), `sep.join` (`Join`) and substring `in`
  (`Contains`).
- `Identifiers`: sets of Sopel `tools.Identifier`. An Identifier keeps its text but compares
  modulo the host's normalisation. A set of them is a map from normalised key to the element
  the set keeps. The module defines the set rebuilt from a stored list (`Rebuild`), `set.add`
  (`Insert`), `set.remove` (`Remove`), set iteration (`Enumerate`) and list membership of an
  Identifier (`InList`). It proves that storing a set and rebuilding it loses nothing.
- `Matcher`: the relay decision (`RegexScan`, `AnyContains`, `Decide`) and the fan-out loop.
- `CvtFeed`: class `Plugin`. Its fields are the `cvtfeed` configuration section. Its methods
  are the three handlers. Each method returns the effects it performs and states the new
  configuration.
- `Findings`: the plain-string add of `.cvtpattern add` as written, and the input on which it
  differs from adding the Identifier (see "Findings" below).
- `Scenarios`: three scenarios verified against the `Plugin` contracts. A feed line is relayed to `#ops`. A pattern is added twice
  and then listed once. `cvtfeed off` in a channel that is not a destination changes nothing.

Two host facilities are parameters rather than re-implementations:

- **Identifier normalisation** (IRC case mapping) is the class constant `norm`. The model
  assumes only that `norm` is idempotent and that only the empty name normalises to the
  empty name. A case mapping may lengthen a name (lowering U+0130 gives two code points), so
  length is not assumed to be preserved.
- **Regex matching** is a `RegexEngine` passed to `MatchItems`. It gives `Some(true)` or
  `Some(false)` for a pattern that compiles, and `None` when `re.match` would raise.

Three behaviours of the code are easy to misread; the model follows the code:

- `match_items` does not skip a regex that fails to compile. The exception leaves `any()`
  and the handler, so nothing is sent; this is `Outcome.RegexError`.
- `trigger.sender` is an Identifier. Comparing it with `feed_channel` (cvtfeed.py:43), and
  testing it with `in destination_channels` (cvtfeed.py:141, cvtfeed.py:149), is done modulo
  normalisation. `trigger.account` is compared exactly, so an unset feed account matches a
  sender who is not logged in.
- `match_items` reads the stored lists as they are, with empty and repeated entries. Only the
  command handlers rebuild sets from them.

## Model

| member | source | states |
|---|---|---|
| Text.Words | cvtfeed.py:76 | every token of `str.split()` is non-empty and contains no whitespace |
| Text.WordsOfJoin | cvtfeed.py:76 | splitting words joined by single spaces gives back exactly those words, so a command written as tokens parses to those tokens |
| Text.Join | cvtfeed.py:81 | the joined text begins with the first item and is at least as long as every item |
| Text.Contains | cvtfeed.py:48 | the empty pattern occurs in every line, and a pattern longer than the line never does |
| Text.ContainsIff | cvtfeed.py:48 | `p in line` holds exactly when `p` occurs in `line` at some index |
| Text.JoinContains | cvtfeed.py:81-82 | every pattern in a `', '.join` listing occurs in the listing text |
| Identifiers.Rebuild | cvtfeed.py:74-75 | the rebuilt set holds only non-empty entries of the list, each under its own key, and holds a key for every non-empty entry |
| Identifiers.RebuildKeepsFirst | cvtfeed.py:74 | of entries equal modulo normalisation, the set keeps the first one in list order |
| Identifiers.Insert | cvtfeed.py:144 | `set.add` of an Identifier makes the key present, keeps every element already there, and stores the new text only if its key was absent (adding twice = adding once); `.cvtpattern add` uses it as the intended behaviour of cvtfeed.py:96 and :100 |
| Identifiers.Remove | cvtfeed.py:114 | `set.remove` deletes exactly the key of the value and keeps every other element |
| Identifiers.Enumerate | cvtfeed.py:81 | iterating a set yields each element exactly once and nothing else |
| Identifiers.StoreAdded | cvtfeed.py:96-98 | rebuilding the set, adding a value and storing the set again writes a list that rebuilds to the old set plus the value, each element once, and never two spellings of one name |
| Identifiers.StoreRemoved | cvtfeed.py:114-116 | rebuilding the set, removing a value's key and storing the set again writes a list that rebuilds to the old set minus that key, each element once |
| Identifiers.RebuildOfListing | cvtfeed.py:115-116 | a set stored as a list of its elements and rebuilt from that list is the same set |
| Identifiers.NoCaseVariants | cvtfeed.py:97-98 | a list stored from a set of Identifiers holds no two entries equal modulo normalisation |
| Identifiers.InList | cvtfeed.py:141 | an Identifier is `in` a stored list when the list holds its exact text, and exactly when some entry equals it modulo normalisation |
| Identifiers.ListedOnce | cvtfeed.py:80-82 | a listing shows a present pattern under exactly one entry, however often it was added |
| Identifiers.InListIff | cvtfeed.py:139-141 | a channel is `in` the stored destination list exactly when its key is in the rebuilt channel set |
| Matcher.RegexScanIff | cvtfeed.py:44 | the regex test succeeds iff some regex matches and all earlier ones compile without matching; it raises iff the first regex that does not simply fail to match fails to compile; otherwise it is false |
| Matcher.RegexScan | cvtfeed.py:44 | the regex test is false exactly when every regex compiles and none matches; when it raises, some regex fails to compile |
| Matcher.AnyContains | cvtfeed.py:48 | the string test succeeds iff some string pattern occurs in the line |
| Matcher.Decide | cvtfeed.py:44-52 | a regex match relays whatever the string patterns are; the decision raises exactly when the first regex that does not simply fail to match fails to compile; when no regex matches, the line is relayed iff some string pattern occurs in it |
| Matcher.RegexMatchRelays | cvtfeed.py:44-47 | a matching regex decides the relay whatever the string patterns are |
| Matcher.DecideWhenRegexesCompile | cvtfeed.py:44-52 | with compilable regexes, a line is relayed iff some regex matches it or some string pattern occurs in it, and the decision never raises |
| Matcher.FanOut | cvtfeed.py:45-46 | the line is said unchanged, once to each destination channel, in list order |
| CvtFeed.Plugin.constructor | cvtfeed.py:17-21 | the plugin starts from the five stored configuration values |
| CvtFeed.Plugin.FromFeed | cvtfeed.py:43 | a line is from the feed source only if the feed channel is set and the account equals the configured one (an unset account matches an unset one); the configured channel's own spelling always qualifies, and any qualifying sender equals it modulo normalisation |
| CvtFeed.Plugin.MatchItems | cvtfeed.py:41-53 | nothing is sent unless the line comes from the feed account and feed channel; from the feed, a regex that fails to compile raises; a regex match, or no regex match and a string match, sends the line to every destination in order; otherwise nothing is sent; the configuration is never changed |
| CvtFeed.Plugin.ListPatterns | cvtfeed.py:78-92 | `list string/regex` says a listing of exactly the elements of that set, or replies "No … listed" when it is empty; any other kind replies the invalid-display text; nothing is saved or changed |
| CvtFeed.Plugin.AddPattern | cvtfeed.py:94-107 | `add string/regex v` adds `v` to the chosen set only, stores that set, saves, then replies success; the other list is untouched; an unknown kind replies the invalid text with no save and no change |
| CvtFeed.Plugin.DelPattern | cvtfeed.py:109-128 | `del string/regex v` with `v` absent modulo normalisation replies not-found and changes nothing; otherwise removes exactly that key from the chosen set, stores it, saves, then replies success; an unknown kind replies the invalid text with no change |
| CvtFeed.Plugin.ManagePattern | cvtfeed.py:61-130 | dispatch on the split command: a 3-token `list`, a 4-token `add` or `del` behave as above; every other shape replies "could not figure out" and changes nothing |
| CvtFeed.Plugin.ManageChannel | cvtfeed.py:136-155 | `on` adds the channel only if it was not a destination (save, then "enabled"), else replies "already enabled" and changes nothing; `off` removes it only if it was one; afterwards the channel is a destination after `on` and is not after `off`; any other word does nothing |
| Findings.PlainStrFound | cvtfeed.py:96 | a plain str added to a set of Identifiers is found only when it is spelled exactly like a key, and when found its own key is present |
| Findings.StoredAsWritten | cvtfeed.py:96-102 | as written, the stored list holds the set's elements plus the added text unless the set found it, in an order set iteration decides, so it is one entry longer and holds the text whenever the text was not found |
| Findings.CaseVariantStoredTwice | cvtfeed.py:96-102 | as written, adding a name whose key is stored but which the set does not find (a case variant, or a stored spelling that is not normalised) stores two entries equal modulo normalisation, in every storage order |
| Findings.CaseVariantRelayed | cvtfeed.py:100-102 | as written, `stringpatterns = ["foo"]` then `add string FOO` stores "foo" and "FOO" once each, in an order set iteration decides, and in every such order the line "disk FOO" is relayed |
| Findings.IdenticalStoredTwice | cvtfeed.py:96-98 | as written, `regexpatterns = ["ERROR.*"]` then `add regex ERROR.*` stores the identical text twice |
| Findings.CaseVariantNotStored | cvtfeed.py:100-102 | adding the Identifier instead leaves the stored list at `["foo"]`, on which "disk FOO" is not relayed |
| Scenarios.AddTwice | cvtfeed.py:94-102 | adding the same string pattern twice to an empty configuration leaves the set holding it once |

## Left out

- Sopel's decorators and privilege checks (`@rule`, `@commands`, `@require_admin`, `@require_chanmsg`). The host enforces them before a handler runs.
- `setup`, `configure` and the `CVTFeedSection` schema (cvtfeed.py:14-36). These are configuration-framework wiring.
- Network I/O and the configuration file. `bot.say`, `bot.reply` and `bot.config.save()` are recorded as `Effect`s. The host's serialisation of list settings is treated as lossless: a pattern containing the host's list separator is not modelled.
- Regex semantics. `re.match` is the `RegexEngine` parameter.
- IRC case mapping. `tools.Identifier`'s normalisation is the `norm` parameter; only idempotence and "only the empty name normalises to the empty name" are assumed.
- The order of the comma-joined listing and of lists re-stored from a set. Python's set iteration order is unspecified, so contracts state contents and that each element appears once.
- CvtFeed.Plugin.ManageChannel: `.cvtfeed` with no argument raises `IndexError` (cvtfeed.py:140). The method requires at least two tokens instead. It also requires a non-empty sender, which every message has. `manage_channel` has no `@require_chanmsg` (cvtfeed.py:133-135), so in a private message the sender is the admin's nick and `.cvtfeed on` adds that nick as a destination; the model allows any non-empty sender and so covers that case.
- CvtFeed.Plugin.AddPattern: models the intended add of an Identifier, not the plain-str add at cvtfeed.py:96 and :100 (see Findings). As written, a case variant of a stored pattern is stored as a second entry, and so is the identical text of a stored pattern that is not in normalised form (re-adding `ERROR.*`, whose key is `error.*`). The extra entry stays in the stored list until the next successful add or del of that kind rebuilds it. Until then `match_items` relays on either spelling, case-sensitively, where the model relays only on the kept one. After the rebuild, which spelling is kept depends on the list order, which comes from set iteration.
- `Text.Words` covers the whitespace characters of Python's `str.split()` listed in `Text.IsSpace`; no other Unicode handling is modelled.
- The Python 2 `unicode` shim (cvtfeed.py:10-11).

## Findings

| source | as written | input that shows it | evidently intended | confidence | as-written member | corrected member |
|---|---|---|---|---|---|---|
| cvtfeed.py:96-100 | `.add(text[3])` adds the plain str to a set of Identifiers; the str is found only when spelled like a stored key, so a case variant, or a re-added pattern that is not normalised, is stored as a second entry | `stringpatterns = ["foo"]`, then `.cvtpattern add string FOO`, then the feed line "disk FOO": the stored list holds both "foo" and "FOO", in an order set iteration decides, and the line is relayed; re-adding a stored pattern that is not normalised (`add regex ERROR.*` over `["ERROR.*"]`) stores it twice | add `tools.Identifier(text[3])`, as cvtfeed.py:144 does for channels, so one spelling per name is stored and "disk FOO" is not relayed | medium, not executed | Findings.CaseVariantStoredTwice | Identifiers.StoreAdded |
