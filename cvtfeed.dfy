/**
 * The `cvtfeed` Sopel plugin: relays lines posted by a trusted account in a
 * feed channel to destination channels when they match configured string or
 * regex patterns, and lets admins manage the patterns and the destinations.
 * The `cvtfeed` configuration section is the state of a `Plugin` object; each
 * handler returns the effects it asks of the bot, in order.
 */
module CvtFeed {
  import opened Wrappers
  import opened Text
  import opened Identifiers
  import opened Matcher
  import opened Bot

  // Reply texts of `manage_pattern` and `manage_channel`.
  function SuccessDel(v: string): (r: string) { "Successfully deleted pattern: " + v }
  function SuccessAdd(v: string): (r: string) { "Successfully added pattern: " + v }
  function NoString(v: string): (r: string) { "No matching string pattern found for: " + v }
  function NoRegex(v: string): (r: string) { "No matching regex pattern found for: " + v }
  function Invalid(action: string): (r: string)
  {
    "Invalid format for " + action + " a pattern. Try: .cvtpattern add (string|regex) sopel"
  }
  const InvalidDisplay := "Invalid input for displaying patterns."
  function NoneListed(what: string): (r: string) { "No " + what + " listed in the patterns list." }
  const Huh := "I could not figure out what you wanted to do."
  function Patterns(items: seq<string>): (r: string) { "Patterns: " + Join(items, ", ") }
  const AlreadyEnabled := "The feed is already enabled for this channel"
  const Enabled := "Successfully enabled the feed for this channel"
  const AlreadyDisabled := "The feed is already disabled for this channel"
  const Disabled := "Successfully disabled the feed for this channel"

  /** `text` is the listing reply for a set holding `elements`, joined in some iteration order. */
  ghost predicate IsListing(text: string, elements: set<string>)
  {
    exists items :: Lists(items, elements) && text == Patterns(items)
  }

  // Shapes of a `cvtpattern` command, as split on whitespace.
  predicate IsListCommand(text: seq<string>) { |text| == 3 && text[1] == "list" }
  predicate IsAddCommand(text: seq<string>) { |text| == 4 && text[1] == "add" }
  predicate IsDelCommand(text: seq<string>) { |text| == 4 && text[1] == "del" }

  /** How `match_items` ends: normally, having sent `effects`, or by a regex failing to compile. */
  datatype Outcome = Returned(effects: seq<Effect>) | RegexError

  class Plugin {
    // The `cvtfeed` configuration section as stored (lists may hold
    // empty entries and entries equal modulo normalisation).
    var stringpatterns: seq<string>
    var regexpatterns: seq<string>
    var destinationChannels: seq<string>
    var feedAccount: Option<string>
    var feedChannel: Option<string>
    /** The host's Identifier normalisation (IRC case mapping). */
    const norm: string -> string

    ghost predicate Valid()
    {
      IsNormalisation(norm)
    }

    /** The configuration as loaded at start-up. */
    constructor (norm: string -> string, stringpatterns: seq<string>, regexpatterns: seq<string>,
                 destinationChannels: seq<string>, feedAccount: Option<string>, feedChannel: Option<string>)
      requires IsNormalisation(norm)
      ensures Valid() && this.norm == norm
      ensures this.stringpatterns == stringpatterns && this.regexpatterns == regexpatterns
      ensures this.destinationChannels == destinationChannels
      ensures this.feedAccount == feedAccount && this.feedChannel == feedChannel
    {
      this.norm := norm;
      this.stringpatterns := stringpatterns;
      this.regexpatterns := regexpatterns;
      this.destinationChannels := destinationChannels;
      this.feedAccount := feedAccount;
      this.feedChannel := feedChannel;
    }

    // The sets the command handlers rebuild from the stored lists.
    ghost function Strings(): IdSet reads this { Rebuild(stringpatterns, norm) }
    ghost function Regexes(): IdSet reads this { Rebuild(regexpatterns, norm) }
    ghost function Channels(): IdSet reads this { Rebuild(destinationChannels, norm) }

    /**
     * The line comes from the feed source: the sender's account equals the
     * configured one (both may be unset) and the channel, an Identifier,
     * equals the configured channel modulo normalisation.
     */
    predicate FromFeed(account: Option<string>, sender: string): (r: bool)
      reads this
      ensures feedChannel == None ==> !r
      ensures account != feedAccount ==> !r
      ensures account == feedAccount && feedChannel == Some(sender) ==> r
      ensures r ==> norm(sender) == norm(feedChannel.value)
    {
      account == feedAccount && feedChannel.Some? && norm(sender) == norm(feedChannel.value)
    }

    /** `match_items`: relay a channel line when it comes from the feed source and matches a pattern. */
    method MatchItems(account: Option<string>, sender: string, line: string, re: RegexEngine)
      returns (r: Outcome)
      ensures !FromFeed(account, sender) ==> r == Returned([])
      ensures FromFeed(account, sender) ==>
        match Decide(regexpatterns, stringpatterns, line, re)
        case None => r == RegexError
        case Some(true) => r.Returned? && SentToEach(r.effects, line, destinationChannels)
        case Some(false) => r == Returned([])
    {
      if FromFeed(account, sender) {
        var regexHit := RegexScan(regexpatterns, line, re);
        if regexHit == None {
          return RegexError;
        } else if regexHit == Some(true) {
          var out := FanOut(line, destinationChannels);
          return Returned(out);
        } else if AnyContains(stringpatterns, line) {
          var out := FanOut(line, destinationChannels);
          return Returned(out);
        }
        return Returned([]);
      }
      return Returned([]);
    }

    /** The `list string|regex` branch of `manage_pattern`; it reads the configuration only. */
    method ListPatterns(kind: string, sender: string) returns (out: seq<Effect>)
      ensures kind == "string" ==>
        if |Strings()| > 0
        then |out| == 1 && out[0].Say? && out[0].target == sender && IsListing(out[0].text, Strings().Values)
        else out == [Reply(NoneListed("strings"))]
      ensures kind == "regex" ==>
        if |Regexes()| > 0
        then |out| == 1 && out[0].Say? && out[0].target == sender && IsListing(out[0].text, Regexes().Values)
        else out == [Reply(NoneListed("regex patterns"))]
      ensures kind != "string" && kind != "regex" ==> out == [Reply(InvalidDisplay)]
    {
      var strings := Rebuild(stringpatterns, norm);
      var regexes := Rebuild(regexpatterns, norm);
      if kind == "string" {
        if |strings| > 0 {
          var items := Enumerate(strings.Values);
          out := [Say(Patterns(items), sender)];
        } else {
          out := [Reply(NoneListed("strings"))];
        }
      } else if kind == "regex" {
        if |regexes| > 0 {
          var items := Enumerate(regexes.Values);
          out := [Say(Patterns(items), sender)];
        } else {
          out := [Reply(NoneListed("regex patterns"))];
        }
      } else {
        out := [Reply(InvalidDisplay)];
      }
    }

    /** The `add string|regex value` branch of `manage_pattern`. */
    method AddPattern(kind: string, value: string) returns (out: seq<Effect>)
      requires Valid() && value != ""
      modifies this
      ensures Valid()
      ensures destinationChannels == old(destinationChannels)
      ensures feedAccount == old(feedAccount) && feedChannel == old(feedChannel)
      ensures kind == "regex" ==>
        && Regexes() == Insert(old(Regexes()), value, norm)
        && Lists(regexpatterns, Regexes().Values)
        && stringpatterns == old(stringpatterns)
        && out == [Save, Reply(SuccessAdd(value))]
      ensures kind == "string" ==>
        && Strings() == Insert(old(Strings()), value, norm)
        && Lists(stringpatterns, Strings().Values)
        && regexpatterns == old(regexpatterns)
        && out == [Save, Reply(SuccessAdd(value))]
      ensures kind != "string" && kind != "regex" ==>
        unchanged(this) && out == [Reply(Invalid("adding"))]
    {
      if kind == "regex" {
        regexpatterns := StoreAdded(regexpatterns, value, norm);
        out := [Save, Reply(SuccessAdd(value))];
      } else if kind == "string" {
        stringpatterns := StoreAdded(stringpatterns, value, norm);
        out := [Save, Reply(SuccessAdd(value))];
      } else {
        out := [Reply(Invalid("adding"))];
      }
    }

    /** The `del string|regex value` branch of `manage_pattern`. */
    method DelPattern(kind: string, value: string) returns (out: seq<Effect>)
      requires Valid()
      modifies this
      ensures Valid()
      ensures destinationChannels == old(destinationChannels)
      ensures feedAccount == old(feedAccount) && feedChannel == old(feedChannel)
      ensures kind == "regex" ==>
        if norm(value) in old(Regexes()) then
          && Regexes() == Remove(old(Regexes()), value, norm)
          && Lists(regexpatterns, Regexes().Values)
          && stringpatterns == old(stringpatterns)
          && out == [Save, Reply(SuccessDel(value))]
        else unchanged(this) && out == [Reply(NoRegex(value))]
      ensures kind == "string" ==>
        if norm(value) in old(Strings()) then
          && Strings() == Remove(old(Strings()), value, norm)
          && Lists(stringpatterns, Strings().Values)
          && regexpatterns == old(regexpatterns)
          && out == [Save, Reply(SuccessDel(value))]
        else unchanged(this) && out == [Reply(NoString(value))]
      ensures kind != "string" && kind != "regex" ==>
        unchanged(this) && out == [Reply(Invalid("deleting"))]
    {
      if kind == "regex" {
        var regexes := Rebuild(regexpatterns, norm);
        if norm(value) !in regexes {
          out := [Reply(NoRegex(value))];
          return;
        }
        regexpatterns := StoreRemoved(regexpatterns, value, norm);
        out := [Save, Reply(SuccessDel(value))];
      } else if kind == "string" {
        var strings := Rebuild(stringpatterns, norm);
        if norm(value) !in strings {
          out := [Reply(NoString(value))];
          return;
        }
        stringpatterns := StoreRemoved(stringpatterns, value, norm);
        out := [Save, Reply(SuccessDel(value))];
      } else {
        out := [Reply(Invalid("deleting"))];
      }
    }

    /**
     * `manage_pattern`: dispatch on the whitespace-split command
     * `.cvtpattern list|add|del string|regex [value]`. Each branch's
     * contract is that of the method it calls.
     */
    method ManagePattern(line: string, sender: string) returns (out: seq<Effect>)
      requires Valid()
      modifies this
      ensures Valid()
      ensures destinationChannels == old(destinationChannels)
      ensures feedAccount == old(feedAccount) && feedChannel == old(feedChannel)
      ensures var text := Words(line); IsListCommand(text) ==> unchanged(this)
      ensures var text := Words(line); IsListCommand(text) && text[2] == "string" ==>
        if |old(Strings())| > 0
        then |out| == 1 && out[0].Say? && out[0].target == sender && IsListing(out[0].text, old(Strings()).Values)
        else out == [Reply(NoneListed("strings"))]
      ensures var text := Words(line); IsListCommand(text) && text[2] == "regex" ==>
        if |old(Regexes())| > 0
        then |out| == 1 && out[0].Say? && out[0].target == sender && IsListing(out[0].text, old(Regexes()).Values)
        else out == [Reply(NoneListed("regex patterns"))]
      ensures var text := Words(line); IsListCommand(text) && text[2] != "string" && text[2] != "regex" ==>
        out == [Reply(InvalidDisplay)]
      ensures var text := Words(line); IsAddCommand(text) && text[2] == "regex" ==>
        && Regexes() == Insert(old(Regexes()), text[3], norm)
        && Lists(regexpatterns, Regexes().Values)
        && stringpatterns == old(stringpatterns)
        && out == [Save, Reply(SuccessAdd(text[3]))]
      ensures var text := Words(line); IsAddCommand(text) && text[2] == "string" ==>
        && Strings() == Insert(old(Strings()), text[3], norm)
        && Lists(stringpatterns, Strings().Values)
        && regexpatterns == old(regexpatterns)
        && out == [Save, Reply(SuccessAdd(text[3]))]
      ensures var text := Words(line); IsAddCommand(text) && text[2] != "string" && text[2] != "regex" ==>
        unchanged(this) && out == [Reply(Invalid("adding"))]
      ensures var text := Words(line); IsDelCommand(text) && text[2] == "regex" ==>
        if norm(text[3]) in old(Regexes()) then
          && Regexes() == Remove(old(Regexes()), text[3], norm)
          && Lists(regexpatterns, Regexes().Values)
          && stringpatterns == old(stringpatterns)
          && out == [Save, Reply(SuccessDel(text[3]))]
        else unchanged(this) && out == [Reply(NoRegex(text[3]))]
      ensures var text := Words(line); IsDelCommand(text) && text[2] == "string" ==>
        if norm(text[3]) in old(Strings()) then
          && Strings() == Remove(old(Strings()), text[3], norm)
          && Lists(stringpatterns, Strings().Values)
          && regexpatterns == old(regexpatterns)
          && out == [Save, Reply(SuccessDel(text[3]))]
        else unchanged(this) && out == [Reply(NoString(text[3]))]
      ensures var text := Words(line); IsDelCommand(text) && text[2] != "string" && text[2] != "regex" ==>
        unchanged(this) && out == [Reply(Invalid("deleting"))]
      ensures var text := Words(line); !IsListCommand(text) && !IsAddCommand(text) && !IsDelCommand(text) ==>
        unchanged(this) && out == [Reply(Huh)]
    {
      var text := Words(line);
      if |text| == 3 && text[1] == "list" {
        out := ListPatterns(text[2], sender);
      } else if |text| == 4 && text[1] == "add" {
        out := AddPattern(text[2], text[3]);
      } else if |text| == 4 && text[1] == "del" {
        out := DelPattern(text[2], text[3]);
      } else {
        out := [Reply(Huh)];
      }
    }

    /** `manage_channel`: `cvtfeed on|off` for the channel the command was sent in. */
    method ManageChannel(line: string, sender: string) returns (out: seq<Effect>)
      requires Valid() && |Words(line)| >= 2 && sender != ""
      modifies this
      ensures Valid()
      ensures stringpatterns == old(stringpatterns) && regexpatterns == old(regexpatterns)
      ensures feedAccount == old(feedAccount) && feedChannel == old(feedChannel)
      ensures var text := Words(line); text[1] == "on" ==>
        if InList(old(destinationChannels), sender, norm) then
          unchanged(this) && out == [Say(AlreadyEnabled, sender)]
        else
          && Channels() == Insert(old(Channels()), sender, norm)
          && Lists(destinationChannels, Channels().Values)
          && out == [Save, Say(Enabled, sender)]
      ensures var text := Words(line); text[1] == "off" ==>
        if InList(old(destinationChannels), sender, norm) then
          && Channels() == Remove(old(Channels()), sender, norm)
          && Lists(destinationChannels, Channels().Values)
          && out == [Save, Say(Disabled, sender)]
        else
          unchanged(this) && out == [Say(AlreadyDisabled, sender)]
      ensures var text := Words(line); text[1] != "on" && text[1] != "off" ==> unchanged(this) && out == []
      // the state the command asks for holds afterwards
      ensures var text := Words(line); text[1] == "on" ==> InList(destinationChannels, sender, norm)
      ensures var text := Words(line); text[1] == "off" ==> !InList(destinationChannels, sender, norm)
    {
      var text := Words(line);
      InListIff(destinationChannels, sender, norm);
      if text[1] == "on" {
        if InList(destinationChannels, sender, norm) {
          out := [Say(AlreadyEnabled, sender)];
        } else {
          destinationChannels := StoreAdded(destinationChannels, sender, norm);
          InListIff(destinationChannels, sender, norm);
          out := [Save, Say(Enabled, sender)];
        }
      } else if text[1] == "off" {
        if !InList(destinationChannels, sender, norm) {
          out := [Say(AlreadyDisabled, sender)];
        } else {
          destinationChannels := StoreRemoved(destinationChannels, sender, norm);
          InListIff(destinationChannels, sender, norm);
          out := [Save, Say(Disabled, sender)];
        }
      } else {
        out := [];
      }
    }
  }
}
