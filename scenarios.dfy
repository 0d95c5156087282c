/**
 * Concrete runs of the model: the shipped rules on sample names, and small
 * guilds run through both passes.
 */
module Scenarios {
  import opened Configuration
  import opened NameRules
  import opened CleanPass
  import opened CreatePass

  /** A word whose first character does not occur in `s` is not a substring of `s`. */
  lemma FirstCharAbsent(w: string, s: string)
    requires |w| > 0
    requires forall i :: 0 <= i < |s| ==> s[i] != w[0]
    ensures !IsSubstring(w, s)
  {
    forall i | 0 <= i <= |s| - |w|
      ensures !IsPrefix(w, s[i..])
    {
      assert s[i..][0] == s[i];
    }
  }

  /** A name matches the shipped rules as soon as its lowercase form holds "old". */
  lemma OldNameMatches()
    ensures MatchesName(DEFAULT_CONFIG, "OLD-chat")
    ensures MatchesName(DEFAULT_CONFIG, "golden-hour")
  {
    assert ToLower("OLD-chat")[0..][..3] == "old";
    assert "old" in DEFAULT_CONFIG.deleteIfNameContains;
    assert ToLower("golden-hour")[1..][..3] == "old";
  }

  /** A lowercased name starting with "closed-" matches the shipped rules. */
  lemma ClosedNameMatches()
    ensures MatchesName(DEFAULT_CONFIG, "Closed-42")
  {
    assert ToLower("Closed-42")[..7] == "closed-";
    assert "closed-" in DEFAULT_CONFIG.deleteIfNameStartsWith;
  }

  /** "general" holds none of the shipped words and starts with neither prefix. */
  lemma GeneralDoesNotMatch()
    ensures !MatchesName(DEFAULT_CONFIG, "general")
  {
    var lower := ToLower("general");
    assert lower == "general";
    forall w | w in DEFAULT_CONFIG.deleteIfNameContains
      ensures !IsSubstring(w, lower)
    {
      FirstCharAbsent(w, lower);
    }
    forall w | w in DEFAULT_CONFIG.deleteIfNameStartsWith
      ensures !IsPrefix(w, lower)
    {
      assert w[0] != lower[0];
    }
  }

  /**
   * Of the shipped presets, the tickets channel matches the shipped clean
   * rules ("ticket" is a substring of its name); the general channel does not.
   */
  lemma PresetsAgainstDefaultRules()
    ensures MatchesName(DEFAULT_CONFIG, DEFAULT_CONFIG.autoCreateChannels[2].name)
    ensures !MatchesName(DEFAULT_CONFIG, DEFAULT_CONFIG.autoCreateChannels[1].name)
  {
    var tickets := ToLower("🎫┃tickets");
    assert tickets[2..][..6] == "ticket";
    assert "ticket" in DEFAULT_CONFIG.deleteIfNameContains;
    var general := ToLower("💬┃general");
    assert general == "💬┃general";
    forall w | w in DEFAULT_CONFIG.deleteIfNameContains
      ensures !IsSubstring(w, general)
    {
      FirstCharAbsent(w, general);
    }
    forall w | w in DEFAULT_CONFIG.deleteIfNameStartsWith
      ensures !IsPrefix(w, general)
    {
      assert w[0] != general[0];
    }
  }

  /** The shipped presets have pairwise distinct names, so `CreatePass.CreatedCountDistinct` applies to them. */
  lemma ShippedPresetNamesDistinct()
    ensures DistinctNames(DEFAULT_CONFIG.autoCreateChannels)
  {
  }

  /**
   * The tickets channel that the create command provisions with the shipped
   * configuration is a clean candidate under the same configuration: after a
   * create pass whose tickets create succeeded, the guild has a channel of
   * that name, a live clean pass issues its delete, and it is deleted when
   * its own delete succeeds.
   */
  lemma TicketsChannelIsCleanedLater(cache: seq<Channel>, createOutcomes: seq<Option<ChannelId>>,
                                     deleteOutcomes: seq<bool>)
    requires |createOutcomes| == 3 && createOutcomes[2].Some?
    requires |deleteOutcomes| == |Provision(DEFAULT_CONFIG.autoCreateChannels, cache, createOutcomes).channels|
    ensures var after := Provision(DEFAULT_CONFIG.autoCreateChannels, cache, createOutcomes).channels;
      var report := Run(DEFAULT_CONFIG, after, deleteOutcomes);
      exists i :: && 0 <= i < |after| && after[i].name == "🎫┃tickets" && after[i].id in report.requested
                  && (deleteOutcomes[i] ==> after[i].id in report.deletedIds)
  {
    var presets := DEFAULT_CONFIG.autoCreateChannels;
    var after := Provision(presets, cache, createOutcomes).channels;
    var report := Run(DEFAULT_CONFIG, after, deleteOutcomes);
    assert SuccessNamed(presets, createOutcomes, presets[2].name);
    PresentAfterPass(presets, cache, createOutcomes, presets[2].name);
    var c := FindByName(after, presets[2].name).value;
    PresetsAgainstDefaultRules();
    assert Candidate(DEFAULT_CONFIG, c);
    RequestedIds(DEFAULT_CONFIG, after, deleteOutcomes, c.id);
    DeletedIds(DEFAULT_CONFIG, after, deleteOutcomes, c.id);
    var i :| 0 <= i < |after| && after[i] == c;
    assert c.id in report.requested;
  }

  /** A prefix rule matches whatever the name's case, and only at the start of the name. */
  lemma PrefixRuleOnlyAtStart()
    ensures var cfg := Config(false, [], ["old-"], [], []);
      MatchesName(cfg, "OLD-chat") && !MatchesName(cfg, "newold-")
  {
    assert ToLower("OLD-chat")[..4] == "old-";
    assert ToLower("newold-")[0] == 'n';
  }

  /** The rule set of a single substring word "temp", used by the scenario below. */
  const TEMP_RULES := Config(false, ["temp"], [], [], [])

  lemma TempRuleOnSampleNames()
    ensures MatchesName(TEMP_RULES, "temp-a") && MatchesName(TEMP_RULES, "temp-b")
    ensures !MatchesName(TEMP_RULES, "general")
  {
    assert ToLower("temp-a")[0..][..4] == "temp";
    assert ToLower("temp-b")[0..][..4] == "temp";
    assert ToLower("general") == "general";
    FirstCharAbsent("temp", "general");
  }

  /** Two candidates around a non-matching channel, live, both deletes succeeding. */
  lemma LiveCleanOfTwoCandidates(cfg: Config, a: Channel, g: Channel, b: Channel)
    requires !cfg.dryRun && Candidate(cfg, a) && Candidate(cfg, b)
    requires !Whitelisted(cfg, g) && !MatchesName(cfg, g.name)
    ensures Run(cfg, [a, g, b], [true, true, true]) == CleanReport(2, 0, [a.id, b.id], {a.id, b.id})
  {
    var r1 := CleanReport(1, 0, [a.id], {a.id});
    assert Run(cfg, [a], [true]) == r1 by {
      RunAppend(cfg, [], [], a, true);
      assert [] + [a] == [a] && [] + [true] == [true];
    }
    assert Run(cfg, [a, g], [true, true]) == r1 by {
      RunAppend(cfg, [a], [true], g, true);
      assert [a] + [g] == [a, g] && [true] + [true] == [true, true];
    }
    RunAppend(cfg, [a, g], [true, true], b, true);
    assert [a, g] + [b] == [a, g, b] && [true, true] + [true] == [true, true, true];
    assert [a.id] + [b.id] == [a.id, b.id];
  }

  /** Of "temp-a", "general" and "temp-b" under the rule "temp", both temp channels are deleted. */
  lemma LiveCleanOfTwoTempChannels()
    ensures Run(TEMP_RULES, [Channel("1", "temp-a", GUILD_TEXT), Channel("2", "general", GUILD_TEXT),
                             Channel("3", "temp-b", GUILD_TEXT)], [true, true, true])
         == CleanReport(2, 0, ["1", "3"], {"1", "3"})
  {
    TempRuleOnSampleNames();
    LiveCleanOfTwoCandidates(TEMP_RULES, Channel("1", "temp-a", GUILD_TEXT), Channel("2", "general", GUILD_TEXT),
                             Channel("3", "temp-b", GUILD_TEXT));
  }

  /** An existing channel whose name differs only in case does not stop a create. */
  lemma CreateComparesNamesExactly()
    ensures Provision([Preset("💬┃general", GUILD_TEXT)], [Channel("1", "💬┃General", GUILD_TEXT)], [Some("2")]).created == 1
  {
    var cache := [Channel("1", "💬┃General", GUILD_TEXT)];
    assert cache[0].name[2] != "💬┃general"[2];
    assert FindByName(cache, "💬┃general").None?;
    ProvisionAppend([], cache, [], Preset("💬┃general", GUILD_TEXT), Some("2"));
  }
}
