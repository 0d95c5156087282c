# DCleaner, modelled in Dafny

DCleaner is a Discord bot with two administrator-only slash commands:

- `/dclean` walks the guild's channel cache once and handles each channel:
  - a channel whose id is in `WHITELIST_CHANNEL_IDS` counts as skipped;
  - otherwise the lowercased name is checked against the name rules
    (`DELETE_IF_NAME_CONTAINS` and `DELETE_IF_NAME_STARTS_WITH`);
  - a matching channel counts as skipped when `DRY_RUN` is set;
  - otherwise the bot deletes it, and it counts as deleted when the delete succeeds.
  - The reply reports the two counters.
- `/dcreate` handles each entry of `AUTO_CREATE_CHANNELS` in turn:
  - it is skipped when the guild already has a channel with exactly that name;
  - otherwise it is created.
  - The reply reports how many creates succeeded.

This project models that logic. The platform's delete and create calls are
replaced by injected outcomes. The modules are:

- `Configuration` (`configuration.dfy`): channels, presets, the `CONFIG`
  block and the shipped values of `CONFIG`.
- `NameRules` (`name_rules.dfy`): the name matcher as pure functions. Each
  search function is proved equal to a reference definition (`IsSubstring`,
  `IsPrefix`, an existential over the rule words).
- `CleanPass` (`clean_pass.dfy`): the clean loop as a specification function
  `Run`. Lemmas give the counters in closed form. Other lemmas say exactly
  which ids get a delete issued and which get deleted. The rest cover the
  whitelist, dry-run mode and failed deletes.
- `CreatePass` (`create_pass.dfy`): the create loop as a specification
  function `Provision`. Lemmas cover:
  - `created` in closed form;
  - a create is issued for a preset's name exactly when the name is absent;
  - every channel added comes from a preset;
  - after a pass, each preset is present unless its create failed;
  - idempotence, and running the command twice (assuming the platform keeps
    the requested name; see "Left out").
- `Bot` (`bot.dfy`): a `Guild` class whose `channels` field is the channel
  cache. The two commands are loops in its methods, proved equal to `Run`
  and `Provision`. A successful delete removes the channel from the cache
  in place, and a successful create appends one. `HandleInteraction` holds
  the dispatch and the administrator gate.
- `Scenarios` (`scenarios.dfy`): the shipped rules on sample names, and
  small concrete runs.

Injected outcomes, in `CleanPass.Run` and `CreatePass.Provision`:

- `outcomes[i]` is what the platform would answer for the i-th channel or
  preset.
- It is read only when the pass actually issues that call.
  `CleanPass.OnlyIssuedDeletesMatter` proves that the other entries have no
  effect.

Not in the code, so not modelled: a cap on deletions per run, pattern
rules, a `dryrun` command option (`DRY_RUN` is configuration only) and any
command besides `dclean` and `dcreate`. Rule words are not lowercased; only
the channel name is (`NameRules.UppercaseWordNeverMatches`).

Notable behaviour that the model proves:

- Matching is by substring, so "golden-hour" matches the shipped rule
  "old" (`Scenarios.OldNameMatches`).
- The shipped preset "🎫┃tickets" matches the shipped rule "ticket"
  (`Scenarios.PresetsAgainstDefaultRules`). After a `/dcreate` whose tickets
  create succeeded, a live `/dclean` with the shipped configuration issues the
  delete of a channel of that name, and deletes it when that delete succeeds
  (`Scenarios.TicketsChannelIsCleanedLater`).

## Model

| member | source | states |
|---|---|---|
| `NameRules.LowerChar` | index.js:94 | an upper-case ASCII letter becomes the lower-case letter at the same alphabet position; every other character is unchanged; the result is never upper-case |
| `NameRules.ToLower` | index.js:94 | same length as the name, each character folded, no upper-case ASCII letter left |
| `NameRules.ToLowerIdempotent` | index.js:94 | lowercasing twice is lowercasing once |
| `NameRules.Includes` | index.js:96-98 | the search returns true exactly when the word occurs in the name at some offset |
| `NameRules.SomeIncludes` | index.js:96-98 | true exactly when some contains-word occurs in the name |
| `NameRules.SomeStartsWith` | index.js:99-101 | true exactly when the name starts with some starts-with word |
| `NameRules.IsPrefix` | index.js:99-101 | the starts-with test: the word is the first characters of the name |
| `NameRules.MatchesName` | index.js:94-103 | the verdict: the lowercased name is searched with the contains-words, then with the starts-with words; its meaning is the next row |
| `NameRules.MatchesNameMeaning` | index.js:94-103 | the matcher says a name matches exactly when some contains-word is a substring of the lowercased name or the lowercased name starts with some starts-with word |
| `NameRules.MatchesNameIgnoresCase` | index.js:94-103 | names that lowercase alike get the same verdict |
| `NameRules.UppercaseWordNeverMatches` | index.js:94-101 | a rule word holding an upper-case letter matches no name, as substring or as prefix, because only the name is lowercased |
| `Configuration.Whitelisted` | index.js:89-92 | a channel is whitelisted when its id is in the configured whitelist |
| `CleanPass.Candidate` | index.js:89-103 | a channel the pass acts on: not whitelisted, and its name matches a rule |
| `CleanPass.Visit` | index.js:89-115 | one loop iteration on the report; its effect on each kind of channel is stated by `CleanPass.ChannelEffect` |
| `CleanPass.Run` | index.js:85-116 | deleted + skipped never exceeds the number of channels visited; deleted is at most the number of deletes issued, which is at most the number of channels |
| `CleanPass.RunAppend` | index.js:88-116 | the pass over one more channel is one more loop iteration applied to the pass so far |
| `CleanPass.ChannelEffect` | index.js:89-115 | a whitelisted channel adds exactly 1 to skipped and nothing else; a channel matching no rule changes nothing; a matching channel adds 1 to skipped in dry-run mode, and otherwise gets a delete and adds 1 to deleted exactly when the delete succeeds |
| `CleanPass.DeletedIdsCounted` | index.js:108-110 | the number of distinct deleted ids is at most the deleted counter |
| `CleanPass.RunCounts` | index.js:85-116 | skipped = whitelisted channels (+ matching non-whitelisted channels in dry-run mode); deleted = 0 in dry-run mode, otherwise the number of matching non-whitelisted channels whose delete succeeded |
| `CleanPass.RequestedIds` | index.js:103-109 | a delete is issued for an id exactly when a matching non-whitelisted channel has it and the run is live |
| `CleanPass.DeletedIds` | index.js:103-110 | an id is deleted exactly when a matching non-whitelisted channel has it, the run is live and that delete succeeded |
| `CleanPass.WhitelistedNeverDeleted` | index.js:89-92 | a whitelisted channel never gets a delete and is never deleted, whatever its name |
| `CleanPass.DryRunDeletesNothing` | index.js:104-106 | in dry-run mode no delete is issued, deleted is 0 and skipped counts whitelisted plus matching channels |
| `CleanPass.RequestsIgnoreOutcomes` | index.js:108-113 | which deletes are issued, and skipped, do not depend on what earlier deletes reported: a failed delete does not stop the loop |
| `CleanPass.OnlyIssuedDeletesMatter` | index.js:103-113 | the report depends on the platform's answers only where a delete is issued |
| `CreatePass.FindByName` | index.js:129 | returns the first channel whose name equals the given name exactly, and nothing exactly when no channel has that name |
| `CreatePass.Offer` | index.js:129-140 | one loop iteration: a preset whose name is found is skipped, otherwise its create is issued and a success appends the channel and counts it |
| `CreatePass.Provision` | index.js:126-141 | created is at most the number of creates issued, which is at most the number of presets; the cache only grows, by exactly created channels appended after the old ones |
| `CreatePass.ProvisionAppend` | index.js:128-141 | the pass over one more preset is one more loop iteration applied to the pass so far |
| `CreatePass.IssuedOnlyWhenAbsent` | index.js:129-136 | every create issued is for a preset's name that no channel of the guild had, compared exactly |
| `CreatePass.AddedChannelsComeFromPresets` | index.js:131-137 | every added channel has a preset's name and type and the id its successful create reported |
| `CreatePass.FindByNameAppend` | index.js:129 | a name is found in the cache with one more channel exactly when it was found before or the new channel has it |
| `CreatePass.PresentAfterPass` | index.js:128-141 | after the pass a name is present exactly when it was present before or some preset with that name got a success answer |
| `CreatePass.CreatedCount` | index.js:128-141 | created equals the number of presets with a success answer whose name was neither in the cache nor created by an earlier preset |
| `CreatePass.CreatedCountDistinct` | index.js:128-141 | with distinct preset names, created equals the number of presets absent from the cache whose create succeeded |
| `CreatePass.RequestedNames` | index.js:129-132 | a create is issued for a name exactly when some preset has it and the cache did not have it before the pass |
| `CreatePass.ProvisionCovers` | index.js:128-141 | afterwards each preset's name is present in the guild unless its name was absent before and its create failed |
| `CreatePass.ProvisionIdempotent` | index.js:128-129 | if every preset name is already present, no create is issued, created is 0 and the cache is unchanged |
| `CreatePass.SecondRunCreatesNothing` | index.js:125-141 | a second run after a run without failures creates nothing and changes nothing |
| `Bot.Drop` | index.js:109 | removing deleted channels from the cache never lengthens it; which channels survive is stated by `Bot.DropMembers` |
| `Bot.DropMembers` | index.js:109 | exactly the channels whose id was not deleted survive |
| `Bot.WhitelistedSurvive` | index.js:89-92 | a whitelisted channel is still in the cache after the clean command |
| `Bot.DryRunKeepsChannels` | index.js:104-106 | in dry-run mode the clean command leaves the cache as it was |
| `Bot.Guild.DeleteChannel` | index.js:109 | on success the channel's id leaves the cache, on failure the cache is unchanged |
| `Bot.Guild.CreateChannel` | index.js:132-136 | on success the new channel is appended to the cache, on failure the cache is unchanged |
| `Bot.Guild.VisitChannel` | index.js:89-115 | one iteration of the clean loop yields the report of one `Visit` step, and the cache stays the snapshot without exactly the ids deleted so far |
| `Bot.Guild.Clean` | index.js:84-121 | the loop's report is `Run` over the cache as it was, and exactly the deleted ids leave the cache |
| `Bot.Guild.CreateDefaults` | index.js:125-147 | the loop's counter and the new cache are those of `Provision` over the cache as it was |
| `Bot.Route` | index.js:69-84 | a guild command from a non-administrator is denied; only an administrator's `dclean` or `dcreate` runs a pass; everything else is ignored |
| `Bot.HandleInteraction` | index.js:68-148 | a non-administrator invocation deletes nothing and creates nothing; a denied one gets the permission reply; the clean and create replies carry the counters of `Run` and `Provision` |
| `Scenarios.OldNameMatches` | index.js:94-98 | "OLD-chat" and "golden-hour" match the shipped rules through the word "old" |
| `Scenarios.ClosedNameMatches` | index.js:99-101 | "Closed-42" matches the shipped prefix "closed-" after lowercasing |
| `Scenarios.GeneralDoesNotMatch` | index.js:94-103 | "general" matches none of the shipped rules |
| `Scenarios.PresetsAgainstDefaultRules` | index.js:23-31 | the shipped preset "🎫┃tickets" matches the shipped clean rules; "💬┃general" does not |
| `Scenarios.ShippedPresetNamesDistinct` | index.js:28-32 | the shipped presets have pairwise distinct names |
| `Scenarios.TicketsChannelIsCleanedLater` | index.js:84-141 | after a create pass whose tickets create succeeded, a live clean pass with the shipped configuration issues the delete of a channel named "🎫┃tickets", and deletes it when that channel's own delete succeeds |
| `Scenarios.PrefixRuleOnlyAtStart` | index.js:99-101 | a prefix rule "old-" matches "OLD-chat" but not "newold-" |
| `Scenarios.LiveCleanOfTwoCandidates` | index.js:103-113 | two matching channels around a non-matching one, live, with successful deletes: deleted 2, skipped 0, the two ids deleted in order |
| `Scenarios.LiveCleanOfTwoTempChannels` | index.js:85-116 | with rule "temp", channels "temp-a", "general", "temp-b" give deleted 2 and only the temp channels deleted |
| `Scenarios.CreateComparesNamesExactly` | index.js:129 | an existing "💬┃General" does not stop the create of "💬┃general" |

## Left out

- The platform client, gateway intents, the ready handler, login and
  slash-command registration (index.js:36-65, 151). These are network I/O
  into a foreign library.
- Reading the bot token from the environment (index.js:1, 51, 151).
- `async`/`await`. The loops are strictly sequential. Each delete or create
  result is an injected value, not a call.
- Log output and the exact reply texts (index.js:105, 112, 118-121,
  139, 143-146). Replies are modelled as values carrying the counters.
- Lowercasing folds only the ASCII letters A-Z. JavaScript's
  `toLowerCase` also folds non-ASCII letters. Preset names containing
  emoji are compared only for exact equality.
- Channel types are opaque numeric tags.
- CreatePass.Offer: a successful create is assumed to store the channel under
  exactly the preset's name. The source only sends that name to the
  platform, and the platform may normalise it (lower-case it, replace
  spaces). The stored name is not part of the injected answer.
- Bot.Guild.CreateChannel: appends a channel with exactly the preset's name,
  under the same assumption as `CreatePass.Offer`.
- CreatePass.SecondRunCreatesNothing: holds only under that assumption. If
  the platform stores a normalised name, the exact-name lookup misses it and
  every later `/dcreate` creates that preset again. `CreatedCount`,
  `PresentAfterPass` and `ProvisionCovers` rest on the same assumption.
- The cache is a sequence in iteration order. A delete removes every
  entry with that id, which is the keyed-collection behaviour when ids are
  unique.
- The loop runs over a snapshot of the cache. The source iterates the live
  cache, and each awaited delete or create lets the client process other
  gateway events, which may add or remove channels the iteration has not
  reached yet. The model assumes that during a pass the cache changes only
  through that pass's own deletes and creates; under that assumption the
  visiting order is the snapshot's.
- Concurrent invocations of the commands, and channel events from outside
  the bot during a pass, are not modelled.
