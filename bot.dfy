/**
 * The interaction handler: the administrator gate, and the two slash
 * commands run against a guild whose channel cache they change in place.
 *
 * `Guild.channels` is the guild's channel cache in iteration order. A
 * successful delete drops the channel from the cache and a successful create
 * appends the new channel to it, as the platform client does.
 */
module Bot {
  import opened Configuration
  import opened NameRules
  import opened CleanPass
  import opened CreatePass

  /** The channel list without every channel whose id is in `ids`. */
  function Drop(chans: seq<Channel>, ids: set<ChannelId>): (r: seq<Channel>)
    ensures |r| <= |chans|
  {
    if chans == [] then []
    else
      var n := |chans| - 1;
      Drop(chans[..n], ids) + (if chans[n].id in ids then [] else [chans[n]])
  }

  /** Exactly the channels whose id is not in `ids` survive a drop. */
  lemma {:induction false} DropMembers(chans: seq<Channel>, ids: set<ChannelId>, c: Channel)
    ensures c in Drop(chans, ids) <==> c in chans && c.id !in ids
  {
    if chans != [] {
      var n := |chans| - 1;
      DropMembers(chans[..n], ids, c);
      assert chans == chans[..n] + [chans[n]];
    }
  }

  /** Dropping one more id from a dropped list is dropping both at once. */
  lemma {:induction false} DropTwice(chans: seq<Channel>, ids: set<ChannelId>, id: ChannelId)
    ensures Drop(Drop(chans, ids), {id}) == Drop(chans, ids + {id})
  {
    if chans != [] {
      var n := |chans| - 1;
      DropTwice(chans[..n], ids, id);
      var kept := Drop(chans[..n], ids);
      var last := if chans[n].id in ids then [] else [chans[n]];
      assert Drop(chans, ids) == kept + last;
      DropAppend(kept, last, {id});
    }
  }

  lemma {:induction false} DropAppend(a: seq<Channel>, b: seq<Channel>, ids: set<ChannelId>)
    ensures Drop(a + b, ids) == Drop(a, ids) + Drop(b, ids)
    decreases |b|
  {
    if b == [] {
      assert a + b == a;
    } else {
      var n := |b| - 1;
      var last := if b[n].id in ids then [] else [b[n]];
      DropAppend(a, b[..n], ids);
      assert (a + b)[..|a + b| - 1] == a + b[..n] && (a + b)[|a + b| - 1] == b[n];
      assert Drop(a + b, ids) == Drop(a + b[..n], ids) + last;
      assert Drop(b, ids) == Drop(b[..n], ids) + last;
    }
  }

  class Guild {
    var channels: seq<Channel>

    constructor (channels: seq<Channel>)
      ensures this.channels == channels
    {
      this.channels := channels;
    }

    /** Deleting a channel through the platform, which reports `succeeds`. */
    method DeleteChannel(id: ChannelId, succeeds: bool) returns (ok: bool)
      modifies this
      ensures ok == succeeds
      ensures channels == if ok then Drop(old(channels), {id}) else old(channels)
    {
      ok := succeeds;
      if ok {
        channels := Drop(channels, {id});
      }
    }

    /** Creating a channel for a preset through the platform; `outcome` is the new channel's id, or a failure. */
    method CreateChannel(p: Preset, outcome: Option<ChannelId>) returns (ok: bool)
      modifies this
      ensures ok == outcome.Some?
      ensures channels == if ok then old(channels) + [Channel(outcome.value, p.name, p.kind)] else old(channels)
    {
      ok := outcome.Some?;
      if ok {
        channels := channels + [Channel(outcome.value, p.name, p.kind)];
      }
    }

    /**
     * The body of the clean loop, for one channel: skip it when whitelisted,
     * ignore it when no rule matches, count it as skipped in dry-run mode,
     * and otherwise issue its delete, which reports `succeeds`.
     */
    method VisitChannel(cfg: Config, channel: Channel, succeeds: bool, report: CleanReport,
                        ghost snapshot: seq<Channel>)
      returns (next: CleanReport)
      requires channels == Drop(snapshot, report.deletedIds)
      modifies this
      ensures next == Visit(cfg, report, channel, succeeds)
      ensures channels == Drop(snapshot, next.deletedIds)
    {
      next := report;
      if channel.id in cfg.whitelistChannelIds {
        next := next.(skipped := next.skipped + 1);
        return;
      }
      if MatchesName(cfg, channel.name) {
        if cfg.dryRun {
          next := next.(skipped := next.skipped + 1);
        } else {
          var ok := DeleteChannel(channel.id, succeeds);
          next := next.(requested := next.requested + [channel.id]);
          if ok {
            DropTwice(snapshot, next.deletedIds, channel.id);
            next := next.(deleted := next.deleted + 1, deletedIds := next.deletedIds + {channel.id});
          }
        }
      }
    }

    /**
     * The clean command: one pass over the channels, issuing deletes for the
     * candidates. The report is the specified pass, and exactly the
     * successfully deleted channels leave the cache.
     */
    method Clean(cfg: Config, deleteOutcomes: seq<bool>) returns (report: CleanReport)
      requires |deleteOutcomes| == |channels|
      modifies this
      ensures report == Run(cfg, old(channels), deleteOutcomes)
      ensures channels == Drop(old(channels), report.deletedIds)
    {
      var snapshot := channels;
      report := EMPTY_REPORT;
      DropNone(snapshot);
      for i := 0 to |snapshot|
        invariant report == Run(cfg, snapshot[..i], deleteOutcomes[..i])
        invariant channels == Drop(snapshot, report.deletedIds)
      {
        RunStep(cfg, snapshot, deleteOutcomes, i);
        report := VisitChannel(cfg, snapshot[i], deleteOutcomes[i], report, snapshot);
      }
      assert snapshot[..|snapshot|] == snapshot;
      assert deleteOutcomes[..|snapshot|] == deleteOutcomes;
    }

    /**
     * The create command: offers each preset in turn against the current
     * cache, so a channel created earlier in the pass counts as existing.
     */
    method CreateDefaults(cfg: Config, createOutcomes: seq<Option<ChannelId>>) returns (created: nat)
      requires |createOutcomes| == |cfg.autoCreateChannels|
      modifies this
      ensures created == Provision(cfg.autoCreateChannels, old(channels), createOutcomes).created
      ensures channels == Provision(cfg.autoCreateChannels, old(channels), createOutcomes).channels
    {
      var presets := cfg.autoCreateChannels;
      ghost var requested: seq<string> := [];
      created := 0;
      for i := 0 to |presets|
        invariant CreateReport(created, requested, channels) == Provision(presets[..i], old(channels), createOutcomes[..i])
      {
        var ch := presets[i];
        assert presets[..i + 1] == presets[..i] + [ch];
        assert createOutcomes[..i + 1] == createOutcomes[..i] + [createOutcomes[i]];
        ProvisionAppend(presets[..i], old(channels), createOutcomes[..i], ch, createOutcomes[i]);
        if FindByName(channels, ch.name).Some? {
          continue;
        }
        var ok := CreateChannel(ch, createOutcomes[i]);
        requested := requested + [ch.name];
        if ok {
          created := created + 1;
        }
      }
      assert presets[..|presets|] == presets;
      assert createOutcomes[..|presets|] == createOutcomes;
    }
  }

  lemma {:induction false} DropNone(chans: seq<Channel>)
    ensures Drop(chans, {}) == chans
  {
    if chans != [] {
      var n := |chans| - 1;
      DropNone(chans[..n]);
      assert chans == chans[..n] + [chans[n]];
    }
  }

  /** Whitelisted channels are still in the cache after the clean command. */
  lemma WhitelistedSurvive(cfg: Config, chans: seq<Channel>, outcomes: seq<bool>, c: Channel)
    requires |outcomes| == |chans|
    requires c in chans && Whitelisted(cfg, c)
    ensures c in Drop(chans, Run(cfg, chans, outcomes).deletedIds)
  {
    WhitelistedNeverDeleted(cfg, chans, outcomes, c);
    DropMembers(chans, Run(cfg, chans, outcomes).deletedIds, c);
  }

  /** In dry-run mode the clean command leaves the cache as it was. */
  lemma DryRunKeepsChannels(cfg: Config, chans: seq<Channel>, outcomes: seq<bool>)
    requires |outcomes| == |chans|
    requires cfg.dryRun
    ensures Drop(chans, Run(cfg, chans, outcomes).deletedIds) == chans
  {
    DryRunDeletesNothing(cfg, chans, outcomes);
    DropNone(chans);
  }

  /** What the handler needs from an incoming interaction. */
  datatype Interaction = Interaction(isChatInputCommand: bool, isAdministrator: bool, commandName: string)

  /** The one ephemeral reply of a handled command, or none. */
  datatype Reply = NoReply | NeedAdministrator | CleanupDone(deleted: nat, skipped: nat) | CreatedDone(created: nat)

  datatype Action = Ignore | Deny | RunClean | RunCreate

  /**
   * The handler's dispatch: non-command interactions and interactions
   * outside a guild are ignored; a member without the administrator
   * permission is denied whatever the command; otherwise the command name
   * selects the pass, and an unknown name does nothing.
   */
  function Route(inter: Interaction, inGuild: bool): (a: Action)
    ensures a.Deny? <==> inter.isChatInputCommand && inGuild && !inter.isAdministrator
    ensures a.RunClean? || a.RunCreate? ==> inter.isChatInputCommand && inGuild && inter.isAdministrator
    ensures a.RunClean? <==> inter.isChatInputCommand && inGuild && inter.isAdministrator && inter.commandName == "dclean"
    ensures a.RunCreate? <==> inter.isChatInputCommand && inGuild && inter.isAdministrator && inter.commandName == "dcreate"
  {
    if !inter.isChatInputCommand || !inGuild then Ignore
    else if !inter.isAdministrator then Deny
    else if inter.commandName == "dclean" then RunClean
    else if inter.commandName == "dcreate" then RunCreate
    else Ignore
  }

  /**
   * The `interactionCreate` handler. A non-administrator invocation deletes
   * nothing and creates nothing.
   */
  method HandleInteraction(cfg: Config, inter: Interaction, guild: Guild?,
                           deleteOutcomes: seq<bool>, createOutcomes: seq<Option<ChannelId>>)
    returns (reply: Reply)
    requires guild != null ==> |deleteOutcomes| == |guild.channels|
    requires |createOutcomes| == |cfg.autoCreateChannels|
    modifies guild
    ensures guild != null && !inter.isAdministrator ==> guild.channels == old(guild.channels)
    ensures Route(inter, guild != null).Ignore? ==> reply.NoReply? && (guild != null ==> guild.channels == old(guild.channels))
    ensures Route(inter, guild != null).Deny? ==> reply.NeedAdministrator?
    ensures Route(inter, guild != null).RunClean? ==>
      var r := Run(cfg, old(guild.channels), deleteOutcomes);
      reply == CleanupDone(r.deleted, r.skipped) && guild.channels == Drop(old(guild.channels), r.deletedIds)
    ensures Route(inter, guild != null).RunCreate? ==>
      var r := Provision(cfg.autoCreateChannels, old(guild.channels), createOutcomes);
      reply == CreatedDone(r.created) && guild.channels == r.channels
  {
    match Route(inter, guild != null)
    case Ignore =>
      reply := NoReply;
    case Deny =>
      reply := NeedAdministrator;
    case RunClean =>
      var report := guild.Clean(cfg, deleteOutcomes);
      reply := CleanupDone(report.deleted, report.skipped);
    case RunCreate =>
      var created := guild.CreateDefaults(cfg, createOutcomes);
      reply := CreatedDone(created);
  }
}
