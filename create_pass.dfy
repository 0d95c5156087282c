/**
 * The create command's pass over AUTO_CREATE_CHANNELS, as a specification.
 *
 * For each preset in order, the pass looks in the guild's current channel
 * cache for a channel with exactly the preset's name (case-sensitive, no
 * lowercasing). If one exists the preset is skipped; otherwise a create is
 * issued, and on success the new channel joins the cache and `created` grows
 * by one. A failed create only gets logged.
 *
 * The platform's answers are injected: `outcomes[i]` is what the create for
 * `presets[i]` would report, `Some(id)` for a channel created with that id and
 * `None` for a failure. It is consulted only when that create is issued.
 */
module CreatePass {
  import opened Configuration

  /** The first channel of the cache whose name equals `name` exactly, if there is one. */
  function FindByName(chans: seq<Channel>, name: string): (r: Option<Channel>)
    ensures r.None? <==> forall c :: c in chans ==> c.name != name
    ensures r.Some? ==> r.value in chans && r.value.name == name
    ensures r.Some? ==> exists i :: 0 <= i < |chans| && chans[i] == r.value &&
                                    forall j :: 0 <= j < i ==> chans[j].name != name
  {
    if chans == [] then None
    else if chans[0].name == name then Some(chans[0])
    else
      var r := FindByName(chans[1..], name);
      if r.Some? then
        var i :| 0 <= i < |chans[1..]| && chans[1..][i] == r.value &&
                 forall j :: 0 <= j < i ==> chans[1..][j].name != name;
        assert chans[i + 1] == r.value;
        assert forall j :: 0 <= j < i + 1 ==> chans[j].name != name by {
          forall j | 0 < j < i + 1
            ensures chans[j].name != name
          {
            assert chans[j] == chans[1..][j - 1];
          }
        }
        r
      else
        assert chans == [chans[0]] + chans[1..];
        r
  }

  /**
   * What one create pass produces: the created counter of the reply, the
   * names for which a create was issued (in order) and the channel cache
   * afterwards.
   */
  datatype CreateReport = CreateReport(created: nat, requested: seq<string>, channels: seq<Channel>)

  /** One iteration of the loop: offering preset `p`, whose create would report `outcome`. */
  function Offer(r: CreateReport, p: Preset, outcome: Option<ChannelId>): CreateReport
  {
    if FindByName(r.channels, p.name).Some? then r
    else
      match outcome
      case Some(id) => CreateReport(r.created + 1, r.requested + [p.name], r.channels + [Channel(id, p.name, p.kind)])
      case None => r.(requested := r.requested + [p.name])
  }

  /** The report after offering all of `presets` in order, starting from the cache `cache`. */
  function Provision(presets: seq<Preset>, cache: seq<Channel>, outcomes: seq<Option<ChannelId>>): (r: CreateReport)
    requires |outcomes| == |presets|
    ensures r.created <= |r.requested| <= |presets|
    ensures |r.channels| == |cache| + r.created
    ensures r.channels[..|cache|] == cache
  {
    if presets == [] then CreateReport(0, [], cache)
    else
      var n := |presets| - 1;
      var prev := Provision(presets[..n], cache, outcomes[..n]);
      assert forall c: Channel :: (prev.channels + [c])[..|cache|] == prev.channels[..|cache|];
      Offer(prev, presets[n], outcomes[n])
  }

  /** Offering one more preset is one more iteration. */
  lemma ProvisionAppend(presets: seq<Preset>, cache: seq<Channel>, outcomes: seq<Option<ChannelId>>,
                        p: Preset, outcome: Option<ChannelId>)
    requires |outcomes| == |presets|
    ensures Provision(presets + [p], cache, outcomes + [outcome]) == Offer(Provision(presets, cache, outcomes), p, outcome)
  {
    assert (presets + [p])[..|presets|] == presets;
    assert (outcomes + [outcome])[..|presets|] == outcomes;
  }

  /**
   * A create is issued only for a preset's name, and only when no channel
   * of the guild had exactly that name.
   */
  lemma {:induction false} IssuedOnlyWhenAbsent(presets: seq<Preset>, cache: seq<Channel>,
                                                outcomes: seq<Option<ChannelId>>, k: nat)
    requires |outcomes| == |presets|
    requires k < |Provision(presets, cache, outcomes).requested|
    ensures var name := Provision(presets, cache, outcomes).requested[k];
      && (forall c :: c in cache ==> c.name != name)
      && exists p :: p in presets && p.name == name
  {
    var n := |presets| - 1;
    var prev := Provision(presets[..n], cache, outcomes[..n]);
    var r := Provision(presets, cache, outcomes);
    assert r == Offer(prev, presets[n], outcomes[n]);
    assert r.requested[..|prev.requested|] == prev.requested;
    if k < |prev.requested| {
      IssuedOnlyWhenAbsent(presets[..n], cache, outcomes[..n], k);
      assert r.requested[k] == prev.requested[k];
      var p :| p in presets[..n] && p.name == prev.requested[k];
      assert p in presets;
    } else {
      assert FindByName(prev.channels, presets[n].name).None?;
      assert r.requested[k] == presets[n].name;
      assert presets[n] in presets;
      forall c | c in cache
        ensures c.name != presets[n].name
      {
        var j :| 0 <= j < |cache| && cache[j] == c;
        assert prev.channels[j] == c;
      }
    }
  }

  /**
   * Every channel the pass adds was created for some preset, with that
   * preset's name and type and the id the platform reported.
   */
  lemma {:induction false} AddedChannelsComeFromPresets(presets: seq<Preset>, cache: seq<Channel>,
                                                        outcomes: seq<Option<ChannelId>>, k: nat)
    requires |outcomes| == |presets|
    requires |cache| <= k < |Provision(presets, cache, outcomes).channels|
    ensures var c := Provision(presets, cache, outcomes).channels[k];
      exists i :: 0 <= i < |presets| && outcomes[i] == Some(c.id) && presets[i] == Preset(c.name, c.kind)
  {
    var n := |presets| - 1;
    var prev := Provision(presets[..n], cache, outcomes[..n]);
    var r := Provision(presets, cache, outcomes);
    if k < |prev.channels| {
      AddedChannelsComeFromPresets(presets[..n], cache, outcomes[..n], k);
      var c := prev.channels[k];
      var i :| 0 <= i < n && outcomes[..n][i] == Some(c.id) && presets[..n][i] == Preset(c.name, c.kind);
      assert r.channels[k] == c;
      assert outcomes[i] == Some(c.id) && presets[i] == Preset(c.name, c.kind);
    } else {
      assert r.channels[k] == Channel(outcomes[n].value, presets[n].name, presets[n].kind);
    }
  }

  /** A name is found in a cache with one more channel exactly when it was found before or the new channel has it. */
  lemma FindByNameAppend(chans: seq<Channel>, c: Channel, name: string)
    ensures FindByName(chans + [c], name).Some? <==> FindByName(chans, name).Some? || c.name == name
  {
    if FindByName(chans, name).Some? {
      assert FindByName(chans, name).value in chans + [c];
    }
    if c.name == name {
      assert c in chans + [c];
    }
    if FindByName(chans + [c], name).Some? {
      var d := FindByName(chans + [c], name).value;
      assert d in chans || d == c;
    }
  }

  /** Some preset named `name` has an answer that reports a created channel. */
  ghost predicate SuccessNamed(presets: seq<Preset>, outcomes: seq<Option<ChannelId>>, name: string)
    requires |outcomes| == |presets|
  {
    exists j :: 0 <= j < |presets| && presets[j].name == name && outcomes[j].Some?
  }

  lemma SuccessNamedStep(presets: seq<Preset>, outcomes: seq<Option<ChannelId>>, name: string)
    requires |outcomes| == |presets| && presets != []
    ensures var n := |presets| - 1;
      SuccessNamed(presets, outcomes, name) <==>
        SuccessNamed(presets[..n], outcomes[..n], name) || (presets[n].name == name && outcomes[n].Some?)
  {
    var n := |presets| - 1;
    if SuccessNamed(presets, outcomes, name) {
      var j :| 0 <= j < |presets| && presets[j].name == name && outcomes[j].Some?;
      if j < n {
        assert presets[..n][j] == presets[j] && outcomes[..n][j] == outcomes[j];
      }
    }
    if SuccessNamed(presets[..n], outcomes[..n], name) {
      var j :| 0 <= j < n && presets[..n][j].name == name && outcomes[..n][j].Some?;
      assert presets[j] == presets[..n][j] && outcomes[j] == outcomes[..n][j];
    }
  }

  /**
   * After the pass a channel with a given name is in the cache exactly when
   * it was there before, or some preset with that name got a success answer:
   * the first such preset whose name was still absent had its create issued.
   */
  lemma {:induction false} PresentAfterPass(presets: seq<Preset>, cache: seq<Channel>,
                                            outcomes: seq<Option<ChannelId>>, name: string)
    requires |outcomes| == |presets|
    ensures FindByName(Provision(presets, cache, outcomes).channels, name).Some? <==>
      FindByName(cache, name).Some? || SuccessNamed(presets, outcomes, name)
  {
    if presets != [] {
      var n := |presets| - 1;
      var prev := Provision(presets[..n], cache, outcomes[..n]);
      var p, o := presets[n], outcomes[n];
      PresentAfterPass(presets[..n], cache, outcomes[..n], name);
      SuccessNamedStep(presets, outcomes, name);
      assert Provision(presets, cache, outcomes) == Offer(prev, p, o);
      if FindByName(prev.channels, p.name).None? && o.Some? {
        FindByNameAppend(prev.channels, Channel(o.value, p.name, p.kind), name);
      }
    }
  }

  /**
   * The number of creates that are issued and succeed: presets with a success
   * answer whose name was neither in the cache nor given a channel by an
   * earlier preset of the pass.
   */
  ghost function CountFresh(presets: seq<Preset>, cache: seq<Channel>, outcomes: seq<Option<ChannelId>>): nat
    requires |outcomes| == |presets|
  {
    if presets == [] then 0
    else
      var n := |presets| - 1;
      var counts := outcomes[n].Some? && FindByName(cache, presets[n].name).None? &&
                   !SuccessNamed(presets[..n], outcomes[..n], presets[n].name);
      CountFresh(presets[..n], cache, outcomes[..n]) + (if counts then 1 else 0)
  }

  /** The reply's counter in closed form. */
  lemma {:induction false} CreatedCount(presets: seq<Preset>, cache: seq<Channel>, outcomes: seq<Option<ChannelId>>)
    requires |outcomes| == |presets|
    ensures Provision(presets, cache, outcomes).created == CountFresh(presets, cache, outcomes)
  {
    if presets != [] {
      var n := |presets| - 1;
      var prev := Provision(presets[..n], cache, outcomes[..n]);
      CreatedCount(presets[..n], cache, outcomes[..n]);
      PresentAfterPass(presets[..n], cache, outcomes[..n], presets[n].name);
      assert Provision(presets, cache, outcomes) == Offer(prev, presets[n], outcomes[n]);
    }
  }

  /** No two presets share a name. */
  predicate DistinctNames(presets: seq<Preset>)
  {
    forall i, j :: 0 <= i < j < |presets| ==> presets[i].name != presets[j].name
  }

  /** The number of presets whose name is absent from the cache and whose answer is a success. */
  function CountAbsentSuccesses(presets: seq<Preset>, cache: seq<Channel>, outcomes: seq<Option<ChannelId>>): (k: nat)
    requires |outcomes| == |presets|
    ensures k <= |presets|
  {
    if presets == [] then 0
    else
      var n := |presets| - 1;
      CountAbsentSuccesses(presets[..n], cache, outcomes[..n]) +
        (if outcomes[n].Some? && FindByName(cache, presets[n].name).None? then 1 else 0)
  }

  /**
   * With pairwise distinct preset names, `created` is the number of presets
   * that were absent from the cache and whose create succeeded.
   */
  lemma {:induction false} CreatedCountDistinct(presets: seq<Preset>, cache: seq<Channel>,
                                                outcomes: seq<Option<ChannelId>>)
    requires |outcomes| == |presets|
    requires DistinctNames(presets)
    ensures Provision(presets, cache, outcomes).created == CountAbsentSuccesses(presets, cache, outcomes)
  {
    if presets != [] {
      var n := |presets| - 1;
      var prev := Provision(presets[..n], cache, outcomes[..n]);
      assert DistinctNames(presets[..n]);
      CreatedCountDistinct(presets[..n], cache, outcomes[..n]);
      PresentAfterPass(presets[..n], cache, outcomes[..n], presets[n].name);
      assert Provision(presets, cache, outcomes) == Offer(prev, presets[n], outcomes[n]);
    }
  }

  /** Offering one more preset adds its name to the issued creates exactly when it is absent from the cache so far. */
  lemma RequestedStep(presets: seq<Preset>, cache: seq<Channel>, outcomes: seq<Option<ChannelId>>, name: string)
    requires |outcomes| == |presets| && presets != []
    ensures var n := |presets| - 1;
      var prev := Provision(presets[..n], cache, outcomes[..n]);
      name in Provision(presets, cache, outcomes).requested <==>
        name in prev.requested || (presets[n].name == name && FindByName(prev.channels, name).None?)
  {
    var n := |presets| - 1;
    var prev := Provision(presets[..n], cache, outcomes[..n]);
    assert Provision(presets, cache, outcomes) == Offer(prev, presets[n], outcomes[n]);
  }

  /** Some preset has the name `name`. */
  ghost predicate PresetNamed(presets: seq<Preset>, name: string)
  {
    exists p :: p in presets && p.name == name
  }

  lemma PresetNamedStep(presets: seq<Preset>, outcomes: seq<Option<ChannelId>>, name: string)
    requires |outcomes| == |presets| && presets != []
    ensures var n := |presets| - 1;
      && (PresetNamed(presets, name) <==> PresetNamed(presets[..n], name) || presets[n].name == name)
      && (SuccessNamed(presets[..n], outcomes[..n], name) ==> PresetNamed(presets[..n], name))
  {
    var n := |presets| - 1;
    assert presets == presets[..n] + [presets[n]];
    if SuccessNamed(presets[..n], outcomes[..n], name) {
      var j :| 0 <= j < n && presets[..n][j].name == name && outcomes[..n][j].Some?;
      assert presets[..n][j] in presets[..n];
    }
  }

  /**
   * A create is issued for a name exactly when some preset has that name and
   * no channel of the guild had it before the pass.
   */
  lemma {:induction false} RequestedNames(presets: seq<Preset>, cache: seq<Channel>,
                                          outcomes: seq<Option<ChannelId>>, name: string)
    requires |outcomes| == |presets|
    ensures name in Provision(presets, cache, outcomes).requested <==>
      FindByName(cache, name).None? && PresetNamed(presets, name)
  {
    if presets != [] {
      var n := |presets| - 1;
      var prev := Provision(presets[..n], cache, outcomes[..n]);
      RequestedNames(presets[..n], cache, outcomes[..n], name);
      PresentAfterPass(presets[..n], cache, outcomes[..n], name);
      RequestedStep(presets, cache, outcomes, name);
      PresetNamedStep(presets, outcomes, name);
    }
  }

  /**
   * After the pass, every preset's name is present in the guild, unless that
   * preset's create was issued and failed: its answer is a failure and the
   * name was absent before.
   */
  lemma ProvisionCovers(presets: seq<Preset>, cache: seq<Channel>,
                        outcomes: seq<Option<ChannelId>>, i: nat)
    requires |outcomes| == |presets|
    requires i < |presets|
    ensures || FindByName(Provision(presets, cache, outcomes).channels, presets[i].name).Some?
            || (outcomes[i].None? && FindByName(cache, presets[i].name).None?)
  {
    PresentAfterPass(presets, cache, outcomes, presets[i].name);
  }

  /**
   * Idempotence: when every preset's name is already present, the pass
   * issues no create, creates nothing and leaves the cache as it was.
   */
  lemma {:induction false} ProvisionIdempotent(presets: seq<Preset>, cache: seq<Channel>,
                                               outcomes: seq<Option<ChannelId>>)
    requires |outcomes| == |presets|
    requires forall p :: p in presets ==> FindByName(cache, p.name).Some?
    ensures Provision(presets, cache, outcomes) == CreateReport(0, [], cache)
  {
    if presets != [] {
      var n := |presets| - 1;
      assert forall p :: p in presets[..n] ==> p in presets;
      ProvisionIdempotent(presets[..n], cache, outcomes[..n]);
      assert presets[n] in presets;
    }
  }

  /**
   * Running the create command twice makes no duplicates: when the first
   * pass met no failure, the second issues no create and creates nothing.
   */
  lemma SecondRunCreatesNothing(presets: seq<Preset>, cache: seq<Channel>,
                                first: seq<Option<ChannelId>>, second: seq<Option<ChannelId>>)
    requires |first| == |presets| && |second| == |presets|
    requires forall i :: 0 <= i < |first| ==> first[i].Some?
    ensures var after := Provision(presets, cache, first).channels;
      Provision(presets, after, second) == CreateReport(0, [], after)
  {
    var after := Provision(presets, cache, first).channels;
    forall p | p in presets
      ensures FindByName(after, p.name).Some?
    {
      var i :| 0 <= i < |presets| && presets[i] == p;
      ProvisionCovers(presets, cache, first, i);
    }
    ProvisionIdempotent(presets, after, second);
  }
}
