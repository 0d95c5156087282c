/**
 * The clean command's pass over the guild's channels, as a specification.
 *
 * The pass visits every channel once, in the cache's iteration order.
 * A whitelisted channel is counted as skipped; a channel whose name matches
 * no rule is ignored; a matching channel is counted as skipped in dry-run
 * mode, and otherwise a delete is issued for it, counted as deleted when the
 * platform reports success. A failed delete only gets logged.
 *
 * The platform's answers are injected: `outcomes[i]` is what the delete of
 * `chans[i]` would report, and it is consulted only when that delete is issued.
 */
module CleanPass {
  import opened Configuration
  import opened NameRules

  /** A channel the pass acts on: not whitelisted, and its name matches a rule. */
  predicate Candidate(cfg: Config, c: Channel)
  {
    !Whitelisted(cfg, c) && MatchesName(cfg, c.name)
  }

  /**
   * What one clean pass produces: the two counters of the reply, the ids for
   * which a delete was issued (in order) and the ids whose delete succeeded.
   */
  datatype CleanReport = CleanReport(
    deleted: nat,
    skipped: nat,
    requested: seq<ChannelId>,
    deletedIds: set<ChannelId>
  )

  const EMPTY_REPORT := CleanReport(0, 0, [], {})

  /** One iteration of the loop: visiting channel `c`, whose delete would report `ok`. */
  function Visit(cfg: Config, r: CleanReport, c: Channel, ok: bool): CleanReport
  {
    if Whitelisted(cfg, c) then r.(skipped := r.skipped + 1)
    else if !MatchesName(cfg, c.name) then r
    else if cfg.dryRun then r.(skipped := r.skipped + 1)
    else if ok then
      r.(deleted := r.deleted + 1, requested := r.requested + [c.id], deletedIds := r.deletedIds + {c.id})
    else r.(requested := r.requested + [c.id])
  }

  /** The report after visiting all of `chans` in order. */
  function Run(cfg: Config, chans: seq<Channel>, outcomes: seq<bool>): (r: CleanReport)
    requires |outcomes| == |chans|
    ensures r.deleted + r.skipped <= |chans|
    ensures r.deleted <= |r.requested| <= |chans|
  {
    if chans == [] then EMPTY_REPORT
    else
      var n := |chans| - 1;
      Visit(cfg, Run(cfg, chans[..n], outcomes[..n]), chans[n], outcomes[n])
  }

  function CountWhitelisted(cfg: Config, chans: seq<Channel>): (k: nat)
    ensures k <= |chans|
  {
    if chans == [] then 0
    else CountWhitelisted(cfg, chans[..|chans| - 1]) + (if Whitelisted(cfg, chans[|chans| - 1]) then 1 else 0)
  }

  function CountCandidates(cfg: Config, chans: seq<Channel>): (k: nat)
    ensures k <= |chans|
  {
    if chans == [] then 0
    else CountCandidates(cfg, chans[..|chans| - 1]) + (if Candidate(cfg, chans[|chans| - 1]) then 1 else 0)
  }

  /** The number of candidates whose delete would succeed. */
  function CountSucceeded(cfg: Config, chans: seq<Channel>, outcomes: seq<bool>): (k: nat)
    requires |outcomes| == |chans|
    ensures k <= CountCandidates(cfg, chans)
  {
    if chans == [] then 0
    else
      var n := |chans| - 1;
      CountSucceeded(cfg, chans[..n], outcomes[..n]) + (if Candidate(cfg, chans[n]) && outcomes[n] then 1 else 0)
  }

  /** Running the pass over one more channel is one more iteration. */
  lemma RunAppend(cfg: Config, chans: seq<Channel>, outcomes: seq<bool>, c: Channel, ok: bool)
    requires |outcomes| == |chans|
    ensures Run(cfg, chans + [c], outcomes + [ok]) == Visit(cfg, Run(cfg, chans, outcomes), c, ok)
  {
    assert (chans + [c])[..|chans|] == chans;
    assert (outcomes + [ok])[..|chans|] == outcomes;
  }

  /** The pass over the first `i + 1` channels is one more iteration after the first `i`. */
  lemma RunStep(cfg: Config, chans: seq<Channel>, outcomes: seq<bool>, i: nat)
    requires |outcomes| == |chans| && i < |chans|
    ensures Run(cfg, chans[..i + 1], outcomes[..i + 1]) == Visit(cfg, Run(cfg, chans[..i], outcomes[..i]), chans[i], outcomes[i])
  {
    assert chans[..i + 1][..i] == chans[..i];
    assert outcomes[..i + 1][..i] == outcomes[..i];
  }

  /**
   * The effect of one channel on the report: a whitelisted channel adds
   * exactly 1 to skipped and nothing else; a channel matching no rule changes
   * nothing; a candidate adds 1 to skipped in dry-run mode, and otherwise gets
   * a delete issued and adds 1 to deleted exactly when that delete succeeds.
   */
  lemma ChannelEffect(cfg: Config, chans: seq<Channel>, outcomes: seq<bool>, c: Channel, ok: bool)
    requires |outcomes| == |chans|
    ensures var r, r' := Run(cfg, chans, outcomes), Run(cfg, chans + [c], outcomes + [ok]);
      && (Whitelisted(cfg, c) ==> r' == r.(skipped := r.skipped + 1))
      && (!Whitelisted(cfg, c) && !MatchesName(cfg, c.name) ==> r' == r)
      && (Candidate(cfg, c) && cfg.dryRun ==> r' == r.(skipped := r.skipped + 1))
      && (Candidate(cfg, c) && !cfg.dryRun ==>
            && r'.requested == r.requested + [c.id]
            && r'.skipped == r.skipped
            && r'.deleted == r.deleted + (if ok then 1 else 0)
            && r'.deletedIds == (if ok then r.deletedIds + {c.id} else r.deletedIds))
  {
    RunAppend(cfg, chans, outcomes, c, ok);
  }

  /** The set of deleted ids is no larger than the deleted counter; it is smaller only when two channels share an id. */
  lemma {:induction false} DeletedIdsCounted(cfg: Config, chans: seq<Channel>, outcomes: seq<bool>)
    requires |outcomes| == |chans|
    ensures |Run(cfg, chans, outcomes).deletedIds| <= Run(cfg, chans, outcomes).deleted
  {
    if chans != [] {
      var n := |chans| - 1;
      DeletedIdsCounted(cfg, chans[..n], outcomes[..n]);
    }
  }

  /**
   * The counters in closed form: skipped counts the whitelisted channels, plus
   * the candidates in dry-run mode; deleted is 0 in dry-run mode and otherwise
   * the number of candidates whose delete succeeded.
   */
  lemma {:induction false} RunCounts(cfg: Config, chans: seq<Channel>, outcomes: seq<bool>)
    requires |outcomes| == |chans|
    ensures Run(cfg, chans, outcomes).skipped ==
      CountWhitelisted(cfg, chans) + (if cfg.dryRun then CountCandidates(cfg, chans) else 0)
    ensures Run(cfg, chans, outcomes).deleted ==
      (if cfg.dryRun then 0 else CountSucceeded(cfg, chans, outcomes))
  {
    if chans != [] {
      var n := |chans| - 1;
      RunCounts(cfg, chans[..n], outcomes[..n]);
    }
  }

  /** Some candidate among `chans` has the id `id`. */
  ghost predicate HasCandidateWithId(cfg: Config, chans: seq<Channel>, id: ChannelId)
  {
    exists c :: c in chans && c.id == id && Candidate(cfg, c)
  }

  lemma HasCandidateWithIdAppend(cfg: Config, chans: seq<Channel>, c: Channel, id: ChannelId)
    ensures HasCandidateWithId(cfg, chans + [c], id) <==>
      HasCandidateWithId(cfg, chans, id) || (c.id == id && Candidate(cfg, c))
  {
    if HasCandidateWithId(cfg, chans + [c], id) {
      var d :| d in chans + [c] && d.id == id && Candidate(cfg, d);
      assert d in chans || d == c;
    }
    if HasCandidateWithId(cfg, chans, id) {
      var d :| d in chans && d.id == id && Candidate(cfg, d);
      assert d in chans + [c];
    }
    if c.id == id && Candidate(cfg, c) {
      assert c in chans + [c];
    }
  }

  /** Exactly the candidates get a delete issued, and none in dry-run mode. */
  lemma {:induction false} RequestedIds(cfg: Config, chans: seq<Channel>, outcomes: seq<bool>, id: ChannelId)
    requires |outcomes| == |chans|
    ensures id in Run(cfg, chans, outcomes).requested <==> !cfg.dryRun && HasCandidateWithId(cfg, chans, id)
  {
    if chans != [] {
      var n := |chans| - 1;
      var prev, c := chans[..n], chans[n];
      RequestedIds(cfg, prev, outcomes[..n], id);
      assert chans == prev + [c];
      HasCandidateWithIdAppend(cfg, prev, c, id);
      var r := Run(cfg, prev, outcomes[..n]);
      assert Run(cfg, chans, outcomes) == Visit(cfg, r, c, outcomes[n]);
      assert Visit(cfg, r, c, outcomes[n]).requested ==
        if Candidate(cfg, c) && !cfg.dryRun then r.requested + [c.id] else r.requested;
    }
  }

  /** Exactly the candidates whose delete succeeded are deleted, and none in dry-run mode. */
  lemma {:induction false} DeletedIds(cfg: Config, chans: seq<Channel>, outcomes: seq<bool>, id: ChannelId)
    requires |outcomes| == |chans|
    ensures id in Run(cfg, chans, outcomes).deletedIds <==>
      !cfg.dryRun && exists i :: 0 <= i < |chans| && chans[i].id == id && Candidate(cfg, chans[i]) && outcomes[i]
  {
    if chans != [] {
      var n := |chans| - 1;
      var prev, prevOutcomes := chans[..n], outcomes[..n];
      DeletedIds(cfg, prev, prevOutcomes, id);
      if id in Run(cfg, chans, outcomes).deletedIds && id in Run(cfg, prev, prevOutcomes).deletedIds {
        var i :| 0 <= i < |prev| && prev[i].id == id && Candidate(cfg, prev[i]) && prevOutcomes[i];
        assert chans[i] == prev[i] && outcomes[i] == prevOutcomes[i];
      }
      if !cfg.dryRun && exists i :: 0 <= i < |chans| && chans[i].id == id && Candidate(cfg, chans[i]) && outcomes[i] {
        var i :| 0 <= i < |chans| && chans[i].id == id && Candidate(cfg, chans[i]) && outcomes[i];
        if i < n {
          assert prev[i] == chans[i] && prevOutcomes[i] == outcomes[i];
        }
      }
    }
  }

  /** A whitelisted channel never has a delete issued and is never deleted, whatever its name. */
  lemma WhitelistedNeverDeleted(cfg: Config, chans: seq<Channel>, outcomes: seq<bool>, c: Channel)
    requires |outcomes| == |chans|
    requires c in chans && Whitelisted(cfg, c)
    ensures c.id !in Run(cfg, chans, outcomes).requested
    ensures c.id !in Run(cfg, chans, outcomes).deletedIds
  {
    RequestedIds(cfg, chans, outcomes, c.id);
    DeletedIds(cfg, chans, outcomes, c.id);
  }

  /**
   * Dry run: no delete is issued, deleted stays 0, and every candidate adds 1
   * to skipped beside the whitelisted channels.
   */
  lemma DryRunDeletesNothing(cfg: Config, chans: seq<Channel>, outcomes: seq<bool>)
    requires |outcomes| == |chans|
    requires cfg.dryRun
    ensures Run(cfg, chans, outcomes).requested == []
    ensures Run(cfg, chans, outcomes).deletedIds == {}
    ensures Run(cfg, chans, outcomes).deleted == 0
    ensures Run(cfg, chans, outcomes).skipped == CountWhitelisted(cfg, chans) + CountCandidates(cfg, chans)
  {
    var r := Run(cfg, chans, outcomes);
    RunCounts(cfg, chans, outcomes);
    if r.requested != [] {
      RequestedIds(cfg, chans, outcomes, r.requested[0]);
      assert false;
    }
  }

  /**
   * Which deletes get issued does not depend on what earlier deletes
   * reported: a failed delete does not stop the pass.
   */
  lemma {:induction false} RequestsIgnoreOutcomes(cfg: Config, chans: seq<Channel>, o1: seq<bool>, o2: seq<bool>)
    requires |o1| == |chans| && |o2| == |chans|
    ensures Run(cfg, chans, o1).requested == Run(cfg, chans, o2).requested
    ensures Run(cfg, chans, o1).skipped == Run(cfg, chans, o2).skipped
  {
    if chans != [] {
      var n := |chans| - 1;
      RequestsIgnoreOutcomes(cfg, chans[..n], o1[..n], o2[..n]);
    }
  }

  /**
   * The platform's answer matters only where a delete is issued: two outcome
   * lists that agree on the candidates (or any two, in dry-run mode) give the
   * same report.
   */
  lemma {:induction false} OnlyIssuedDeletesMatter(cfg: Config, chans: seq<Channel>, o1: seq<bool>, o2: seq<bool>)
    requires |o1| == |chans| && |o2| == |chans|
    requires forall i :: 0 <= i < |chans| && Candidate(cfg, chans[i]) && !cfg.dryRun ==> o1[i] == o2[i]
    ensures Run(cfg, chans, o1) == Run(cfg, chans, o2)
  {
    if chans != [] {
      var n := |chans| - 1;
      OnlyIssuedDeletesMatter(cfg, chans[..n], o1[..n], o2[..n]);
    }
  }
}
