/** The verifier's runs joined to the missing-range index: what the published ranges and totals are after
    any run, under any interleaving of the workers. */
module RunIndex {
  import opened Options
  import opened Uint64
  import opened Ranges
  import opened MissingIndex
  import opened Verifier
  import opened VerifierLaws
  import opened VerifierSafety
  import opened VerifierTheorems
  import opened VerifyBlock

  /** Recording outcomes one after the other on a fresh Metrics publishes exactly their replay. */
  method PublishHistory(h: seq<Outcome>) returns (m: Metrics)
    ensures m.Valid()
    ensures m.View() == Replay(h)
  {
    hide Metrics.Valid, OnVerified, CountersOf;
    m := new Metrics();
    for i := 0 to |h|
      invariant fresh(m) && fresh(m.index) && fresh(m.index.Footprint())
      invariant m.Valid() && m.View() == Replay(h[..i])
    {
      assert h[..i + 1][..i] == h[..i];
      m.OnVerifiedCall(h[i].blob, h[i].height, h[i].daHeight, h[i].verified, h[i]);
    }
    assert h[..|h|] == h;
  }

  /** The lists, gauges and totals of a valid index whose denoted sets are those of the run's counters. */
  ghost predicate Publishes(s: State, lists: Views, g: Gauges, totals: map<string, uint64>)
  {
    && Sound(lists, g) && TotalsMatch(totals, lists)
    && forall b :: Heights(ListOf(lists, Name(b))) == s.log.counters.missing.At(b)
  }

  /** After any run the index lists, for each type, exactly the heights whose last recorded outcome for it
      was a failure; the total gauge is the size of that set unless every uint64 height is in it; and the
      range gauges show exactly the listed ranges. */
  lemma IndexFollowsRun(cfg: Config, s: State, lists: Views, g: Gauges, totals: map<string, uint64>,
                        b: BlobType, h: int)
    requires Reachable(cfg, s) && Publishes(s, lists, g, totals)
    ensures Covers(ListOf(lists, Name(b)), h) <==> LastFailed(s.log.history, b, h)
    ensures Name(b) in totals && !Full(s.log.counters.missing.At(b)) ==>
              totals[Name(b)] as int == |s.log.counters.missing.At(b)|
    ensures g.Mirror(Name(b), Elements(ListOf(lists, Name(b))))
  {
    hide After, Enabled, Init, Full, WellFormed, Gauges.Mirror, LastFailed;
    var rs := ListOf(lists, Name(b));
    assert Heights(rs) == s.log.counters.missing.At(b);
    MissingMatchesHistory(cfg, s, b, h);
    SoundWellFormed(lists, g, Name(b));
    WrappedTotalExact(rs);
  }

  /** How the workers were interleaved does not show: runs that agree on the last outcome of every
      (type, height) publish the identical list of ranges. */
  lemma InterleavingInvisible(cfg: Config, s: State, s': State, b: BlobType,
                              lists: Views, g: Gauges, totals: map<string, uint64>,
                              lists': Views, g': Gauges, totals': map<string, uint64>)
    requires Reachable(cfg, s) && Publishes(s, lists, g, totals)
    requires Reachable(cfg, s') && Publishes(s', lists', g', totals')
    requires forall h :: LastFailed(s.log.history, b, h) <==> LastFailed(s'.log.history, b, h)
    ensures ListOf(lists, Name(b)) == ListOf(lists', Name(b))
  {
    hide After, Enabled, Init, WellFormed, Gauges.Mirror, LastFailed, Heights;
    forall h
      ensures h in Heights(ListOf(lists, Name(b))) <==> h in Heights(ListOf(lists', Name(b)))
    {
      MissingMatchesHistory(cfg, s, b, h);
      MissingMatchesHistory(cfg, s', b, h);
    }
    SoundWellFormed(lists, g, Name(b));
    SoundWellFormed(lists', g', Name(b));
    CanonicalForm(ListOf(lists, Name(b)), ListOf(lists', Name(b)));
  }

  /** Publishing the outcomes of a reachable state in their order yields a heap index that lists, for each
      type, exactly the heights whose last recorded outcome for it was a failure; its total gauge is the
      size of that set unless every uint64 height is in it; and its range gauges show exactly those ranges. */
  method PublishRun(ghost cfg: Config, s: State) returns (m: Metrics)
    requires Reachable(cfg, s)
    ensures m.Valid() && Publishes(s, m.index.lists, m.index.Published(), m.index.totalGauge)
    ensures forall b, h :: Covers(ListOf(m.index.lists, Name(b)), h) <==> LastFailed(s.log.history, b, h)
    ensures forall b :: Name(b) in m.index.totalGauge && !Full(s.log.counters.missing.At(b)) ==>
              m.index.totalGauge[Name(b)] as int == |s.log.counters.missing.At(b)|
    ensures forall b ::
              m.index.Published().Mirror(Name(b), Elements(ListOf(m.index.lists, Name(b))))
    ensures LabelsExact(m.index.lists, m.index.Published())
  {
    hide LabelsExact;
    hide After, Enabled, Init, Heights, Sound, TotalsMatch, Full, Gauges.Mirror, LastFailed, Covers;
    m := PublishHistory(s.log.history);
    SoundLabels(m.index.lists, m.index.Published());
    ReachableInvariant(cfg, s);
    assert Reported(s.log.counters) == Replay(s.log.history);
    assert s.log.counters.missing == m.View().missing;
    forall b
      ensures Heights(ListOf(m.index.lists, Name(b))) == s.log.counters.missing.At(b)
    {
      assert b.HeaderBlob? || b.DataBlob?;
    }
    forall b, h
      ensures Covers(ListOf(m.index.lists, Name(b)), h) <==> LastFailed(s.log.history, b, h)
      ensures Name(b) in m.index.totalGauge && !Full(s.log.counters.missing.At(b)) ==>
                m.index.totalGauge[Name(b)] as int == |s.log.counters.missing.At(b)|
      ensures m.index.Published().Mirror(Name(b), Elements(ListOf(m.index.lists, Name(b))))
    {
      IndexFollowsRun(cfg, s, m.index.lists, m.index.Published(), m.index.totalGauge, b, h);
    }
  }
}
