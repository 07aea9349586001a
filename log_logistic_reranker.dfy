/**
 * LogLogisticRelevanceModelReranker, the older copy of the log-logistic
 * model: its weight object never stores c (so c is always 0.5), it fetches
 * the statistics of every vocabulary term into a fresh map held in a field,
 * any failed fetch abandons the estimate, and the result is always pruned
 * to fbTerms and never normalised.
 */
module LogLogisticReranker {
  import opened Wrappers
  import opened FeatureVectors
  import opened Index
  import opened FeedbackModels
  import opened LogLogistic

  /** The older weight constructor: the c argument is dropped and the field keeps its initial 0.5. */
  function NewLegacyLLFeedbackWeight(c: real, coll: CollectionStatistics, ts: TermStatistics): (w: LLFeedbackWeight)
    ensures w.c == 0.5 && w.collectionStats == coll && w.termStats == ts
  {
    LLFeedbackWeight(coll, ts, 0.5)
  }

  /** The statistics map after every vocabulary term has been fetched. */
  ghost function FetchedStats(vocab: set<string>, source: map<string, TermStatistics>): map<string, TermStatistics>
    requires vocab <= source.Keys
  {
    map t | t in vocab :: source[t]
  }

  /** m holds only terms of vocab, each with the statistics the searcher gives it. */
  ghost predicate PartOfFetch(m: map<string, TermStatistics>, vocab: set<string>, source: map<string, TermStatistics>)
  {
    m.Keys <= vocab && forall t | t in m :: t in source && m[t] == source[t]
  }

  /**
   * The fetch loop: a fresh map, each vocabulary term put in turn; the first
   * term whose fetch throws ends the loop with the terms put so far.
   */
  method FetchTermStatistics(vocab: set<string>, source: map<string, TermStatistics>)
    returns (stats: map<string, TermStatistics>, ok: bool)
    ensures ok <==> vocab <= source.Keys
    ensures ok ==> stats == FetchedStats(vocab, source)
    ensures PartOfFetch(stats, vocab, source)
  {
    stats := map[];
    var rest := vocab;
    while rest != {}
      invariant rest <= vocab
      invariant stats.Keys == vocab - rest
      invariant vocab - rest <= source.Keys
      invariant forall t | t in stats :: t in source && stats[t] == source[t]
      decreases rest
    {
      var term :| term in rest;
      if term !in source {
        ok := false;
        return;
      }
      stats := stats[term := source[term]];
      rest := rest - {term};
    }
    ok := true;
  }

  /** The vector before pruning, as the older weight objects compute it: LLRaw with c fixed at 0.5. */
  ghost function LegacyRaw(ln: real -> real, coll: CollectionStatistics, stats: map<string, TermStatistics>,
                           docs: seq<FeatureVector>): FeatureVector
    requires StatsCover(coll, stats, Vocab(docs))
  {
    LLRaw(0.5, ln, coll, stats, docs)
  }

  /** What a successful estimateRelevanceModel returns: the raw vector pruned to fbTerms. */
  ghost function LegacyModel(fbTerms: int, ln: real -> real, coll: CollectionStatistics,
                             stats: map<string, TermStatistics>, docs: seq<FeatureVector>): FeatureVector
    requires StatsCover(coll, stats, Vocab(docs))
  {
    PrunedToSize(LegacyRaw(ln, coll, stats, docs), fbTerms)
  }

  /** The weighting loop with the older weight object: whatever c is passed, 0.5 is used. */
  method ComputeLegacyRaw(c: real, ln: real -> real, coll: CollectionStatistics, stats: map<string, TermStatistics>,
                          docvectors: seq<FeatureVector>) returns (f: FeatureVector)
    requires StatsCover(coll, stats, Vocab(docvectors))
    ensures f == LegacyRaw(ln, coll, stats, docvectors)
  {
    var vocab := GetVocab(docvectors);
    var norms := ComputeNorms(docvectors);
    f := map[];
    LLPartialEmpty(0.5, ln, coll, stats, docvectors);
    var rest := vocab;
    ghost var done: set<string> := {};
    while rest != {}
      invariant rest <= vocab && done == vocab - rest
      invariant f == LLPartial(0.5, ln, coll, stats, docvectors, done)
      decreases rest
    {
      var term :| term in rest;
      assert term !in done;
      assert vocab - (rest - {term}) == done + {term};
      ghost var i :| 0 <= i < |docvectors| && term in docvectors[i];
      var w := NewLegacyLLFeedbackWeight(c, coll, stats[term]);
      assert w == NewLLFeedbackWeight(0.5, coll, stats[term]);
      var fw := ComputeFWAggregate(w, ln, term, norms, docvectors);
      assert fw == LLTermWeight(0.5, ln, coll, stats, docvectors, term);
      LLPartialAdd(0.5, ln, coll, stats, docvectors, done, term);
      f := AddWeight(f, term, fw);
      rest := rest - {term};
      done := done + {term};
    }
    assert done == Vocab(docvectors);
    LLPartialFull(0.5, ln, coll, stats, docvectors);
  }

  /** The estimate succeeds and its statistics can be divided by. */
  ghost predicate Estimable(searcher: Searcher, docs: seq<FeatureVector>)
  {
    searcher.collection.Some? && Vocab(docs) <= searcher.termStats.Keys &&
    StatsCover(searcher.collection.value, searcher.termStats, Vocab(docs))
  }

  class LogLogisticRelevanceModelReranker {
    var c: real
    var fbTerms: int
    var searcher: Searcher
    /** The statistics of the last estimate; empty before the first estimate. */
    var termStatisticsList: map<string, TermStatistics>
    /** The collection statistics of the last estimate; None before the first estimate. */
    var collectionStatistics: Option<CollectionStatistics>

    /** Both constructors set c to originalQueryWeight; the remaining settings belong to the base reranker. */
    constructor (fbTerms: int, originalQueryWeight: real, searcher: Searcher)
      ensures this.c == originalQueryWeight && this.fbTerms == fbTerms && this.searcher == searcher
      ensures termStatisticsList == map[] && collectionStatistics == None
    {
      this.c := originalQueryWeight;
      this.fbTerms := fbTerms;
      this.searcher := searcher;
      termStatisticsList := map[];
      collectionStatistics := None;
    }

    method SetIndexSearcher(s: Searcher)
      modifies this
      ensures searcher == s
      ensures c == old(c) && fbTerms == old(fbTerms)
      ensures termStatisticsList == old(termStatisticsList) && collectionStatistics == old(collectionStatistics)
    {
      searcher := s;
    }

    /**
     * estimateRelevanceModel(scores, docvectors): the scores are not used.
     * A vocabulary term's statistics must be non-zero once all are fetched.
     */
    method EstimateRelevanceModel(ln: real -> real, docvectors: seq<FeatureVector>) returns (f: FeatureVector)
      requires searcher.collection.Some? && Vocab(docvectors) <= searcher.termStats.Keys ==>
                 StatsCover(searcher.collection.value, searcher.termStats, Vocab(docvectors))
      modifies this
      ensures c == old(c) && fbTerms == old(fbTerms) && searcher == old(searcher)
      ensures searcher.collection.None? ==>
                f == map[] && collectionStatistics == old(collectionStatistics) &&
                termStatisticsList == old(termStatisticsList)
      ensures searcher.collection.Some? ==>
                collectionStatistics == searcher.collection &&
                PartOfFetch(termStatisticsList, Vocab(docvectors), searcher.termStats)
      ensures searcher.collection.Some? && !(Vocab(docvectors) <= searcher.termStats.Keys) ==> f == map[]
      ensures Estimable(searcher, docvectors) ==>
                termStatisticsList == FetchedStats(Vocab(docvectors), searcher.termStats) &&
                f == LegacyModel(fbTerms, ln, searcher.collection.value, termStatisticsList, docvectors)
    {
      var vocab := GetVocab(docvectors);
      f := map[];
      if searcher.collection.None? {
        return;
      }
      collectionStatistics := searcher.collection;
      var stats, ok := FetchTermStatistics(vocab, searcher.termStats);
      termStatisticsList := stats;
      if !ok {
        return;
      }
      var coll := searcher.collection.value;
      assert StatsCover(coll, stats, Vocab(docvectors));
      f := ComputeLegacyRaw(c, ln, coll, stats, docvectors);
      f := PruneToSize(f, fbTerms);
    }
  }

  /**
   * A successful estimate keeps min(fbTerms, |vocabulary|) vocabulary terms with
   * their raw weights: it is pruned and never normalised.
   */
  lemma LegacyModelShape(fbTerms: int, ln: real -> real, coll: CollectionStatistics,
                         stats: map<string, TermStatistics>, docs: seq<FeatureVector>)
    requires StatsCover(coll, stats, Vocab(docs))
    ensures SubVector(LegacyModel(fbTerms, ln, coll, stats, docs), LegacyRaw(ln, coll, stats, docs))
    ensures LegacyModel(fbTerms, ln, coll, stats, docs).Keys <= Vocab(docs)
    ensures |LegacyModel(fbTerms, ln, coll, stats, docs)| == if fbTerms <= 0 then 0 else Min(fbTerms, |Vocab(docs)|)
  {
    var raw := LegacyRaw(ln, coll, stats, docs);
    PrunedToSizeProperties(raw, fbTerms);
    assert |raw| == |Vocab(docs)| by { assert raw.Keys == Vocab(docs); }
  }

  /**
   * The older estimate equals the newer one for c = 0.5 with pruning on and
   * normalisation off: the two copies differ only in c and in the gates.
   */
  lemma LegacyMatchesGatedModel(m: LogLogisticRelevanceModel, ln: real -> real, searcher: Searcher,
                                docs: seq<FeatureVector>)
    requires Estimable(searcher, docs)
    requires m.c == 0.5 && m.base.config.pruneModel && !m.base.config.normalize
    ensures LegacyModel(m.base.fbTerms, ln, searcher.collection.value,
                        FetchedStats(Vocab(docs), searcher.termStats), docs) == LLModel(m, ln, searcher, docs)
  {
    FetchedIsCollected(Vocab(docs), searcher.termStats);
    assert FetchedStats(Vocab(docs), searcher.termStats) == CollectedStats(searcher, docs);
  }

  /** Fetching every term into a fresh map is collecting them into an empty one. */
  lemma FetchedIsCollected(vocab: set<string>, source: map<string, TermStatistics>)
    requires vocab <= source.Keys
    ensures FetchedStats(vocab, source) == Collected(map[], vocab, source)
  {
    var a := FetchedStats(vocab, source);
    var b := Collected(map[], vocab, source);
    assert a.Keys == b.Keys;
  }
}
