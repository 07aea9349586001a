/**
 * The log-logistic relevance model (LogLogisticRelevanceModel): a term's
 * feedback weight is the average over the feedback documents of
 * ln((t(tf, |D|) + lambda_w) / lambda_w), with t(tf, |D|) = tf * ln(1 + c * avgl / |D|)
 * and lambda_w = docFreq / docCount. The natural logarithm is a parameter:
 * only ln(1) = 0 and monotonicity on the positive reals are ever assumed.
 */
module LogLogistic {
  import opened Wrappers
  import opened FeatureVectors
  import opened Index
  import opened FeedbackConfig
  import opened FeedbackModels
  import opened RealArith

  // ---------------------------------------------------------------------------
  // LLFeedbakWegith

  /** The weight object: the collection statistics, one term's statistics and the free parameter c. */
  datatype LLFeedbackWeight = LLFeedbackWeight(collectionStats: CollectionStatistics, termStats: TermStatistics, c: real)

  /** The statistics the formulas divide by are non-zero. */
  predicate Usable(w: LLFeedbackWeight)
  {
    w.collectionStats.docCount != 0 && w.termStats.docFreq != 0
  }

  /** The constructor of this copy stores the caller's c. */
  function NewLLFeedbackWeight(c: real, coll: CollectionStatistics, ts: TermStatistics): (w: LLFeedbackWeight)
    ensures w.c == c && w.collectionStats == coll && w.termStats == ts
  {
    LLFeedbackWeight(coll, ts, c)
  }

  /** The average document length, sumTotalTermFreq / docCount. */
  function AvgL(w: LLFeedbackWeight): real
    requires w.collectionStats.docCount != 0
  {
    w.collectionStats.sumTotalTermFreq as real / w.collectionStats.docCount as real
  }

  /** The length factor of t: ln(1 + c * avgl / dLength). */
  function LenFactor(w: LLFeedbackWeight, ln: real -> real, len: real): real
    requires w.collectionStats.docCount != 0 && len != 0.0
  {
    ln(1.0 + w.c * AvgL(w) / len)
  }

  /** t(tf, dLength) = tf * ln(1 + c * avgl / dLength). */
  function T(w: LLFeedbackWeight, ln: real -> real, tf: real, len: real): (r: real)
    requires w.collectionStats.docCount != 0 && len != 0.0
    ensures tf == 0.0 ==> r == 0.0
  {
    tf * LenFactor(w, ln, len)
  }

  /** computeLambdaW = docFreq / docCount. */
  function LambdaW(w: LLFeedbackWeight): (r: real)
    requires w.collectionStats.docCount != 0
    ensures w.collectionStats.docCount > 0 && w.termStats.docFreq > 0 ==> r > 0.0
  {
    w.termStats.docFreq as real / w.collectionStats.docCount as real
  }

  /** computeFW(term, tf, dLength) = ln((t(tf, dLength) + lambda_w) / lambda_w). */
  function ComputeFW(w: LLFeedbackWeight, ln: real -> real, tf: real, len: real): (r: real)
    requires Usable(w) && len != 0.0
    ensures LnZeroAtOne(ln) && tf == 0.0 ==> r == 0.0
  {
    var lambda := LambdaW(w);
    assert tf == 0.0 ==> (T(w, ln, tf, len) + lambda) / lambda == 1.0 by {
      DivSelf(lambda);
    }
    ln((T(w, ln, tf, len) + lambda) / lambda)
  }

  /** The statistics are those of a real collection: positive counts, non-negative c. */
  predicate Sensible(w: LLFeedbackWeight)
  {
    w.collectionStats.docCount > 0 && w.collectionStats.sumTotalTermFreq >= 0 &&
    w.termStats.docFreq > 0 && w.c >= 0.0
  }

  /** The length factor ln(1 + c * avgl / |D|) is non-negative and shrinks as the document grows. */
  lemma LengthFactor(w: LLFeedbackWeight, ln: real -> real, len1: real, len2: real)
    requires Sensible(w) && LnZeroAtOne(ln) && LnMonotone(ln)
    requires 0.0 < len1 <= len2
    ensures 0.0 <= LenFactor(w, ln, len2) <= LenFactor(w, ln, len1)
  {
    var k := w.c * AvgL(w);
    DivNonNeg(w.collectionStats.sumTotalTermFreq as real, w.collectionStats.docCount as real);
    assert k >= 0.0;
    DivNonNeg(k, len2);
    DivAntiMono(k, len1, len2);
    assert ln(1.0 + k / len2) <= ln(1.0 + k / len1);
    LnNonNegative(ln, 1.0 + k / len2);
  }

  /** A positive quotient (x + l) / l grows with x. */
  lemma RatioGrows(x1: real, x2: real, l: real)
    requires l > 0.0 && 0.0 <= x1 <= x2
    ensures 1.0 <= (x1 + l) / l <= (x2 + l) / l
  {
    DivSelf(l);
    DivMono(l, x1 + l, l);
    DivMono(x1 + l, x2 + l, l);
  }

  /** A document's weight is non-negative, and grows with the term frequency. */
  lemma ComputeFWMonotoneInTf(w: LLFeedbackWeight, ln: real -> real, tf1: real, tf2: real, len: real)
    requires Sensible(w) && LnZeroAtOne(ln) && LnMonotone(ln)
    requires 0.0 <= tf1 <= tf2 && len > 0.0
    ensures 0.0 <= ComputeFW(w, ln, tf1, len) <= ComputeFW(w, ln, tf2, len)
  {
    LengthFactor(w, ln, len, len);
    var lambda := LambdaW(w);
    TGrowsWithTf(w, ln, tf1, tf2, len);
    RatioGrows(T(w, ln, tf1, len), T(w, ln, tf2, len), lambda);
    RatioLnMono(ln, T(w, ln, tf1, len), T(w, ln, tf2, len), lambda);
    LnNonNegative(ln, (T(w, ln, tf1, len) + lambda) / lambda);
  }

  /** t(tf, |D|) is non-negative and grows with tf. */
  lemma TGrowsWithTf(w: LLFeedbackWeight, ln: real -> real, tf1: real, tf2: real, len: real)
    requires w.collectionStats.docCount != 0 && len != 0.0 && 0.0 <= tf1 <= tf2
    requires LenFactor(w, ln, len) >= 0.0
    ensures 0.0 <= T(w, ln, tf1, len) <= T(w, ln, tf2, len)
  {
    var f := LenFactor(w, ln, len);
    assert (tf2 - tf1) * f >= 0.0;
    MulMono(tf1, 0.0, f);
  }

  /** For the same term frequency, a longer document gives a smaller weight. */
  lemma ComputeFWDecreasingInLength(w: LLFeedbackWeight, ln: real -> real, tf: real, len1: real, len2: real)
    requires Sensible(w) && LnZeroAtOne(ln) && LnMonotone(ln)
    requires tf >= 0.0 && 0.0 < len1 <= len2
    ensures ComputeFW(w, ln, tf, len2) <= ComputeFW(w, ln, tf, len1)
  {
    LengthFactor(w, ln, len1, len2);
    var lambda := LambdaW(w);
    var x1, x2 := T(w, ln, tf, len1), T(w, ln, tf, len2);
    TGrowsWithFactor(w, ln, tf, len1, len2);
    RatioLnMono(ln, x2, x1, lambda);
  }

  /** t(tf, |D|) is non-negative and follows the length factor. */
  lemma TGrowsWithFactor(w: LLFeedbackWeight, ln: real -> real, tf: real, len1: real, len2: real)
    requires w.collectionStats.docCount != 0 && len1 != 0.0 && len2 != 0.0 && tf >= 0.0
    requires 0.0 <= LenFactor(w, ln, len2) <= LenFactor(w, ln, len1)
    ensures 0.0 <= T(w, ln, tf, len2) <= T(w, ln, tf, len1)
  {
    var f1, f2 := LenFactor(w, ln, len1), LenFactor(w, ln, len2);
    MulMono(tf, f2, f1);
    MulMono(tf, 0.0, f2);
  }

  /** ln((x + l) / l) grows with x. */
  lemma RatioLnMono(ln: real -> real, x1: real, x2: real, l: real)
    requires LnMonotone(ln) && l > 0.0 && 0.0 <= x1 <= x2
    ensures ln((x1 + l) / l) <= ln((x2 + l) / l)
  {
    RatioGrows(x1, x2, l);
  }

  /** The weights of the first n documents that pass the norm guard, each at length norms[i]. */
  function LLSum(w: LLFeedbackWeight, ln: real -> real, term: string, norms: seq<real>,
                 docs: seq<FeatureVector>, n: nat): real
    requires Usable(w) && n <= |docs| && n <= |norms|
  {
    if n == 0 then 0.0
    else
      LLSum(w, ln, term, norms, docs, n - 1)
      + (if PassesNormGuard(norms[n - 1]) then ComputeFW(w, ln, Weight(docs[n - 1], term), norms[n - 1]) else 0.0)
  }

  /** computeFW(term, norms, docvectors): the guarded sum divided by the number of all documents. */
  function LLAggregate(w: LLFeedbackWeight, ln: real -> real, term: string, norms: seq<real>,
                       docs: seq<FeatureVector>): real
    requires Usable(w) && |docs| > 0 && |norms| == |docs|
  {
    LLSum(w, ln, term, norms, docs, |docs|) / |docs| as real
  }

  method ComputeFWAggregate(w: LLFeedbackWeight, ln: real -> real, term: string, norms: seq<real>,
                            docvectors: seq<FeatureVector>) returns (fw: real)
    requires Usable(w) && |docvectors| > 0 && |norms| == |docvectors|
    ensures fw == LLAggregate(w, ln, term, norms, docvectors)
  {
    var fbWeight := 0.0;
    for i := 0 to |docvectors|
      invariant fbWeight == LLSum(w, ln, term, norms, docvectors, i)
    {
      if norms[i] > 0.001 {
        fbWeight := fbWeight + ComputeFW(w, ln, Weight(docvectors[i], term), norms[i]);
      }
    }
    fw := fbWeight / |docvectors| as real;
  }

  /** The guarded sum only looks at the first n documents. */
  lemma {:induction false} LLSumPrefix(w: LLFeedbackWeight, ln: real -> real, term: string, norms: seq<real>,
                                       docs: seq<FeatureVector>, x: real, d: FeatureVector, n: nat)
    requires Usable(w) && n <= |docs| && n <= |norms|
    ensures LLSum(w, ln, term, norms + [x], docs + [d], n) == LLSum(w, ln, term, norms, docs, n)
  {
    if n > 0 {
      LLSumPrefix(w, ln, term, norms, docs, x, d, n - 1);
      assert (norms + [x])[n - 1] == norms[n - 1];
      assert (docs + [d])[n - 1] == docs[n - 1];
    }
  }

  /**
   * A document that fails the norm guard adds nothing to the sum but still
   * counts in the divisor: it scales the average by n / (n + 1).
   */
  lemma SkippedDocumentDilutes(w: LLFeedbackWeight, ln: real -> real, term: string, norms: seq<real>,
                               docs: seq<FeatureVector>, x: real, d: FeatureVector)
    requires Usable(w) && |docs| > 0 && |norms| == |docs| && !PassesNormGuard(x)
    ensures LLAggregate(w, ln, term, norms + [x], docs + [d]) * (|docs| + 1) as real ==
            LLAggregate(w, ln, term, norms, docs) * |docs| as real
  {
    var n := |docs|;
    LLSumPrefix(w, ln, term, norms, docs, x, d, n);
    assert (norms + [x])[n] == x;
    var s := LLSum(w, ln, term, norms, docs, n);
    assert LLSum(w, ln, term, norms + [x], docs + [d], n + 1) == s;
    assert s / (n + 1) as real * (n + 1) as real == s;
    assert s / n as real * n as real == s;
  }

  /** Under the logarithm's assumptions every document's weight, and so the average, is non-negative. */
  lemma {:induction false} LLSumNonNegative(w: LLFeedbackWeight, ln: real -> real, term: string, norms: seq<real>,
                                            docs: seq<FeatureVector>, n: nat)
    requires Sensible(w) && LnZeroAtOne(ln) && LnMonotone(ln) && n <= |docs| && n <= |norms|
    requires forall i | 0 <= i < n :: NonNegative(docs[i])
    ensures LLSum(w, ln, term, norms, docs, n) >= 0.0
  {
    if n > 0 {
      LLSumNonNegative(w, ln, term, norms, docs, n - 1);
      var i := n - 1;
      if PassesNormGuard(norms[i]) {
        assert Weight(docs[i], term) >= 0.0;
        ComputeFWMonotoneInTf(w, ln, Weight(docs[i], term), Weight(docs[i], term), norms[i]);
      }
    }
  }

  /**
   * The three-document scenario of computeFW in the weight's test class (a
   * method without a test annotation): docCount 3, sumTotalTermFreq 13,
   * "banana" in 2 documents with totalTermFreq 2, c = 0.5, and "banana" once in
   * the first two documents (lengths 4 and 5) but not in the third (length 4):
   * the weight is a third of the first two documents' weights.
   */
  lemma BananaScenario(ln: real -> real, d1: FeatureVector, d2: FeatureVector, d3: FeatureVector)
    requires LnZeroAtOne(ln)
    requires Weight(d1, "banana") == 1.0 && Weight(d2, "banana") == 1.0 && Weight(d3, "banana") == 0.0
    ensures
      var w := NewLLFeedbackWeight(0.5, CollectionStatistics(3, 13), TermStatistics(2, 2));
      var lambda := 2.0 / 3.0;
      && AvgL(w) == 13.0 / 3.0 && LambdaW(w) == lambda
      && ComputeFW(w, ln, 1.0, 4.0) == ln((ln(1.0 + 0.5 * (13.0 / 3.0) / 4.0) + lambda) / lambda)
      && LLAggregate(w, ln, "banana", [4.0, 5.0, 4.0], [d1, d2, d3]) ==
         (ComputeFW(w, ln, 1.0, 4.0) + ComputeFW(w, ln, 1.0, 5.0)) / 3.0
  {
    var w := NewLLFeedbackWeight(0.5, CollectionStatistics(3, 13), TermStatistics(2, 2));
    var docs := [d1, d2, d3];
    var norms := [4.0, 5.0, 4.0];
    assert LLSum(w, ln, "banana", norms, docs, 1) == ComputeFW(w, ln, 1.0, 4.0);
    assert LLSum(w, ln, "banana", norms, docs, 2) == ComputeFW(w, ln, 1.0, 4.0) + ComputeFW(w, ln, 1.0, 5.0);
    assert ComputeFW(w, ln, 0.0, 4.0) == 0.0;
  }

  // ---------------------------------------------------------------------------
  // LogLogisticRelevanceModel.estimate

  /** The model: the shared feedback settings and the free parameter c. */
  datatype LogLogisticRelevanceModel = LogLogisticRelevanceModel(base: FeedbackModel, c: real)

  function NewLogLogisticRelevanceModel(field: string, c: real, config: FeedbackModelConfig): (m: LogLogisticRelevanceModel)
    ensures m.c == c && m.base == NewFeedbackModel(field, config)
  {
    LogLogisticRelevanceModel(NewFeedbackModel(field, config), c)
  }

  /** Every vocabulary term has statistics the formulas can divide by. */
  ghost predicate StatsCover(coll: CollectionStatistics, stats: map<string, TermStatistics>, vocab: set<string>)
  {
    coll.docCount != 0 && forall t | t in vocab :: t in stats && stats[t].docFreq != 0
  }

  /** One vocabulary term's weight. */
  ghost function LLTermWeight(c: real, ln: real -> real, coll: CollectionStatistics, stats: map<string, TermStatistics>,
                              docs: seq<FeatureVector>, t: string): real
    requires StatsCover(coll, stats, Vocab(docs)) && t in Vocab(docs)
  {
    LLAggregate(NewLLFeedbackWeight(c, coll, stats[t]), ln, t, Norms(docs), docs)
  }

  /** The vector before pruning: every vocabulary term with its weight. */
  ghost function LLRaw(c: real, ln: real -> real, coll: CollectionStatistics, stats: map<string, TermStatistics>,
                       docs: seq<FeatureVector>): (f: FeatureVector)
    requires StatsCover(coll, stats, Vocab(docs))
    ensures f.Keys == Vocab(docs)
  {
    map t | t in Vocab(docs) :: LLTermWeight(c, ln, coll, stats, docs, t)
  }

  /** pruneToSize(fbTerms) only when pruneModel is set, then scaleToUnitL1Norm only when normalize is set. */
  ghost function PostProcess(m: LogLogisticRelevanceModel, raw: FeatureVector): FeatureVector
  {
    var pruned := if m.base.config.pruneModel then PrunedToSize(raw, m.base.fbTerms) else raw;
    if m.base.config.normalize then Scaled(pruned) else pruned
  }

  /** The statistics estimate collects: a fresh map, one entry per vocabulary term that is fetched. */
  ghost function CollectedStats(searcher: Searcher, docs: seq<FeatureVector>): map<string, TermStatistics>
  {
    Collected(map[], Vocab(docs), searcher.termStats)
  }

  /** What estimate returns: the empty vector when the collection statistics cannot be fetched. */
  ghost function LLModel(m: LogLogisticRelevanceModel, ln: real -> real, searcher: Searcher,
                         docs: seq<FeatureVector>): FeatureVector
    requires searcher.collection.Some? ==> StatsCover(searcher.collection.value, searcher.termStats, Vocab(docs))
  {
    match searcher.collection
    case None => map[]
    case Some(coll) =>
      assert StatsCover(coll, CollectedStats(searcher, docs), Vocab(docs));
      PostProcess(m, LLRaw(m.c, ln, coll, CollectedStats(searcher, docs), docs))
  }

  /** The weights of the given terms, as the loop of estimate has built them so far. */
  ghost function LLPartial(c: real, ln: real -> real, coll: CollectionStatistics, stats: map<string, TermStatistics>,
                           docs: seq<FeatureVector>, keys: set<string>): FeatureVector
    requires StatsCover(coll, stats, Vocab(docs)) && keys <= Vocab(docs)
  {
    map t | t in keys :: LLTermWeight(c, ln, coll, stats, docs, t)
  }

  lemma LLPartialAdd(c: real, ln: real -> real, coll: CollectionStatistics, stats: map<string, TermStatistics>,
                     docs: seq<FeatureVector>, keys: set<string>, t: string)
    requires StatsCover(coll, stats, Vocab(docs)) && keys <= Vocab(docs) && t in Vocab(docs) && t !in keys
    ensures LLPartial(c, ln, coll, stats, docs, keys + {t}) ==
            AddWeight(LLPartial(c, ln, coll, stats, docs, keys), t, LLTermWeight(c, ln, coll, stats, docs, t))
  {
  }

  lemma LLPartialEmpty(c: real, ln: real -> real, coll: CollectionStatistics, stats: map<string, TermStatistics>,
                       docs: seq<FeatureVector>)
    requires StatsCover(coll, stats, Vocab(docs))
    ensures LLPartial(c, ln, coll, stats, docs, {}) == map[]
  {
  }

  lemma LLPartialFull(c: real, ln: real -> real, coll: CollectionStatistics, stats: map<string, TermStatistics>,
                      docs: seq<FeatureVector>)
    requires StatsCover(coll, stats, Vocab(docs))
    ensures LLPartial(c, ln, coll, stats, docs, Vocab(docs)) == LLRaw(c, ln, coll, stats, docs)
  {
  }

  /** The loop of estimate: one weight object per vocabulary term, its aggregate added to f. */
  method ComputeLLRaw(c: real, ln: real -> real, coll: CollectionStatistics, stats: map<string, TermStatistics>,
                      docvectors: seq<FeatureVector>) returns (f: FeatureVector)
    requires StatsCover(coll, stats, Vocab(docvectors))
    ensures f == LLRaw(c, ln, coll, stats, docvectors)
  {
    var vocab := GetVocab(docvectors);
    var norms := ComputeNorms(docvectors);
    f := map[];
    LLPartialEmpty(c, ln, coll, stats, docvectors);
    var rest := vocab;
    ghost var done: set<string> := {};
    while rest != {}
      invariant rest <= vocab && done == vocab - rest
      invariant f == LLPartial(c, ln, coll, stats, docvectors, done)
      decreases rest
    {
      var term :| term in rest;
      assert term !in done;
      assert vocab - (rest - {term}) == done + {term};
      ghost var i :| 0 <= i < |docvectors| && term in docvectors[i];
      var w := NewLLFeedbackWeight(c, coll, stats[term]);
      var fw := ComputeFWAggregate(w, ln, term, norms, docvectors);
      LLPartialAdd(c, ln, coll, stats, docvectors, done, term);
      f := AddWeight(f, term, fw);
      rest := rest - {term};
      done := done + {term};
    }
    assert done == Vocab(docvectors);
    LLPartialFull(c, ln, coll, stats, docvectors);
  }

  method ApplyPostProcess(m: LogLogisticRelevanceModel, raw: FeatureVector) returns (f: FeatureVector)
    ensures f == PostProcess(m, raw)
  {
    f := raw;
    if m.base.config.pruneModel {
      f := PruneToSize(f, m.base.fbTerms);
    }
    if m.base.config.normalize {
      f := ScaleToUnitL1Norm(f);
    }
  }

  /**
   * estimate(query, docvectors, scores): the scores and the query are not used.
   * The statistics of every vocabulary term must be fetched and non-zero.
   */
  method Estimate(m: LogLogisticRelevanceModel, ln: real -> real, searcher: Searcher, docvectors: seq<FeatureVector>)
    returns (f: FeatureVector)
    requires searcher.collection.Some? ==> StatsCover(searcher.collection.value, searcher.termStats, Vocab(docvectors))
    ensures f == LLModel(m, ln, searcher, docvectors)
  {
    var vocab := GetVocab(docvectors);
    f := map[];
    if searcher.collection.None? {
      return;
    }
    var coll := searcher.collection.value;
    var stats := CollectTermStatistics(vocab, searcher.termStats, map[]);
    assert StatsCover(coll, stats, Vocab(docvectors));
    f := ComputeLLRaw(m.c, ln, coll, stats, docvectors);
    f := ApplyPostProcess(m, f);
  }

  // ---------------------------------------------------------------------------
  // Properties of the result

  /** Without pruning, every vocabulary term is kept; with pruning, at most fbTerms of them. */
  lemma PostProcessKeys(m: LogLogisticRelevanceModel, raw: FeatureVector)
    ensures !m.base.config.pruneModel ==> PostProcess(m, raw).Keys == raw.Keys
    ensures m.base.config.pruneModel ==>
              PostProcess(m, raw).Keys <= raw.Keys &&
              |PostProcess(m, raw)| == if m.base.fbTerms <= 0 then 0 else Min(m.base.fbTerms, |raw|)
  {
    var pruned := if m.base.config.pruneModel then PrunedToSize(raw, m.base.fbTerms) else raw;
    PrunedToSizeProperties(raw, m.base.fbTerms);
    ScaledProperties(pruned);
    assert |PostProcess(m, raw)| == |pruned| by {
      assert PostProcess(m, raw).Keys == pruned.Keys;
    }
  }

  /** When both gates are off, estimate returns the raw vector: its key set is the vocabulary. */
  lemma LLModelUngated(m: LogLogisticRelevanceModel, ln: real -> real, searcher: Searcher, docs: seq<FeatureVector>)
    requires searcher.collection.Some? && StatsCover(searcher.collection.value, searcher.termStats, Vocab(docs))
    requires !m.base.config.pruneModel && !m.base.config.normalize
    ensures LLModel(m, ln, searcher, docs).Keys == Vocab(docs)
  {
  }

  /** With normalize set, non-negative documents and sensible statistics, the model is a probability distribution or all zero. */
  lemma LLModelNormalized(m: LogLogisticRelevanceModel, ln: real -> real, coll: CollectionStatistics,
                          stats: map<string, TermStatistics>, docs: seq<FeatureVector>)
    requires StatsCover(coll, stats, Vocab(docs)) && m.base.config.normalize
    requires LnZeroAtOne(ln) && LnMonotone(ln) && m.c >= 0.0
    requires coll.docCount > 0 && coll.sumTotalTermFreq >= 0
    requires forall t | t in Vocab(docs) :: stats[t].docFreq > 0
    requires forall i | 0 <= i < |docs| :: NonNegative(docs[i])
    ensures IsDistribution(PostProcess(m, LLRaw(m.c, ln, coll, stats, docs)))
  {
    var raw := LLRaw(m.c, ln, coll, stats, docs);
    LLRawNonNegative(m.c, ln, coll, stats, docs);
    var pruned := if m.base.config.pruneModel then PrunedToSize(raw, m.base.fbTerms) else raw;
    PrunedToSizeProperties(raw, m.base.fbTerms);
    assert NonNegative(pruned);
    ScaledIsDistribution(pruned);
  }

  lemma LLRawNonNegative(c: real, ln: real -> real, coll: CollectionStatistics,
                         stats: map<string, TermStatistics>, docs: seq<FeatureVector>)
    requires StatsCover(coll, stats, Vocab(docs))
    requires LnZeroAtOne(ln) && LnMonotone(ln) && c >= 0.0
    requires coll.docCount > 0 && coll.sumTotalTermFreq >= 0
    requires forall t | t in Vocab(docs) :: stats[t].docFreq > 0
    requires forall i | 0 <= i < |docs| :: NonNegative(docs[i])
    ensures NonNegative(LLRaw(c, ln, coll, stats, docs))
  {
    var raw := LLRaw(c, ln, coll, stats, docs);
    forall t | t in raw ensures raw[t] >= 0.0 {
      var w := NewLLFeedbackWeight(c, coll, stats[t]);
      var i :| 0 <= i < |docs| && t in docs[i];
      LLSumNonNegative(w, ln, t, Norms(docs), docs, |docs|);
      DivNonNeg(LLSum(w, ln, t, Norms(docs), docs, |docs|), |docs| as real);
      assert raw[t] == LLAggregate(w, ln, t, Norms(docs), docs);
    }
  }

  /**
   * The estimate test: the query retrieves the two "banana" documents (lengths
   * 4 and 5, "banana" once in each), the collection has 3 documents and 13
   * tokens, "banana" is in 2 documents with totalTermFreq 2, c = 0.5, and
   * neither pruning nor normalisation is on. The estimate weighs "banana" with
   * half the sum of the two documents' weights.
   */
  lemma BananaEstimate(ln: real -> real, m: LogLogisticRelevanceModel, searcher: Searcher,
                       d1: FeatureVector, d2: FeatureVector)
    requires m.c == 0.5 && !m.base.config.pruneModel && !m.base.config.normalize
    requires searcher.collection == Some(CollectionStatistics(3, 13))
    requires StatsCover(CollectionStatistics(3, 13), searcher.termStats, Vocab([d1, d2]))
    requires "banana" in searcher.termStats && searcher.termStats["banana"] == TermStatistics(2, 2)
    requires Weight(d1, "banana") == 1.0 && Weight(d2, "banana") == 1.0 && L1Norm(d1) == 4.0 && L1Norm(d2) == 5.0
    ensures
      var w := NewLLFeedbackWeight(0.5, CollectionStatistics(3, 13), TermStatistics(2, 2));
      && "banana" in LLModel(m, ln, searcher, [d1, d2])
      && LLModel(m, ln, searcher, [d1, d2])["banana"] == (ComputeFW(w, ln, 1.0, 4.0) + ComputeFW(w, ln, 1.0, 5.0)) / 2.0
  {
    var docs := [d1, d2];
    var coll := CollectionStatistics(3, 13);
    var w := NewLLFeedbackWeight(0.5, coll, TermStatistics(2, 2));
    assert "banana" in docs[0];
    assert "banana" in Vocab(docs);
    var stats := CollectedStats(searcher, docs);
    assert stats["banana"] == TermStatistics(2, 2);
    assert Norms(docs) == [4.0, 5.0];
    assert LLSum(w, ln, "banana", [4.0, 5.0], docs, 1) == ComputeFW(w, ln, 1.0, 4.0);
    assert LLSum(w, ln, "banana", [4.0, 5.0], docs, 2) == ComputeFW(w, ln, 1.0, 4.0) + ComputeFW(w, ln, 1.0, 5.0);
    assert LLTermWeight(0.5, ln, coll, stats, docs, "banana") == LLAggregate(w, ln, "banana", [4.0, 5.0], docs);
  }
}
