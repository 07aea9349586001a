/**
 * RocchioReranker: the expanded query is alpha * q + beta * centroid(relevant)
 * - gamma * centroid(non-relevant), pruned to fbTerms, thresholded at 0.0001
 * and normalised. A centroid weight is the tf * idf of the term averaged over
 * all of the given documents (documents failing the norm guard add nothing).
 * The query vector weights a query term by (0.5 + 0.5 * docFreq / maxQueryTf)
 * times ln of docCount / docFreq in integer division, and leaves out terms
 * with docFreq 0. Term statistics are cached in a field across calls.
 */
module Rocchio {
  import opened Wrappers
  import opened FeatureVectors
  import opened Index
  import opened FeedbackModels
  import opened RealArith

  const Alpha: real := 1.0
  const Beta: real := 0.85
  const Gamma: real := 0.0
  /** The weight below which pruneToThreshold drops a term. */
  const Threshold: real := 0.0001

  // ---------------------------------------------------------------------------
  // RocchioFeedbakWegith

  datatype RocchioFeedbackWeight = RocchioFeedbackWeight(collectionStats: CollectionStatistics, termStats: TermStatistics)

  /** idf = ln(docCount / docFreq), a floating-point quotient. */
  function Idf(w: RocchioFeedbackWeight, ln: real -> real): real
    requires w.termStats.docFreq != 0
  {
    ln(w.collectionStats.docCount as real / w.termStats.docFreq as real)
  }

  /** computeFW(tf): tf * idf for a positive tf, and 0 otherwise. */
  function DocFW(w: RocchioFeedbackWeight, ln: real -> real, tf: real): (r: real)
    requires w.termStats.docFreq != 0
    ensures tf <= 0.0 ==> r == 0.0
  {
    if tf > 0.0 then tf * Idf(w, ln) else 0.0
  }

  /** A term no rarer than in every document has a non-negative idf. */
  lemma IdfNonNegative(w: RocchioFeedbackWeight, ln: real -> real)
    requires LnZeroAtOne(ln) && LnMonotone(ln)
    requires 0 < w.termStats.docFreq <= w.collectionStats.docCount
    ensures Idf(w, ln) >= 0.0
  {
    var d := w.termStats.docFreq as real;
    DivMono(d, w.collectionStats.docCount as real, d);
    DivSelf(d);
    LnNonNegative(ln, w.collectionStats.docCount as real / d);
  }

  /** With a non-negative idf the weight of a document is non-negative and grows with tf. */
  lemma DocFWMonotone(w: RocchioFeedbackWeight, ln: real -> real, tf1: real, tf2: real)
    requires w.termStats.docFreq != 0 && Idf(w, ln) >= 0.0 && tf1 <= tf2
    ensures 0.0 <= DocFW(w, ln, tf1) <= DocFW(w, ln, tf2)
  {
    if tf1 > 0.0 {
      MulMono(Idf(w, ln), tf1, tf2);
      MulMono(Idf(w, ln), 0.0, tf1);
    } else if tf2 > 0.0 {
      MulMono(Idf(w, ln), 0.0, tf2);
    }
  }

  /** The weights of the first n documents that pass the norm guard. */
  function RocchioSum(w: RocchioFeedbackWeight, ln: real -> real, term: string, norms: seq<real>,
                      docs: seq<FeatureVector>, n: nat): real
    requires w.termStats.docFreq != 0 && n <= |docs| && n <= |norms|
  {
    if n == 0 then 0.0
    else
      RocchioSum(w, ln, term, norms, docs, n - 1)
      + (if PassesNormGuard(norms[n - 1]) then DocFW(w, ln, Weight(docs[n - 1], term)) else 0.0)
  }

  /** computeFW(term, norms, docvectors): 0 without documents, else the guarded sum over all documents' count. */
  function RocchioAggregate(w: RocchioFeedbackWeight, ln: real -> real, term: string, norms: seq<real>,
                            docs: seq<FeatureVector>): (r: real)
    requires w.termStats.docFreq != 0 && |norms| == |docs|
    ensures |docs| == 0 ==> r == 0.0
  {
    if |docs| == 0 then 0.0 else RocchioSum(w, ln, term, norms, docs, |docs|) / |docs| as real
  }

  method ComputeRocchioFW(w: RocchioFeedbackWeight, ln: real -> real, term: string, norms: seq<real>,
                          docvectors: seq<FeatureVector>) returns (fw: real)
    requires w.termStats.docFreq != 0 && |norms| == |docvectors|
    ensures fw == RocchioAggregate(w, ln, term, norms, docvectors)
  {
    if |docvectors| == 0 {
      return 0.0;
    }
    var fbWeight := 0.0;
    for i := 0 to |docvectors|
      invariant fbWeight == RocchioSum(w, ln, term, norms, docvectors, i)
    {
      if norms[i] > 0.001 {
        fbWeight := fbWeight + DocFW(w, ln, Weight(docvectors[i], term));
      }
    }
    fw := fbWeight / |docvectors| as real;
  }

  /** With a non-negative idf and non-negative documents the guarded sum is non-negative. */
  lemma {:induction false} RocchioSumNonNegative(w: RocchioFeedbackWeight, ln: real -> real, term: string,
                                                 norms: seq<real>, docs: seq<FeatureVector>, n: nat)
    requires w.termStats.docFreq != 0 && Idf(w, ln) >= 0.0 && n <= |docs| && n <= |norms|
    ensures RocchioSum(w, ln, term, norms, docs, n) >= 0.0
  {
    if n > 0 {
      RocchioSumNonNegative(w, ln, term, norms, docs, n - 1);
      DocFWMonotone(w, ln, Weight(docs[n - 1], term), Weight(docs[n - 1], term));
    }
  }

  /** A term that occurs in none of the documents gets weight 0. */
  lemma {:induction false} RocchioSumAbsent(w: RocchioFeedbackWeight, ln: real -> real, term: string,
                                            norms: seq<real>, docs: seq<FeatureVector>, n: nat)
    requires w.termStats.docFreq != 0 && n <= |docs| && n <= |norms|
    requires forall i | 0 <= i < n :: term !in docs[i]
    ensures RocchioSum(w, ln, term, norms, docs, n) == 0.0
  {
    if n > 0 {
      RocchioSumAbsent(w, ln, term, norms, docs, n - 1);
    }
  }

  // ---------------------------------------------------------------------------
  // Centroids, the query vector and the combination

  /** Every term of terms has fetched statistics with a non-zero docFreq. */
  ghost predicate StatsFor(stats: map<string, TermStatistics>, terms: set<string>)
  {
    forall t | t in terms :: t in stats && stats[t].docFreq != 0
  }

  /** estimateModel once the statistics are cached: each vocabulary term with its averaged tf * idf. */
  ghost function RocchioCentroid(ln: real -> real, coll: CollectionStatistics, stats: map<string, TermStatistics>,
                                 docs: seq<FeatureVector>): (f: FeatureVector)
    requires StatsFor(stats, Vocab(docs))
    ensures f.Keys == Vocab(docs)
  {
    map t | t in Vocab(docs) :: RocchioAggregate(RocchioFeedbackWeight(coll, stats[t]), ln, t, Norms(docs), docs)
  }

  ghost function CentroidPartial(ln: real -> real, coll: CollectionStatistics, stats: map<string, TermStatistics>,
                                 docs: seq<FeatureVector>, keys: set<string>): FeatureVector
    requires StatsFor(stats, keys)
  {
    map t | t in keys :: RocchioAggregate(RocchioFeedbackWeight(coll, stats[t]), ln, t, Norms(docs), docs)
  }

  lemma CentroidPartialAdd(ln: real -> real, coll: CollectionStatistics, stats: map<string, TermStatistics>,
                           docs: seq<FeatureVector>, keys: set<string>, t: string)
    requires StatsFor(stats, keys + {t}) && t !in keys
    ensures CentroidPartial(ln, coll, stats, docs, keys + {t}) ==
            AddWeight(CentroidPartial(ln, coll, stats, docs, keys), t,
                      RocchioAggregate(RocchioFeedbackWeight(coll, stats[t]), ln, t, Norms(docs), docs))
  {
  }

  lemma CentroidPartialEmpty(ln: real -> real, coll: CollectionStatistics, stats: map<string, TermStatistics>,
                             docs: seq<FeatureVector>)
    ensures CentroidPartial(ln, coll, stats, docs, {}) == map[]
  {
  }

  lemma CentroidPartialFull(ln: real -> real, coll: CollectionStatistics, stats: map<string, TermStatistics>,
                            docs: seq<FeatureVector>)
    requires StatsFor(stats, Vocab(docs))
    ensures CentroidPartial(ln, coll, stats, docs, Vocab(docs)) == RocchioCentroid(ln, coll, stats, docs)
  {
  }

  /** The weighting loop of estimateModel. */
  method ComputeCentroid(ln: real -> real, coll: CollectionStatistics, stats: map<string, TermStatistics>,
                         docvectors: seq<FeatureVector>) returns (f: FeatureVector)
    requires StatsFor(stats, Vocab(docvectors))
    ensures f == RocchioCentroid(ln, coll, stats, docvectors)
  {
    var vocab := GetVocab(docvectors);
    var norms := ComputeNorms(docvectors);
    f := map[];
    CentroidPartialEmpty(ln, coll, stats, docvectors);
    var rest := vocab;
    ghost var done: set<string> := {};
    while rest != {}
      invariant rest <= vocab && done == vocab - rest
      invariant f == CentroidPartial(ln, coll, stats, docvectors, done)
      decreases rest
    {
      var term :| term in rest;
      assert term !in done;
      assert vocab - (rest - {term}) == done + {term};
      var w := RocchioFeedbackWeight(coll, stats[term]);
      var fw := ComputeRocchioFW(w, ln, term, norms, docvectors);
      CentroidPartialAdd(ln, coll, stats, docvectors, done, term);
      f := AddWeight(f, term, fw);
      rest := rest - {term};
      done := done + {term};
    }
    assert done == Vocab(docvectors);
    CentroidPartialFull(ln, coll, stats, docvectors);
  }

  /** An idf-like quantity of the query vector: ln(docCount / docFreq) with the long quotient truncated. */
  function QueryIdf(ln: real -> real, coll: CollectionStatistics, df: int): real
    requires df != 0
  {
    ln(JavaLongDiv(coll.docCount, df) as real)
  }

  /** A query term's weight: (0.5 + 0.5 * docFreq / norm) * idf, norm being the largest query term count. */
  function QueryWeight(ln: real -> real, coll: CollectionStatistics, df: int, norm: real): real
    requires df != 0 && norm != 0.0
  {
    (0.5 + 0.5 * df as real / norm) * QueryIdf(ln, coll, df)
  }

  /** Every term of a non-empty token list counts at least once, so the largest count is at least 1. */
  lemma FromTermsMaxNorm(tokens: seq<string>)
    ensures forall t | t in FromTerms(tokens) :: MaxNorm(FromTerms(tokens)) >= 1.0
  {
    FromTermsCounts(tokens);
    forall t | t in FromTerms(tokens) ensures MaxNorm(FromTerms(tokens)) >= 1.0 {
      MaxNormBound(FromTerms(tokens), t);
      assert t in multiset(tokens);
    }
  }

  /** The largest count of a query term, at least 1 whenever there is a query term. */
  ghost function QueryNorm(tokens: seq<string>): (r: real)
    ensures forall t | t in FromTerms(tokens) :: r >= 1.0
  {
    FromTermsMaxNorm(tokens);
    MaxNorm(FromTerms(tokens))
  }

  /** getQfv once the query terms' statistics are cached. */
  ghost function RocchioQfv(ln: real -> real, coll: CollectionStatistics, cache: map<string, TermStatistics>,
                            tokens: seq<string>): FeatureVector
    requires FromTerms(tokens).Keys <= cache.Keys
  {
    map t | t in FromTerms(tokens) && cache[t].docFreq > 0 :: QueryWeight(ln, coll, cache[t].docFreq, QueryNorm(tokens))
  }

  /** The weights getQfv has put once the terms in keys are weighed with norm. */
  ghost function QfvPartial(ln: real -> real, coll: CollectionStatistics, cache: map<string, TermStatistics>,
                            norm: real, keys: set<string>): FeatureVector
    requires keys <= cache.Keys && (keys == {} || norm != 0.0)
  {
    map t | t in keys && cache[t].docFreq > 0 :: QueryWeight(ln, coll, cache[t].docFreq, norm)
  }

  lemma QfvPartialAdd(ln: real -> real, coll: CollectionStatistics, cache: map<string, TermStatistics>,
                      norm: real, keys: set<string>, t: string)
    requires keys + {t} <= cache.Keys && t !in keys && norm != 0.0
    ensures QfvPartial(ln, coll, cache, norm, keys + {t}) ==
            if cache[t].docFreq > 0
            then QfvPartial(ln, coll, cache, norm, keys)[t := QueryWeight(ln, coll, cache[t].docFreq, norm)]
            else QfvPartial(ln, coll, cache, norm, keys)
  {
  }

  lemma QfvPartialEmpty(ln: real -> real, coll: CollectionStatistics, cache: map<string, TermStatistics>, norm: real)
    ensures QfvPartial(ln, coll, cache, norm, {}) == map[]
  {
  }

  lemma QfvPartialFull(ln: real -> real, coll: CollectionStatistics, cache: map<string, TermStatistics>,
                       tokens: seq<string>)
    requires FromTerms(tokens).Keys <= cache.Keys
    ensures QfvPartial(ln, coll, cache, QueryNorm(tokens), FromTerms(tokens).Keys) == RocchioQfv(ln, coll, cache, tokens)
  {
  }

  /** One pass of the weighting loop of getQfv: weigh term when its docFreq is positive. */
  method AddQueryTerm(ln: real -> real, coll: CollectionStatistics, cache: map<string, TermStatistics>,
                      norm: real, qfv: FeatureVector, ghost done: set<string>, term: string) returns (r: FeatureVector)
    requires done + {term} <= cache.Keys && term !in done && norm != 0.0
    requires qfv == QfvPartial(ln, coll, cache, norm, done)
    ensures r == QfvPartial(ln, coll, cache, norm, done + {term})
  {
    QfvPartialAdd(ln, coll, cache, norm, done, term);
    var tf := cache[term].docFreq;
    r := qfv;
    if tf > 0 {
      r := AddWeight(qfv, term, QueryWeight(ln, coll, tf, norm));
    }
  }

  /** The weighting loop of getQfv, over the query terms in keys. */
  method WeighQueryTerms(ln: real -> real, coll: CollectionStatistics, cache: map<string, TermStatistics>,
                         norm: real, keys: set<string>) returns (qfv: FeatureVector)
    requires keys <= cache.Keys && (keys == {} || norm != 0.0)
    ensures qfv == QfvPartial(ln, coll, cache, norm, keys)
  {
    qfv := map[];
    var rest := keys;
    ghost var done: set<string> := {};
    QfvPartialEmpty(ln, coll, cache, norm);
    while rest != {}
      invariant rest <= keys && done == keys - rest
      invariant qfv == QfvPartial(ln, coll, cache, norm, done)
      decreases rest
    {
      var term :| term in rest;
      assert term !in done;
      assert keys - (rest - {term}) == done + {term};
      qfv := AddQueryTerm(ln, coll, cache, norm, qfv, done, term);
      rest := rest - {term};
      done := done + {term};
    }
    assert done == keys;
  }

  /** getQfv once the query terms' statistics are cached: weigh each query term. */
  method ComputeQfv(ln: real -> real, coll: CollectionStatistics, cache: map<string, TermStatistics>,
                    queryTokens: seq<string>) returns (qfv: FeatureVector)
    requires FromTerms(queryTokens).Keys <= cache.Keys
    ensures qfv == RocchioQfv(ln, coll, cache, queryTokens)
  {
    var model := FromTerms(queryTokens);
    var norm := ComputeMaxNorm(model);
    assert norm == QueryNorm(queryTokens);
    qfv := WeighQueryTerms(ln, coll, cache, norm, model.Keys);
    QfvPartialFull(ln, coll, cache, queryTokens);
  }

  /** The query vector holds the query terms with a positive docFreq, and no other term. */
  lemma RocchioQfvKeys(ln: real -> real, coll: CollectionStatistics, cache: map<string, TermStatistics>,
                       tokens: seq<string>)
    requires FromTerms(tokens).Keys <= cache.Keys
    ensures forall t :: t in RocchioQfv(ln, coll, cache, tokens) <==> t in tokens && t in cache && cache[t].docFreq > 0
  {
    FromTermsCounts(tokens);
  }

  /**
   * The truncating long division makes ln(docCount / docFreq) ln(1) = 0 for
   * every term found in more than half of the documents, so such a query term
   * weighs 0: with 3 documents and docFreq 2, for one, where ln(1.5) would be
   * positive.
   */
  lemma QueryIdfTruncates(ln: real -> real, coll: CollectionStatistics, df: int, norm: real)
    requires LnZeroAtOne(ln) && norm != 0.0
    requires 0 < df <= coll.docCount < 2 * df
    ensures QueryWeight(ln, coll, df, norm) == 0.0
    ensures QueryWeight(ln, CollectionStatistics(3, 0), 2, norm) == 0.0
  {
    QuotientIsOne(coll.docCount, df);
    assert JavaLongDiv(3, 2) == 1;
  }

  /** A dividend at least the divisor and below twice it has quotient 1. */
  lemma QuotientIsOne(a: int, b: int)
    requires 0 < b <= a < 2 * b
    ensures a / b == 1
  {
  }

  /** A query term no rarer than in every document has a non-negative weight. */
  lemma QueryWeightNonNegative(ln: real -> real, coll: CollectionStatistics, df: int, norm: real)
    requires LnZeroAtOne(ln) && LnMonotone(ln)
    requires 0 < df <= coll.docCount && norm > 0.0
    ensures QueryWeight(ln, coll, df, norm) >= 0.0
  {
    assert JavaLongDiv(coll.docCount, df) >= 1 by {
      assert coll.docCount / df >= df / df;
    }
    LnNonNegative(ln, JavaLongDiv(coll.docCount, df) as real);
    DivNonNeg(df as real, norm);
    MulMono(QueryIdf(ln, coll, df), 0.0, 0.5 + 0.5 * df as real / norm);
  }

  /** linearCombineation(qfv, rel, alpha, beta), then linearCombineation(model, norel, 1, -gamma). */
  function RocchioCombined(qfv: FeatureVector, rel: FeatureVector, norel: FeatureVector): (r: FeatureVector)
  {
    LinearCombine(LinearCombine(qfv, rel, Alpha, Beta), norel, 1.0, -1.0 * Gamma)
  }

  /** The combination covers the terms of all three vectors and weighs them alpha, beta and -gamma. */
  lemma RocchioCombinedWeights(qfv: FeatureVector, rel: FeatureVector, norel: FeatureVector)
    ensures RocchioCombined(qfv, rel, norel).Keys == qfv.Keys + rel.Keys + norel.Keys
    ensures forall t :: Weight(RocchioCombined(qfv, rel, norel), t) ==
                          Weight(qfv, t) + 0.85 * Weight(rel, t) - 0.0 * Weight(norel, t)
  {
  }

  /** pruneToSize(fbTerms), pruneToThreshold(0.0001), scaleToUnitL1Norm, dropNaN, in this order. */
  ghost function RocchioPost(model: FeatureVector, fbTerms: int): FeatureVector
  {
    DropNaN(Scaled(PruneToThreshold(PrunedToSize(model, fbTerms), Threshold)))
  }

  method PostProcess(model: FeatureVector, fbTerms: int) returns (r: FeatureVector)
    ensures r == RocchioPost(model, fbTerms)
  {
    r := PruneToSize(model, fbTerms);
    r := PruneToThreshold(r, Threshold);
    r := ScaleToUnitL1Norm(r);
    r := DropNaN(r);
  }

  /**
   * The expanded query keeps at most fbTerms terms of the combination, only
   * terms weighted at least 0.0001 there, each with a positive weight, and sums
   * to 1 unless it is empty.
   */
  lemma RocchioPostProperties(model: FeatureVector, fbTerms: int)
    ensures RocchioPost(model, fbTerms).Keys <= model.Keys
    ensures |RocchioPost(model, fbTerms)| <= if fbTerms <= 0 then 0 else fbTerms
    ensures forall t | t in RocchioPost(model, fbTerms) :: model[t] >= Threshold && RocchioPost(model, fbTerms)[t] > 0.0
    ensures IsDistribution(RocchioPost(model, fbTerms))
    ensures |RocchioPost(model, fbTerms)| > 0 ==> L1Norm(RocchioPost(model, fbTerms)) == 1.0
  {
    var pruned := PrunedToSize(model, fbTerms);
    PrunedToSizeProperties(model, fbTerms);
    var kept := PruneToThreshold(pruned, Threshold);
    ScaledProperties(kept);
    assert NonNegative(kept);
    ScaledIsDistribution(kept);
    assert |Scaled(kept)| == |kept| by { assert Scaled(kept).Keys == kept.Keys; }
    assert |kept| <= |pruned| by { assert kept.Keys <= pruned.Keys; SubsetCard(kept.Keys, pruned.Keys); }
    ScaledPositive(kept);
    if |kept| > 0 {
      L1NormPositive(kept, Pick(kept.Keys));
    }
  }

  lemma SubsetCard(a: set<string>, b: set<string>)
    requires a <= b
    ensures |a| <= |b|
  {
    assert b == a + (b - a);
  }

  /** Every term can be looked up and its docFreq is not 0. */
  ghost predicate DfKnown(cache: map<string, TermStatistics>, source: map<string, TermStatistics>, terms: set<string>)
  {
    Fetchable(cache, source, terms) && forall t | t in terms :: Lookup(cache, source, t).docFreq != 0
  }

  /** Caching more terms changes no lookup, so what is known stays known. */
  lemma CacheKeepsKnown(cache: map<string, TermStatistics>, vocab: set<string>, source: map<string, TermStatistics>,
                        terms: set<string>)
    requires DfKnown(cache, source, terms)
    ensures DfKnown(CacheAfter(cache, vocab, source), source, terms)
    ensures vocab == terms ==> StatsFor(CacheAfter(cache, vocab, source), terms)
  {
    forall t | t in terms
      ensures Lookup(CacheAfter(cache, vocab, source), source, t) == Lookup(cache, source, t)
      ensures t in vocab ==> t in CacheAfter(cache, vocab, source) && CacheAfter(cache, vocab, source)[t] == Lookup(cache, source, t)
    {
      CacheAfterLookup(cache, vocab, source, t);
    }
  }

  /** What the lookups of estimateRocchioModel need: every query term, and every selected vocabulary term with its docFreq. */
  ghost predicate RocchioInputsOk(cache: map<string, TermStatistics>, source: map<string, TermStatistics>,
                                  tokens: seq<string>, docs: seq<FeatureVector>, rel: seq<int>, nonrel: seq<int>)
  {
    && IndexesIn(rel, docs) && IndexesIn(nonrel, docs)
    && Fetchable(cache, source, FromTerms(tokens).Keys)
    && DfKnown(cache, source, Vocab(Selected(docs, rel)))
    && DfKnown(cache, source, Vocab(Selected(docs, nonrel)))
  }

  /** The cache after the query terms, then the relevant and then the non-relevant vocabulary, are fetched. */
  ghost function CacheAfterQuery(cache: map<string, TermStatistics>, source: map<string, TermStatistics>,
                                 tokens: seq<string>): map<string, TermStatistics>
  {
    CacheAfter(cache, FromTerms(tokens).Keys, source)
  }

  ghost function CacheAfterRel(cache: map<string, TermStatistics>, source: map<string, TermStatistics>,
                               tokens: seq<string>, docs: seq<FeatureVector>, rel: seq<int>): map<string, TermStatistics>
    requires IndexesIn(rel, docs)
  {
    CacheAfter(CacheAfterQuery(cache, source, tokens), Vocab(Selected(docs, rel)), source)
  }

  ghost function CacheAfterAll(cache: map<string, TermStatistics>, source: map<string, TermStatistics>,
                               tokens: seq<string>, docs: seq<FeatureVector>, rel: seq<int>,
                               nonrel: seq<int>): map<string, TermStatistics>
    requires IndexesIn(rel, docs) && IndexesIn(nonrel, docs)
  {
    CacheAfter(CacheAfterRel(cache, source, tokens, docs, rel), Vocab(Selected(docs, nonrel)), source)
  }

  /** The three cache states meet the preconditions of the three estimates. */
  lemma CachesServe(cache: map<string, TermStatistics>, source: map<string, TermStatistics>,
                    tokens: seq<string>, docs: seq<FeatureVector>, rel: seq<int>, nonrel: seq<int>)
    requires RocchioInputsOk(cache, source, tokens, docs, rel, nonrel)
    ensures FromTerms(tokens).Keys <= CacheAfterQuery(cache, source, tokens).Keys
    ensures DfKnown(CacheAfterQuery(cache, source, tokens), source, Vocab(Selected(docs, rel)))
    ensures StatsFor(CacheAfterRel(cache, source, tokens, docs, rel), Vocab(Selected(docs, rel)))
    ensures DfKnown(CacheAfterRel(cache, source, tokens, docs, rel), source, Vocab(Selected(docs, nonrel)))
    ensures StatsFor(CacheAfterAll(cache, source, tokens, docs, rel, nonrel), Vocab(Selected(docs, nonrel)))
  {
    var q := FromTerms(tokens).Keys;
    forall t | t in q ensures t in CacheAfterQuery(cache, source, tokens) {
      CacheAfterLookup(cache, q, source, t);
    }
    var relVocab := Vocab(Selected(docs, rel));
    var norelVocab := Vocab(Selected(docs, nonrel));
    CacheKeepsKnown(cache, q, source, relVocab);
    CacheKeepsKnown(cache, q, source, norelVocab);
    var c1 := CacheAfterQuery(cache, source, tokens);
    CacheKeepsKnown(c1, relVocab, source, relVocab);
    CacheKeepsKnown(c1, relVocab, source, norelVocab);
    var c2 := CacheAfterRel(cache, source, tokens, docs, rel);
    CacheKeepsKnown(c2, norelVocab, source, norelVocab);
  }

  /** What estimateRocchioModel returns once the collection statistics are fetched. */
  ghost function RocchioModel(ln: real -> real, coll: CollectionStatistics, cache: map<string, TermStatistics>,
                              source: map<string, TermStatistics>, tokens: seq<string>, docs: seq<FeatureVector>,
                              rel: seq<int>, nonrel: seq<int>, fbTerms: int): FeatureVector
    requires RocchioInputsOk(cache, source, tokens, docs, rel, nonrel)
  {
    CachesServe(cache, source, tokens, docs, rel, nonrel);
    var qfv := DropNaN(RocchioQfv(ln, coll, CacheAfterQuery(cache, source, tokens), tokens));
    var relModel := DropNaN(RocchioCentroid(ln, coll, CacheAfterRel(cache, source, tokens, docs, rel),
                                            Selected(docs, rel)));
    var norelModel := DropNaN(RocchioCentroid(ln, coll, CacheAfterAll(cache, source, tokens, docs, rel, nonrel),
                                              Selected(docs, nonrel)));
    RocchioPost(RocchioCombined(qfv, relModel, norelModel), fbTerms)
  }

  // ---------------------------------------------------------------------------
  // The reranker

  class RocchioReranker {
    var c: real
    var fbTerms: int
    var searcher: Searcher
    /** Term statistics cached across calls. */
    var termStatisticsList: map<string, TermStatistics>
    var collectionStatistics: Option<CollectionStatistics>
    var relDocs: seq<int>
    var nonRelDocs: seq<int>

    /** Both constructors set c to originalQueryWeight and start with an empty cache. */
    constructor (fbTerms: int, originalQueryWeight: real, searcher: Searcher)
      ensures this.c == originalQueryWeight && this.fbTerms == fbTerms && this.searcher == searcher
      ensures termStatisticsList == map[] && collectionStatistics == None
      ensures relDocs == [] && nonRelDocs == []
    {
      this.c := originalQueryWeight;
      this.fbTerms := fbTerms;
      this.searcher := searcher;
      termStatisticsList := map[];
      collectionStatistics := None;
      relDocs := [];
      nonRelDocs := [];
    }

    method SetRelDocs(relDocs: seq<int>)
      modifies this
      ensures this.relDocs == relDocs && nonRelDocs == old(nonRelDocs)
      ensures c == old(c) && fbTerms == old(fbTerms) && searcher == old(searcher)
      ensures termStatisticsList == old(termStatisticsList) && collectionStatistics == old(collectionStatistics)
    {
      this.relDocs := relDocs;
    }

    method SetNonRelDocs(nonRelDocs: seq<int>)
      modifies this
      ensures this.nonRelDocs == nonRelDocs && relDocs == old(relDocs)
      ensures c == old(c) && fbTerms == old(fbTerms) && searcher == old(searcher)
      ensures termStatisticsList == old(termStatisticsList) && collectionStatistics == old(collectionStatistics)
    {
      this.nonRelDocs := nonRelDocs;
    }

    method SetIndexSearcher(s: Searcher)
      modifies this
      ensures searcher == s && relDocs == old(relDocs) && nonRelDocs == old(nonRelDocs)
      ensures c == old(c) && fbTerms == old(fbTerms)
      ensures termStatisticsList == old(termStatisticsList) && collectionStatistics == old(collectionStatistics)
    {
      searcher := s;
    }

    /** addTermStatistic(vocab): fetch the terms not yet cached; a failed fetch leaves the term out. */
    method AddTermStatistic(vocab: set<string>)
      modifies this
      ensures termStatisticsList == CacheAfter(old(termStatisticsList), vocab, searcher.termStats)
      ensures collectionStatistics == old(collectionStatistics)
      ensures c == old(c) && fbTerms == old(fbTerms) && searcher == old(searcher)
      ensures relDocs == old(relDocs) && nonRelDocs == old(nonRelDocs)
    {
      ghost var cache0 := termStatisticsList;
      var rest := vocab;
      ghost var done: set<string> := {};
      while rest != {}
        invariant rest <= vocab && done == vocab - rest
        invariant termStatisticsList == CacheAfter(cache0, done, searcher.termStats)
        invariant collectionStatistics == old(collectionStatistics)
        invariant c == old(c) && fbTerms == old(fbTerms) && searcher == old(searcher)
        invariant relDocs == old(relDocs) && nonRelDocs == old(nonRelDocs)
        decreases rest
      {
        var term :| term in rest;
        CacheAfterAddTerm(cache0, done, searcher.termStats, term);
        rest := rest - {term};
        done := done + {term};
        if term in termStatisticsList {
          continue;
        }
        if term in searcher.termStats {
          termStatisticsList := termStatisticsList[term := searcher.termStats[term]];
        }
      }
      assert done == vocab;
    }

    /** getQfv(context): queryTokens is the analysed query text. */
    method GetQfv(ln: real -> real, queryTokens: seq<string>) returns (qfv: FeatureVector)
      requires collectionStatistics.Some?
      requires Fetchable(termStatisticsList, searcher.termStats, FromTerms(queryTokens).Keys)
      modifies this
      ensures collectionStatistics == old(collectionStatistics)
      ensures c == old(c) && fbTerms == old(fbTerms) && searcher == old(searcher)
      ensures relDocs == old(relDocs) && nonRelDocs == old(nonRelDocs)
      ensures termStatisticsList == CacheAfter(old(termStatisticsList), FromTerms(queryTokens).Keys, searcher.termStats)
      ensures FromTerms(queryTokens).Keys <= termStatisticsList.Keys
      ensures qfv == RocchioQfv(ln, collectionStatistics.value, termStatisticsList, queryTokens)
    {
      ghost var cache0 := termStatisticsList;
      AddTermStatistic(FromTerms(queryTokens).Keys);
      forall t | t in FromTerms(queryTokens) ensures t in termStatisticsList {
        CacheAfterLookup(cache0, FromTerms(queryTokens).Keys, searcher.termStats, t);
      }
      qfv := ComputeQfv(ln, collectionStatistics.value, termStatisticsList, queryTokens);
    }

    /** estimateModel(docvectors): a failed collectionStatistics call gives the empty vector. */
    method EstimateModel(ln: real -> real, docvectors: seq<FeatureVector>) returns (f: FeatureVector)
      requires searcher.collection.Some? ==> DfKnown(termStatisticsList, searcher.termStats, Vocab(docvectors))
      modifies this
      ensures searcher.collection.None? ==>
                f == map[] && termStatisticsList == old(termStatisticsList) &&
                collectionStatistics == old(collectionStatistics)
      ensures searcher.collection.Some? ==>
                collectionStatistics == searcher.collection &&
                termStatisticsList == CacheAfter(old(termStatisticsList), Vocab(docvectors), searcher.termStats) &&
                StatsFor(termStatisticsList, Vocab(docvectors)) &&
                f == RocchioCentroid(ln, searcher.collection.value, termStatisticsList, docvectors)
      ensures c == old(c) && fbTerms == old(fbTerms) && searcher == old(searcher)
      ensures relDocs == old(relDocs) && nonRelDocs == old(nonRelDocs)
    {
      var vocab := GetVocab(docvectors);
      f := map[];
      if searcher.collection.None? {
        return;
      }
      collectionStatistics := searcher.collection;
      ghost var cache0 := termStatisticsList;
      AddTermStatistic(vocab);
      CacheKeepsKnown(cache0, vocab, searcher.termStats, vocab);
      f := ComputeCentroid(ln, collectionStatistics.value, termStatisticsList, docvectors);
    }

    /** estimateRocchioModel(docvectors, context): queryTokens is the analysed query text. */
    method EstimateRocchioModel(ln: real -> real, queryTokens: seq<string>, docvectors: seq<FeatureVector>)
      returns (model: FeatureVector)
      requires searcher.collection.Some? ==>
                 RocchioInputsOk(termStatisticsList, searcher.termStats, queryTokens, docvectors, relDocs, nonRelDocs)
      modifies this
      ensures c == old(c) && fbTerms == old(fbTerms) && searcher == old(searcher)
      ensures relDocs == old(relDocs) && nonRelDocs == old(nonRelDocs)
      ensures searcher.collection.None? ==>
                model == map[] && termStatisticsList == old(termStatisticsList) &&
                collectionStatistics == old(collectionStatistics)
      ensures searcher.collection.Some? ==>
                collectionStatistics == searcher.collection &&
                termStatisticsList == CacheAfterAll(old(termStatisticsList), searcher.termStats, queryTokens,
                                                    docvectors, relDocs, nonRelDocs) &&
                model == RocchioModel(ln, searcher.collection.value, old(termStatisticsList), searcher.termStats,
                                      queryTokens, docvectors, relDocs, nonRelDocs, fbTerms)
    {
      if searcher.collection.None? {
        return map[];
      }
      collectionStatistics := searcher.collection;
      ghost var cache0 := termStatisticsList;
      CachesServe(cache0, searcher.termStats, queryTokens, docvectors, relDocs, nonRelDocs);
      var qfv := GetQfv(ln, queryTokens);
      qfv := DropNaN(qfv);
      var relVectors := SelectVectors(docvectors, relDocs);
      var norelVectors := SelectVectors(docvectors, nonRelDocs);
      assert relVectors == Selected(docvectors, relDocs);
      assert norelVectors == Selected(docvectors, nonRelDocs);
      var relModel := EstimateModel(ln, relVectors);
      relModel := DropNaN(relModel);
      var norelModel := EstimateModel(ln, norelVectors);
      norelModel := DropNaN(norelModel);
      model := LinearCombine(qfv, relModel, Alpha, Beta);
      model := LinearCombine(model, norelModel, 1.0, -1.0 * Gamma);
      model := PostProcess(model, fbTerms);
    }
  }
}
