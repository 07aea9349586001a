/**
 * DistillRelevanceReranker: the relevant and non-relevant documents each give
 * a maximum-likelihood term distribution (the sum of the term's counts over
 * the sum of all document lengths); the collection gives a third
 * (totalTermFreq / sumTotalTermFreq); 100 rounds of EM then re-estimate the
 * relevant distribution as the part of the mixture
 * 0.7 * relevant + 0.2 * non-relevant + 0.1 * collection that explains the
 * feedback documents, renormalising after every round.
 */
module Distill {
  import opened Wrappers
  import opened FeatureVectors
  import opened Index
  import opened FeedbackModels
  import opened RealArith

  /** The weight of the non-relevant model in the mixture. */
  const NrY: real := 0.2
  /** The weight of the collection model in the mixture. */
  const CY: real := 0.1
  /** The fixed number of EM rounds. */
  const Iterations: nat := 100

  // ---------------------------------------------------------------------------
  // MLEWegith: the maximum-likelihood centroid

  /** sum(norms): the total length of the documents. */
  function SeqSum(s: seq<real>): real
  {
    if |s| == 0 then 0.0 else SeqSum(s[..|s| - 1]) + s[|s| - 1]
  }

  /** computeFW(tf): a positive count, or 0. */
  function MleFW(tf: real): (r: real)
    ensures r >= 0.0 && (tf > 0.0 ==> r == tf)
  {
    if tf > 0.0 then tf else 0.0
  }

  /** The counts of the term in the first n documents that pass the norm guard. */
  function MleSum(term: string, norms: seq<real>, docs: seq<FeatureVector>, n: nat): real
    requires n <= |docs| && n <= |norms|
  {
    if n == 0 then 0.0
    else MleSum(term, norms, docs, n - 1) + (if PassesNormGuard(norms[n - 1]) then MleFW(Weight(docs[n - 1], term)) else 0.0)
  }

  /** computeFW(term, norms, docvectors): 0 without documents, else the guarded sum over norm, the total length. */
  function MleAggregate(term: string, norms: seq<real>, docs: seq<FeatureVector>, norm: real): (r: real)
    requires |norms| == |docs| && (|docs| > 0 ==> norm != 0.0)
    ensures |docs| == 0 ==> r == 0.0
  {
    if |docs| == 0 then 0.0 else MleSum(term, norms, docs, |docs|) / norm
  }

  method ComputeMleFW(term: string, norms: seq<real>, docvectors: seq<FeatureVector>, norm: real) returns (fw: real)
    requires |norms| == |docvectors| && (|docvectors| > 0 ==> norm != 0.0)
    ensures fw == MleAggregate(term, norms, docvectors, norm)
  {
    if |docvectors| == 0 {
      return 0.0;
    }
    var fbWeight := 0.0;
    for i := 0 to |docvectors|
      invariant fbWeight == MleSum(term, norms, docvectors, i)
    {
      if norms[i] > 0.001 {
        fbWeight := fbWeight + MleFW(Weight(docvectors[i], term));
      }
    }
    fw := fbWeight / norm;
  }

  /** The total length of the documents. */
  ghost function TotalLength(docs: seq<FeatureVector>): real
  {
    SeqSum(Norms(docs))
  }

  /** The division by the total length is defined whenever a term is weighed. */
  ghost predicate MleDefined(docs: seq<FeatureVector>)
  {
    Vocab(docs) != {} ==> TotalLength(docs) != 0.0
  }

  /** estimateModel(docvectors): each vocabulary term with its MLE weight. */
  ghost function MleModel(docs: seq<FeatureVector>): (f: FeatureVector)
    requires MleDefined(docs)
    ensures f.Keys == Vocab(docs)
  {
    map t | t in Vocab(docs) :: MleAggregate(t, Norms(docs), docs, TotalLength(docs))
  }

  ghost function MlePartial(docs: seq<FeatureVector>, keys: set<string>): FeatureVector
    requires MleDefined(docs) && keys <= Vocab(docs)
  {
    map t | t in keys :: MleAggregate(t, Norms(docs), docs, TotalLength(docs))
  }

  lemma MlePartialAdd(docs: seq<FeatureVector>, keys: set<string>, t: string)
    requires MleDefined(docs) && keys + {t} <= Vocab(docs) && t !in keys
    ensures MlePartial(docs, keys + {t}) ==
            AddWeight(MlePartial(docs, keys), t, MleAggregate(t, Norms(docs), docs, TotalLength(docs)))
  {
  }

  lemma MlePartialEmpty(docs: seq<FeatureVector>)
    requires MleDefined(docs)
    ensures MlePartial(docs, {}) == map[]
  {
  }

  lemma MlePartialFull(docs: seq<FeatureVector>)
    requires MleDefined(docs)
    ensures MlePartial(docs, Vocab(docs)) == MleModel(docs)
  {
  }

  /** The weighting loop of estimateModel. */
  method ComputeMleModel(docvectors: seq<FeatureVector>) returns (f: FeatureVector)
    requires MleDefined(docvectors)
    ensures f == MleModel(docvectors)
  {
    var vocab := GetVocab(docvectors);
    var norms := ComputeNorms(docvectors);
    var norm := SeqSum(norms);
    f := map[];
    MlePartialEmpty(docvectors);
    var rest := vocab;
    ghost var done: set<string> := {};
    while rest != {}
      invariant rest <= vocab && done == vocab - rest
      invariant f == MlePartial(docvectors, done)
      decreases rest
    {
      var term :| term in rest;
      assert term !in done;
      assert vocab - (rest - {term}) == done + {term};
      ghost var i :| 0 <= i < |docvectors| && term in docvectors[i];
      var fw := ComputeMleFW(term, norms, docvectors, norm);
      MlePartialAdd(docvectors, done, term);
      f := AddWeight(f, term, fw);
      rest := rest - {term};
      done := done + {term};
    }
    assert done == Vocab(docvectors);
    MlePartialFull(docvectors);
  }

  /** The length of a document bounds the count of each of its terms. */
  lemma WeightBelowNorm(v: FeatureVector, t: string)
    ensures MleFW(Weight(v, t)) <= L1Norm(v)
  {
    L1NormNonNegative(v);
    if t in v {
      SumOverRemove(v.Keys, AbsWeights(v), t);
      SumOverNonNegative(v.Keys - {t}, AbsWeights(v));
    }
  }

  /** The guarded sum lies between 0 and the total length. */
  lemma {:induction false} MleSumBounds(term: string, docs: seq<FeatureVector>, n: nat)
    requires n <= |docs|
    ensures 0.0 <= MleSum(term, Norms(docs), docs, n) <= SeqSum(Norms(docs)[..n])
  {
    if n > 0 {
      MleSumBounds(term, docs, n - 1);
      assert Norms(docs)[..n][..n - 1] == Norms(docs)[..n - 1];
      WeightBelowNorm(docs[n - 1], term);
      L1NormNonNegative(docs[n - 1]);
    }
  }

  /** Every MLE weight is a probability: it lies in [0, 1]. */
  lemma MleModelBounds(docs: seq<FeatureVector>)
    requires MleDefined(docs)
    ensures forall t | t in MleModel(docs) :: 0.0 <= MleModel(docs)[t] <= 1.0
  {
    forall t | t in MleModel(docs) ensures 0.0 <= MleModel(docs)[t] <= 1.0 {
      MleSumBounds(t, docs, |docs|);
      assert Norms(docs)[..|docs|] == Norms(docs);
      var s := MleSum(t, Norms(docs), docs, |docs|);
      var n := TotalLength(docs);
      assert n > 0.0;
      DivNonNeg(s, n);
      DivMono(s, n, n);
      DivSelf(n);
    }
  }

  /** For one document of non-negative counts passing the guard, the MLE model is that document scaled to unit L1 norm. */
  lemma MleSingleDocument(d: FeatureVector)
    requires NonNegative(d) && L1Norm(d) > 0.001
    ensures MleDefined([d])
    ensures MleModel([d]) == Scaled(d)
  {
    assert Norms([d]) == [L1Norm(d)];
    assert [L1Norm(d)][..0] == [];
    assert SeqSum([L1Norm(d)]) == SeqSum([]) + L1Norm(d);
    assert TotalLength([d]) == L1Norm(d);
    assert Vocab([d]) == d.Keys by {
      forall t | t in d ensures t in Vocab([d]) {
        assert t in [d][0];
      }
    }
    ScaledProperties(d);
    forall t | t in d ensures MleModel([d])[t] == Scaled(d)[t] {
      assert MleSum(t, Norms([d]), [d], 1) == d[t];
    }
  }

  // ---------------------------------------------------------------------------
  // The collection model

  /** Division by sumTotalTermFreq happens only when some term is weighed, and every weighed term is cached. */
  ghost predicate CollectionDefined(coll: CollectionStatistics, cache: map<string, TermStatistics>, voccab: set<string>)
  {
    voccab <= cache.Keys && (voccab != {} ==> coll.sumTotalTermFreq != 0)
  }

  /** A term's share of the collection: totalTermFreq / sumTotalTermFreq. */
  function CollectionWeight(coll: CollectionStatistics, ts: TermStatistics): real
    requires coll.sumTotalTermFreq != 0
  {
    ts.totalTermFreq as real / coll.sumTotalTermFreq as real
  }

  /** estimateCollectionModel(voccab): each term with its share of the collection. */
  ghost function CollectionModel(coll: CollectionStatistics, cache: map<string, TermStatistics>,
                                 voccab: set<string>): (m: FeatureVector)
    requires CollectionDefined(coll, cache, voccab)
    ensures m.Keys == voccab
  {
    map t | t in voccab :: CollectionWeight(coll, cache[t])
  }

  lemma CollectionPartialAdd(coll: CollectionStatistics, cache: map<string, TermStatistics>, keys: set<string>,
                             t: string)
    requires CollectionDefined(coll, cache, keys + {t}) && t !in keys
    ensures CollectionDefined(coll, cache, keys)
    ensures CollectionModel(coll, cache, keys + {t}) ==
            AddWeight(CollectionModel(coll, cache, keys), t, CollectionWeight(coll, cache[t]))
  {
  }

  lemma CollectionModelEmpty(coll: CollectionStatistics, cache: map<string, TermStatistics>)
    ensures CollectionDefined(coll, cache, {})
    ensures CollectionModel(coll, cache, {}) == map[]
  {
  }

  /** The loop of estimateCollectionModel over the cached statistics. */
  method WeighCollection(coll: CollectionStatistics, cache: map<string, TermStatistics>, voccab: set<string>)
    returns (model: FeatureVector)
    requires CollectionDefined(coll, cache, voccab)
    ensures model == CollectionModel(coll, cache, voccab)
  {
    model := map[];
    CollectionModelEmpty(coll, cache);
    var rest := voccab;
    ghost var done: set<string> := {};
    while rest != {}
      invariant rest <= voccab && done == voccab - rest
      invariant CollectionDefined(coll, cache, done)
      invariant model == CollectionModel(coll, cache, done)
      decreases rest
    {
      var term :| term in rest;
      assert term !in done;
      assert voccab - (rest - {term}) == done + {term};
      CollectionPartialAdd(coll, cache, done, term);
      model := AddWeight(model, term, CollectionWeight(coll, cache[term]));
      rest := rest - {term};
      done := done + {term};
    }
    assert done == voccab;
  }

  /** A term's share of the collection is a probability when its count is at most the total. */
  lemma CollectionModelBounds(coll: CollectionStatistics, cache: map<string, TermStatistics>, voccab: set<string>)
    requires CollectionDefined(coll, cache, voccab) && coll.sumTotalTermFreq > 0
    requires forall t | t in voccab :: 0 <= cache[t].totalTermFreq <= coll.sumTotalTermFreq
    ensures forall t | t in voccab :: 0.0 <= CollectionModel(coll, cache, voccab)[t] <= 1.0
    ensures forall t | t in voccab && cache[t].totalTermFreq > 0 :: CollectionModel(coll, cache, voccab)[t] > 0.0
  {
    forall t | t in voccab
      ensures 0.0 <= CollectionModel(coll, cache, voccab)[t] <= 1.0
      ensures cache[t].totalTermFreq > 0 ==> CollectionModel(coll, cache, voccab)[t] > 0.0
    {
      CollectionWeightBounds(coll, cache[t]);
    }
  }

  lemma CollectionWeightBounds(coll: CollectionStatistics, ts: TermStatistics)
    requires 0 <= ts.totalTermFreq <= coll.sumTotalTermFreq && coll.sumTotalTermFreq > 0
    ensures 0.0 <= CollectionWeight(coll, ts) <= 1.0
    ensures ts.totalTermFreq > 0 ==> CollectionWeight(coll, ts) > 0.0
  {
    var k := ts.totalTermFreq as real;
    var n := coll.sumTotalTermFreq as real;
    DivNonNeg(k, n);
    DivMono(k, n, n);
    DivSelf(n);
    assert (k / n) * n == k;
  }

  // ---------------------------------------------------------------------------
  // logLikelihood

  /** The mixture probability of a term: 0.7 * relevant + 0.2 * non-relevant + 0.1 * collection. */
  function Mixture(relModel: FeatureVector, nonRelModel: FeatureVector, collectionModel: FeatureVector, w: string): real
  {
    (1.0 - NrY - CY) * Weight(relModel, w) + NrY * Weight(nonRelModel, w) + CY * Weight(collectionModel, w)
  }

  /** What term w of a document contributes: its count times the log of its mixture probability. */
  function LogContribution(ln: real -> real, doc: FeatureVector, relModel: FeatureVector, nonRelModel: FeatureVector,
                           collectionModel: FeatureVector, w: string): real
  {
    Weight(doc, w) * ln(Mixture(relModel, nonRelModel, collectionModel, w))
  }

  function LogTerm(ln: real -> real, doc: FeatureVector, relModel: FeatureVector, nonRelModel: FeatureVector,
                   collectionModel: FeatureVector): string -> real
  {
    w => LogContribution(ln, doc, relModel, nonRelModel, collectionModel, w)
  }

  /** The log-likelihood of the first n documents under the mixture. */
  ghost function LogLikelihood(ln: real -> real, docs: seq<FeatureVector>, relModel: FeatureVector,
                               nonRelModel: FeatureVector, collectionModel: FeatureVector, n: nat): real
    requires n <= |docs|
  {
    if n == 0 then 0.0
    else LogLikelihood(ln, docs, relModel, nonRelModel, collectionModel, n - 1)
         + SumOver(docs[n - 1].Keys, LogTerm(ln, docs[n - 1], relModel, nonRelModel, collectionModel))
  }

  /** The inner loop of logLikelihood: one document's terms, in map order. */
  method ComputeDocLogLikelihood(ln: real -> real, doc: FeatureVector, relModel: FeatureVector,
                                 nonRelModel: FeatureVector, collectionModel: FeatureVector) returns (log: real)
    ensures log == SumOver(doc.Keys, LogTerm(ln, doc, relModel, nonRelModel, collectionModel))
  {
    ghost var g := LogTerm(ln, doc, relModel, nonRelModel, collectionModel);
    log := 0.0;
    var rest := doc.Keys;
    while rest != {}
      invariant rest <= doc.Keys
      invariant log + SumOver(rest, g) == SumOver(doc.Keys, g)
      decreases rest
    {
      var w :| w in rest;
      SumOverRemove(rest, g, w);
      log := log + LogContribution(ln, doc, relModel, nonRelModel, collectionModel, w);
      rest := rest - {w};
    }
  }

  /** logLikelihood: the documents' contributions added in order. */
  method ComputeLogLikelihood(ln: real -> real, relDocTFVectors: seq<FeatureVector>, relModel: FeatureVector,
                              nonRelModel: FeatureVector, collectionModel: FeatureVector) returns (log: real)
    ensures log == LogLikelihood(ln, relDocTFVectors, relModel, nonRelModel, collectionModel, |relDocTFVectors|)
  {
    log := 0.0;
    for i := 0 to |relDocTFVectors|
      invariant log == LogLikelihood(ln, relDocTFVectors, relModel, nonRelModel, collectionModel, i)
    {
      var docLog := ComputeDocLogLikelihood(ln, relDocTFVectors[i], relModel, nonRelModel, collectionModel);
      log := log + docLog;
    }
  }

  /** Weights in [0, 1], as a distribution's are. */
  ghost predicate Bounded(v: FeatureVector)
  {
    forall t | t in v :: 0.0 <= v[t] <= 1.0
  }

  lemma {:induction false} SumOverNonPositive(keys: set<string>, g: string -> real)
    requires forall t | t in keys :: g(t) <= 0.0
    ensures SumOver(keys, g) <= 0.0
    decreases |keys|
  {
    if keys != {} {
      SumOverNonPositive(keys - {Pick(keys)}, g);
    }
  }

  /** A term's mixture probability is at most 1 when the three models are bounded. */
  lemma MixtureAtMostOne(relModel: FeatureVector, nonRelModel: FeatureVector, collectionModel: FeatureVector, w: string)
    requires Bounded(relModel) && Bounded(nonRelModel) && Bounded(collectionModel)
    ensures Mixture(relModel, nonRelModel, collectionModel, w) <= 1.0
  {
    assert Weight(relModel, w) <= 1.0;
    assert Weight(nonRelModel, w) <= 1.0;
    assert Weight(collectionModel, w) <= 1.0;
  }

  /** One document of non-negative counts contributes at most 0. */
  lemma DocLogLikelihoodNonPositive(ln: real -> real, doc: FeatureVector, relModel: FeatureVector,
                                    nonRelModel: FeatureVector, collectionModel: FeatureVector)
    requires LnZeroAtOne(ln) && LnMonotone(ln) && NonNegative(doc)
    requires Bounded(relModel) && Bounded(nonRelModel) && Bounded(collectionModel)
    requires forall w | w in doc :: Mixture(relModel, nonRelModel, collectionModel, w) > 0.0
    ensures SumOver(doc.Keys, LogTerm(ln, doc, relModel, nonRelModel, collectionModel)) <= 0.0
  {
    var g := LogTerm(ln, doc, relModel, nonRelModel, collectionModel);
    forall w | w in doc.Keys ensures g(w) <= 0.0 {
      var m := Mixture(relModel, nonRelModel, collectionModel, w);
      MixtureAtMostOne(relModel, nonRelModel, collectionModel, w);
      assert 0.0 < m <= 1.0;
      assert ln(m) <= ln(1.0);
      MulMono(Weight(doc, w), ln(m), 0.0);
    }
    SumOverNonPositive(doc.Keys, g);
  }

  /** Under bounded models, non-negative counts and positive mixture probabilities, the log-likelihood is at most 0. */
  lemma {:induction false} LogLikelihoodNonPositive(ln: real -> real, docs: seq<FeatureVector>,
                                                    relModel: FeatureVector, nonRelModel: FeatureVector,
                                                    collectionModel: FeatureVector, n: nat)
    requires LnZeroAtOne(ln) && LnMonotone(ln) && n <= |docs|
    requires forall i | 0 <= i < |docs| :: NonNegative(docs[i])
    requires Bounded(relModel) && Bounded(nonRelModel) && Bounded(collectionModel)
    requires forall i, w | 0 <= i < |docs| && w in docs[i] :: Mixture(relModel, nonRelModel, collectionModel, w) > 0.0
    ensures LogLikelihood(ln, docs, relModel, nonRelModel, collectionModel, n) <= 0.0
  {
    if n > 0 {
      LogLikelihoodNonPositive(ln, docs, relModel, nonRelModel, collectionModel, n - 1);
      DocLogLikelihoodNonPositive(ln, docs[n - 1], relModel, nonRelModel, collectionModel);
    }
  }

  // ---------------------------------------------------------------------------
  // computeTN and computeNextPrel

  /** The denominator of computeTN: the whole mixture probability of the term. */
  function TNDenominator(nrY: real, cY: real, pRel: real, pNR: real, pC: real): real
  {
    (1.0 - nrY - cY) * pRel + nrY * pNR + pC * cY
  }

  /** computeTN: the share of the mixture probability that the relevant model contributes. */
  function ComputeTN(nrY: real, cY: real, pRel: real, pNR: real, pC: real): (tn: real)
    requires TNDenominator(nrY, cY, pRel, pNR, pC) != 0.0
    ensures pRel == 0.0 ==> tn == 0.0
  {
    (1.0 - nrY - cY) * pRel / TNDenominator(nrY, cY, pRel, pNR, pC)
  }

  /** A non-negative part of a positive whole is a fraction in [0, 1]. */
  lemma FractionInUnit(a: real, d: real)
    requires 0.0 <= a <= d && d > 0.0
    ensures 0.0 <= a / d <= 1.0
  {
    DivNonNeg(a, d);
    DivMono(a, d, d);
    DivSelf(d);
  }

  /** With mixture weights that sum to at most 1 and non-negative probabilities, the share lies in [0, 1]. */
  lemma TNInUnitInterval(nrY: real, cY: real, pRel: real, pNR: real, pC: real)
    requires 0.0 <= nrY && 0.0 <= cY && nrY + cY <= 1.0
    requires pRel >= 0.0 && pNR >= 0.0 && pC >= 0.0
    requires TNDenominator(nrY, cY, pRel, pNR, pC) > 0.0
    ensures 0.0 <= ComputeTN(nrY, cY, pRel, pNR, pC) <= 1.0
  {
    var a := (1.0 - nrY - cY) * pRel;
    var b := nrY * pNR;
    var c := pC * cY;
    MulMono(1.0 - nrY - cY, 0.0, pRel);
    MulMono(nrY, 0.0, pNR);
    MulMono(pC, 0.0, cY);
    var d := TNDenominator(nrY, cY, pRel, pNR, pC);
    assert d == a + b + c;
    FractionInUnit(a, d);
  }

  /** The counts of the term summed over the first n vectors. */
  function TfTotal(term: string, tfVecs: seq<FeatureVector>, n: nat): real
    requires n <= |tfVecs|
  {
    if n == 0 then 0.0 else TfTotal(term, tfVecs, n - 1) + Weight(tfVecs[n - 1], term)
  }

  /** The updated relevant weight: tn times the term's total count over all the vectors. */
  function NextPrel(term: string, tn: real, tfVecs: seq<FeatureVector>): real
  {
    tn * TfTotal(term, tfVecs, |tfVecs|)
  }

  /** computeNextPrel, adding tf * tn vector by vector. */
  method ComputeNextPrel(term: string, tn: real, tfVecs: seq<FeatureVector>) returns (wPrel: real)
    ensures wPrel == NextPrel(term, tn, tfVecs)
  {
    wPrel := 0.0;
    for i := 0 to |tfVecs|
      invariant wPrel == tn * TfTotal(term, tfVecs, i)
    {
      wPrel := wPrel + Weight(tfVecs[i], term) * tn;
    }
  }

  lemma {:induction false} TfTotalNonNegative(term: string, tfVecs: seq<FeatureVector>, n: nat)
    requires n <= |tfVecs| && forall i | 0 <= i < |tfVecs| :: NonNegative(tfVecs[i])
    ensures TfTotal(term, tfVecs, n) >= 0.0
  {
    if n > 0 {
      TfTotalNonNegative(term, tfVecs, n - 1);
    }
  }

  // ---------------------------------------------------------------------------
  // EM

  /** Every computeTN of an EM round has a non-zero denominator. */
  ghost predicate StepDefined(p: FeatureVector, nonRelModel: FeatureVector, collectionModel: FeatureVector)
  {
    forall w | w in p :: TNDenominator(NrY, CY, p[w], Weight(nonRelModel, w), Weight(collectionModel, w)) != 0.0
  }

  /** The updated weight of w in a round that starts from p. */
  ghost function NextWeight(p: FeatureVector, docs: seq<FeatureVector>, nonRelModel: FeatureVector,
                            collectionModel: FeatureVector, w: string): real
    requires StepDefined(p, nonRelModel, collectionModel) && w in p
  {
    NextPrel(w, ComputeTN(NrY, CY, p[w], Weight(nonRelModel, w), Weight(collectionModel, w)), docs)
  }

  /** The vector in the middle of a round: the terms of done are updated, the others still hold p's weights. */
  ghost function StepPartial(p: FeatureVector, docs: seq<FeatureVector>, nonRelModel: FeatureVector,
                             collectionModel: FeatureVector, done: set<string>): (r: FeatureVector)
    requires StepDefined(p, nonRelModel, collectionModel)
    ensures r.Keys == p.Keys
  {
    map w | w in p :: if w in done then NextWeight(p, docs, nonRelModel, collectionModel, w) else p[w]
  }

  /** One EM round: every term of p updated from p's own weight, then the vector scaled to unit L1 norm. */
  ghost function EMStep(p: FeatureVector, docs: seq<FeatureVector>, nonRelModel: FeatureVector,
                        collectionModel: FeatureVector): FeatureVector
    requires StepDefined(p, nonRelModel, collectionModel)
  {
    Scaled(StepPartial(p, docs, nonRelModel, collectionModel, p.Keys))
  }

  /** What keeps every round defined: non-negative models and a positive collection probability for every term. */
  ghost predicate EMReady(p: FeatureVector, docs: seq<FeatureVector>, nonRelModel: FeatureVector,
                          collectionModel: FeatureVector)
  {
    && NonNegative(p) && NonNegative(nonRelModel)
    && (forall i | 0 <= i < |docs| :: NonNegative(docs[i]))
    && (forall w | w in p :: Weight(collectionModel, w) > 0.0)
  }

  lemma ReadyDefined(p: FeatureVector, docs: seq<FeatureVector>, nonRelModel: FeatureVector,
                     collectionModel: FeatureVector)
    requires EMReady(p, docs, nonRelModel, collectionModel)
    ensures StepDefined(p, nonRelModel, collectionModel)
  {
    forall w | w in p ensures TNDenominator(NrY, CY, p[w], Weight(nonRelModel, w), Weight(collectionModel, w)) > 0.0 {
      assert Weight(nonRelModel, w) >= 0.0;
    }
  }

  /** A round keeps the terms and keeps every weight non-negative, so the next round is defined too. */
  lemma EMStepKeepsReady(p: FeatureVector, docs: seq<FeatureVector>, nonRelModel: FeatureVector,
                         collectionModel: FeatureVector)
    requires EMReady(p, docs, nonRelModel, collectionModel)
    ensures StepDefined(p, nonRelModel, collectionModel)
    ensures EMStep(p, docs, nonRelModel, collectionModel).Keys == p.Keys
    ensures EMReady(EMStep(p, docs, nonRelModel, collectionModel), docs, nonRelModel, collectionModel)
    ensures IsDistribution(EMStep(p, docs, nonRelModel, collectionModel))
  {
    ReadyDefined(p, docs, nonRelModel, collectionModel);
    var raw := StepPartial(p, docs, nonRelModel, collectionModel, p.Keys);
    forall w | w in raw ensures raw[w] >= 0.0 {
      assert Weight(nonRelModel, w) >= 0.0;
      TNInUnitInterval(NrY, CY, p[w], Weight(nonRelModel, w), Weight(collectionModel, w));
      TfTotalNonNegative(w, docs, |docs|);
      MulMono(ComputeTN(NrY, CY, p[w], Weight(nonRelModel, w), Weight(collectionModel, w)), 0.0, TfTotal(w, docs, |docs|));
    }
    ScaledProperties(raw);
    ScaledIsDistribution(raw);
  }

  /** The relevant model after n EM rounds. */
  ghost function EMIterate(relModel: FeatureVector, docs: seq<FeatureVector>, nonRelModel: FeatureVector,
                           collectionModel: FeatureVector, n: nat): (r: FeatureVector)
    requires EMReady(relModel, docs, nonRelModel, collectionModel)
    ensures r.Keys == relModel.Keys
    ensures EMReady(r, docs, nonRelModel, collectionModel)
    ensures n > 0 ==> IsDistribution(r)
  {
    if n == 0 then relModel
    else
      var p := EMIterate(relModel, docs, nonRelModel, collectionModel, n - 1);
      EMStepKeepsReady(p, docs, nonRelModel, collectionModel);
      EMStep(p, docs, nonRelModel, collectionModel)
  }

  lemma StepPartialAdd(p: FeatureVector, docs: seq<FeatureVector>, nonRelModel: FeatureVector,
                       collectionModel: FeatureVector, done: set<string>, w: string)
    requires StepDefined(p, nonRelModel, collectionModel) && w in p
    ensures StepPartial(p, docs, nonRelModel, collectionModel, done + {w}) ==
            UpdateWeight(StepPartial(p, docs, nonRelModel, collectionModel, done), w,
                         NextWeight(p, docs, nonRelModel, collectionModel, w))
  {
  }

  lemma StepPartialUntouched(p: FeatureVector, docs: seq<FeatureVector>, nonRelModel: FeatureVector,
                             collectionModel: FeatureVector, done: set<string>, w: string)
    requires StepDefined(p, nonRelModel, collectionModel) && w in p && w !in done
    ensures Weight(StepPartial(p, docs, nonRelModel, collectionModel, done), w) == p[w]
  {
  }

  /** One step of the inner loop: the term w takes its updated weight. */
  method UpdateTerm(p: FeatureVector, docs: seq<FeatureVector>, nonRelModel: FeatureVector,
                    collectionModel: FeatureVector, next: FeatureVector, ghost done: set<string>, w: string)
    returns (updated: FeatureVector)
    requires StepDefined(p, nonRelModel, collectionModel) && w in p && w !in done
    requires next == StepPartial(p, docs, nonRelModel, collectionModel, done)
    ensures updated == StepPartial(p, docs, nonRelModel, collectionModel, done + {w})
  {
    StepPartialUntouched(p, docs, nonRelModel, collectionModel, done, w);
    var wTn := ComputeTN(NrY, CY, Weight(next, w), Weight(nonRelModel, w), Weight(collectionModel, w));
    var wPrelTNPlus := ComputeNextPrel(w, wTn, docs);
    StepPartialAdd(p, docs, nonRelModel, collectionModel, done, w);
    updated := UpdateWeight(next, w, wPrelTNPlus);
  }

  /** The inner loop of one EM round, updating the vector in place term by term. */
  method EMRound(p: FeatureVector, docs: seq<FeatureVector>, nonRelModel: FeatureVector,
                 collectionModel: FeatureVector) returns (next: FeatureVector)
    requires StepDefined(p, nonRelModel, collectionModel)
    ensures next == StepPartial(p, docs, nonRelModel, collectionModel, p.Keys)
  {
    next := p;
    assert next == StepPartial(p, docs, nonRelModel, collectionModel, {});
    var rest := p.Keys;
    ghost var done: set<string> := {};
    while rest != {}
      invariant rest <= p.Keys && done == p.Keys - rest
      invariant next == StepPartial(p, docs, nonRelModel, collectionModel, done)
      decreases rest
    {
      var w :| w in rest;
      assert w !in done;
      assert p.Keys - (rest - {w}) == done + {w};
      next := UpdateTerm(p, docs, nonRelModel, collectionModel, next, done, w);
      rest := rest - {w};
      done := done + {w};
    }
    assert done == p.Keys;
  }

  /** The weights of v on the terms in keys. */
  ghost function Restricted(v: FeatureVector, keys: set<string>): (r: FeatureVector)
    requires keys <= v.Keys
    ensures r.Keys == keys
  {
    map w | w in keys :: v[w]
  }

  lemma RestrictedEmpty(v: FeatureVector)
    ensures Restricted(v, {}) == map[]
  {
  }

  lemma RestrictedAdd(v: FeatureVector, keys: set<string>, w: string)
    requires keys + {w} <= v.Keys && w !in keys
    ensures Restricted(v, keys + {w}) == AddWeight(Restricted(v, keys), w, Weight(v, w))
  {
  }

  lemma RestrictedFull(v: FeatureVector)
    ensures Restricted(v, v.Keys) == v
  {
  }

  /** The copy loop at the start of EM: pRelNext takes every weight of relModel. */
  method CopyVector(v: FeatureVector) returns (r: FeatureVector)
    ensures r == v
  {
    r := map[];
    RestrictedEmpty(v);
    var rest := v.Keys;
    ghost var done: set<string> := {};
    while rest != {}
      invariant rest <= v.Keys && done == v.Keys - rest
      invariant r == Restricted(v, done)
      decreases rest
    {
      var w :| w in rest;
      assert w !in done;
      assert v.Keys - (rest - {w}) == done + {w};
      RestrictedAdd(v, done, w);
      r := AddWeight(r, w, Weight(v, w));
      rest := rest - {w};
      done := done + {w};
    }
    assert done == v.Keys;
    RestrictedFull(v);
  }

  /** Round n + 1 is one EM step from round n. */
  lemma EMIterateNext(relModel: FeatureVector, docs: seq<FeatureVector>, nonRelModel: FeatureVector,
                      collectionModel: FeatureVector, n: nat)
    requires EMReady(relModel, docs, nonRelModel, collectionModel)
    ensures StepDefined(EMIterate(relModel, docs, nonRelModel, collectionModel, n), nonRelModel, collectionModel)
    ensures EMIterate(relModel, docs, nonRelModel, collectionModel, n + 1) ==
            EMStep(EMIterate(relModel, docs, nonRelModel, collectionModel, n), docs, nonRelModel, collectionModel)
  {
    ReadyDefined(EMIterate(relModel, docs, nonRelModel, collectionModel, n), docs, nonRelModel, collectionModel);
  }

  /** EM: start from a copy of relModel and apply the fixed number of rounds. */
  method EM(relDocTFVectors: seq<FeatureVector>, relModel: FeatureVector, nonRelModel: FeatureVector,
            collectionModel: FeatureVector) returns (pRelNext: FeatureVector)
    requires EMReady(relModel, relDocTFVectors, nonRelModel, collectionModel)
    ensures pRelNext == EMIterate(relModel, relDocTFVectors, nonRelModel, collectionModel, Iterations)
  {
    pRelNext := CopyVector(relModel);
    for i := 0 to Iterations
      invariant pRelNext == EMIterate(relModel, relDocTFVectors, nonRelModel, collectionModel, i)
    {
      EMIterateNext(relModel, relDocTFVectors, nonRelModel, collectionModel, i);
      var raw := EMRound(pRelNext, relDocTFVectors, nonRelModel, collectionModel);
      pRelNext := ScaleToUnitL1Norm(raw);
    }
  }

  /** The EM result weighs exactly relModel's terms and, after at least one round, is a probability distribution or all zero. */
  lemma EMShape(relModel: FeatureVector, docs: seq<FeatureVector>, nonRelModel: FeatureVector,
                collectionModel: FeatureVector)
    requires EMReady(relModel, docs, nonRelModel, collectionModel)
    ensures EMIterate(relModel, docs, nonRelModel, collectionModel, Iterations).Keys == relModel.Keys
    ensures IsDistribution(EMIterate(relModel, docs, nonRelModel, collectionModel, Iterations))
  {
  }

  // ---------------------------------------------------------------------------
  // estimateDistillModel

  /**
   * What estimateDistillModel needs once collectionStatistics succeeds: the
   * indexes name documents, counts are non-negative, the MLE and collection
   * divisions are defined, every term of the two models can be looked up, and
   * every relevant term occurs in the collection (so no computeTN divides by 0).
   */
  ghost predicate DistillInputsOk(coll: CollectionStatistics, cache: map<string, TermStatistics>,
                                  source: map<string, TermStatistics>, docs: seq<FeatureVector>,
                                  rel: seq<int>, nonrel: seq<int>)
  {
    && IndexesIn(rel, docs) && IndexesIn(nonrel, docs)
    && (forall i | 0 <= i < |docs| :: NonNegative(docs[i]))
    && MleDefined(Selected(docs, rel)) && MleDefined(Selected(docs, nonrel))
    && Fetchable(cache, source, Vocab(Selected(docs, rel)) + Vocab(Selected(docs, nonrel)))
    && (Vocab(Selected(docs, rel)) + Vocab(Selected(docs, nonrel)) != {} ==> coll.sumTotalTermFreq > 0)
    && (forall t | t in Vocab(Selected(docs, rel)) :: (t in cache || t in source) && Lookup(cache, source, t).totalTermFreq > 0)
  }

  /** The cache after estimateModel has fetched the relevant and then the non-relevant vocabulary. */
  ghost function DistillCache(cache: map<string, TermStatistics>, source: map<string, TermStatistics>,
                              docs: seq<FeatureVector>, rel: seq<int>, nonrel: seq<int>): map<string, TermStatistics>
    requires IndexesIn(rel, docs) && IndexesIn(nonrel, docs)
  {
    CacheAfter(CacheAfter(cache, Vocab(Selected(docs, rel)), source), Vocab(Selected(docs, nonrel)), source)
  }

  /** After both fetches every term of the two models is cached, with the statistics a lookup gives. */
  lemma DistillCacheCovers(cache: map<string, TermStatistics>, source: map<string, TermStatistics>,
                           docs: seq<FeatureVector>, rel: seq<int>, nonrel: seq<int>, t: string)
    requires IndexesIn(rel, docs) && IndexesIn(nonrel, docs)
    requires t in Vocab(Selected(docs, rel)) + Vocab(Selected(docs, nonrel)) && (t in cache || t in source)
    ensures t in DistillCache(cache, source, docs, rel, nonrel)
    ensures DistillCache(cache, source, docs, rel, nonrel)[t] == Lookup(cache, source, t)
  {
    var relVocab := Vocab(Selected(docs, rel));
    CacheAfterLookup(cache, relVocab, source, t);
    CacheAfterLookup(CacheAfter(cache, relVocab, source), Vocab(Selected(docs, nonrel)), source, t);
  }

  /** The inputs make the collection model and every EM round defined. */
  lemma DistillReady(coll: CollectionStatistics, cache: map<string, TermStatistics>,
                     source: map<string, TermStatistics>, docs: seq<FeatureVector>, rel: seq<int>, nonrel: seq<int>)
    requires DistillInputsOk(coll, cache, source, docs, rel, nonrel)
    ensures CollectionDefined(coll, DistillCache(cache, source, docs, rel, nonrel),
                              Vocab(Selected(docs, rel)) + Vocab(Selected(docs, nonrel)))
    ensures EMReady(MleModel(Selected(docs, rel)), docs, MleModel(Selected(docs, nonrel)),
                    CollectionModel(coll, DistillCache(cache, source, docs, rel, nonrel),
                                    Vocab(Selected(docs, rel)) + Vocab(Selected(docs, nonrel))))
  {
    var relVocab := Vocab(Selected(docs, rel));
    var voccab := relVocab + Vocab(Selected(docs, nonrel));
    var c2 := DistillCache(cache, source, docs, rel, nonrel);
    forall t | t in voccab ensures t in c2 && c2[t] == Lookup(cache, source, t) {
      DistillCacheCovers(cache, source, docs, rel, nonrel, t);
    }
    assert CollectionDefined(coll, c2, voccab);
    MleModelBounds(Selected(docs, rel));
    MleModelBounds(Selected(docs, nonrel));
    var cm := CollectionModel(coll, c2, voccab);
    forall t | t in relVocab ensures Weight(cm, t) > 0.0 {
      assert cm[t] == CollectionWeight(coll, c2[t]);
      CollectionWeightPositive(coll, c2[t]);
    }
  }

  lemma CollectionWeightPositive(coll: CollectionStatistics, ts: TermStatistics)
    requires ts.totalTermFreq > 0 && coll.sumTotalTermFreq > 0
    ensures CollectionWeight(coll, ts) > 0.0
  {
    var k := ts.totalTermFreq as real;
    var n := coll.sumTotalTermFreq as real;
    assert (k / n) * n == k;
  }

  /** What estimateDistillModel returns once collectionStatistics succeeds: EM over all the documents. */
  ghost function DistillModel(coll: CollectionStatistics, cache: map<string, TermStatistics>,
                              source: map<string, TermStatistics>, docs: seq<FeatureVector>,
                              rel: seq<int>, nonrel: seq<int>): FeatureVector
    requires DistillInputsOk(coll, cache, source, docs, rel, nonrel)
  {
    DistillReady(coll, cache, source, docs, rel, nonrel);
    var relModel := DropNaN(MleModel(Selected(docs, rel)));
    var norelModel := DropNaN(MleModel(Selected(docs, nonrel)));
    var voccab := relModel.Keys + norelModel.Keys;
    EMIterate(relModel, docs, norelModel, CollectionModel(coll, DistillCache(cache, source, docs, rel, nonrel), voccab),
              Iterations)
  }

  /**
   * The distilled model weighs exactly the relevant documents' vocabulary and
   * is a probability distribution over it or all zero.
   */
  lemma DistillModelShape(coll: CollectionStatistics, cache: map<string, TermStatistics>,
                          source: map<string, TermStatistics>, docs: seq<FeatureVector>, rel: seq<int>, nonrel: seq<int>)
    requires DistillInputsOk(coll, cache, source, docs, rel, nonrel)
    ensures DistillModel(coll, cache, source, docs, rel, nonrel).Keys == Vocab(Selected(docs, rel))
    ensures IsDistribution(DistillModel(coll, cache, source, docs, rel, nonrel))
  {
    DistillReady(coll, cache, source, docs, rel, nonrel);
  }

  class DistillRelevanceReranker {
    var fbTerms: int
    var fbDocs: int
    var originalQueryWeight: real
    var searcher: Searcher
    /** Term statistics cached across calls. */
    var termStatisticsList: map<string, TermStatistics>
    var collectionStatistics: Option<CollectionStatistics>
    var relDocs: seq<int>
    var nonRelDocs: seq<int>

    /** The settings are those of the base reranker; the cache starts empty. */
    constructor (fbTerms: int, fbDocs: int, originalQueryWeight: real, searcher: Searcher)
      ensures this.fbTerms == fbTerms && this.fbDocs == fbDocs && this.originalQueryWeight == originalQueryWeight
      ensures this.searcher == searcher
      ensures termStatisticsList == map[] && collectionStatistics == None && relDocs == [] && nonRelDocs == []
    {
      this.fbTerms := fbTerms;
      this.fbDocs := fbDocs;
      this.originalQueryWeight := originalQueryWeight;
      this.searcher := searcher;
      termStatisticsList := map[];
      collectionStatistics := None;
      relDocs := [];
      nonRelDocs := [];
    }

    method SetRelDocs(relDocs: seq<int>)
      modifies this
      ensures this.relDocs == relDocs && nonRelDocs == old(nonRelDocs) && searcher == old(searcher)
      ensures termStatisticsList == old(termStatisticsList) && collectionStatistics == old(collectionStatistics)
      ensures fbTerms == old(fbTerms) && fbDocs == old(fbDocs) && originalQueryWeight == old(originalQueryWeight)
    {
      this.relDocs := relDocs;
    }

    method SetNonRelDocs(nonRelDocs: seq<int>)
      modifies this
      ensures this.nonRelDocs == nonRelDocs && relDocs == old(relDocs) && searcher == old(searcher)
      ensures termStatisticsList == old(termStatisticsList) && collectionStatistics == old(collectionStatistics)
      ensures fbTerms == old(fbTerms) && fbDocs == old(fbDocs) && originalQueryWeight == old(originalQueryWeight)
    {
      this.nonRelDocs := nonRelDocs;
    }

    method SetIndexSearcher(s: Searcher)
      modifies this
      ensures searcher == s && relDocs == old(relDocs) && nonRelDocs == old(nonRelDocs)
      ensures termStatisticsList == old(termStatisticsList) && collectionStatistics == old(collectionStatistics)
      ensures fbTerms == old(fbTerms) && fbDocs == old(fbDocs) && originalQueryWeight == old(originalQueryWeight)
    {
      searcher := s;
    }

    /** addTermStatistic(vocab): fetch the terms not yet cached; a failed fetch leaves the term out. */
    method AddTermStatistic(vocab: set<string>)
      modifies this
      ensures termStatisticsList == CacheAfter(old(termStatisticsList), vocab, searcher.termStats)
      ensures collectionStatistics == old(collectionStatistics) && searcher == old(searcher)
      ensures relDocs == old(relDocs) && nonRelDocs == old(nonRelDocs)
      ensures fbTerms == old(fbTerms) && fbDocs == old(fbDocs) && originalQueryWeight == old(originalQueryWeight)
    {
      ghost var cache0 := termStatisticsList;
      var rest := vocab;
      ghost var done: set<string> := {};
      while rest != {}
        invariant rest <= vocab && done == vocab - rest
        invariant termStatisticsList == CacheAfter(cache0, done, searcher.termStats)
        invariant collectionStatistics == old(collectionStatistics) && searcher == old(searcher)
        invariant relDocs == old(relDocs) && nonRelDocs == old(nonRelDocs)
        invariant fbTerms == old(fbTerms) && fbDocs == old(fbDocs) && originalQueryWeight == old(originalQueryWeight)
        decreases rest
      {
        var term :| term in rest;
        CacheAfterAddTerm(cache0, done, searcher.termStats, term);
        rest := rest - {term};
        done := done + {term};
        if term in termStatisticsList {
          continue;
        }
        if term in searcher.termStats {
          termStatisticsList := termStatisticsList[term := searcher.termStats[term]];
        }
      }
      assert done == vocab;
    }

    /** estimateModel(docvectors): a failed collectionStatistics call gives the empty vector. */
    method EstimateModel(docvectors: seq<FeatureVector>) returns (f: FeatureVector)
      requires searcher.collection.Some? ==> MleDefined(docvectors)
      modifies this
      ensures searcher == old(searcher) && relDocs == old(relDocs) && nonRelDocs == old(nonRelDocs)
      ensures fbTerms == old(fbTerms) && fbDocs == old(fbDocs) && originalQueryWeight == old(originalQueryWeight)
      ensures searcher.collection.None? ==>
                f == map[] && termStatisticsList == old(termStatisticsList) &&
                collectionStatistics == old(collectionStatistics)
      ensures searcher.collection.Some? ==>
                collectionStatistics == searcher.collection &&
                termStatisticsList == CacheAfter(old(termStatisticsList), Vocab(docvectors), searcher.termStats) &&
                f == MleModel(docvectors)
    {
      var vocab := GetVocab(docvectors);
      f := map[];
      if searcher.collection.None? {
        return;
      }
      collectionStatistics := searcher.collection;
      AddTermStatistic(vocab);
      f := ComputeMleModel(docvectors);
    }

    /** estimateCollectionModel(voccab), from the cached statistics. */
    method EstimateCollectionModel(voccab: set<string>) returns (model: FeatureVector)
      requires collectionStatistics.Some? && CollectionDefined(collectionStatistics.value, termStatisticsList, voccab)
      ensures model == CollectionModel(collectionStatistics.value, termStatisticsList, voccab)
    {
      model := WeighCollection(collectionStatistics.value, termStatisticsList, voccab);
    }

    /** estimateDistillModel(docvectors, context): a failed collectionStatistics call gives the empty vector. */
    method EstimateDistillModel(docvectors: seq<FeatureVector>) returns (distModel: FeatureVector)
      requires searcher.collection.Some? ==>
                 DistillInputsOk(searcher.collection.value, termStatisticsList, searcher.termStats, docvectors,
                                 relDocs, nonRelDocs)
      modifies this
      ensures searcher == old(searcher) && relDocs == old(relDocs) && nonRelDocs == old(nonRelDocs)
      ensures fbTerms == old(fbTerms) && fbDocs == old(fbDocs) && originalQueryWeight == old(originalQueryWeight)
      ensures searcher.collection.None? ==>
                distModel == map[] && termStatisticsList == old(termStatisticsList) &&
                collectionStatistics == old(collectionStatistics)
      ensures searcher.collection.Some? ==>
                collectionStatistics == searcher.collection &&
                termStatisticsList == DistillCache(old(termStatisticsList), searcher.termStats, docvectors,
                                                   relDocs, nonRelDocs) &&
                distModel == DistillModel(searcher.collection.value, old(termStatisticsList), searcher.termStats,
                                          docvectors, relDocs, nonRelDocs)
    {
      if searcher.collection.None? {
        return map[];
      }
      collectionStatistics := searcher.collection;
      ghost var cache0 := termStatisticsList;
      DistillReady(collectionStatistics.value, cache0, searcher.termStats, docvectors, relDocs, nonRelDocs);
      var relVectors := SelectVectors(docvectors, relDocs);
      var norelVectors := SelectVectors(docvectors, nonRelDocs);
      assert relVectors == Selected(docvectors, relDocs);
      assert norelVectors == Selected(docvectors, nonRelDocs);
      var relModel := EstimateModel(relVectors);
      relModel := DropNaN(relModel);
      var norelModel := EstimateModel(norelVectors);
      norelModel := DropNaN(norelModel);
      var voccab := relModel.Keys + norelModel.Keys;
      var collectionModel := EstimateCollectionModel(voccab);
      distModel := EM(docvectors, relModel, norelModel, collectionModel);
    }
  }
}
