/**
 * RM3FeedbackModel.estimate: each vocabulary term weighted by the
 * score-weighted, length-normalised sum over the feedback documents; the top
 * fbTerms terms, normalised, interpolated with the query vector.
 */
module Rm3 {
  import opened FeatureVectors
  import opened FeedbackModels
  import opened Index
  import opened Wrappers

  /** The first n documents' contributions to term: tf_i / norms[i] * scores[i], guarded by the norm. */
  function Rm3Weight(docs: seq<FeatureVector>, norms: seq<real>, scores: seq<real>, term: string, n: nat): real
    requires n <= |docs| && n <= |norms| && n <= |scores|
  {
    if n == 0 then 0.0
    else
      Rm3Weight(docs, norms, scores, term, n - 1)
      + (if PassesNormGuard(norms[n - 1]) then Weight(docs[n - 1], term) / norms[n - 1] * scores[n - 1] else 0.0)
  }

  /** The feedback vector before pruning: one entry per vocabulary term. */
  ghost function Rm3Raw(docs: seq<FeatureVector>, scores: seq<real>): (f: FeatureVector)
    requires |scores| >= |docs|
    ensures f.Keys == Vocab(docs)
  {
    map t | t in Vocab(docs) :: Rm3Weight(docs, Norms(docs), scores, t, |docs|)
  }

  /** The feedback vector after pruning to fbTerms and then normalising. */
  ghost function Rm3Feedback(m: FeedbackModel, docs: seq<FeatureVector>, scores: seq<real>): FeatureVector
    requires |scores| >= |docs|
  {
    Scaled(PrunedToSize(Rm3Raw(docs, scores), m.fbTerms))
  }

  ghost function Rm3Model(m: FeedbackModel, queryTokens: seq<string>, docs: seq<FeatureVector>,
                          scores: seq<real>): FeatureVector
    requires |scores| >= |docs|
  {
    Interpolate(Scaled(FromTerms(queryTokens)), Rm3Feedback(m, docs, scores), m.config.originalQueryWeight)
  }

  /** The inner loop of estimate: one term's weight summed over all documents. */
  method ComputeRm3Weight(docvectors: seq<FeatureVector>, norms: seq<real>, scores: seq<real>, term: string)
    returns (fbWeight: real)
    requires |norms| == |docvectors| && |scores| >= |docvectors|
    ensures fbWeight == Rm3Weight(docvectors, norms, scores, term, |docvectors|)
  {
    fbWeight := 0.0;
    for i := 0 to |docvectors|
      invariant fbWeight == Rm3Weight(docvectors, norms, scores, term, i)
    {
      if norms[i] > 0.001 {
        fbWeight := fbWeight + (Weight(docvectors[i], term) / norms[i]) * scores[i];
      }
    }
  }

  /** The weights of the given terms, as the outer loop has built them so far. */
  function Rm3Partial(docs: seq<FeatureVector>, norms: seq<real>, scores: seq<real>, keys: set<string>): FeatureVector
    requires |norms| == |docs| && |scores| >= |docs|
  {
    map t | t in keys :: Rm3Weight(docs, norms, scores, t, |docs|)
  }

  lemma Rm3PartialAdd(docs: seq<FeatureVector>, norms: seq<real>, scores: seq<real>, keys: set<string>, t: string)
    requires |norms| == |docs| && |scores| >= |docs| && t !in keys
    ensures Rm3Partial(docs, norms, scores, keys + {t}) ==
            AddWeight(Rm3Partial(docs, norms, scores, keys), t, Rm3Weight(docs, norms, scores, t, |docs|))
  {
  }

  lemma Rm3PartialEmpty(docs: seq<FeatureVector>, norms: seq<real>, scores: seq<real>)
    requires |norms| == |docs| && |scores| >= |docs|
    ensures Rm3Partial(docs, norms, scores, {}) == map[]
  {
  }

  /** The outer loop of estimate: every vocabulary term gets its weight added to an empty vector. */
  method ComputeRm3Raw(docvectors: seq<FeatureVector>, scores: seq<real>) returns (f: FeatureVector)
    requires |scores| >= |docvectors|
    ensures f == Rm3Raw(docvectors, scores)
  {
    var vocab := GetVocab(docvectors);
    var norms := ComputeNorms(docvectors);
    f := map[];
    Rm3PartialEmpty(docvectors, norms, scores);
    var rest := vocab;
    ghost var done: set<string> := {};
    while rest != {}
      invariant rest <= vocab && done == vocab - rest
      invariant f == Rm3Partial(docvectors, norms, scores, done)
      decreases rest
    {
      var term :| term in rest;
      assert term !in done;
      assert vocab - (rest - {term}) == done + {term};
      var fbWeight := ComputeRm3Weight(docvectors, norms, scores, term);
      Rm3PartialAdd(docvectors, norms, scores, done, term);
      f := AddWeight(f, term, fbWeight);
      rest := rest - {term};
      done := done + {term};
    }
    assert done == Vocab(docvectors);
  }

  /** estimate(query, docvectors, scores); scores runs parallel to docvectors. */
  method Estimate(m: FeedbackModel, queryTokens: seq<string>, docvectors: seq<FeatureVector>, scores: seq<real>)
    returns (rm: FeatureVector)
    requires |scores| >= |docvectors|
    ensures rm == Rm3Model(m, queryTokens, docvectors, scores)
  {
    var qfv := GetQfv(queryTokens);
    var f := ComputeRm3Raw(docvectors, scores);
    f := PruneToSize(f, m.fbTerms);
    f := ScaleToUnitL1Norm(f);
    rm := Interpolate(qfv, f, m.config.originalQueryWeight);
  }

  /**
   * estimate(query, contents, scores, reader, tweetsearch): the document
   * vectors are built from the first fbDocs stored texts, then estimated.
   */
  method EstimateContents(m: FeedbackModel, queryTokens: seq<string>, contents: seq<seq<string>>, scores: seq<real>,
                          reader: IndexReader, tweetsearch: bool) returns (rm: FeatureVector)
    requires m.fbDocs >= 0 && |scores| >= Min(|contents|, m.fbDocs)
    ensures rm == Rm3Model(m, queryTokens, ContentVectors(m, contents, reader, tweetsearch), scores)
  {
    var docvectors := BuildDocVectorsContents(m, contents, reader, tweetsearch);
    assert docvectors == ContentVectors(m, contents, reader, tweetsearch);
    rm := Estimate(m, queryTokens, docvectors, scores);
  }

  /**
   * estimate(query, ScoredDocuments, reader, tweetsearch) as written: the slots
   * of buildDocVectors go straight to estimate, whose getVocab throws on a null
   * slot (None).
   */
  ghost function Rm3ScoredModel(m: FeedbackModel, queryTokens: seq<string>, docs: ScoredDocuments,
                                reader: IndexReader, tweetsearch: bool): Option<FeatureVector>
    requires m.fbDocs >= 0 && |docs.ids| == |docs.tokens| && |docs.scores| >= |docs.tokens|
  {
    match Filled(ScoredVectors(m, docs, reader, tweetsearch))
    case None => None
    case Some(vectors) => Some(Rm3Model(m, queryTokens, vectors, docs.scores))
  }

  /** estimate(query, ScoredDocuments, reader, tweetsearch): buildDocVectors, then estimate. */
  method EstimateScored(m: FeedbackModel, queryTokens: seq<string>, docs: ScoredDocuments,
                        reader: IndexReader, tweetsearch: bool) returns (rm: Option<FeatureVector>)
    requires m.fbDocs >= 0 && |docs.ids| == |docs.tokens| && |docs.scores| >= |docs.tokens|
    ensures rm == Rm3ScoredModel(m, queryTokens, docs, reader, tweetsearch)
  {
    var slots := BuildDocVectorsScored(m, docs, reader, tweetsearch);
    assert slots == ScoredVectors(m, docs, reader, tweetsearch);
    match Filled(slots) {
      case None =>
        rm := None;
      case Some(vectors) =>
        var v := Estimate(m, queryTokens, vectors, docs.scores);
        rm := Some(v);
    }
  }

  /**
   * The estimate over ScoredDocuments fails exactly when the term vector of
   * one of the first fbDocs documents cannot be read.
   */
  lemma FailedTermVectorFailsEstimate(m: FeedbackModel, queryTokens: seq<string>, docs: ScoredDocuments,
                                      reader: IndexReader, tweetsearch: bool)
    requires m.fbDocs >= 0 && |docs.ids| == |docs.tokens| && |docs.scores| >= |docs.tokens|
    ensures Rm3ScoredModel(m, queryTokens, docs, reader, tweetsearch).None? <==>
            exists i | 0 <= i < Min(|docs.tokens|, m.fbDocs) :: GetTermVector(reader, docs.ids[i]).LookupFailed?
  {
    var slots := ScoredVectors(m, docs, reader, tweetsearch);
    assert Rm3ScoredModel(m, queryTokens, docs, reader, tweetsearch).None? <==> Filled(slots).None?;
    forall i | 0 <= i < |slots|
      ensures slots[i].None? <==> GetTermVector(reader, docs.ids[i]).LookupFailed?
    {
      assert slots[i] == ScoredSlot(m, docs, reader, tweetsearch, |slots|, i);
    }
  }

  /**
   * The estimate when a document whose term vector cannot be read counts as an
   * empty vector, as the failure branch of buildDocVectors intends.
   */
  ghost function Rm3ScoredModelCorrected(m: FeedbackModel, queryTokens: seq<string>, docs: ScoredDocuments,
                                         reader: IndexReader, tweetsearch: bool): FeatureVector
    requires m.fbDocs >= 0 && |docs.ids| == |docs.tokens| && |docs.scores| >= |docs.tokens|
  {
    Rm3Model(m, queryTokens, FilledOrEmpty(ScoredVectors(m, docs, reader, tweetsearch)), docs.scores)
  }

  /** Where every term vector can be read, the corrected estimate is the estimate as written. */
  lemma CorrectedAgreesWhenRead(m: FeedbackModel, queryTokens: seq<string>, docs: ScoredDocuments,
                                reader: IndexReader, tweetsearch: bool)
    requires m.fbDocs >= 0 && |docs.ids| == |docs.tokens| && |docs.scores| >= |docs.tokens|
    requires Rm3ScoredModel(m, queryTokens, docs, reader, tweetsearch).Some?
    ensures Rm3ScoredModel(m, queryTokens, docs, reader, tweetsearch).value ==
            Rm3ScoredModelCorrected(m, queryTokens, docs, reader, tweetsearch)
  {
    var slots := ScoredVectors(m, docs, reader, tweetsearch);
    FilledOrEmptyAgrees(slots);
  }

  /**
   * In the corrected estimate a document whose term vector cannot be read is an
   * empty vector of norm 0, which the norm guard skips: its score changes
   * nothing.
   */
  lemma FailedDocumentCountsForNothing(m: FeedbackModel, queryTokens: seq<string>, docs: ScoredDocuments,
                                       reader: IndexReader, tweetsearch: bool, i: nat, s: real)
    requires m.fbDocs >= 0 && |docs.ids| == |docs.tokens| && |docs.scores| >= |docs.tokens|
    requires i < Min(|docs.tokens|, m.fbDocs) && GetTermVector(reader, docs.ids[i]).LookupFailed?
    ensures FilledOrEmpty(ScoredVectors(m, docs, reader, tweetsearch))[i] == map[]
    ensures Rm3ScoredModelCorrected(m, queryTokens, docs.(scores := docs.scores[i := s]), reader, tweetsearch) ==
            Rm3ScoredModelCorrected(m, queryTokens, docs, reader, tweetsearch)
  {
    var slots := ScoredVectors(m, docs, reader, tweetsearch);
    var docs' := docs.(scores := docs.scores[i := s]);
    assert ScoredVectors(m, docs', reader, tweetsearch) == slots;
    var v := FilledOrEmpty(slots);
    assert slots[i] == ScoredSlot(m, docs, reader, tweetsearch, |slots|, i);
    assert v[i] == map[];
    assert L1Norm(v[i]) == 0.0;
    Rm3RawIgnoresGuardedScore(v, docs.scores, i, s);
  }

  /** Raising or lowering the score of a document the norm guard skips leaves the raw feedback vector alone. */
  lemma Rm3RawIgnoresGuardedScore(docs: seq<FeatureVector>, scores: seq<real>, j: nat, s: real)
    requires |scores| >= |docs| && j < |docs|
    requires !PassesNormGuard(L1Norm(docs[j]))
    ensures Rm3Raw(docs, scores[j := s]) == Rm3Raw(docs, scores)
  {
    var norms := Norms(docs);
    assert docs[j := docs[j]] == docs;
    forall t | t in Vocab(docs)
      ensures Rm3Weight(docs, norms, scores[j := s], t, |docs|) == Rm3Weight(docs, norms, scores, t, |docs|)
    {
      Rm3GuardedDocumentIgnored(docs, norms, scores, t, |docs|, j, docs[j], s);
    }
  }

  /** A document that fails the norm guard contributes nothing, whatever its terms or score. */
  lemma {:induction false} Rm3GuardedDocumentIgnored(docs: seq<FeatureVector>, norms: seq<real>, scores: seq<real>,
                                                     term: string, n: nat, j: nat, d: FeatureVector, s: real)
    requires n <= |docs| && n <= |norms| && n <= |scores| && j < |docs| && j < |norms| && j < |scores|
    requires !PassesNormGuard(norms[j])
    ensures Rm3Weight(docs[j := d], norms, scores[j := s], term, n) == Rm3Weight(docs, norms, scores, term, n)
  {
    if n > 0 {
      Rm3GuardedDocumentIgnored(docs, norms, scores, term, n - 1, j, d, s);
    }
  }

  /** With non-negative weights and scores, every document's contribution is non-negative. */
  lemma {:induction false} Rm3WeightNonNegative(docs: seq<FeatureVector>, norms: seq<real>, scores: seq<real>,
                                                term: string, n: nat)
    requires n <= |docs| && n <= |norms| && n <= |scores|
    requires forall i | 0 <= i < n :: NonNegative(docs[i]) && scores[i] >= 0.0
    ensures Rm3Weight(docs, norms, scores, term, n) >= 0.0
  {
    if n > 0 {
      Rm3WeightNonNegative(docs, norms, scores, term, n - 1);
      var i := n - 1;
      if PassesNormGuard(norms[i]) {
        assert Weight(docs[i], term) >= 0.0;
        assert Weight(docs[i], term) / norms[i] >= 0.0;
      }
    }
  }

  /**
   * The feedback part keeps at most fbTerms vocabulary terms and, for
   * non-negative documents and scores, is a probability distribution or all zero.
   */
  lemma Rm3FeedbackShape(m: FeedbackModel, docs: seq<FeatureVector>, scores: seq<real>)
    requires |scores| >= |docs|
    requires forall i | 0 <= i < |docs| :: NonNegative(docs[i]) && scores[i] >= 0.0
    ensures Rm3Feedback(m, docs, scores).Keys <= Vocab(docs)
    ensures |Rm3Feedback(m, docs, scores)| ==
              if m.fbTerms <= 0 then 0 else Min(m.fbTerms, |Vocab(docs)|)
    ensures IsDistribution(Rm3Feedback(m, docs, scores))
  {
    var raw := Rm3Raw(docs, scores);
    var pruned := PrunedToSize(raw, m.fbTerms);
    PrunedToSizeProperties(raw, m.fbTerms);
    ScaledProperties(pruned);
    assert |raw| == |Vocab(docs)| by { assert raw.Keys == Vocab(docs); }
    forall t | t in pruned ensures pruned[t] >= 0.0 {
      Rm3WeightNonNegative(docs, Norms(docs), scores, t, |docs|);
    }
    ScaledIsDistribution(pruned);
  }

  /** The vocabulary of two documents is the union of their terms. */
  lemma VocabOfTwo(a: FeatureVector, b: FeatureVector)
    ensures Vocab([a, b]) == a.Keys + b.Keys
  {
    var docs := [a, b];
    forall t | t in a.Keys + b.Keys ensures t in Vocab(docs) {
      if t in a { assert t in docs[0]; } else { assert t in docs[1]; }
    }
  }

  /** The norms of two documents, in order. */
  lemma NormsOfTwo(a: FeatureVector, b: FeatureVector)
    ensures Norms([a, b]) == [L1Norm(a), L1Norm(b)]
  {
  }

  /** Two documents that pass the norm guard each add their share of the term, weighted by their score. */
  lemma Rm3WeightOfTwo(a: FeatureVector, b: FeatureVector, na: real, nb: real, s0: real, s1: real, t: string)
    requires PassesNormGuard(na) && PassesNormGuard(nb)
    ensures Rm3Weight([a, b], [na, nb], [s0, s1], t, 2) == Weight(a, t) / na * s0 + Weight(b, t) / nb * s1
  {
    assert Rm3Weight([a, b], [na, nb], [s0, s1], t, 1) == Weight(a, t) / na * s0;
  }

  /** A document's absolute weights, each multiplied by c. */
  function ScaledAbsWeights(v: FeatureVector, c: real): string -> real
  {
    t => c * Abs(Weight(v, t))
  }

  /** Scaling the absolute weights term by term scales their sum. */
  lemma SumOverScaledAbs(keys: set<string>, v: FeatureVector, c: real)
    ensures SumOver(keys, ScaledAbsWeights(v, c)) == c * SumOver(keys, AbsWeights(v))
  {
    forall t | t in keys
      ensures ScaledAbsWeights(v, c)(t) == c * AbsWeights(v)(t)
    {
    }
    SumOverScale(keys, AbsWeights(v), ScaledAbsWeights(v, c), c);
  }

  lemma ShareReorder(w: real, n: real, s: real)
    requires n > 0.0 && w >= 0.0 && s >= 0.0
    ensures w / n * s == s / n * Abs(w) && w / n * s >= 0.0
  {
  }

  /** Weights scaled by s over their own sum add up to s. */
  lemma ScaledMass(keys: set<string>, v: FeatureVector, s: real, n: real)
    requires n > 0.0 && n == SumOver(keys, AbsWeights(v))
    ensures SumOver(keys, ScaledAbsWeights(v, s / n)) == s
  {
    SumOverScaledAbs(keys, v, s / n);
  }

  /**
   * With two non-negative documents that pass the norm guard and non-negative
   * scores, the raw feedback vector's L1 norm is the sum of the scores: each
   * document's length-normalised frequencies add up to 1.
   */
  lemma Rm3MassOfTwo(a: FeatureVector, b: FeatureVector, s0: real, s1: real)
    requires NonNegative(a) && NonNegative(b)
    requires PassesNormGuard(L1Norm(a)) && PassesNormGuard(L1Norm(b))
    requires s0 >= 0.0 && s1 >= 0.0
    ensures L1Norm(Rm3Raw([a, b], [s0, s1])) == s0 + s1
  {
    var raw := Rm3Raw([a, b], [s0, s1]);
    var na := L1Norm(a);
    var nb := L1Norm(b);
    var keys := raw.Keys;
    var ga := ScaledAbsWeights(a, s0 / na);
    var gb := ScaledAbsWeights(b, s1 / nb);
    VocabOfTwo(a, b);
    assert SumOver(keys, AbsWeights(raw)) == SumOver(keys, ga) + SumOver(keys, gb) by {
      Rm3RawSplit(a, b, s0, s1);
      SumOverAdd(keys, ga, gb, AbsWeights(raw));
    }
    assert SumOver(keys, ga) == s0 by {
      SumOverZeroOutside(keys, a.Keys, AbsWeights(a));
      ScaledMass(keys, a, s0, na);
    }
    assert SumOver(keys, gb) == s1 by {
      SumOverZeroOutside(keys, b.Keys, AbsWeights(b));
      ScaledMass(keys, b, s1, nb);
    }
  }

  /** Each raw weight is the first document's scaled share plus the second's. */
  lemma Rm3RawSplit(a: FeatureVector, b: FeatureVector, s0: real, s1: real)
    requires NonNegative(a) && NonNegative(b)
    requires PassesNormGuard(L1Norm(a)) && PassesNormGuard(L1Norm(b))
    requires s0 >= 0.0 && s1 >= 0.0
    ensures forall t | t in Rm3Raw([a, b], [s0, s1]) ::
              AbsWeights(Rm3Raw([a, b], [s0, s1]))(t) ==
                ScaledAbsWeights(a, s0 / L1Norm(a))(t) + ScaledAbsWeights(b, s1 / L1Norm(b))(t)
  {
    var raw := Rm3Raw([a, b], [s0, s1]);
    var na := L1Norm(a);
    var nb := L1Norm(b);
    NormsOfTwo(a, b);
    forall t | t in raw
      ensures AbsWeights(raw)(t) == ScaledAbsWeights(a, s0 / na)(t) + ScaledAbsWeights(b, s1 / nb)(t)
    {
      Rm3WeightOfTwo(a, b, na, nb, s0, s1, t);
      assert raw[t] == Rm3Weight([a, b], [na, nb], [s0, s1], t, 2);
      ShareReorder(Weight(a, t), na, s0);
      ShareReorder(Weight(b, t), nb, s1);
    }
  }

  /** Pruning to a size the vector already fits changes nothing. */
  lemma PrunedWhole(v: FeatureVector, k: int)
    requires |v| <= k
    ensures PrunedToSize(v, k) == v
  {
    var pruned := PrunedToSize(v, k);
    PrunedToSizeProperties(v, k);
    assert pruned.Keys == v.Keys;
  }

  /** The raw RM3 vector of the example's two documents: "banana" weighs s0/4 + s1/5, and the mass is s0 + s1. */
  lemma BananaRaw(d0: FeatureVector, d1: FeatureVector, s0: real, s1: real)
    requires NonNegative(d0) && NonNegative(d1) && L1Norm(d0) == 4.0 && L1Norm(d1) == 5.0
    requires Weight(d0, "banana") == 1.0 && Weight(d1, "banana") == 1.0
    requires |Vocab([d0, d1])| <= 10
    requires s0 >= 0.0 && s1 >= 0.0
    ensures "banana" in Rm3Raw([d0, d1], [s0, s1])
    ensures Rm3Raw([d0, d1], [s0, s1])["banana"] == s0 / 4.0 + s1 / 5.0
    ensures |Rm3Raw([d0, d1], [s0, s1])| <= 10
    ensures L1Norm(Rm3Raw([d0, d1], [s0, s1])) == s0 + s1
  {
    VocabOfTwo(d0, d1);
    NormsOfTwo(d0, d1);
    assert "banana" in d0;
    Rm3WeightOfTwo(d0, d1, 4.0, 5.0, s0, s1, "banana");
    Rm3MassOfTwo(d0, d1, s0, s1);
  }

  /** A term's weight after scaling, given its weight and the norm before. */
  lemma ScaledWeightAt(v: FeatureVector, t: string, w: real, n: real)
    requires t in v && v[t] == w && L1Norm(v) == n && n != 0.0
    ensures t in Scaled(v) && Scaled(v)[t] == w / n
  {
    ScaledProperties(v);
  }

  /**
   * The RM3 example on the "banana slug" corpus, whose top two documents are
   * "banana slug Ariolimax columbianus" (4 terms) and "Santa Cruz mountains
   * banana slug" (5 terms), each holding "banana" once. With fbDocs = 2,
   * fbTerms = 10 and originalQueryWeight = 0.5, pruning keeps all their terms,
   * and "banana" gets its pooled, length-normalised, score-weighted frequency
   * over the summed scores, interpolated half and half with its query weight.
   */
  lemma BananaRm3(m: FeedbackModel, queryTokens: seq<string>, d0: FeatureVector, d1: FeatureVector,
                  s0: real, s1: real)
    requires m.fbDocs == 2 && m.fbTerms == 10 && m.config.originalQueryWeight == 0.5
    requires NonNegative(d0) && NonNegative(d1) && L1Norm(d0) == 4.0 && L1Norm(d1) == 5.0
    requires Weight(d0, "banana") == 1.0 && Weight(d1, "banana") == 1.0
    requires |Vocab([d0, d1])| <= 10
    requires s0 >= 0.0 && s1 >= 0.0 && s0 + s1 > 0.0
    ensures Weight(Rm3Model(m, queryTokens, [d0, d1], [s0, s1]), "banana") ==
            0.5 * Weight(Scaled(FromTerms(queryTokens)), "banana") + 0.5 * ((s0 / 4.0 + s1 / 5.0) / (s0 + s1))
  {
    var docs := [d0, d1];
    var raw := Rm3Raw(docs, [s0, s1]);
    BananaRaw(d0, d1, s0, s1);
    PrunedWhole(raw, 10);
    var feedback := Rm3Feedback(m, docs, [s0, s1]);
    assert feedback == Scaled(raw);
    ScaledWeightAt(raw, "banana", s0 / 4.0 + s1 / 5.0, s0 + s1);
    assert Weight(feedback, "banana") == (s0 / 4.0 + s1 / 5.0) / (s0 + s1);
  }
}
