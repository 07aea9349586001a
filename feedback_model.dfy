/**
 * The shared part of every feedback model: which terms of a feedback document
 * may become feedback terms, how document vectors are built from term vectors
 * or from the stored text, and the vocabulary, norms and query vector the
 * estimators start from.
 */
module FeedbackModels {
  import opened Wrappers
  import opened FeatureVectors
  import opened Index
  import opened FeedbackConfig

  /** The settings FeedbackModel copies out of its config (the analyzer is not modelled). */
  datatype FeedbackModel = FeedbackModel(
    field: string,
    fbTerms: int,
    fbDocs: int,
    outputQuery: bool,
    removeStopWord: bool,
    originalQueryWeight: real,
    normalize: bool,
    prunDocTerm: bool,
    pruneModel: bool,
    config: FeedbackModelConfig)

  /** The constructor copies every setting of the config into its own field. */
  function NewFeedbackModel(field: string, config: FeedbackModelConfig): (m: FeedbackModel)
    ensures m.field == field && m.config == config
    ensures m.fbTerms == config.GetFbTerms() && m.fbDocs == config.GetFbDocs()
    ensures m.outputQuery == config.IsOutputQuery() && m.removeStopWord == config.IsRemoveStopWord()
    ensures m.originalQueryWeight == config.GetOriginalQueryWeight()
    ensures m.normalize == config.IsNormalize() && m.prunDocTerm == config.IsPrunDocTerm()
    ensures m.pruneModel == config.IsPruneModel()
  {
    FeedbackModel(field, config.fbTerms, config.fbDocs, config.outputQuery, config.removeStopWord,
                  config.originalQueryWeight, config.normalize, config.prunDocTerm, config.pruneModel, config)
  }

  function Min(a: int, b: int): int { if a < b then a else b }

  // ---------------------------------------------------------------------------
  // Which terms may become feedback terms

  predicate IsFeedbackChar(ch: char) { 'a' <= ch <= 'z' || '0' <= ch <= '9' }

  /** Length 2 to 20, and the whole term matches [a-z0-9]+. */
  predicate TermShapeOk(term: string)
  {
    2 <= |term| <= 20 && forall i | 0 <= i < |term| :: IsFeedbackChar(term[i])
  }

  /** The document-frequency ratio above which a term counts as a stopword. */
  function StopwordThreshold(tweetsearch: bool, numDocs: int): real
  {
    if !tweetsearch then 0.1               // newswire and web collections
    else if numDocs > 100000000 then 0.007 // a collection as large as Tweets2013
    else 0.01
  }

  /**
   * isStopword once docFreq is known: df / numDocs strictly above the threshold.
   * With numDocs == 0 the float quotient is +Infinity for df > 0 (a stopword)
   * and NaN for df == 0 (not a stopword, NaN compares false).
   */
  predicate IsStopword(df: int, numDocs: int, tweetsearch: bool)
  {
    if numDocs == 0 then df > 0
    else (df as real) / (numDocs as real) > StopwordThreshold(tweetsearch, numDocs)
  }

  /** For a positive n, x / n is above th exactly when x is above th * n. */
  lemma RatioAbove(x: real, n: real, th: real)
    requires n > 0.0
    ensures x / n > th <==> x > th * n
  {
    var q := x / n;
    assert x == q * n;
    if q > th {
      assert (q - th) * n > 0.0;
    } else {
      assert (th - q) * n >= 0.0;
    }
  }

  /** The three thresholds as integer comparisons; a ratio exactly at a threshold is kept. */
  lemma IsStopwordRule(df: int, numDocs: int, tweetsearch: bool)
    requires numDocs > 0
    ensures tweetsearch && numDocs > 100000000 ==> (IsStopword(df, numDocs, tweetsearch) <==> 1000 * df > 7 * numDocs)
    ensures tweetsearch && numDocs <= 100000000 ==> (IsStopword(df, numDocs, tweetsearch) <==> 100 * df > numDocs)
    ensures !tweetsearch ==> (IsStopword(df, numDocs, tweetsearch) <==> 10 * df > numDocs)
  {
    RatioAbove(df as real, numDocs as real, StopwordThreshold(tweetsearch, numDocs));
  }

  /** isStopword, or None when the docFreq lookup throws. */
  function StopwordTest(reader: IndexReader, term: string, tweetsearch: bool, numDocs: int): (r: Option<bool>)
    ensures r.None? <==> term !in reader.docFreq
  {
    if term in reader.docFreq then Some(IsStopword(reader.docFreq[term], numDocs, tweetsearch)) else None
  }

  /** The predicate of filterStopwords: a failed lookup drops the token. */
  predicate KeepsToken(reader: IndexReader, term: string, tweetsearch: bool, numDocs: int, removeStopWord: bool)
  {
    !removeStopWord || StopwordTest(reader, term, tweetsearch, numDocs) == Some(false)
  }

  /** filterStopwords: the tokens the predicate keeps, in their order. */
  function FilterStopwords(tokens: seq<string>, reader: IndexReader, tweetsearch: bool, numDocs: int,
                           removeStopWord: bool): (r: seq<string>)
    ensures |r| <= |tokens|
    ensures !removeStopWord ==> r == tokens
  {
    if |tokens| == 0 then []
    else
      (if KeepsToken(reader, tokens[0], tweetsearch, numDocs, removeStopWord) then [tokens[0]] else [])
      + FilterStopwords(tokens[1..], reader, tweetsearch, numDocs, removeStopWord)
  }

  /** Every occurrence of a kept token survives, every occurrence of a dropped one goes. */
  lemma {:induction false} FilterStopwordsCounts(tokens: seq<string>, reader: IndexReader, tweetsearch: bool,
                                                 numDocs: int, removeStopWord: bool)
    ensures forall t :: multiset(FilterStopwords(tokens, reader, tweetsearch, numDocs, removeStopWord))[t] ==
              if KeepsToken(reader, t, tweetsearch, numDocs, removeStopWord) then multiset(tokens)[t] else 0
  {
    if |tokens| > 0 {
      FilterStopwordsCounts(tokens[1..], reader, tweetsearch, numDocs, removeStopWord);
      assert tokens == [tokens[0]] + tokens[1..];
    }
  }

  // ---------------------------------------------------------------------------
  // createdFeatureVector

  /** The vector built so far, and whether a docFreq lookup has thrown. */
  datatype Scan = Scan(vector: FeatureVector, failed: bool)

  /** A term that passes the shape test and, when stopwords are removed, the stopword test. */
  predicate Admitted(reader: IndexReader, term: string, tweetsearch: bool, numDocs: int, removeStopWord: bool)
  {
    TermShapeOk(term) && (removeStopWord ==> StopwordTest(reader, term, tweetsearch, numDocs) == Some(false))
  }

  /** A lookup that throws: only reached for a well-shaped term when stopwords are removed. */
  predicate FailsAt(reader: IndexReader, term: string, removeStopWord: bool)
  {
    TermShapeOk(term) && removeStopWord && term !in reader.docFreq
  }

  /** One step of the enumeration loop: skip, stop with an exception, or add (int) totalTermFreq. */
  function ScanStep(s: Scan, e: TermEntry, reader: IndexReader, tweetsearch: bool, numDocs: int,
                    removeStopWord: bool): Scan
  {
    if s.failed then s
    else if FailsAt(reader, e.term, removeStopWord) then Scan(s.vector, true)
    else if !Admitted(reader, e.term, tweetsearch, numDocs, removeStopWord) then s
    else Scan(AddWeight(s.vector, e.term, Int32Of(e.totalTermFreq) as real), false)
  }

  function ScanTerms(entries: seq<TermEntry>, reader: IndexReader, tweetsearch: bool, numDocs: int,
                     removeStopWord: bool): Scan
  {
    if |entries| == 0 then Scan(map[], false)
    else ScanStep(ScanTerms(entries[..|entries| - 1], reader, tweetsearch, numDocs, removeStopWord),
                  entries[|entries| - 1], reader, tweetsearch, numDocs, removeStopWord)
  }

  /** Every term of the vector is a term of the term vector that was admitted. */
  lemma {:induction false} ScanKeepsAdmitted(entries: seq<TermEntry>, reader: IndexReader, tweetsearch: bool,
                                             numDocs: int, removeStopWord: bool)
    ensures forall t | t in ScanTerms(entries, reader, tweetsearch, numDocs, removeStopWord).vector ::
              Admitted(reader, t, tweetsearch, numDocs, removeStopWord) &&
              exists j :: 0 <= j < |entries| && entries[j].term == t
  {
    if |entries| > 0 {
      var init := entries[..|entries| - 1];
      ScanKeepsAdmitted(init, reader, tweetsearch, numDocs, removeStopWord);
      forall t | t in ScanTerms(entries, reader, tweetsearch, numDocs, removeStopWord).vector
        ensures exists j :: 0 <= j < |entries| && entries[j].term == t
      {
        if t in ScanTerms(init, reader, tweetsearch, numDocs, removeStopWord).vector {
          var j :| 0 <= j < |init| && init[j].term == t;
          assert entries[j].term == t;
        } else {
          assert entries[|entries| - 1].term == t;
        }
      }
    }
  }

  /** The scan fails exactly when some well-shaped term's lookup throws. */
  lemma {:induction false} ScanFailure(entries: seq<TermEntry>, reader: IndexReader, tweetsearch: bool,
                                       numDocs: int, removeStopWord: bool)
    ensures ScanTerms(entries, reader, tweetsearch, numDocs, removeStopWord).failed <==>
              exists j :: 0 <= j < |entries| && FailsAt(reader, entries[j].term, removeStopWord)
  {
    if |entries| > 0 {
      var init := entries[..|entries| - 1];
      ScanFailure(init, reader, tweetsearch, numDocs, removeStopWord);
      if exists j :: 0 <= j < |init| && FailsAt(reader, init[j].term, removeStopWord) {
        var j :| 0 <= j < |init| && FailsAt(reader, init[j].term, removeStopWord);
        assert entries[j] == init[j];
      }
      if exists j :: 0 <= j < |entries| && FailsAt(reader, entries[j].term, removeStopWord) {
        var j :| 0 <= j < |entries| && FailsAt(reader, entries[j].term, removeStopWord);
        if j < |init| { assert init[j] == entries[j]; }
      }
    }
  }

  /** Once a lookup has thrown, the rest of the term vector changes nothing. */
  lemma {:induction false} ScanStopsAtFailure(entries: seq<TermEntry>, k: nat, reader: IndexReader,
                                              tweetsearch: bool, numDocs: int, removeStopWord: bool)
    requires k <= |entries|
    requires ScanTerms(entries[..k], reader, tweetsearch, numDocs, removeStopWord).failed
    ensures ScanTerms(entries, reader, tweetsearch, numDocs, removeStopWord) ==
            ScanTerms(entries[..k], reader, tweetsearch, numDocs, removeStopWord)
    decreases |entries| - k
  {
    if k < |entries| {
      var n := |entries|;
      assert entries[..n - 1][..k] == entries[..k];
      ScanStopsAtFailure(entries[..n - 1], k, reader, tweetsearch, numDocs, removeStopWord);
    } else {
      assert entries[..k] == entries;
    }
  }

  /**
   * Without a thrown lookup, and with each term listed once (as a term vector
   * lists it), an admitted term's weight is its (int) totalTermFreq.
   */
  lemma {:induction false} ScanWeights(entries: seq<TermEntry>, reader: IndexReader, tweetsearch: bool,
                                       numDocs: int, removeStopWord: bool, j: nat)
    requires forall a, b | 0 <= a < b < |entries| :: entries[a].term != entries[b].term
    requires !ScanTerms(entries, reader, tweetsearch, numDocs, removeStopWord).failed
    requires j < |entries| && Admitted(reader, entries[j].term, tweetsearch, numDocs, removeStopWord)
    ensures Weight(ScanTerms(entries, reader, tweetsearch, numDocs, removeStopWord).vector, entries[j].term)
            == Int32Of(entries[j].totalTermFreq) as real
  {
    var n := |entries|;
    var init := entries[..n - 1];
    var s := ScanTerms(init, reader, tweetsearch, numDocs, removeStopWord);
    if j < n - 1 {
      ScanWeights(init, reader, tweetsearch, numDocs, removeStopWord, j);
    } else {
      ScanKeepsAdmitted(init, reader, tweetsearch, numDocs, removeStopWord);
      forall a | 0 <= a < |init| ensures init[a].term != entries[j].term {
        assert init[a] == entries[a];
      }
    }
  }

  /** createdFeatureVector: on a thrown lookup, the terms accumulated so far. */
  method CreatedFeatureVector(entries: seq<TermEntry>, reader: IndexReader, tweetsearch: bool,
                              removeStopWord: bool) returns (f: FeatureVector)
    ensures f == ScanTerms(entries, reader, tweetsearch, reader.numDocs, removeStopWord).vector
  {
    var numDocs := reader.numDocs;
    f := map[];
    var i := 0;
    while i < |entries|
      invariant 0 <= i <= |entries|
      invariant ScanTerms(entries[..i], reader, tweetsearch, numDocs, removeStopWord) == Scan(f, false)
    {
      var term := entries[i].term;
      assert entries[..i + 1][..i] == entries[..i];
      if !TermShapeOk(term) {
        i := i + 1;
        continue;
      }
      if removeStopWord {
        var stop := StopwordTest(reader, term, tweetsearch, numDocs);
        if stop.None? {
          ScanStopsAtFailure(entries, i + 1, reader, tweetsearch, numDocs, removeStopWord);
          return;
        }
        if stop.value {
          i := i + 1;
          continue;
        }
      }
      var freq := Int32Of(entries[i].totalTermFreq);
      f := AddWeight(f, term, freq as real);
      i := i + 1;
    }
    assert entries[..i] == entries;
  }

  // ---------------------------------------------------------------------------
  // buildDocVectors

  /**
   * Slot i of buildDocVectors(ScoredDocuments): null when getTermVector throws;
   * without a term vector, the filtered stored text, filtered against numdocs
   * (the number of feedback documents) rather than the index size; otherwise
   * createdFeatureVector, filtered against the index size.
   */
  function ScoredSlot(m: FeedbackModel, docs: ScoredDocuments, reader: IndexReader, tweetsearch: bool,
                      numdocs: int, i: nat): Option<FeatureVector>
    requires i < |docs.ids| && i < |docs.tokens|
  {
    match GetTermVector(reader, docs.ids[i])
    case LookupFailed => None
    case NoTermVector =>
      Some(FromTerms(FilterStopwords(docs.tokens[i], reader, tweetsearch, numdocs, m.removeStopWord)))
    case TermVector(entries) =>
      Some(ScanTerms(entries, reader, tweetsearch, reader.numDocs, m.removeStopWord).vector)
  }

  /** buildDocVectors(ScoredDocuments): min(n, fbDocs) slots, slot i from document i. */
  method BuildDocVectorsScored(m: FeedbackModel, docs: ScoredDocuments, reader: IndexReader, tweetsearch: bool)
    returns (docvectors: seq<Option<FeatureVector>>)
    requires m.fbDocs >= 0
    requires |docs.ids| == |docs.tokens|
    ensures |docvectors| == Min(|docs.tokens|, m.fbDocs)
    ensures forall i | 0 <= i < |docvectors| ::
              docvectors[i] == ScoredSlot(m, docs, reader, tweetsearch, |docvectors|, i)
  {
    var numdocs := if |docs.tokens| < m.fbDocs then |docs.tokens| else m.fbDocs;
    docvectors := [];
    for i := 0 to numdocs
      invariant |docvectors| == i
      invariant forall j | 0 <= j < i :: docvectors[j] == ScoredSlot(m, docs, reader, tweetsearch, numdocs, j)
    {
      var lookup := GetTermVector(reader, docs.ids[i]);
      var slot: Option<FeatureVector>;
      match lookup {
        case LookupFailed =>
          slot := None;
        case NoTermVector =>
          var filtered := FilterStopwords(docs.tokens[i], reader, tweetsearch, numdocs, m.removeStopWord);
          slot := Some(FromTerms(filtered));
        case TermVector(entries) =>
          var v := CreatedFeatureVector(entries, reader, tweetsearch, m.removeStopWord);
          slot := Some(v);
      }
      docvectors := docvectors + [slot];
    }
  }

  /** The slots buildDocVectors(ScoredDocuments) yields. */
  ghost function ScoredVectors(m: FeedbackModel, docs: ScoredDocuments, reader: IndexReader, tweetsearch: bool)
    : (r: seq<Option<FeatureVector>>)
    requires m.fbDocs >= 0 && |docs.ids| == |docs.tokens|
    ensures |r| == Min(|docs.tokens|, m.fbDocs)
    ensures forall i | 0 <= i < |r| :: r[i] == ScoredSlot(m, docs, reader, tweetsearch, |r|, i)
  {
    var n := Min(|docs.tokens|, m.fbDocs);
    seq(n, i requires 0 <= i < n => ScoredSlot(m, docs, reader, tweetsearch, n, i))
  }

  /**
   * What getVocab makes of the slots: it reads every slot, so a null slot
   * throws (None); otherwise the vectors themselves.
   */
  function Filled(slots: seq<Option<FeatureVector>>): (r: Option<seq<FeatureVector>>)
    ensures r.Some? <==> forall i | 0 <= i < |slots| :: slots[i].Some?
    ensures r.Some? ==> |r.value| == |slots| && forall i | 0 <= i < |slots| :: r.value[i] == slots[i].value
  {
    if |slots| == 0 then Some([])
    else
      match Filled(slots[..|slots| - 1])
      case None => None
      case Some(vs) =>
        match slots[|slots| - 1]
        case None => None
        case Some(v) => Some(vs + [v])
  }

  /**
   * The slots as the failure branch of buildDocVectors means them: a document
   * whose term vector could not be read is an empty feature vector.
   */
  ghost function FilledOrEmpty(slots: seq<Option<FeatureVector>>): (r: seq<FeatureVector>)
    ensures |r| == |slots|
  {
    seq(|slots|, i requires 0 <= i < |slots| => if slots[i].Some? then slots[i].value else map[])
  }

  /** Where no slot is null, reading the failed slots as empty vectors changes nothing. */
  lemma FilledOrEmptyAgrees(slots: seq<Option<FeatureVector>>)
    requires Filled(slots).Some?
    ensures FilledOrEmpty(slots) == Filled(slots).value
  {
    var r := FilledOrEmpty(slots);
    forall i | 0 <= i < |slots| ensures r[i] == Filled(slots).value[i] {
      assert slots[i].Some?;
    }
  }

  /** One stored text as a vector: its tokens filtered against the index size, then counted. */
  function ContentVector(m: FeedbackModel, content: seq<string>, reader: IndexReader, tweetsearch: bool): FeatureVector
  {
    FromTerms(FilterStopwords(content, reader, tweetsearch, reader.numDocs, m.removeStopWord))
  }

  /** The vectors buildDocVectors(String[]) yields: the filtered text of each of the first fbDocs documents. */
  ghost function ContentVectors(m: FeedbackModel, contents: seq<seq<string>>, reader: IndexReader,
                                tweetsearch: bool): (r: seq<FeatureVector>)
    requires m.fbDocs >= 0
    ensures |r| == Min(|contents|, m.fbDocs)
    ensures forall i | 0 <= i < |r| :: r[i] == ContentVector(m, contents[i], reader, tweetsearch)
  {
    seq(Min(|contents|, m.fbDocs), i requires 0 <= i < Min(|contents|, m.fbDocs) =>
          ContentVector(m, contents[i], reader, tweetsearch))
  }

  /** buildDocVectors(String[]): min(n, fbDocs) vectors of text filtered against the index size. */
  method BuildDocVectorsContents(m: FeedbackModel, contents: seq<seq<string>>, reader: IndexReader,
                                 tweetsearch: bool) returns (docvectors: seq<FeatureVector>)
    requires m.fbDocs >= 0
    ensures |docvectors| == Min(|contents|, m.fbDocs)
    ensures forall i | 0 <= i < |docvectors| :: docvectors[i] == ContentVector(m, contents[i], reader, tweetsearch)
  {
    var numdocs := if |contents| < m.fbDocs then |contents| else m.fbDocs;
    docvectors := [];
    for i := 0 to numdocs
      invariant |docvectors| == i
      invariant forall j | 0 <= j < i :: docvectors[j] == ContentVector(m, contents[j], reader, tweetsearch)
    {
      var v := ContentVector(m, contents[i], reader, tweetsearch);
      docvectors := docvectors + [v];
    }
  }

  // ---------------------------------------------------------------------------
  // Vocabulary, norms, query vector

  /** The union of the terms of all document vectors. */
  ghost function Vocab(docs: seq<FeatureVector>): set<string>
  {
    set i, t | 0 <= i < |docs| && t in docs[i] :: t
  }

  /** getVocab: adds the terms of each vector in turn. */
  method GetVocab(docs: seq<FeatureVector>) returns (vocab: set<string>)
    ensures vocab == Vocab(docs)
    ensures forall t :: t in vocab <==> exists i :: 0 <= i < |docs| && t in docs[i]
  {
    vocab := {};
    for i := 0 to |docs|
      invariant vocab == Vocab(docs[..i])
    {
      assert forall t :: t in Vocab(docs[..i + 1]) <==> t in Vocab(docs[..i]) || t in docs[i] by {
        forall t | t in Vocab(docs[..i + 1]) ensures t in Vocab(docs[..i]) || t in docs[i] {
          var j :| 0 <= j < i + 1 && t in docs[..i + 1][j];
          if j < i { assert docs[..i][j] == docs[j]; }
        }
        forall t | t in Vocab(docs[..i]) ensures t in Vocab(docs[..i + 1]) {
          var j :| 0 <= j < i && t in docs[..i][j];
          assert docs[..i + 1][j] == docs[j];
        }
        forall t | t in docs[i] ensures t in Vocab(docs[..i + 1]) {
          assert docs[..i + 1][i] == docs[i];
        }
      }
      vocab := vocab + docs[i].Keys;
    }
    assert docs[..|docs|] == docs;
  }

  /**
   * The estimators skip a feedback document whose L1 norm is at most 0.001, to
   * avoid dividing by a zero length.
   */
  predicate PassesNormGuard(norm: real) { norm > 0.001 }

  /** The L1 norm of each document vector. */
  ghost function Norms(docs: seq<FeatureVector>): (norms: seq<real>)
    ensures |norms| == |docs|
  {
    seq(|docs|, i requires 0 <= i < |docs| => L1Norm(docs[i]))
  }

  /** computeNorms: one non-negative L1 norm per vector, in order. */
  method ComputeNorms(docs: seq<FeatureVector>) returns (norms: seq<real>)
    ensures norms == Norms(docs)
    ensures forall i | 0 <= i < |norms| :: norms[i] >= 0.0
  {
    norms := [];
    for i := 0 to |docs|
      invariant norms == Norms(docs[..i])
      invariant forall j | 0 <= j < i :: norms[j] >= 0.0
    {
      var n := ComputeL1Norm(docs[i]);
      L1NormNonNegative(docs[i]);
      norms := norms + [n];
    }
    assert docs[..|docs|] == docs;
  }

  /** getQfv: the query's token counts scaled to unit L1 norm. */
  method GetQfv(queryTokens: seq<string>) returns (qfv: FeatureVector)
    ensures qfv == Scaled(FromTerms(queryTokens))
  {
    qfv := ScaleToUnitL1Norm(FromTerms(queryTokens));
  }

  /**
   * The query vector holds each query token with weight count / length, and
   * nothing else: a probability distribution for a non-empty query, and the
   * empty vector for an empty one.
   */
  lemma QueryVectorWeights(queryTokens: seq<string>)
    ensures Scaled(FromTerms(queryTokens)).Keys == set t | t in queryTokens
    ensures |queryTokens| > 0 ==>
              forall t :: Weight(Scaled(FromTerms(queryTokens)), t) ==
                          multiset(queryTokens)[t] as real / |queryTokens| as real
    ensures IsDistribution(Scaled(FromTerms(queryTokens)))
    ensures |queryTokens| > 0 ==> L1Norm(Scaled(FromTerms(queryTokens))) == 1.0
    ensures |queryTokens| == 0 ==> Scaled(FromTerms(queryTokens)) == map[]
  {
    var v := FromTerms(queryTokens);
    FromTermsCounts(queryTokens);
    FromTermsNorm(queryTokens);
    ScaledProperties(v);
    if |queryTokens| > 0 {
      DividedWeights(v, Scaled(v), L1Norm(v), multiset(queryTokens));
    }
  }

  lemma DividedWeights(v: FeatureVector, s: FeatureVector, n: real, counts: multiset<string>)
    requires n > 0.0 && s.Keys == v.Keys
    requires forall t | t in v :: s[t] == v[t] / n
    requires forall t :: Weight(v, t) == counts[t] as real
    ensures forall t :: Weight(s, t) == counts[t] as real / n
  {
    forall t ensures Weight(s, t) == counts[t] as real / n {
      if t !in v {
        assert Weight(v, t) == 0.0;
      }
    }
  }

  /** The reranker copies pick document vectors by index: slot i is docvectors[index[i]]. */
  method SelectVectors(docvectors: seq<FeatureVector>, index: seq<int>) returns (selected: seq<FeatureVector>)
    requires forall i | 0 <= i < |index| :: 0 <= index[i] < |docvectors|
    ensures |selected| == |index|
    ensures forall i | 0 <= i < |index| :: selected[i] == docvectors[index[i]]
  {
    selected := [];
    for i := 0 to |index|
      invariant |selected| == i
      invariant forall j | 0 <= j < i :: selected[j] == docvectors[index[j]]
    {
      selected := selected + [docvectors[index[i]]];
    }
  }

  /** Selected vectors only use terms of the full vocabulary. */
  lemma SelectedVocab(docvectors: seq<FeatureVector>, index: seq<int>, selected: seq<FeatureVector>)
    requires forall i | 0 <= i < |index| :: 0 <= index[i] < |docvectors|
    requires |selected| == |index| && forall i | 0 <= i < |index| :: selected[i] == docvectors[index[i]]
    ensures Vocab(selected) <= Vocab(docvectors)
  {
    forall t | t in Vocab(selected) ensures t in Vocab(docvectors) {
      var i :| 0 <= i < |selected| && t in selected[i];
      assert t in docvectors[index[i]];
    }
  }

  /** Slot i of the selection is the document the i-th index names. */
  ghost function Selected(docs: seq<FeatureVector>, index: seq<int>): (r: seq<FeatureVector>)
    requires forall i | 0 <= i < |index| :: 0 <= index[i] < |docs|
    ensures |r| == |index| && forall i | 0 <= i < |index| :: r[i] == docs[index[i]]
  {
    seq(|index|, i requires 0 <= i < |index| => docs[index[i]])
  }

  /** Every index names a document. */
  ghost predicate IndexesIn(index: seq<int>, docs: seq<FeatureVector>)
  {
    forall i | 0 <= i < |index| :: 0 <= index[i] < |docs|
  }

  /**
   * collectTermStatitics(vocab, into): puts the statistics of every term whose
   * fetch succeeds; a failed fetch is skipped.
   */
  method CollectTermStatistics(vocab: set<string>, source: map<string, TermStatistics>,
                               into: map<string, TermStatistics>) returns (r: map<string, TermStatistics>)
    ensures r == Collected(into, vocab, source)
  {
    r := into;
    var rest := vocab;
    ghost var done: set<string> := {};
    while rest != {}
      invariant rest <= vocab && done == vocab - rest
      invariant r == Collected(into, done, source)
      decreases rest
    {
      var term :| term in rest;
      CollectedAddTerm(into, done, source, term);
      if term in source {
        r := r[term := source[term]];
      }
      rest := rest - {term};
      done := done + {term};
    }
    assert done == vocab;
  }
}
