/**
 * What the estimators ask of the Lucene index, as plain values. A lookup the
 * Java code wraps in a try/catch for IOException is modelled as an Option or
 * an absent map entry: absent means "this call threw".
 */
module Index {
  import opened Wrappers

  /** CollectionStatistics of the feedback field. */
  datatype CollectionStatistics = CollectionStatistics(docCount: int, sumTotalTermFreq: int)

  /** TermStatistics of one term in the feedback field. */
  datatype TermStatistics = TermStatistics(docFreq: int, totalTermFreq: int)

  /**
   * The IndexSearcher as the rerankers use it: collectionStatistics (None when
   * the call throws) and termStatistics (a term is absent when the call throws).
   */
  datatype Searcher = Searcher(collection: Option<CollectionStatistics>, termStats: map<string, TermStatistics>)

  /** One entry of a stored term vector: the term and its totalTermFreq. */
  datatype TermEntry = TermEntry(term: string, totalTermFreq: int)

  /** What getTermVector answers for a document id. */
  datatype TermVectorLookup =
    | LookupFailed                       // the call threw an IOException
    | NoTermVector                       // the call returned null
    | TermVector(entries: seq<TermEntry>)

  /**
   * The IndexReader: numDocs, docFreq of a term (absent when the call throws)
   * and the term vector of each document id (a document with no entry is one
   * whose term-vector read throws an IOException).
   */
  datatype IndexReader = IndexReader(numDocs: int, docFreq: map<string, int>, termVectors: map<int, TermVectorLookup>)

  function GetTermVector(reader: IndexReader, id: int): (r: TermVectorLookup)
    ensures id !in reader.termVectors ==> r == LookupFailed
  {
    if id in reader.termVectors then reader.termVectors[id] else LookupFailed
  }

  /**
   * The first-stage ranking handed to the feedback model: for each document its
   * analysed stored text (the tokens AnalyzerUtils.tokenize yields), its id and
   * its score.
   */
  datatype ScoredDocuments = ScoredDocuments(tokens: seq<seq<string>>, ids: seq<int>, scores: seq<real>)

  /**
   * The term-statistics cache after addTermStatistic(vocab): terms already
   * cached are skipped, a term whose fetch fails stays absent.
   */
  ghost function CacheAfter(cache: map<string, TermStatistics>, vocab: set<string>,
                            source: map<string, TermStatistics>): (r: map<string, TermStatistics>)
    ensures r.Keys == cache.Keys + (vocab * source.Keys)
    ensures forall t | t in cache :: r[t] == cache[t]
    ensures forall t | t in r && t !in cache :: t in vocab && r[t] == source[t]
  {
    map t | t in cache.Keys + (vocab * source.Keys) :: if t in cache then cache[t] else source[t]
  }

  /** Caching twice over the same terms fetches nothing new. */
  lemma CacheAfterIdempotent(cache: map<string, TermStatistics>, vocab: set<string>,
                             source: map<string, TermStatistics>)
    ensures CacheAfter(CacheAfter(cache, vocab, source), vocab, source) == CacheAfter(cache, vocab, source)
  {
  }

  /**
   * The map after collectTermStatitics(vocab, into): every term whose fetch
   * succeeds is put (overwriting), the others are left as they were.
   */
  ghost function Collected(into: map<string, TermStatistics>, vocab: set<string>,
                           source: map<string, TermStatistics>): (r: map<string, TermStatistics>)
    ensures r.Keys == into.Keys + (vocab * source.Keys)
    ensures forall t | t in vocab && t in source :: r[t] == source[t]
    ensures forall t | t in into && !(t in vocab && t in source) :: r[t] == into[t]
  {
    map t | t in into.Keys + (vocab * source.Keys) :: if t in vocab && t in source then source[t] else into[t]
  }

  /** Collecting one more term puts its statistics, when the fetch succeeds. */
  lemma CollectedAddTerm(into: map<string, TermStatistics>, vocab: set<string>,
                         source: map<string, TermStatistics>, t: string)
    ensures Collected(into, vocab + {t}, source) ==
            if t in source then Collected(into, vocab, source)[t := source[t]] else Collected(into, vocab, source)
  {
    var a := Collected(into, vocab + {t}, source);
    var b := if t in source then Collected(into, vocab, source)[t := source[t]] else Collected(into, vocab, source);
    assert a.Keys == b.Keys;
    forall u | u in a ensures a[u] == b[u] {
      if u != t {
        assert (u in vocab + {t} && u in source) == (u in vocab && u in source);
      }
    }
  }

  /** Caching one more term adds its statistics, unless already cached or the fetch fails. */
  lemma CacheAfterAddTerm(cache: map<string, TermStatistics>, vocab: set<string>,
                          source: map<string, TermStatistics>, t: string)
    ensures CacheAfter(cache, vocab + {t}, source) ==
            if t in CacheAfter(cache, vocab, source) || t !in source then CacheAfter(cache, vocab, source)
            else CacheAfter(cache, vocab, source)[t := source[t]]
  {
    var a := CacheAfter(cache, vocab + {t}, source);
    var b := CacheAfter(cache, vocab, source);
    if t in b || t !in source {
      assert a.Keys == b.Keys;
    } else {
      assert a.Keys == b.Keys + {t};
    }
  }

  /** The statistics a cache lookup yields once the term has been fetched: the cached ones first. */
  ghost function Lookup(cache: map<string, TermStatistics>, source: map<string, TermStatistics>, t: string): TermStatistics
    requires t in cache || t in source
  {
    if t in cache then cache[t] else source[t]
  }

  /** Every term can be looked up, in the cache or from the searcher. */
  ghost predicate Fetchable(cache: map<string, TermStatistics>, source: map<string, TermStatistics>, terms: set<string>)
  {
    forall t | t in terms :: t in cache || t in source
  }

  /** Every entry of the cache is what Lookup yields, before and after the cache grows. */
  lemma CacheAfterLookup(cache: map<string, TermStatistics>, vocab: set<string>,
                         source: map<string, TermStatistics>, t: string)
    requires t in cache || t in source
    ensures t in CacheAfter(cache, vocab, source) ==> CacheAfter(cache, vocab, source)[t] == Lookup(cache, source, t)
    ensures Lookup(CacheAfter(cache, vocab, source), source, t) == Lookup(cache, source, t)
    ensures t in vocab ==> t in CacheAfter(cache, vocab, source)
  {
  }

  /** Java's integer division on long operands truncates toward zero. */
  function JavaLongDiv(a: int, b: int): (q: int)
    requires b != 0
    ensures a >= 0 && b > 0 ==> q == a / b
    ensures a < 0 && b > 0 ==> q == -((-a) / b)
  {
    var n := if a < 0 then -a else a;
    var d := if b < 0 then -b else b;
    if (a < 0) == (b < 0) then n / d else -(n / d)
  }

  /** The (int) cast of a long: keep the low 32 bits, two's complement. */
  function Int32Of(x: int): (r: int)
    ensures -0x8000_0000 <= r < 0x8000_0000
    ensures -0x8000_0000 <= x < 0x8000_0000 ==> r == x
    ensures (r - x) % 0x1_0000_0000 == 0
  {
    var m := x % 0x1_0000_0000;
    if m >= 0x8000_0000 then m - 0x1_0000_0000 else m
  }
}
