# Pseudo-relevance feedback estimators of Anserini, in Dafny

This project models the estimation layer of Anserini's pseudo-relevance
feedback rerankers and proves properties of it. The layer takes the term
vectors of the top-ranked documents and returns a weighted term vector,
which becomes the expanded query. Weights are exact `real`s. The natural
logarithm is a function parameter `ln`; a proof assumes only `ln(1) = 0`
and, where needed, that `ln` is monotone on the positive reals. The index,
the analyser and the searcher become plain values:

- `Index.IndexReader` holds `numDocs`, the document frequencies and the
  stored term vectors;
- `Index.Searcher` holds the collection and term statistics of the
  feedback field;
- a lookup that throws an `IOException` in Java is an absent map entry or
  `None`.

Modules, following the Java classes:

| module | file | models |
|---|---|---|
| `Wrappers` | wrappers.dfy | `Option` |
| `TermOrder` | term_order.dfy | the order `pruneToSize` keeps terms in: weight descending, then term ascending |
| `FeatureVectors` | feature_vector.dfy | the `FeatureVector` operations the estimators call, on `map<string, real>` |
| `Index` | index.dfy | index and searcher values, the term-statistics cache, Java long division and the `(int)` cast |
| `FeedbackConfig` | feedback_config.dfy | `FeedbackModelConfig` |
| `FeedbackModels` | feedback_model.dfy | `FeedbackModel`: term filtering, document vectors, vocabulary, norms, query vector |
| `FeedbackQueries` | feedback_query.dfy | the two `buildFeedbackQuery` methods |
| `Rm3` | rm3.dfy | `RM3FeedbackModel.estimate` |
| `LogLogistic` | log_logistic.dfy | `LogLogisticRelevanceModel` and its `LLFeedbakWegith` |
| `LogLogisticReranker` | log_logistic_reranker.dfy | `LogLogisticRelevanceModelReranker` and its older `LLFeedbakWegith` |
| `Rocchio` | rocchio.dfy | `RocchioReranker` and `RocchioFeedbakWegith` |
| `Distill` | distill.dfy | `DistillRelevanceReranker` and `MLEWegith` |
| `LLFactory` | ll_factory.dfy | `LLFeedbackModelFactory.create` |
| `RealArith` | real_arith.dfy | facts about `ln` and real division that the proofs share |

Each loop of the Java code is a `method` with a `while` or `for` loop and
its invariants. Each such method is proved equal to a specification
function, and lemmas prove the estimator's properties from that function.
The two rerankers that cache term statistics in a field (`RocchioReranker`
and `DistillRelevanceReranker`) are classes. So is the older log-logistic
reranker. Their methods state the whole new state of their fields.

## Model

| member | source | states |
|---|---|---|
| `FeedbackConfig.NewFeedbackModelConfig` | src/main/java/io/anserini/rerank/rf/FeedbackModelConfig.java:15-26 | each getter returns the constructor argument of its own slot: fbTerms first, fbDocs second, originalQueryWeight third, then the five flags in order |
| `FeedbackConfig.ConfigDeterminedByGetters` | src/main/java/io/anserini/rerank/rf/FeedbackModelConfig.java:28-58 | two configurations whose eight getters agree are equal, so the getters expose the whole record |
| `FeedbackModels.NewFeedbackModel` | src/main/java/io/anserini/rerank/rf/FeedbackModel.java:93-105 | the model keeps the field, and copies fbTerms, fbDocs, originalQueryWeight and the flags from the configuration's getters |
| `FeedbackModels.IsStopwordRule` | src/main/java/io/anserini/rerank/rf/FeedbackModel.java:262-271 | a stopword is a term whose df/numDocs ratio is strictly above a threshold: 0.007 for tweet search over more than 100000000 documents, 0.01 for other tweet search, otherwise 0.1; a ratio equal to the threshold keeps the term |
| `FeedbackModels.StopwordTest` | src/main/java/io/anserini/rerank/rf/FeedbackModel.java:227-272 | the stopword test fails (None) exactly when the docFreq lookup throws |
| `FeedbackModels.FilterStopwords` | src/main/java/io/anserini/rerank/rf/FeedbackModel.java:214-225 | the filtered list is never longer than the input, and with removeStopWord off it is the input unchanged |
| `FeedbackModels.FilterStopwordsCounts` | src/main/java/io/anserini/rerank/rf/FeedbackModel.java:214-225 | every token keeps all its occurrences if it passes (its df lookup succeeds and it is not a stopword, or filtering is off) and loses all of them otherwise |
| `FeedbackModels.ScanKeepsAdmitted` | src/main/java/io/anserini/rerank/rf/FeedbackModel.java:193-202 | every term of the built vector occurs in the term vector, has length 2 to 20, consists of [a-z0-9] only, and is not a stopword when stopword removal is on |
| `FeedbackModels.ScanFailure` | src/main/java/io/anserini/rerank/rf/FeedbackModel.java:198-208 | the scan fails exactly when some term reaches a stopword test whose docFreq lookup throws |
| `FeedbackModels.ScanStopsAtFailure` | src/main/java/io/anserini/rerank/rf/FeedbackModel.java:204-207 | once the scan has failed, later entries change nothing: the terms gathered so far are returned, not an empty vector |
| `FeedbackModels.ScanWeights` | src/main/java/io/anserini/rerank/rf/FeedbackModel.java:200-201 | in a scan that does not fail over distinct terms, an admitted term's weight is its totalTermFreq cast to a 32-bit int |
| `FeedbackModels.CreatedFeatureVector` | src/main/java/io/anserini/rerank/rf/FeedbackModel.java:185-211 | the loop over the term enumerator builds the vector of the scan, with reader.numDocs as the stopword denominator |
| `FeedbackModels.Filled` | src/main/java/io/anserini/rerank/rf/FeedbackModel.java:303-310 | getVocab's reading of the slots succeeds exactly when no slot is null, and then yields the vectors in order |
| `FeedbackModels.FilledOrEmptyAgrees` | src/main/java/io/anserini/rerank/rf/FeedbackModel.java:293-296 | when no slot is null, reading a null slot as the empty vector yields the same vectors |
| `FeedbackModels.BuildDocVectorsScored` | src/main/java/io/anserini/rerank/rf/FeedbackModel.java:275-301 | min(n, fbDocs) slots; slot i comes from document i: a failed term-vector call leaves it null, and a missing term vector is replaced by the filtered stored text, using the slot count as numDocs |
| `FeedbackModels.BuildDocVectorsContents` | src/main/java/io/anserini/rerank/rf/FeedbackModel.java:312-336 | min(n, fbDocs) vectors; vector i is the token counts of text i after stopword filtering against reader.numDocs |
| `FeedbackModels.GetVocab` | src/main/java/io/anserini/rerank/rf/FeedbackModel.java:303-310 | a term is in the vocabulary exactly when some document vector has it |
| `FeedbackModels.ComputeNorms` | src/main/java/io/anserini/rerank/rf/FeedbackModel.java:177-183 | one norm per document, norm i is the L1 norm of vector i, and no norm is negative |
| `FeedbackModels.GetQfv` | src/main/java/io/anserini/rerank/rf/FeedbackModel.java:112-114 | the query vector is the token-count vector scaled to unit L1 norm |
| `FeedbackModels.QueryVectorWeights` | src/main/java/io/anserini/rerank/rf/FeedbackModel.java:112-114 | the query vector has exactly the query's tokens; a token's weight is its count over the number of tokens; the vector is a probability distribution (L1 norm 1) for a non-empty query, and empty for an empty query |
| `FeedbackModels.SelectVectors` | src/main/java/io/anserini/rerank/lib/RocchioReranker.java:104-113 | the selection has one vector per index, and vector i is docvectors[index[i]] |
| `FeedbackModels.SelectedVocab` | src/main/java/io/anserini/rerank/lib/RocchioReranker.java:104-113 | the vocabulary of a selection is part of the vocabulary of all the documents |
| `FeedbackModels.CollectTermStatistics` | src/main/java/io/anserini/rerank/rf/FeedbackModel.java:338-352 | the map after collecting: every term whose fetch succeeds is put, overwriting, and every other entry stays |
| `Index.Collected` | src/main/java/io/anserini/rerank/rf/FeedbackModel.java:338-352 | the collected map's keys are the old keys plus the fetchable terms; a fetchable term maps to the searcher's statistics, any other key keeps its old value |
| `Index.CollectedAddTerm` | src/main/java/io/anserini/rerank/rf/FeedbackModel.java:342-350 | collecting one more term puts its statistics when its fetch succeeds and changes nothing otherwise |
| `Index.CacheAfter` | src/main/java/io/anserini/rerank/lib/RocchioReranker.java:148-162 | the cache after addTermStatistic: cached terms keep their statistics, a new term is added only if requested and its fetch succeeds |
| `Index.CacheAfterIdempotent` | src/main/java/io/anserini/rerank/lib/RocchioReranker.java:148-162 | adding the same terms twice fetches nothing new |
| `Index.CacheAfterAddTerm` | src/main/java/io/anserini/rerank/lib/RocchioReranker.java:149-161 | one more term leaves the cache as it was if that term is cached or its fetch fails, and otherwise adds it |
| `Index.CacheAfterLookup` | src/main/java/io/anserini/rerank/lib/RocchioReranker.java:150 | growing the cache never changes what a lookup yields, and every requested fetchable term ends up cached |
| `Index.JavaLongDiv` | src/main/java/io/anserini/rerank/lib/RocchioReranker.java:84 | long division truncates toward zero: the Euclidean quotient for non-negative operands, its negation for a negative dividend |
| `Index.Int32Of` | src/main/java/io/anserini/rerank/rf/FeedbackModel.java:200 | the int cast yields a 32-bit value congruent to its input modulo 2^32, and leaves a value already in range unchanged |
| `Index.GetTermVector` | src/main/java/io/anserini/rerank/rf/FeedbackModel.java:281 | a document with no entry stands for one whose term-vector read throws an IOException, which makes the call fail |
| `FeedbackQueries.BuildFeedbackQuery` | src/main/java/io/anserini/rerank/rf/FeedbackModel.java:148-162 | the build fails (the builder throws TooManyClauses) exactly when the model has more than 1024 terms; otherwise the query has one SHOULD clause per model term, a term query on the field boosted by that term's weight, and no other clause |
| `FeedbackQueries.BuildFeedbackQueryInContext` | src/main/java/io/anserini/rerank/rf/FeedbackModel.java:116-146 | fails exactly when the feedback query does (more than 1024 model terms); otherwise without a filter the result is the feedback query, and with one it is exactly {FILTER filter, MUST feedback query} |
| `FeatureVectors.AddWeight` | src/main/java/io/anserini/rerank/rf/models/RM3FeedbackModel.java:44 | addFeatureWeight adds the weight to the term's current weight, or to 0 if absent, and changes no other term |
| `FeatureVectors.UpdateWeight` | src/main/java/io/anserini/rerank/lib/DistillRelevanceReranker.java:189 | updateFeatureWeight sets the term's weight and changes no other term |
| `FeatureVectors.FromTermsCounts` | src/main/java/io/anserini/rerank/rf/FeedbackModel.java:111 | fromTerms has exactly the token list's terms, each weighted by its number of occurrences |
| `FeatureVectors.FromTermsNorm` | src/main/java/io/anserini/rerank/rf/FeedbackModel.java:111 | the token-count vector is non-negative and its L1 norm is the number of tokens |
| `FeatureVectors.ComputeL1Norm` | src/main/java/io/anserini/rerank/rf/FeedbackModel.java:180 | the loop computes the sum of absolute weights |
| `FeatureVectors.ComputeMaxNorm` | src/main/java/io/anserini/rerank/lib/RocchioReranker.java:77 | the loop computes the largest absolute weight |
| `FeatureVectors.L1NormNonNegative` | src/main/java/io/anserini/rerank/rf/FeedbackModel.java:180 | an L1 norm is never negative |
| `FeatureVectors.ScaleToUnitL1Norm` | src/main/java/io/anserini/rerank/rf/models/RM3FeedbackModel.java:48 | every weight is divided by the L1 norm the loop computes, and a zero-norm vector is left as it is |
| `FeatureVectors.ScaledProperties` | src/main/java/io/anserini/rerank/rf/models/RM3FeedbackModel.java:48 | scaling keeps the keys and non-negativity; a zero-norm vector is unchanged; otherwise each weight is divided by the norm and the new norm is 1 |
| `FeatureVectors.ScaledIsDistribution` | src/main/java/io/anserini/rerank/rf/models/RM3FeedbackModel.java:48 | a scaled non-negative vector is a probability distribution, or all zero |
| `FeatureVectors.FindLowest` | src/main/java/io/anserini/rerank/rf/models/RM3FeedbackModel.java:47 | the loop finds the term every other term outranks |
| `FeatureVectors.PruneToSize` | src/main/java/io/anserini/rerank/rf/models/RM3FeedbackModel.java:47 | the loop removes the lowest-ranked term until at most k remain |
| `FeatureVectors.PrunedToSizeProperties` | src/main/java/io/anserini/rerank/rf/models/RM3FeedbackModel.java:47 | pruning keeps a sub-vector with the same weights, of size min(k, size) and 0 for k <= 0, and every kept term outranks every dropped one |
| `FeatureVectors.PruneToThreshold` | src/main/java/io/anserini/rerank/lib/RocchioReranker.java:121 | a term is kept, with its weight, exactly when its weight is at least the threshold |
| `FeatureVectors.LinearCombine` | src/main/java/io/anserini/rerank/lib/RocchioReranker.java:118-119 | the combination has the union of the keys, and each weight is wx times the first weight plus wy times the second |
| `FeatureVectors.Interpolate` | src/main/java/io/anserini/rerank/rf/models/RM3FeedbackModel.java:50 | interpolation has the union of the keys, and each weight is w times the first weight plus (1 - w) times the second |
| `FeatureVectors.InterpolateEndpoints` | src/main/java/io/anserini/rerank/rf/models/RM3FeedbackModel.java:50 | interpolating with weight 1 gives the first vector's weights, and with weight 0 the second's |
| `Rm3.ComputeRm3Weight` | src/main/java/io/anserini/rerank/rf/models/RM3FeedbackModel.java:35-43 | the inner loop sums tf_i / norms[i] * scores[i] over the documents whose norm exceeds 0.001 |
| `Rm3.Rm3Raw` | src/main/java/io/anserini/rerank/rf/models/RM3FeedbackModel.java:29-45 | before pruning, the key set is exactly the document vocabulary |
| `Rm3.ComputeRm3Raw` | src/main/java/io/anserini/rerank/rf/models/RM3FeedbackModel.java:29-45 | the outer loop gives each vocabulary term its guarded, score-weighted sum |
| `Rm3.Estimate` | src/main/java/io/anserini/rerank/rf/models/RM3FeedbackModel.java:26-52 | the result is interpolate(query vector, normalise(prune(raw, fbTerms)), originalQueryWeight) |
| `Rm3.EstimateContents` | src/main/java/io/anserini/rerank/rf/FeedbackModel.java:173-175 | estimating from stored texts is estimating from the vectors built from the first fbDocs texts |
| `Rm3.EstimateScored` | src/main/java/io/anserini/rerank/rf/FeedbackModel.java:164-167 | estimating from scored documents builds their slots and estimates from them, failing when getVocab meets a null slot |
| `Rm3.FailedTermVectorFailsEstimate` | src/main/java/io/anserini/rerank/rf/FeedbackModel.java:164-167 | the estimate from scored documents fails exactly when the term vector of one of the first fbDocs documents cannot be read |
| `Rm3.CorrectedAgreesWhenRead` | src/main/java/io/anserini/rerank/rf/FeedbackModel.java:293-296 | when every term vector can be read, the estimate with failed documents read as empty vectors is the estimate as written |
| `Rm3.FailedDocumentCountsForNothing` | src/main/java/io/anserini/rerank/rf/FeedbackModel.java:293-296 | with failed documents read as empty vectors, a failed document is the empty vector and its score does not change the estimate |
| `Rm3.Rm3RawIgnoresGuardedScore` | src/main/java/io/anserini/rerank/rf/models/RM3FeedbackModel.java:36-44 | the score of a document whose norm is at most 0.001 does not change the raw feedback vector |
| `Rm3.Rm3GuardedDocumentIgnored` | src/main/java/io/anserini/rerank/rf/models/RM3FeedbackModel.java:40 | a document whose norm is at most 0.001 contributes nothing to any term, whatever its terms and score |
| `Rm3.Rm3WeightNonNegative` | src/main/java/io/anserini/rerank/rf/models/RM3FeedbackModel.java:34-45 | with non-negative documents and scores every raw weight is non-negative |
| `Rm3.Rm3FeedbackShape` | src/main/java/io/anserini/rerank/rf/models/RM3FeedbackModel.java:47-48 | the feedback part keeps min(fbTerms, |vocabulary|) vocabulary terms and, for non-negative inputs, is a probability distribution or all zero |
| `Rm3.Rm3MassOfTwo` | src/main/java/io/anserini/rerank/rf/models/RM3FeedbackModel.java:34-48 | for two non-negative documents that pass the norm guard, the raw feedback vector's L1 norm, which `scaleToUnitL1Norm` divides by, is the sum of their scores |
| `Rm3.BananaRm3` | src/main/java/io/anserini/rerank/rf/models/RM3FeedbackModel.java:26-52 | on the "banana slug" example (two documents of lengths 4 and 5, each with "banana" once, fbTerms = 10, originalQueryWeight = 0.5), "banana" weighs half its query weight plus half of (s0/4 + s1/5)/(s0 + s1) |
| `LogLogistic.NewLLFeedbackWeight` | src/main/java/io/anserini/rerank/rf/models/LogLogisticRelevanceModel.java:84-88 | this copy's weight object stores the caller's c and both statistics |
| `LogLogistic.T` | src/main/java/io/anserini/rerank/rf/models/LogLogisticRelevanceModel.java:117-123 | t(0, len) = 0 |
| `LogLogistic.LambdaW` | src/main/java/io/anserini/rerank/rf/models/LogLogisticRelevanceModel.java:125-129 | lambda_w = docFreq / docCount is positive when both counts are |
| `LogLogistic.ComputeFW` | src/main/java/io/anserini/rerank/rf/models/LogLogisticRelevanceModel.java:109-115 | the per-document weight ln((t + lambda) / lambda) is ln 1 = 0 when tf is 0 |
| `LogLogistic.LengthFactor` | src/main/java/io/anserini/rerank/rf/models/LogLogisticRelevanceModel.java:117-123 | the length factor ln(1 + c * avgl / len) is non-negative and shrinks as the document grows |
| `LogLogistic.TGrowsWithTf` | src/main/java/io/anserini/rerank/rf/models/LogLogisticRelevanceModel.java:117-123 | t is non-negative and grows with tf |
| `LogLogistic.ComputeFWMonotoneInTf` | src/main/java/io/anserini/rerank/rf/models/LogLogisticRelevanceModel.java:109-123 | the per-document weight is non-negative and grows with tf |
| `LogLogistic.ComputeFWDecreasingInLength` | src/main/java/io/anserini/rerank/rf/models/LogLogisticRelevanceModel.java:109-123 | for the same tf a longer document gives a smaller weight |
| `LogLogistic.ComputeFWAggregate` | src/main/java/io/anserini/rerank/rf/models/LogLogisticRelevanceModel.java:90-106 | the loop sums the weights of the documents whose norm exceeds 0.001, using the norm as length, and divides by the number of all documents |
| `LogLogistic.SkippedDocumentDilutes` | src/main/java/io/anserini/rerank/rf/models/LogLogisticRelevanceModel.java:90-106 | a document failing the norm guard adds nothing to the sum but still counts in the divisor |
| `LogLogistic.LLSumNonNegative` | src/main/java/io/anserini/rerank/rf/models/LogLogisticRelevanceModel.java:90-106 | for non-negative documents and sensible statistics the sum is non-negative |
| `LogLogistic.BananaScenario` | src/test/java/io/anserini/rerank/rf/LLFeedbakWegithTest.java:144-177 | for the three documents of `computeFW` (a method without a test annotation), "banana" weighs the sum of the first two documents' weights divided by 3, and the third document adds 0 |
| `LogLogistic.BananaEstimate` | src/test/java/io/anserini/rerank/rf/LogLogisticRelevanceModelTest.java:86-124 | for the test's two retrieved documents (lengths 4 and 5) with pruning and normalisation off, the estimate weighs "banana" with half the sum of the two documents' weights |
| `LogLogistic.NewLogLogisticRelevanceModel` | src/main/java/io/anserini/rerank/rf/models/LogLogisticRelevanceModel.java:27-31 | the model keeps the caller's c and the shared feedback settings |
| `LogLogistic.LLRaw` | src/main/java/io/anserini/rerank/rf/models/LogLogisticRelevanceModel.java:49-52 | before post-processing, the key set is exactly the vocabulary |
| `LogLogistic.ComputeLLRaw` | src/main/java/io/anserini/rerank/rf/models/LogLogisticRelevanceModel.java:49-52 | the loop gives each vocabulary term its aggregate weight |
| `LogLogistic.ApplyPostProcess` | src/main/java/io/anserini/rerank/rf/models/LogLogisticRelevanceModel.java:55-61 | pruning runs only if pruneModel is set and normalising only if normalize is set, in that order |
| `LogLogistic.Estimate` | src/main/java/io/anserini/rerank/rf/models/LogLogisticRelevanceModel.java:34-69 | a failed collectionStatistics call gives the empty vector; otherwise the statistics are collected and the raw model post-processed |
| `LogLogistic.PostProcessKeys` | src/main/java/io/anserini/rerank/rf/models/LogLogisticRelevanceModel.java:55-61 | without pruning the keys are unchanged; with it they are a subset of size min(fbTerms, size), 0 for fbTerms <= 0 |
| `LogLogistic.LLModelUngated` | src/main/java/io/anserini/rerank/rf/models/LogLogisticRelevanceModel.java:35-52 | with both flags off, the estimate's key set is exactly the document vocabulary |
| `LogLogistic.LLModelNormalized` | src/main/java/io/anserini/rerank/rf/models/LogLogisticRelevanceModel.java:59-61 | with normalize set and sensible statistics the estimate is a probability distribution or all zero |
| `LogLogistic.LLRawNonNegative` | src/main/java/io/anserini/rerank/rf/models/LogLogisticRelevanceModel.java:49-52 | with sensible statistics every raw weight is non-negative |
| `LogLogisticReranker.NewLegacyLLFeedbackWeight` | src/main/java/io/anserini/rerank/lib/LogLogisticRelevanceModelReranker.java:92-100 | the older weight object ignores its c argument: c is always 0.5 |
| `LogLogisticReranker.FetchTermStatistics` | src/main/java/io/anserini/rerank/lib/LogLogisticRelevanceModelReranker.java:48-52 | the loop succeeds exactly when every vocabulary term can be fetched, and then the fresh map holds exactly the vocabulary's statistics; a failure leaves the terms fetched so far |
| `LogLogisticReranker.ComputeLegacyRaw` | src/main/java/io/anserini/rerank/lib/LogLogisticRelevanceModelReranker.java:54-57 | the loop gives each vocabulary term its aggregate weight with c = 0.5 |
| `LogLogisticReranker.LogLogisticRelevanceModelReranker.constructor` | src/main/java/io/anserini/rerank/lib/LogLogisticRelevanceModelReranker.java:31-39 | the reranker's own c is the originalQueryWeight argument |
| `LogLogisticReranker.LogLogisticRelevanceModelReranker.SetIndexSearcher` | src/main/java/io/anserini/rerank/lib/LogLogisticRelevanceModelReranker.java:80-82 | only the searcher changes |
| `LogLogisticReranker.LogLogisticRelevanceModelReranker.EstimateRelevanceModel` | src/main/java/io/anserini/rerank/lib/LogLogisticRelevanceModelReranker.java:41-67 | a failed collectionStatistics call or a failed term fetch gives the empty vector; otherwise the statistics map is the vocabulary's and the result is the raw model pruned to fbTerms |
| `LogLogisticReranker.LegacyModelShape` | src/main/java/io/anserini/rerank/lib/LogLogisticRelevanceModelReranker.java:59-60 | the result is always pruned and never normalised: min(fbTerms, |vocabulary|) vocabulary terms keep their raw weights |
| `LogLogisticReranker.LegacyMatchesGatedModel` | src/main/java/io/anserini/rerank/lib/LogLogisticRelevanceModelReranker.java:102-141 | the older copy computes the newer one's model for c = 0.5 with pruning on and normalisation off |
| `Rocchio.DocFW` | src/main/java/io/anserini/rerank/lib/RocchioReranker.java:212-219 | a document without the term (tf <= 0) contributes 0 |
| `Rocchio.IdfNonNegative` | src/main/java/io/anserini/rerank/lib/RocchioReranker.java:221-224 | idf = ln(docCount / docFreq) is non-negative when 0 < docFreq <= docCount |
| `Rocchio.DocFWMonotone` | src/main/java/io/anserini/rerank/lib/RocchioReranker.java:212-219 | with a non-negative idf the contribution is non-negative and grows with tf |
| `Rocchio.RocchioAggregate` | src/main/java/io/anserini/rerank/lib/RocchioReranker.java:187-209 | an empty document set gives weight 0 |
| `Rocchio.ComputeRocchioFW` | src/main/java/io/anserini/rerank/lib/RocchioReranker.java:187-209 | the loop sums tf * idf over the documents whose norm exceeds 0.001 and divides by the number of all documents |
| `Rocchio.RocchioSumNonNegative` | src/main/java/io/anserini/rerank/lib/RocchioReranker.java:187-209 | with a non-negative idf the centroid weight is non-negative |
| `Rocchio.RocchioSumAbsent` | src/main/java/io/anserini/rerank/lib/RocchioReranker.java:187-209 | a term in none of the documents gets weight 0 |
| `Rocchio.RocchioCentroid` | src/main/java/io/anserini/rerank/lib/RocchioReranker.java:136-139 | the centroid's key set is exactly the vocabulary |
| `Rocchio.ComputeCentroid` | src/main/java/io/anserini/rerank/lib/RocchioReranker.java:136-139 | the loop gives each vocabulary term its centroid weight |
| `Rocchio.FromTermsMaxNorm` | src/main/java/io/anserini/rerank/lib/RocchioReranker.java:77 | a non-empty query's max norm is at least 1, so dividing by it is defined |
| `Rocchio.ComputeQfv` | src/main/java/io/anserini/rerank/lib/RocchioReranker.java:79-89 | the loop builds the query vector from the cached docFreqs |
| `Rocchio.AddQueryTerm` | src/main/java/io/anserini/rerank/lib/RocchioReranker.java:82-86 | one pass weighs the term with (0.5 + 0.5 * docFreq / norm) * idf when its docFreq is positive and leaves the vector alone otherwise |
| `Rocchio.WeighQueryTerms` | src/main/java/io/anserini/rerank/lib/RocchioReranker.java:81-87 | the loop weighs exactly those of the given terms whose cached docFreq is positive, with the norm it is given |
| `Rocchio.RocchioQfvKeys` | src/main/java/io/anserini/rerank/lib/RocchioReranker.java:81-87 | a term is in the query vector exactly when it is a query term, cached, with docFreq > 0 |
| `Rocchio.QueryIdfTruncates` | src/main/java/io/anserini/rerank/lib/RocchioReranker.java:84 | when docFreq is at most docCount and more than half of it, the truncated quotient is 1 and the query weight is 0; in particular with docCount 3 and docFreq 2 |
| `Rocchio.QueryWeightNonNegative` | src/main/java/io/anserini/rerank/lib/RocchioReranker.java:82-85 | with 0 < docFreq <= docCount and a positive norm, a query weight is non-negative |
| `Rocchio.RocchioCombinedWeights` | src/main/java/io/anserini/rerank/lib/RocchioReranker.java:118-119 | the combination has the union of the keys, and each weight is 1 * q + 0.85 * rel - 0.0 * nonrel |
| `Rocchio.PostProcess` | src/main/java/io/anserini/rerank/lib/RocchioReranker.java:120-122 | post-processing prunes to fbTerms, then drops weights below 0.0001, then normalises, then drops NaN |
| `Rocchio.RocchioPostProperties` | src/main/java/io/anserini/rerank/lib/RocchioReranker.java:120-122 | the result keeps at most fbTerms of the model's terms, each with model weight at least 0.0001 and a positive weight; it is a distribution, of norm 1 when not empty |
| `Rocchio.CacheKeepsKnown` | src/main/java/io/anserini/rerank/lib/RocchioReranker.java:148-162 | caching more terms keeps every known docFreq known, and caching a set makes its statistics available |
| `Rocchio.CachesServe` | src/main/java/io/anserini/rerank/lib/RocchioReranker.java:102-117 | after the query fetch, and after each estimateModel, the cache holds what the next step looks up |
| `Rocchio.RocchioReranker.constructor` | src/main/java/io/anserini/rerank/lib/RocchioReranker.java:50-58 | c is originalQueryWeight, the cache is empty and no collection statistics are held |
| `Rocchio.RocchioReranker.SetRelDocs` | src/main/java/io/anserini/rerank/lib/RocchioReranker.java:42-44 | only relDocs changes |
| `Rocchio.RocchioReranker.SetNonRelDocs` | src/main/java/io/anserini/rerank/lib/RocchioReranker.java:46-48 | only nonRelDocs changes |
| `Rocchio.RocchioReranker.SetIndexSearcher` | src/main/java/io/anserini/rerank/lib/RocchioReranker.java:169-171 | only the searcher changes |
| `Rocchio.RocchioReranker.AddTermStatistic` | src/main/java/io/anserini/rerank/lib/RocchioReranker.java:148-162 | the cache becomes CacheAfter of the old cache; nothing else changes |
| `Rocchio.RocchioReranker.GetQfv` | src/main/java/io/anserini/rerank/lib/RocchioReranker.java:74-90 | the query terms are cached first; the result is the query vector over the new cache |
| `Rocchio.RocchioReranker.EstimateModel` | src/main/java/io/anserini/rerank/lib/RocchioReranker.java:127-146 | a failed collectionStatistics call gives the empty vector and leaves the cache; otherwise the vocabulary is cached and the result is the centroid |
| `Rocchio.RocchioReranker.EstimateRocchioModel` | src/main/java/io/anserini/rerank/lib/RocchioReranker.java:92-125 | a failed collectionStatistics call gives the empty vector; otherwise the cache grows by the query, relevant and non-relevant terms in that order, and the result is the post-processed combination |
| `Distill.MleFW` | src/main/java/io/anserini/rerank/lib/DistillRelevanceReranker.java:337-344 | a document's contribution is max(tf, 0) |
| `Distill.MleAggregate` | src/main/java/io/anserini/rerank/lib/DistillRelevanceReranker.java:312-334 | an empty document set gives weight 0 |
| `Distill.ComputeMleFW` | src/main/java/io/anserini/rerank/lib/DistillRelevanceReranker.java:312-334 | the loop sums max(tf, 0) over the documents whose norm exceeds 0.001 and divides by the sum of all norms |
| `Distill.MleModel` | src/main/java/io/anserini/rerank/lib/DistillRelevanceReranker.java:100-103 | the MLE model's key set is exactly the vocabulary |
| `Distill.ComputeMleModel` | src/main/java/io/anserini/rerank/lib/DistillRelevanceReranker.java:92-103 | the loop gives each vocabulary term its MLE weight, over norm = sum(norms) |
| `Distill.MleSumBounds` | src/main/java/io/anserini/rerank/lib/DistillRelevanceReranker.java:312-334 | the sum over the first n documents lies between 0 and the sum of their norms |
| `Distill.MleModelBounds` | src/main/java/io/anserini/rerank/lib/DistillRelevanceReranker.java:89-110 | every MLE weight lies in [0, 1] |
| `Distill.MleSingleDocument` | src/main/java/io/anserini/rerank/lib/DistillRelevanceReranker.java:89-110 | for a single document the MLE model is that document scaled to unit L1 norm |
| `Distill.CollectionModel` | src/main/java/io/anserini/rerank/lib/DistillRelevanceReranker.java:155-162 | the collection model's key set is exactly the given terms |
| `Distill.CollectionModelBounds` | src/main/java/io/anserini/rerank/lib/DistillRelevanceReranker.java:155-162 | every collection weight lies in [0, 1], and is positive for a term that occurs in the collection |
| `Distill.CollectionWeightBounds` | src/main/java/io/anserini/rerank/lib/DistillRelevanceReranker.java:158 | totalTermFreq / sumTotalTermFreq lies in [0, 1], and is positive when the term occurs |
| `Distill.ComputeDocLogLikelihood` | src/main/java/io/anserini/rerank/lib/DistillRelevanceReranker.java:167-170 | the inner loop sums tf(w) * ln(0.7 * rel + 0.2 * nonrel + 0.1 * coll) over the document's terms |
| `Distill.ComputeLogLikelihood` | src/main/java/io/anserini/rerank/lib/DistillRelevanceReranker.java:164-173 | the outer loop sums the documents' log-likelihoods |
| `Distill.MixtureAtMostOne` | src/main/java/io/anserini/rerank/lib/DistillRelevanceReranker.java:168 | a mixture of three weights in [0, 1] is at most 1 |
| `Distill.DocLogLikelihoodNonPositive` | src/main/java/io/anserini/rerank/lib/DistillRelevanceReranker.java:167-170 | with non-negative tf and models in [0, 1] giving a positive mixture, a document's log-likelihood is at most 0 |
| `Distill.LogLikelihoodNonPositive` | src/main/java/io/anserini/rerank/lib/DistillRelevanceReranker.java:164-173 | under the same conditions the log-likelihood is at most 0 |
| `Distill.ComputeTN` | src/main/java/io/anserini/rerank/lib/DistillRelevanceReranker.java:201-206 | the responsibility is 0 when pRel is 0 |
| `Distill.TNInUnitInterval` | src/main/java/io/anserini/rerank/lib/DistillRelevanceReranker.java:201-206 | with mixture weights summing to at most 1, non-negative probabilities and a positive denominator, the responsibility lies in [0, 1] |
| `Distill.ComputeNextPrel` | src/main/java/io/anserini/rerank/lib/DistillRelevanceReranker.java:208-215 | the loop's sum of tf * tn equals tn times the term's total tf over all given vectors |
| `Distill.TfTotalNonNegative` | src/main/java/io/anserini/rerank/lib/DistillRelevanceReranker.java:208-215 | for non-negative vectors the total tf is non-negative |
| `Distill.ReadyDefined` | src/main/java/io/anserini/rerank/lib/DistillRelevanceReranker.java:187 | from a ready state no responsibility divides by zero |
| `Distill.EMStepKeepsReady` | src/main/java/io/anserini/rerank/lib/DistillRelevanceReranker.java:186-192 | one round keeps the keys, stays ready, and yields a probability distribution or an all-zero vector |
| `Distill.StepPartialAdd` | src/main/java/io/anserini/rerank/lib/DistillRelevanceReranker.java:186-190 | updating one more term sets its weight to the new estimate and nothing else |
| `Distill.StepPartialUntouched` | src/main/java/io/anserini/rerank/lib/DistillRelevanceReranker.java:186-190 | a term not yet updated in the round keeps its weight from the round's start |
| `Distill.UpdateTerm` | src/main/java/io/anserini/rerank/lib/DistillRelevanceReranker.java:187-189 | one step of the round replaces the term's weight by tn times its total tf |
| `Distill.EMRound` | src/main/java/io/anserini/rerank/lib/DistillRelevanceReranker.java:186-190 | the round updates every term of the model, each from its weight at the round's start |
| `Distill.EMIterateNext` | src/main/java/io/anserini/rerank/lib/DistillRelevanceReranker.java:185-195 | round n + 1 is one EM step applied to round n, and that step is defined |
| `Distill.EMIterate` | src/main/java/io/anserini/rerank/lib/DistillRelevanceReranker.java:185-195 | iterating keeps the relevance model's key set, stays ready, and after at least one round gives a probability distribution or all zero |
| `Distill.EM` | src/main/java/io/anserini/rerank/lib/DistillRelevanceReranker.java:175-199 | the result is a copy of relModel after exactly 100 rounds, each renormalised |
| `Distill.CopyVector` | src/main/java/io/anserini/rerank/lib/DistillRelevanceReranker.java:178-182 | the copy loop ends with exactly the weights of relModel |
| `Distill.EMShape` | src/main/java/io/anserini/rerank/lib/DistillRelevanceReranker.java:178-195 | after 100 rounds the key set is relModel's and the result is a probability distribution or all zero |
| `Distill.DistillCacheCovers` | src/main/java/io/anserini/rerank/lib/DistillRelevanceReranker.java:142-143 | after both estimateModel calls every model term is cached with the statistics a lookup gives |
| `Distill.DistillReady` | src/main/java/io/anserini/rerank/lib/DistillRelevanceReranker.java:142-151 | the inputs make the collection model and every EM round defined |
| `Distill.DistillModelShape` | src/main/java/io/anserini/rerank/lib/DistillRelevanceReranker.java:145-151 | the distilled model has exactly the relevant documents' vocabulary and is a probability distribution or all zero |
| `Distill.DistillRelevanceReranker.constructor` | src/main/java/io/anserini/rerank/lib/DistillRelevanceReranker.java:69-71 | the settings are stored, with an empty cache and no collection statistics |
| `Distill.DistillRelevanceReranker.SetRelDocs` | src/main/java/io/anserini/rerank/lib/DistillRelevanceReranker.java:56-58 | only relDocs changes |
| `Distill.DistillRelevanceReranker.SetNonRelDocs` | src/main/java/io/anserini/rerank/lib/DistillRelevanceReranker.java:60-62 | only nonRelDocs changes |
| `Distill.DistillRelevanceReranker.SetIndexSearcher` | src/main/java/io/anserini/rerank/lib/DistillRelevanceReranker.java:64-66 | only the searcher changes |
| `Distill.DistillRelevanceReranker.AddTermStatistic` | src/main/java/io/anserini/rerank/lib/DistillRelevanceReranker.java:73-87 | the cache becomes CacheAfter of the old cache; nothing else changes |
| `Distill.DistillRelevanceReranker.EstimateModel` | src/main/java/io/anserini/rerank/lib/DistillRelevanceReranker.java:89-110 | a failed collectionStatistics call gives the empty vector; otherwise the vocabulary is cached and the result is the MLE model |
| `Distill.DistillRelevanceReranker.EstimateCollectionModel` | src/main/java/io/anserini/rerank/lib/DistillRelevanceReranker.java:155-162 | the loop gives each term totalTermFreq / sumTotalTermFreq from the cache |
| `Distill.WeighCollection` | src/main/java/io/anserini/rerank/lib/DistillRelevanceReranker.java:157-160 | the loop gives every term of the vocabulary, and no other, its share totalTermFreq / sumTotalTermFreq |
| `Distill.DistillRelevanceReranker.EstimateDistillModel` | src/main/java/io/anserini/rerank/lib/DistillRelevanceReranker.java:117-153 | a failed collectionStatistics call gives the empty vector; otherwise the MLE models of both selections, with the collection model, go through 100 EM rounds over all the documents |
| `LLFactory.Create` | src/main/java/io/anserini/rerank/rf/factories/LLFeedbackModelFactory.java:12-27 | as written: a model exists exactly when every argument array has a first element; fbTerms takes rf.fbDocs[0] and fbDocs takes rf.fbTerms[0]; the weight, the five flags and c come from their own arguments |
| `LLFactory.CreateCorrected` | src/main/java/io/anserini/rerank/rf/factories/LLFeedbackModelFactory.java:12-27 | the corrected factory also yields a model exactly when every argument array has a first element |
| `LLFactory.CreateCorrectedMapsByName` | src/main/java/io/anserini/rerank/rf/factories/LLFeedbackModelFactory.java:14-26 | the corrected factory puts each count in the slot of its own name and keeps c, the weight and all five flags (outputQuery, removeStopWord, prunDocTerm, pruneModel, normalize) |
| `LLFactory.CreateMatchesCorrectedIff` | src/main/java/io/anserini/rerank/rf/factories/LLFeedbackModelFactory.java:14-16 | the factory as written and the corrected one agree exactly when the two counts are equal |
| `LLFactory.CreateSwapsCounts` | src/main/java/io/anserini/rerank/rf/factories/LLFeedbackModelFactory.java:14-16 | asked for 10 documents and 20 terms, the factory as written builds a model that keeps 10 terms and reads 20 documents |

## Left out

- Lucene I/O is not modelled: term vectors, docFreq, numDocs, term contexts, termStatistics and collectionStatistics are input values, and a call that throws is an absent entry or `None`.
- Analyser tokenisation is not modelled: a query or document text is given as its token list.
- Searching and rescoring are not modelled: `rerank`, `getFieldValues`, `reformulateQuery`, `RFReranker` and `DistillQueryRescorer` only drive external search.
- The thin factories `RFRerankerkFactory`, `FeedbackModelFactory` and `RerankerFactory` are not modelled; they only construct objects.
- Logging, `printStackTrace`, the outputQuery diagnostics of `buildFeedbackQuery` and the `logs` array of `EM` are not modelled; none of them affects a result.
- Floating point is not modelled. Weights are exact reals, so 0.1f, 0.2f, 0.85f, 0.007f and 0.001f are exact rationals. float/double casts do not round. NaN and Infinity are not produced, and `dropNaN` is the identity.
- The regular expression [a-z0-9]+ is a character predicate.
- FeedbackQueries.BuildFeedbackQuery: the clause limit is Lucene's default `maxClauseCount` of 1024. The global `BooleanQuery.setMaxClauseCount` can change it, and that setting is not modelled. The Lucene version is not part of this model; the limit is taken to be checked by `BooleanQuery.Builder.add`, as in Lucene 6 to 8.
- The dead `if (false) throw` branch of `buildDocVectors(String[])` is dropped.
- `Rm3Reranker` is not part of this model. The rerankers inherit from it the `getQfv` that `estimateDistillModel` calls, whose result is never used, so that call is left out. They also inherit `sum(norms)`, modelled as the plain sum of the norms.
- `estimate(query, ScoredDocuments, reader, tweetsearch)` is modelled for RM3 only, by `Rm3.EstimateScored`. For the log-logistic model it fails in the same way on a null slot, because its estimate also calls getVocab first.
- The `estimateRocchioModel(String[], …)` and `estimateDistillModel(String[], …)` overloads are not modelled. Each only composes `buildDocVectors(String[])`, which has no null slots, with the estimate; `Rm3.EstimateContents` shows that composition for RM3.
- The parsing by `Integer.parseInt` and `Float.parseFloat` in `LLFeedbackModelFactory.create` is not modelled: the arguments arrive already parsed.
- The searcher field starts null in Java until `setIndexSearcher`; in the model it is a constructor argument.
- A document id outside the index is not modelled. Lucene rejects it with an unchecked exception, which `buildDocVectors` does not catch; the model's failed term-vector read is only the IOException that it does catch.
- Rocchio.RocchioReranker.constructor: relDocs and nonRelDocs start as empty selections, where Java leaves them null until `setRelDocs` and `setNonRelDocs`. In Java an estimate before the setters throws at RocchioReranker.java:104, after `getQfv` has already cached the query terms; the model estimates from the empty selections.
- Distill.DistillRelevanceReranker.constructor: relDocs and nonRelDocs start as empty selections, where Java leaves them null until the setters. In Java an estimate before the setters throws at DistillRelevanceReranker.java:129; the model estimates from the empty selections.
- `FeatureVector` itself is not part of this model. Its operations are specified by the contracts the estimators rely on. The tie-break of `pruneToSize` between equal weights is taken as the term in ascending order. `pruneToThreshold`, `pruneToSize` and `scaleToUnitL1Norm` are taken to update the vector in place, because their results are discarded at RocchioReranker.java:121, LogLogisticRelevanceModel.java:56 and 60, LogLogisticRelevanceModelReranker.java:59 and DistillRelevanceReranker.java:192. Rocchio's 0.0001 threshold only has an effect under that reading. `scaleToUnitL1Norm` of a vector whose L1 norm is 0 is taken to leave it unchanged, where Java's float division 0/0 would give NaN weights; so "a probability distribution or all zero" in the model table means an L1 norm of 1, or a vector all of whose weights are 0.
- FeedbackModels.BuildDocVectorsScored: requires fbDocs >= 0 and one id per document, because Java throws (negative array size, index out of bounds) otherwise.
- FeedbackModels.BuildDocVectorsContents: requires fbDocs >= 0, because a negative size throws in Java.
- FeedbackModels.SelectVectors: requires every index to name a document, because Java throws ArrayIndexOutOfBoundsException otherwise.
- Rm3.Estimate: requires at least one score per document, because Java indexes scores in parallel with the documents.
- LogLogistic.Estimate: requires every vocabulary term's statistics once fetched, with non-zero docCount and docFreq. A missing entry is a NullPointerException in Java and a zero divisor an infinite weight; neither is modelled.
- LogLogisticReranker.LogLogisticRelevanceModelReranker.EstimateRelevanceModel: requires non-zero docCount and docFreq once every term is fetched, for the same reason.
- Rocchio.RocchioReranker.GetQfv: requires collection statistics and a lookup for every query term, because otherwise Java dereferences null.
- Rocchio.RocchioReranker.EstimateModel: requires every vocabulary term to be fetchable with a non-zero docFreq, because a missing entry dereferences null and a zero docFreq gives an infinite idf.
- Rocchio.RocchioReranker.EstimateRocchioModel: requires valid relDocs and nonRelDocs indexes and the lookups of GetQfv and EstimateModel, for the same reasons.
- Distill.DistillRelevanceReranker.EstimateModel: requires a non-zero sum of norms when the vocabulary is not empty, because Java would divide by zero into NaN or Infinity.
- Distill.DistillRelevanceReranker.EstimateCollectionModel: requires collection statistics, a cached entry for every term and a non-zero sumTotalTermFreq, because otherwise Java dereferences null or divides by zero.
- Distill.DistillRelevanceReranker.EstimateDistillModel: requires valid indexes, non-negative documents, defined MLE and collection divisions, and a positive totalTermFreq for every relevant term. Anything else leads to a null dereference, or a 0/0 in computeTN, which Java turns into NaN.
- Distill.ComputeTN: requires a non-zero denominator, because Java's float division would give NaN or Infinity.
- A lemma "the final RM3 weights are the interpolation of the query and feedback weights term by term" is not stated separately. `Rm3.Estimate` is tied to `Rm3Model`, and `FeatureVectors.Interpolate` states the term-wise weights.

## Findings

| source | as written | input that shows it | evidently intended | confidence | as-written member | corrected member |
|---|---|---|---|---|---|---|
| src/main/java/io/anserini/rerank/rf/factories/LLFeedbackModelFactory.java:14-16 | the config's first argument, the fbTerms slot, receives rf__fbDocs[0], and its second, the fbDocs slot, receives rf_fbTerms[0] | rf.fbDocs = [10], rf.fbTerms = [20] builds a model that keeps 10 terms from 20 documents | each count goes to the slot of its own name: 20 terms from 10 documents | not executed | LLFactory.CreateSwapsCounts | LLFactory.CreateCorrectedMapsByName |
| src/main/java/io/anserini/rerank/rf/FeedbackModel.java:293-296 | when getTermVector throws, the slot is set to null, although the comment says an empty feature vector is meant; the estimate's getVocab then dereferences the null slot | a scored document among the first fbDocs whose `getTermVector` throws an IOException leaves a null slot, which makes the estimate throw a NullPointerException | the failed document counts as an empty vector: norm 0, skipped by the norm guard, and the estimate still returns | not executed | Rm3.FailedTermVectorFailsEstimate | Rm3.FailedDocumentCountsForNothing |
