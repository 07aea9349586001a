/** FeedbackModelConfig: eight settings fixed at construction, read back through getters. */
module FeedbackConfig {

  datatype FeedbackModelConfig = FeedbackModelConfig(
    fbTerms: int,
    fbDocs: int,
    originalQueryWeight: real,
    outputQuery: bool,
    removeStopWord: bool,
    prunDocTerm: bool,
    pruneModel: bool,
    normalize: bool)
  {
    function GetFbTerms(): int { fbTerms }
    function GetFbDocs(): int { fbDocs }
    function GetOriginalQueryWeight(): real { originalQueryWeight }
    function IsOutputQuery(): bool { outputQuery }
    function IsRemoveStopWord(): bool { removeStopWord }
    function IsPrunDocTerm(): bool { prunDocTerm }
    function IsPruneModel(): bool { pruneModel }
    function IsNormalize(): bool { normalize }
  }

  /** The constructor: each getter returns the argument in the same position. */
  function NewFeedbackModelConfig(fbTerms: int, fbDocs: int, originalQueryWeight: real,
                                  outputQuery: bool, removeStopWord: bool, prunDocTerm: bool,
                                  pruneModel: bool, normalize: bool): (c: FeedbackModelConfig)
    ensures c.GetFbTerms() == fbTerms && c.GetFbDocs() == fbDocs
    ensures c.GetOriginalQueryWeight() == originalQueryWeight
    ensures c.IsOutputQuery() == outputQuery && c.IsRemoveStopWord() == removeStopWord
    ensures c.IsPrunDocTerm() == prunDocTerm && c.IsPruneModel() == pruneModel
    ensures c.IsNormalize() == normalize
  {
    FeedbackModelConfig(fbTerms, fbDocs, originalQueryWeight, outputQuery, removeStopWord,
                        prunDocTerm, pruneModel, normalize)
  }

  /** A config is determined by what its getters return. */
  lemma ConfigDeterminedByGetters(a: FeedbackModelConfig, b: FeedbackModelConfig)
    requires a.GetFbTerms() == b.GetFbTerms() && a.GetFbDocs() == b.GetFbDocs()
    requires a.GetOriginalQueryWeight() == b.GetOriginalQueryWeight()
    requires a.IsOutputQuery() == b.IsOutputQuery() && a.IsRemoveStopWord() == b.IsRemoveStopWord()
    requires a.IsPrunDocTerm() == b.IsPrunDocTerm() && a.IsPruneModel() == b.IsPruneModel()
    requires a.IsNormalize() == b.IsNormalize()
    ensures a == b
  {
  }
}
