/**
 * LLFeedbackModelFactory.create: builds a FeedbackModelConfig from the search
 * arguments and wraps it in a log-logistic model with the given c. Each
 * argument arrives as an array whose first element is read; an empty array
 * throws, which the model reports as None.
 */
module LLFactory {
  import opened Wrappers
  import opened FeedbackConfig
  import opened FeedbackModels
  import opened LogLogistic

  /** The search arguments the factory reads, already parsed from their string form. */
  datatype SearchArgs = SearchArgs(
    rfFbDocs: seq<int>,
    rfFbTerms: seq<int>,
    rfOriginalQueryWeight: seq<real>,
    rfOutputQuery: bool,
    rfStopword: bool,
    rfPruneDocTerm: bool,
    rfPruneModel: bool,
    rfNormalize: bool,
    llC: seq<real>)

  /** Every array the factory indexes has a first element. */
  predicate ArgsPresent(args: SearchArgs)
  {
    |args.rfFbDocs| > 0 && |args.rfFbTerms| > 0 && |args.rfOriginalQueryWeight| > 0 && |args.llC| > 0
  }

  /**
   * create as written: the first constructor argument, the fbTerms slot, is
   * given the fbDocs argument, and the second, the fbDocs slot, the fbTerms
   * argument.
   */
  function Create(field: string, args: SearchArgs): (r: Option<LogLogisticRelevanceModel>)
    ensures r.Some? <==> ArgsPresent(args)
    ensures r.Some? ==>
              && r.value.c == args.llC[0]
              && r.value.base.field == field
              && r.value.base.config.GetFbTerms() == args.rfFbDocs[0]
              && r.value.base.config.GetFbDocs() == args.rfFbTerms[0]
              && r.value.base.config.GetOriginalQueryWeight() == args.rfOriginalQueryWeight[0]
              && r.value.base.config.IsOutputQuery() == args.rfOutputQuery
              && r.value.base.config.IsRemoveStopWord() == args.rfStopword
              && r.value.base.config.IsPrunDocTerm() == args.rfPruneDocTerm
              && r.value.base.config.IsPruneModel() == args.rfPruneModel
              && r.value.base.config.IsNormalize() == args.rfNormalize
  {
    if !ArgsPresent(args) then None
    else
      var config := NewFeedbackModelConfig(args.rfFbDocs[0], args.rfFbTerms[0], args.rfOriginalQueryWeight[0],
                                           args.rfOutputQuery, args.rfStopword, args.rfPruneDocTerm,
                                           args.rfPruneModel, args.rfNormalize);
      Some(NewLogLogisticRelevanceModel(field, args.llC[0], config))
  }

  /** create with each count in the slot its name gives. */
  function CreateCorrected(field: string, args: SearchArgs): (r: Option<LogLogisticRelevanceModel>)
    ensures r.Some? <==> ArgsPresent(args)
  {
    if !ArgsPresent(args) then None
    else
      var config := NewFeedbackModelConfig(args.rfFbTerms[0], args.rfFbDocs[0], args.rfOriginalQueryWeight[0],
                                           args.rfOutputQuery, args.rfStopword, args.rfPruneDocTerm,
                                           args.rfPruneModel, args.rfNormalize);
      Some(NewLogLogisticRelevanceModel(field, args.llC[0], config))
  }

  /**
   * The corrected factory's model caps terms at fbTerms, reads fbDocs documents,
   * and keeps c, the interpolation weight and all five flags by name.
   */
  lemma CreateCorrectedMapsByName(field: string, args: SearchArgs)
    requires ArgsPresent(args)
    ensures CreateCorrected(field, args).value.base.fbTerms == args.rfFbTerms[0]
    ensures CreateCorrected(field, args).value.base.fbDocs == args.rfFbDocs[0]
    ensures CreateCorrected(field, args).value.c == args.llC[0]
    ensures CreateCorrected(field, args).value.base.originalQueryWeight == args.rfOriginalQueryWeight[0]
    ensures CreateCorrected(field, args).value.base.outputQuery == args.rfOutputQuery
    ensures CreateCorrected(field, args).value.base.removeStopWord == args.rfStopword
    ensures CreateCorrected(field, args).value.base.prunDocTerm == args.rfPruneDocTerm
    ensures CreateCorrected(field, args).value.base.pruneModel == args.rfPruneModel
    ensures CreateCorrected(field, args).value.base.normalize == args.rfNormalize
  {
  }

  /** The two factories build the same model exactly when the two counts are equal. */
  lemma CreateMatchesCorrectedIff(field: string, args: SearchArgs)
    requires ArgsPresent(args)
    ensures Create(field, args) == CreateCorrected(field, args) <==> args.rfFbDocs[0] == args.rfFbTerms[0]
  {
    if Create(field, args) == CreateCorrected(field, args) {
      assert Create(field, args).value.base.config.GetFbTerms() == CreateCorrected(field, args).value.base.config.GetFbTerms();
    }
  }

  /**
   * With 10 feedback documents and 20 feedback terms requested, the model built
   * as written keeps 10 terms and reads 20 documents.
   */
  lemma CreateSwapsCounts(field: string)
    ensures var args := SearchArgs([10], [20], [0.5], false, true, false, true, true, [0.5]);
            Create(field, args).Some? && Create(field, args).value.base.fbTerms == 10 &&
            Create(field, args).value.base.fbDocs == 20
  {
  }
}
