/**
 * buildFeedbackQuery: the expanded query is a disjunction of boosted term
 * queries, one per feedback term, optionally restricted by the context's filter.
 */
module FeedbackQueries {
  import opened Wrappers
  import opened FeatureVectors

  datatype Occur = Should | Must | Filter

  datatype Query =
    | TermQuery(field: string, term: string)
    | BoostQuery(query: Query, boost: real)
    | BooleanQuery(clauses: seq<BooleanClause>)

  datatype BooleanClause = BooleanClause(query: Query, occur: Occur)

  /** The clause added for term t: SHOULD, a TermQuery on field, boosted by t's weight. */
  function TermClause(field: string, model: FeatureVector, t: string): BooleanClause
    requires t in model
  {
    BooleanClause(BoostQuery(TermQuery(field, t), model[t]), Should)
  }

  /** The term a clause of the feedback query is about. */
  function ClauseTerm(c: BooleanClause): string
  {
    if c.query.BoostQuery? && c.query.query.TermQuery? then c.query.query.term else ""
  }

  /** q holds one SHOULD clause per model term, each term exactly once, in some order. */
  ghost predicate IsFeedbackQuery(q: Query, field: string, model: FeatureVector)
  {
    && q.BooleanQuery?
    && |q.clauses| == |model|
    && (forall i | 0 <= i < |q.clauses| ::
          ClauseTerm(q.clauses[i]) in model && q.clauses[i] == TermClause(field, model, ClauseTerm(q.clauses[i])))
    && (forall i, j | 0 <= i < j < |q.clauses| :: ClauseTerm(q.clauses[i]) != ClauseTerm(q.clauses[j]))
    && (forall t | t in model :: exists i | 0 <= i < |q.clauses| :: ClauseTerm(q.clauses[i]) == t)
  }

  /**
   * The number of clauses a BooleanQuery.Builder accepts: Lucene's default
   * maxClauseCount. Adding a clause to a builder that already holds this many
   * throws BooleanQuery.TooManyClauses.
   */
  const MaxClauseCount: nat := 1024

  /**
   * buildFeedbackQuery(model): iterate the model's terms, adding one SHOULD
   * clause each. The builder throws TooManyClauses (None) when the model has
   * more terms than it accepts clauses; nothing catches it.
   */
  method BuildFeedbackQuery(field: string, model: FeatureVector) returns (q: Option<Query>)
    ensures q.Some? <==> |model| <= MaxClauseCount
    ensures q.Some? ==> IsFeedbackQuery(q.value, field, model)
  {
    var clauses: seq<BooleanClause> := [];
    var rest := model.Keys;
    while rest != {}
      invariant rest <= model.Keys
      invariant |clauses| + |rest| == |model|
      invariant |clauses| <= MaxClauseCount
      invariant forall i | 0 <= i < |clauses| ::
                  ClauseTerm(clauses[i]) in model && ClauseTerm(clauses[i]) !in rest &&
                  clauses[i] == TermClause(field, model, ClauseTerm(clauses[i]))
      invariant forall i, j | 0 <= i < j < |clauses| :: ClauseTerm(clauses[i]) != ClauseTerm(clauses[j])
      invariant forall t | t in model && t !in rest :: exists i | 0 <= i < |clauses| :: ClauseTerm(clauses[i]) == t
      decreases |rest|
    {
      var term :| term in rest;
      var prob := Weight(model, term);
      if |clauses| == MaxClauseCount {
        return None;
      }
      var before := clauses;
      clauses := clauses + [BooleanClause(BoostQuery(TermQuery(field, term), prob), Should)];
      rest := rest - {term};
      assert ClauseTerm(clauses[|clauses| - 1]) == term;
      forall t | t in model && t !in rest
        ensures exists i | 0 <= i < |clauses| :: ClauseTerm(clauses[i]) == t
      {
        if t != term {
          var i :| 0 <= i < |before| && ClauseTerm(before[i]) == t;
          assert clauses[i] == before[i];
        }
      }
    }
    q := Some(BooleanQuery(clauses));
  }

  /**
   * buildFeedbackQuery(context, model): with a filter, FILTER filter and MUST
   * the feedback query. It fails exactly when building the feedback query does.
   */
  method BuildFeedbackQueryInContext(field: string, filter: Option<Query>, model: FeatureVector)
    returns (q: Option<Query>)
    ensures q.Some? <==> |model| <= MaxClauseCount
    ensures q.Some? && filter.None? ==> IsFeedbackQuery(q.value, field, model)
    ensures q.Some? && filter.Some? ==>
              && q.value.BooleanQuery? && |q.value.clauses| == 2
              && q.value.clauses[0] == BooleanClause(filter.value, Filter)
              && q.value.clauses[1].occur == Must
              && IsFeedbackQuery(q.value.clauses[1].query, field, model)
  {
    var feedbackQuery := BuildFeedbackQuery(field, model);
    if feedbackQuery.None? {
      return None;
    }
    q := feedbackQuery;
    if filter.Some? {
      q := Some(BooleanQuery([BooleanClause(filter.value, Filter), BooleanClause(feedbackQuery.value, Must)]));
    }
  }
}
