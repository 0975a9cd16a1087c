/** Building articles from normalised records and keeping the two result
    lists, `valid_articles` and `errors_list`.

    The article schema itself is not part of this model: it is a parameter,
    a total function from a record (the keyword arguments the schema is
    called with) to either a built article or the validation error it
    raises. */
module Articles {
  import opened Values

  /** A validated article, as the schema builds it. */
  datatype Article = Article(fields: map<string, Value>)

  /** A rejected record's validation error: one message per failing field. */
  datatype ValidationError = ValidationError(messages: seq<string>)

  datatype Outcome = Built(article: Article) | Rejected(error: ValidationError)

  type Schema = map<string, Value> -> Outcome

  /** The articles among a run of outcomes, in order. */
  function BuiltOf(outcomes: seq<Outcome>): (r: seq<Article>)
    ensures |r| <= |outcomes|
  {
    if outcomes == [] then []
    else BuiltOf(outcomes[..|outcomes| - 1]) +
         (var o := outcomes[|outcomes| - 1]; if o.Built? then [o.article] else [])
  }

  /** The validation errors among a run of outcomes, in order. */
  function RejectedOf(outcomes: seq<Outcome>): (r: seq<ValidationError>)
    ensures |r| <= |outcomes|
  {
    if outcomes == [] then []
    else RejectedOf(outcomes[..|outcomes| - 1]) +
         (var o := outcomes[|outcomes| - 1]; if o.Rejected? then [o.error] else [])
  }

  /** Every outcome lands in exactly one of the two lists. */
  lemma {:induction false} OutcomesSplit(outcomes: seq<Outcome>)
    ensures |BuiltOf(outcomes)| + |RejectedOf(outcomes)| == |outcomes|
  {
    if outcomes != [] {
      OutcomesSplit(outcomes[..|outcomes| - 1]);
    }
  }

  /** The asynchronous `create_article`: on a validation error it sets
      `sections` to None and builds once more; the outcome it records is the
      second attempt's. Returns that outcome and the record afterwards. */
  function RetryOf(record: map<string, Value>, build: Schema): (r: (Outcome, map<string, Value>))
    // the record changes only when the first attempt failed
    ensures r.1 != record ==> build(record).Rejected?
    ensures build(record).Built? ==> r == (build(record), record)
    // a failure is reported from the retry, never from the first attempt
    ensures build(record).Rejected? ==> r.0 == build(r.1) && r.1.Keys == record.Keys + {"sections"} && r.1["sections"] == Null
    ensures build(record).Rejected? ==> forall k :: k in record && k != "sections" ==> r.1[k] == record[k]
  {
    match build(record)
    case Built(a) => (Built(a), record)
    case Rejected(_) =>
      var retried := record["sections" := Null];
      (build(retried), retried)
  }

  /** The retry never replaces an article the first attempt built, and an
      error is recorded only when both attempts were rejected. */
  lemma RetryKeepsBuilt(record: map<string, Value>, build: Schema)
    ensures build(record).Built? ==> RetryOf(record, build).0 == build(record)
    ensures RetryOf(record, build).0.Rejected? ==>
              build(record).Rejected? && build(record["sections" := Null]).Rejected?
  {
  }

  /** The two module-level result lists. */
  class Accumulators {
    var validArticles: seq<Article>
    var errors: seq<ValidationError>

    constructor ()
      ensures validArticles == [] && errors == []
    {
      validArticles := [];
      errors := [];
    }

    /** Appends a built article to `valid_articles`, a validation error to
        `errors_list`. */
    method Record(o: Outcome)
      modifies this
      ensures validArticles == old(validArticles) + BuiltOf([o])
      ensures errors == old(errors) + RejectedOf([o])
      ensures |validArticles| + |errors| == old(|validArticles| + |errors|) + 1
    {
      if o.Built? {
        validArticles := validArticles + [o.article];
      } else {
        errors := errors + [o.error];
      }
    }

    /** The synchronous `create_article(clean_article)`: one attempt, and
        exactly one of the two lists grows, by one. */
    method CreateArticle(record: map<string, Value>, build: Schema) returns (o: Outcome)
      modifies this
      ensures o == build(record)
      ensures build(record).Built? ==>
                validArticles == old(validArticles) + [build(record).article] && errors == old(errors)
      ensures build(record).Rejected? ==>
                errors == old(errors) + [build(record).error] && validArticles == old(validArticles)
    {
      o := build(record);
      Record(o);
    }

    /** The asynchronous `create_article(clean_article)`: a rejected record
        has its `sections` set to None and is built again; exactly one of
        the two lists grows, by one, with the second attempt's outcome. */
    method CreateArticleWithRetry(record: MutableDict, build: Schema) returns (o: Outcome)
      modifies this, record
      ensures (o, record.entries) == RetryOf(old(record.entries), build)
      ensures o.Built? ==> validArticles == old(validArticles) + [o.article] && errors == old(errors)
      ensures o.Rejected? ==> errors == old(errors) + [o.error] && validArticles == old(validArticles)
    {
      o := build(record.entries);
      if o.Rejected? {
        record.Set("sections", Null);
        o := build(record.entries);
      }
      Record(o);
    }
  }

  /** Recording a run of outcomes one by one leaves each list extended by
      its share of the run. */
  lemma RecordAll(outcomes: seq<Outcome>, o: Outcome)
    ensures BuiltOf(outcomes + [o]) == BuiltOf(outcomes) + BuiltOf([o])
    ensures RejectedOf(outcomes + [o]) == RejectedOf(outcomes) + RejectedOf([o])
  {
    assert (outcomes + [o])[..|outcomes|] == outcomes;
    assert [o][..0] == [];
  }
}
