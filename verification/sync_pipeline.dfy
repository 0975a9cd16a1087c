/** The synchronous pipeline (`data_processor.py`): for each descriptor of
    the catalog, fetch the article and its media, normalise the record and
    build the article; and the poll that processes new descriptors.

    Fetching is a parameter: a total function from a URL to the decoded
    value `get_data` returns for it (a list `[]` for a failed request, None
    for a body that is not JSON). */
module SyncPipeline {
  import opened Values
  import opened Normalize
  import opened Articles
  import opened Catalog

  type Fetch = string -> Value

  /** The record the loop body hands to `create_article` for one
      descriptor, or the exception that escapes on the way. */
  function PrepareOf(descriptor: Value, fetch: Fetch, now: DateTime): (r: Result<map<string, Value>>)
    ensures IdOf(descriptor).Err? ==> r == Err(IdOf(descriptor).error)
    ensures r.Ok? ==> IdOf(descriptor).Ok? && IdText(IdOf(descriptor).value).Ok?
    ensures r.Ok? ==> fetch(SyncArticleUrl(IdOf(descriptor).value).value).Dict?
    ensures IdOf(descriptor).Ok? && IdText(IdOf(descriptor).value).Ok? ==>
              (!fetch(SyncArticleUrl(IdOf(descriptor).value).value).Dict? ==> r == Err(TypeError))
  {
    match IdOf(descriptor)
    case Err(e) => Err(e)
    case Ok(id) =>
      match SyncArticleUrl(id)
      case Err(e) => Err(e)
      case Ok(url) =>
        var article := fetch(url);
        var images := fetch(SyncMediaUrl(id).value);
        if !article.Dict? then Err(TypeError)
        else NormalizeRecordOf(article.fields["url" := Str(url)], images, now)
  }

  /** The record built for a descriptor: its `url` is the article base,
      the identifier and `.json`, and it is the normalised article fetched
      from there, with the media fetched from the media base, the same
      identifier and `.json`. */
  lemma PrepareShape(descriptor: Value, fetch: Fetch, now: DateTime)
    requires PrepareOf(descriptor, fetch, now).Ok?
    ensures var id := IdOf(descriptor).value;
            var url := ArticleBase + IdText(id).value + ".json";
            var media := MediaBase + IdText(id).value + ".json";
            var record := PrepareOf(descriptor, fetch, now).value;
            SyncArticleUrl(id) == Ok(url) && SyncMediaUrl(id) == Ok(media) &&
            fetch(url).Dict? && "url" in record && record["url"] == Str(url) &&
            NormalizeRecordOf(fetch(url).fields["url" := Str(url)], fetch(media), now) == Ok(record)
  {
    var id := IdOf(descriptor).value;
    ArticleUrlsAgree(id);
    MediaUrlsAgree(id);
    var url := SyncArticleUrl(id).value;
    NormalizeRecordShape(fetch(url).fields["url" := Str(url)], fetch(SyncMediaUrl(id).value), now);
  }

  /** One pass of the `process_data` loop body on a descriptor, updating the
      fetched record in place and recording the outcome. */
  method ProcessItem(acc: Accumulators, descriptor: Value, fetch: Fetch, build: Schema, now: DateTime)
    returns (raised: Option<Error>)
    modifies acc
    ensures var r := PrepareOf(descriptor, fetch, now);
            raised == (if r.Err? then Some(r.error) else None) &&
            (r.Ok? ==> acc.validArticles == old(acc.validArticles) + BuiltOf([build(r.value)]) &&
                       acc.errors == old(acc.errors) + RejectedOf([build(r.value)])) &&
            (r.Err? ==> acc.validArticles == old(acc.validArticles) && acc.errors == old(acc.errors))
  {
    var id := IdOf(descriptor);
    if id.Err? {
      return Some(id.error);
    }
    var articleUrl := SyncArticleUrl(id.value);
    if articleUrl.Err? {
      return Some(articleUrl.error);
    }
    var imagesUrl := SyncMediaUrl(id.value);
    var article := fetch(articleUrl.value);
    var images := fetch(imagesUrl.value);
    if !article.Dict? {
      return Some(TypeError);
    }
    assert PrepareOf(descriptor, fetch, now) ==
           NormalizeRecordOf(article.fields["url" := Str(articleUrl.value)], images, now);
    var data := new MutableDict(article.fields);
    data.Set("url", Str(articleUrl.value));
    raised := BuildRecord(acc, data, images, build, now);
  }

  /** The loop body from `clean_dates` to `create_article`, updating the
      record in place. */
  method BuildRecord(acc: Accumulators, data: MutableDict, images: Value, build: Schema, now: DateTime)
    returns (raised: Option<Error>)
    modifies acc, data
    ensures var r := NormalizeRecordOf(old(data.entries), images, now);
            raised == (if r.Err? then Some(r.error) else None) &&
            (r.Ok? ==> acc.validArticles == old(acc.validArticles) + BuiltOf([build(r.value)]) &&
                       acc.errors == old(acc.errors) + RejectedOf([build(r.value)])) &&
            (r.Err? ==> acc.validArticles == old(acc.validArticles) && acc.errors == old(acc.errors))
  {
    raised := NormalizeRecord(data, images, now);
    if raised.Some? {
      return;
    }
    var o := acc.CreateArticle(data.entries, build);
    assert [o][..0] == [];
  }

  /** The per-descriptor steps applied to every descriptor of a list: what
      each would hand to `create_article`, or the exception it would raise. */
  function PreparedAll(descriptors: seq<Value>, fetch: Fetch, now: DateTime): (r: seq<Result<map<string, Value>>>)
    ensures |r| == |descriptors|
  {
    if descriptors == [] then []
    else
      var last := |descriptors| - 1;
      PreparedAll(descriptors[..last], fetch, now) + [PrepareOf(descriptors[last], fetch, now)]
  }

  lemma {:induction false} PreparedAt(descriptors: seq<Value>, i: nat, fetch: Fetch, now: DateTime)
    requires i < |descriptors|
    ensures PreparedAll(descriptors, fetch, now)[i] == PrepareOf(descriptors[i], fetch, now)
    decreases |descriptors|
  {
    var last := |descriptors| - 1;
    if i < last {
      PreparedAt(descriptors[..last], i, fetch, now);
    }
  }

  /** The loop body for the `i`-th descriptor, stated against the steps
      applied to the whole list. */
  method ProcessAt(acc: Accumulators, descriptors: seq<Value>, i: nat, fetch: Fetch, build: Schema, now: DateTime)
    returns (raised: Option<Error>)
    requires i < |descriptors|
    modifies acc
    ensures var r := PreparedAll(descriptors, fetch, now)[i];
            raised == (if r.Err? then Some(r.error) else None) &&
            (r.Ok? ==> acc.validArticles == old(acc.validArticles) + BuiltOf([build(r.value)]) &&
                       acc.errors == old(acc.errors) + RejectedOf([build(r.value)])) &&
            (r.Err? ==> acc.validArticles == old(acc.validArticles) && acc.errors == old(acc.errors))
  {
    PreparedAt(descriptors, i, fetch, now);
    raised := ProcessItem(acc, descriptors[i], fetch, build, now);
  }

  /** What `process_data(article_data)` does, given what the steps for each
      descriptor produce: the outcomes recorded, in order, and the exception
      that ended the loop early, if one did. A descriptor after the one that
      raised is never reached. */
  function RunOf(prepared: seq<Result<map<string, Value>>>, build: Schema): (r: (seq<Outcome>, Option<Error>))
    ensures |r.0| <= |prepared|
    ensures r.1.None? ==> |r.0| == |prepared|
  {
    if prepared == [] then ([], None)
    else
      var last := |prepared| - 1;
      var previous := RunOf(prepared[..last], build);
      if previous.1.Some? then previous
      else
        match prepared[last]
        case Err(e) => (previous.0, Some(e))
        case Ok(record) => (previous.0 + [build(record)], None)
  }

  /** Descriptors are processed in list order, one `create_article` call
      each; the loop runs to the end unless a descriptor raises, and then it
      stops at that descriptor with its exception. */
  lemma {:induction false} RunInOrder(prepared: seq<Result<map<string, Value>>>, build: Schema)
    ensures var r := RunOf(prepared, build);
            (forall i :: 0 <= i < |r.0| ==> prepared[i].Ok? && r.0[i] == build(prepared[i].value)) &&
            (r.1.Some? ==> |r.0| < |prepared| && prepared[|r.0|] == Err(r.1.value))
    decreases |prepared|
  {
    if prepared != [] {
      var last := |prepared| - 1;
      RunInOrder(prepared[..last], build);
      assert forall i :: 0 <= i < last ==> prepared[..last][i] == prepared[i];
    }
  }

  /** One more descriptor processed without an exception adds its outcome. */
  lemma RunStep(prepared: seq<Result<map<string, Value>>>, i: nat, build: Schema)
    requires i < |prepared|
    requires RunOf(prepared[..i], build).1.None? && prepared[i].Ok?
    ensures RunOf(prepared[..i + 1], build) == (RunOf(prepared[..i], build).0 + [build(prepared[i].value)], None)
  {
    assert prepared[..i + 1][..i] == prepared[..i];
    assert prepared[..i + 1][i] == prepared[i];
  }

  /** Once a descriptor raises, the outcome of the whole run is the outcome
      of the run up to it. */
  lemma {:induction false} RunStops(prepared: seq<Result<map<string, Value>>>, i: nat, build: Schema)
    requires i < |prepared|
    requires RunOf(prepared[..i], build).1.None? && prepared[i].Err?
    ensures RunOf(prepared, build) == (RunOf(prepared[..i], build).0, Some(prepared[i].error))
    decreases |prepared|
  {
    var n := |prepared|;
    if n > i + 1 {
      assert prepared[..n - 1][..i] == prepared[..i];
      assert prepared[..n - 1][i] == prepared[i];
      RunStops(prepared[..n - 1], i, build);
    } else {
      assert prepared[..i] == prepared[..n - 1];
    }
  }

  /** Once the run has raised, the descriptors after that change nothing. */
  lemma {:induction false} RunHalted(prepared: seq<Result<map<string, Value>>>, i: nat, build: Schema)
    requires i <= |prepared| && RunOf(prepared[..i], build).1.Some?
    ensures RunOf(prepared, build) == RunOf(prepared[..i], build)
    decreases |prepared|
  {
    var n := |prepared|;
    if n > i {
      assert prepared[..n - 1][..i] == prepared[..i];
      RunHalted(prepared[..n - 1], i, build);
    } else {
      assert prepared[..i] == prepared;
    }
  }

  /** The loop body for the `i`-th descriptor turns the run of the
      descriptors before it into the run up to and including it. */
  method RunDescriptor(acc: Accumulators, descriptors: seq<Value>, ghost prepared: seq<Result<map<string, Value>>>,
                       i: nat, fetch: Fetch, build: Schema, now: DateTime,
                       ghost validBase: seq<Article>, ghost errorsBase: seq<ValidationError>)
    returns (raised: Option<Error>)
    requires prepared == PreparedAll(descriptors, fetch, now) && i < |descriptors|
    requires var run := RunOf(prepared[..i], build);
             run.1.None? &&
             acc.validArticles == validBase + BuiltOf(run.0) &&
             acc.errors == errorsBase + RejectedOf(run.0)
    modifies acc
    ensures var run := RunOf(prepared[..i + 1], build);
            raised == run.1 &&
            acc.validArticles == validBase + BuiltOf(run.0) &&
            acc.errors == errorsBase + RejectedOf(run.0)
  {
    ghost var validBefore, errorsBefore := acc.validArticles, acc.errors;
    raised := ProcessAt(acc, descriptors, i, fetch, build, now);
    DescriptorAdvances(prepared, i, build, raised, validBase, errorsBase,
                       validBefore, errorsBefore, acc.validArticles, acc.errors);
  }

  /** The bookkeeping of one loop pass: what the pass raises and appends is
      one step of `RunOf`. */
  lemma DescriptorAdvances(prepared: seq<Result<map<string, Value>>>, i: nat, build: Schema, raised: Option<Error>,
                           validBase: seq<Article>, errorsBase: seq<ValidationError>,
                           validBefore: seq<Article>, errorsBefore: seq<ValidationError>,
                           validAfter: seq<Article>, errorsAfter: seq<ValidationError>)
    requires i < |prepared|
    requires var run := RunOf(prepared[..i], build);
             run.1.None? &&
             validBefore == validBase + BuiltOf(run.0) &&
             errorsBefore == errorsBase + RejectedOf(run.0)
    requires var r := prepared[i];
             raised == (if r.Err? then Some(r.error) else None) &&
             (r.Ok? ==> validAfter == validBefore + BuiltOf([build(r.value)]) &&
                        errorsAfter == errorsBefore + RejectedOf([build(r.value)])) &&
             (r.Err? ==> validAfter == validBefore && errorsAfter == errorsBefore)
    ensures var run := RunOf(prepared[..i + 1], build);
            raised == run.1 &&
            validAfter == validBase + BuiltOf(run.0) &&
            errorsAfter == errorsBase + RejectedOf(run.0)
  {
    var before := RunOf(prepared[..i], build).0;
    match prepared[i]
    case Err(_) =>
      assert prepared[..i + 1][..i] == prepared[..i];
      RunStops(prepared[..i + 1], i, build);
    case Ok(record) =>
      RunStep(prepared, i, build);
      RecordAll(before, build(record));
  }

  /** `process_data(article_data)`: the loop over whatever `article_data`
      holds. */
  method ProcessData(acc: Accumulators, catalog: Value, fetch: Fetch, build: Schema, now: DateTime)
    returns (raised: Option<Error>)
    modifies acc
    ensures Iterate(catalog).Err? ==>
              raised == Some(Iterate(catalog).error) &&
              acc.validArticles == old(acc.validArticles) && acc.errors == old(acc.errors)
    ensures Iterate(catalog).Ok? ==>
              var run := RunOf(PreparedAll(Iterate(catalog).value, fetch, now), build);
              raised == run.1 &&
              acc.validArticles == old(acc.validArticles) + BuiltOf(run.0) &&
              acc.errors == old(acc.errors) + RejectedOf(run.0)
  {
    var items := Iterate(catalog);
    if items.Err? {
      return Some(items.error);
    }
    var descriptors := items.value;
    ghost var prepared := PreparedAll(descriptors, fetch, now);
    var i := 0;
    raised := None;
    assert prepared[..0] == [];
    while i < |descriptors| && raised.None?
      invariant i <= |descriptors|
      invariant var run := RunOf(prepared[..i], build);
                raised == run.1 &&
                acc.validArticles == old(acc.validArticles) + BuiltOf(run.0) &&
                acc.errors == old(acc.errors) + RejectedOf(run.0)
      decreases |descriptors| - i
    {
      raised := RunDescriptor(acc, descriptors, prepared, i, fetch, build, now,
                              old(acc.validArticles), old(acc.errors));
      i := i + 1;
    }
    if raised.Some? {
      RunHalted(prepared, i, build);
    } else {
      assert prepared[..i] == prepared;
    }
  }

  /** `get_updates(urls, current_data)` for one poll, with the catalog just
      fetched given as `latest`: nothing happens when it equals the known
      list; otherwise the descriptors not already known are processed. */
  method GetUpdates(acc: Accumulators, current: seq<Value>, latest: Value, fetch: Fetch, build: Schema, now: DateTime)
    returns (raised: Option<Error>)
    modifies acc
    ensures latest == List(current) ==>
              raised.None? && acc.validArticles == old(acc.validArticles) && acc.errors == old(acc.errors)
    ensures latest == Null ==>
              raised == Some(TypeError) && acc.validArticles == old(acc.validArticles) && acc.errors == old(acc.errors)
    ensures latest != List(current) && Iterate(latest).Err? ==>
              raised == Some(Iterate(latest).error) &&
              acc.validArticles == old(acc.validArticles) && acc.errors == old(acc.errors)
    ensures latest != List(current) && Iterate(latest).Ok? ==>
              var run := RunOf(PreparedAll(NewItems(Iterate(latest).value, current), fetch, now), build);
              raised == run.1 &&
              acc.validArticles == old(acc.validArticles) + BuiltOf(run.0) &&
              acc.errors == old(acc.errors) + RejectedOf(run.0)
    ensures latest.List? && latest != List(current) ==>
              var run := RunOf(PreparedAll(NewItems(latest.items, current), fetch, now), build);
              raised == run.1 &&
              acc.validArticles == old(acc.validArticles) + BuiltOf(run.0) &&
              acc.errors == old(acc.errors) + RejectedOf(run.0)
  {
    match Pending(current, latest)
    case None =>
      return None;
    case Some(Err(e)) =>
      return Some(e);
    case Some(Ok(difference)) =>
      raised := ProcessData(acc, List(difference), fetch, build, now);
  }
}
