/** The asynchronous pipeline (`data_processor_async.py`): the article and
    media URLs for every descriptor of the catalog, then one pass over the
    responses that normalises each decoded article and builds it (with the
    retry of the asynchronous `create_article`), then one poll.

    The network is a parameter: a total function from a URL to what
    `await response.json()` gives for the response to it, either the decoded
    value or `ContentTypeError` (a body that is not declared as JSON). */
module AsyncPipeline {
  import opened Values
  import opened Normalize
  import opened Articles
  import opened Catalog

  /** What `await response.json()` gives. */
  datatype Body = Json(value: Value) | NotJson

  type Responses = string -> Body

  /** The pair of requests `get_article_tasks` issues for one descriptor:
      its article URL and its media URL, both from `descriptor["id"]`. */
  function TaskOf(descriptor: Value): (r: Result<(string, string)>)
    ensures IdOf(descriptor).Err? ==> r == Err(IdOf(descriptor).error)
  {
    match IdOf(descriptor)
    case Err(e) => Err(e)
    case Ok(id) =>
      match AsyncArticleUrl(id)
      case Err(e) => Err(e)
      case Ok(article) => Ok((article, AsyncMediaUrl(id).value))
  }

  /** The request pairs for a list of descriptors, in order, or the
      exception raised at the first descriptor whose URLs cannot be formed. */
  function TasksOf(descriptors: seq<Value>): (r: Result<seq<(string, string)>>)
    ensures r.Ok? ==> |r.value| == |descriptors|
  {
    if descriptors == [] then Ok([])
    else
      var last := |descriptors| - 1;
      match TasksOf(descriptors[..last])
      case Err(e) => Err(e)
      case Ok(tasks) =>
        match TaskOf(descriptors[last])
        case Err(e) => Err(e)
        case Ok(task) => Ok(tasks + [task])
  }

  /** `get_article_tasks` on the decoded catalog: `range(len(article_data))`
      and `article_data[index]` visit what a loop over it would. */
  function TasksFor(catalog: Value): (r: Result<seq<(string, string)>>)
    ensures Iterate(catalog).Err? ==> r == Err(Iterate(catalog).error)
    ensures Iterate(catalog).Ok? ==> r == TasksOf(Iterate(catalog).value)
  {
    match Iterate(catalog)
    case Err(e) => Err(e)
    case Ok(descriptors) => TasksOf(descriptors)
  }

  /** The request pairs are formed exactly when every descriptor is a dict
      with an `id` that formats as text; then the `index`-th pair is the
      article base and the media base, each followed by that descriptor's
      identifier and `.json`. */
  lemma {:induction false} TasksShape(descriptors: seq<Value>)
    ensures TasksOf(descriptors).Ok? <==> forall i :: 0 <= i < |descriptors| ==> TaskOf(descriptors[i]).Ok?
    ensures TasksOf(descriptors).Ok? ==>
              forall i :: 0 <= i < |descriptors| ==>
                var id := descriptors[i].fields["id"];
                IdText(id).Ok? &&
                TasksOf(descriptors).value[i] == (ArticleBase + IdText(id).value + ".json",
                                                  MediaBase + IdText(id).value + ".json")
    decreases |descriptors|
  {
    if descriptors != [] {
      var last := |descriptors| - 1;
      var front := descriptors[..last];
      TasksShape(front);
      assert forall i :: 0 <= i < last ==> front[i] == descriptors[i];
      if TaskOf(descriptors[last]).Ok? {
        TaskShape(descriptors[last]);
      }
    }
  }

  /** The request pair of one descriptor: the two bases, each with the
      descriptor's identifier and `.json`. */
  lemma TaskShape(descriptor: Value)
    requires TaskOf(descriptor).Ok?
    ensures descriptor.Dict? && "id" in descriptor.fields
    ensures var id := descriptor.fields["id"];
            IdText(id).Ok? &&
            TaskOf(descriptor).value == (ArticleBase + IdText(id).value + ".json", MediaBase + IdText(id).value + ".json")
  {
    var id := IdOf(descriptor).value;
    ArticleUrlsAgree(id);
    MediaUrlsAgree(id);
  }

  /** Once a descriptor's URLs cannot be formed, the descriptors after it
      change nothing: its exception is the one raised. */
  lemma {:induction false} TasksStop(descriptors: seq<Value>, i: nat)
    requires i < |descriptors| && TasksOf(descriptors[..i]).Ok? && TaskOf(descriptors[i]).Err?
    ensures TasksOf(descriptors) == Err(TaskOf(descriptors[i]).error)
    decreases |descriptors|
  {
    var n := |descriptors|;
    var prefix := descriptors[..n - 1];
    if n > i + 1 {
      assert prefix[..i] == descriptors[..i];
      assert prefix[i] == descriptors[i];
      TasksStop(prefix, i);
      assert TasksOf(prefix).Err?;
    } else {
      assert prefix == descriptors[..i];
      assert descriptors[n - 1] == descriptors[i];
    }
  }

  /** `get_article_tasks(session)` after the catalog is decoded: the loop
      over the descriptors that forms each pair of URLs, one request each.
      Returns the pairs in order, or the exception that ends the loop. */
  method GetArticleTasks(catalog: Value) returns (tasks: seq<(string, string)>, raised: Option<Error>)
    ensures var r := TasksFor(catalog);
            raised == (if r.Err? then Some(r.error) else None) &&
            (r.Ok? ==> tasks == r.value)
  {
    var items := Iterate(catalog);
    if items.Err? {
      return [], Some(items.error);
    }
    var descriptors := items.value;
    tasks := [];
    var index := 0;
    while index < |descriptors|
      invariant index <= |descriptors|
      invariant TasksOf(descriptors[..index]) == Ok(tasks)
      decreases |descriptors| - index
    {
      var id := IdOf(descriptors[index]);
      if id.Err? {
        TasksStop(descriptors, index);
        return [], Some(id.error);
      }
      var articleUrl := AsyncArticleUrl(id.value);
      if articleUrl.Err? {
        TasksStop(descriptors, index);
        return [], Some(articleUrl.error);
      }
      var imagesUrl := AsyncMediaUrl(id.value);
      tasks := tasks + [(articleUrl.value, imagesUrl.value)];
      assert descriptors[..index + 1][..index] == descriptors[..index];
      index := index + 1;
    }
    assert descriptors[..index] == descriptors;
    return tasks, None;
  }

  /** The media list a task splices in: the decoded media, or `[]` when the
      media body is not JSON. (The loop also sets `sections` to None in that
      case, but overwrites it before the record is built.) */
  function MediaOf(image: Body): (r: Value)
    ensures image.NotJson? ==> r == List([])
  {
    match image
    case Json(media) => media
    case NotJson => List([])
  }

  /** What the loop body hands to `create_article` for a decoded article
      and its media body, or the exception raised on the way: the article's
      own `id` gives its `url`, then the record is normalised. */
  function PrepareArticle(article: Value, image: Body, now: DateTime): (r: Result<map<string, Value>>)
    ensures IdOf(article).Err? ==> r == Err(IdOf(article).error)
    ensures r.Ok? ==> article.Dict? && "id" in article.fields && IdText(article.fields["id"]).Ok?
  {
    match IdOf(article)
    case Err(e) => Err(e)
    case Ok(id) =>
      match AsyncArticleUrl(id)
      case Err(e) => Err(e)
      case Ok(url) => NormalizeRecordOf(article.fields["url" := Str(url)], MediaOf(image), now)
  }

  /** The record built from a decoded article: its `url` is the article
      base, the article's own identifier and `.json`; it is the normalised
      article with the media spliced in; and when the media body is not
      JSON, its sections are the stripped sections alone. */
  lemma PrepareArticleShape(article: Value, image: Body, now: DateTime)
    requires PrepareArticle(article, image, now).Ok?
    ensures var url := ArticleBase + IdText(article.fields["id"]).value + ".json";
            var record := PrepareArticle(article, image, now).value;
            "url" in record && record["url"] == Str(url) &&
            NormalizeRecordOf(article.fields["url" := Str(url)], MediaOf(image), now) == Ok(record)
    ensures var record := PrepareArticle(article, image, now).value;
            image.NotJson? ==>
              "sections" in article.fields && "sections" in record &&
              RemoveHtmlTagsOf(article.fields["sections"]) == Ok(record["sections"])
  {
    var id := article.fields["id"];
    ArticleUrlsAgree(id);
    var url := AsyncArticleUrl(id).value;
    var d := article.fields["url" := Str(url)];
    assert PrepareArticle(article, image, now) == NormalizeRecordOf(d, MediaOf(image), now);
    var record := PrepareArticle(article, image, now).value;
    assert "url" in record && record["url"] == Str(url) by {
      NormalizeRecordKeeps(d, MediaOf(image), now, "url");
    }
    if image.NotJson? {
      assert "sections" in article.fields && "sections" in record &&
             RemoveHtmlTagsOf(article.fields["sections"]) == Ok(record["sections"]) by {
        NormalizeRecordShape(d, MediaOf(image), now);
      }
    }
  }

  /** The rest of the loop body once the decoded article is in
      `articles_result[task]`: set `url`, `clean_dates`, pop and strip the
      sections, splice the media and `create_article` with its retry. The
      record is updated in place. */
  method ProcessTask(acc: Accumulators, article: Value, image: Body, build: Schema, now: DateTime)
    returns (raised: Option<Error>)
    modifies acc
    ensures var r := PrepareArticle(article, image, now);
            raised == (if r.Err? then Some(r.error) else None) &&
            (r.Ok? ==> acc.validArticles == old(acc.validArticles) + BuiltOf([RetryOf(r.value, build).0]) &&
                       acc.errors == old(acc.errors) + RejectedOf([RetryOf(r.value, build).0])) &&
            (r.Err? ==> acc.validArticles == old(acc.validArticles) && acc.errors == old(acc.errors))
  {
    var id := IdOf(article);
    if id.Err? {
      return Some(id.error);
    }
    var url := AsyncArticleUrl(id.value);
    if url.Err? {
      return Some(url.error);
    }
    assert PrepareArticle(article, image, now) ==
           NormalizeRecordOf(article.fields["url" := Str(url.value)], MediaOf(image), now);
    var data := new MutableDict(article.fields);
    data.Set("url", Str(url.value));
    raised := BuildRecord(acc, data, MediaOf(image), build, now);
  }

  /** From `clean_dates` to `create_article`: the record normalised in
      place, then built with the retry. */
  method BuildRecord(acc: Accumulators, data: MutableDict, media: Value, build: Schema, now: DateTime)
    returns (raised: Option<Error>)
    modifies acc, data
    ensures var r := NormalizeRecordOf(old(data.entries), media, now);
            raised == (if r.Err? then Some(r.error) else None) &&
            (r.Ok? ==> acc.validArticles == old(acc.validArticles) + BuiltOf([RetryOf(r.value, build).0]) &&
                       acc.errors == old(acc.errors) + RejectedOf([RetryOf(r.value, build).0])) &&
            (r.Err? ==> acc.validArticles == old(acc.validArticles) && acc.errors == old(acc.errors))
  {
    raised := NormalizeRecord(data, media, now);
    if raised.Some? {
      return;
    }
    var o := acc.CreateArticleWithRetry(data, build);
    assert [o][..0] == [];
  }

  /** How one task of the loop turns out, independently of the others: its
      article body is not JSON (the task is skipped), or preparing it raises,
      or it yields a record to build. */
  datatype Step = Skipped | Failed(error: Error) | Prepared(record: map<string, Value>)

  function StepOf(task: (string, string), respond: Responses, now: DateTime): (r: Step)
    ensures r.Skipped? <==> respond(task.0).NotJson?
  {
    match respond(task.0)
    case NotJson => Skipped
    case Json(article) =>
      match PrepareArticle(article, respond(task.1), now)
      case Err(e) => Failed(e)
      case Ok(record) => Prepared(record)
  }

  function StepsOf(tasks: seq<(string, string)>, respond: Responses, now: DateTime): (r: seq<Step>)
    ensures |r| == |tasks|
  {
    if tasks == [] then []
    else
      var last := |tasks| - 1;
      StepsOf(tasks[..last], respond, now) + [StepOf(tasks[last], respond, now)]
  }

  lemma {:induction false} StepsAt(tasks: seq<(string, string)>, i: nat, respond: Responses, now: DateTime)
    requires i < |tasks|
    ensures StepsOf(tasks, respond, now)[i] == StepOf(tasks[i], respond, now)
    decreases |tasks|
  {
    var last := |tasks| - 1;
    if i < last {
      StepsAt(tasks[..last], i, respond, now);
    }
  }

  /** The state of the loop as written: the outcomes recorded, the
      exception that ended it, and whether `articles_result` has fallen
      behind the task index (a skipped task appends nothing to it). */
  datatype Run = Run(outcomes: seq<Outcome>, raised: Option<Error>, short: bool)

  /** One task of the loop as written. Once a task has been skipped,
      `articles_result[task]` indexes past the end of the list, so the next
      task whose article decodes raises `IndexError`. */
  function Next(previous: Run, step: Step, build: Schema): (r: Run)
    ensures previous.raised.Some? ==> r == previous
    ensures |previous.outcomes| <= |r.outcomes| <= |previous.outcomes| + 1
    ensures previous.short ==> r.short
    ensures r.outcomes != previous.outcomes ==> step.Prepared? && !previous.short
  {
    if previous.raised.Some? then previous
    else
      match step
      case Skipped => previous.(short := true)
      case Failed(e) => previous.(raised := Some(if previous.short then IndexError else e))
      case Prepared(record) =>
        if previous.short then previous.(raised := Some(IndexError))
        else previous.(outcomes := previous.outcomes + [RetryOf(record, build).0])
  }

  /** The loop of `process_data()` as written, over the tasks in order. */
  function RunAsWritten(steps: seq<Step>, build: Schema): (r: Run)
    ensures |r.outcomes| <= |steps|
  {
    if steps == [] then Run([], None, false)
    else
      var last := |steps| - 1;
      Next(RunAsWritten(steps[..last], build), steps[last], build)
  }

  lemma RunAsWrittenStep(steps: seq<Step>, i: nat, build: Schema)
    requires i < |steps|
    ensures RunAsWritten(steps[..i + 1], build) == Next(RunAsWritten(steps[..i], build), steps[i], build)
  {
    assert steps[..i + 1][..i] == steps[..i];
    assert steps[..i + 1][i] == steps[i];
  }

  /** Once a task raises, the tasks after it are never reached. */
  lemma {:induction false} RunAsWrittenStops(steps: seq<Step>, i: nat, build: Schema)
    requires i <= |steps| && RunAsWritten(steps[..i], build).raised.Some?
    ensures RunAsWritten(steps, build) == RunAsWritten(steps[..i], build)
    decreases |steps|
  {
    var n := |steps|;
    if n > i {
      assert steps[..n - 1][..i] == steps[..i];
      RunAsWrittenStops(steps[..n - 1], i, build);
    } else {
      assert steps[..i] == steps;
    }
  }

  /** The loop body for the `task`-th pair of URLs, stated against the steps
      of all the tasks: a skipped task leaves `articles_result` as it is;
      otherwise the decoded article is appended and, when the list has
      fallen behind, indexing it raises `IndexError`. */
  method TaskAt(acc: Accumulators, tasks: seq<(string, string)>, ghost steps: seq<Step>, task: nat,
                articlesResult: seq<Value>, respond: Responses, build: Schema, now: DateTime)
    returns (appended: seq<Value>, raised: Option<Error>)
    requires task < |tasks| == |steps| && |articlesResult| <= task
    requires steps[task] == StepOf(tasks[task], respond, now)
    modifies acc
    ensures var s := steps[task];
            |appended| == |articlesResult| + (if s.Skipped? then 0 else 1) &&
            raised == (if s.Skipped? then None
                       else if |articlesResult| < task then Some(IndexError)
                       else if s.Failed? then Some(s.error)
                       else None)
    ensures var s := steps[task];
            s.Prepared? && |articlesResult| == task ==>
              acc.validArticles == old(acc.validArticles) + BuiltOf([RetryOf(s.record, build).0]) &&
              acc.errors == old(acc.errors) + RejectedOf([RetryOf(s.record, build).0])
    ensures var s := steps[task];
            !(s.Prepared? && |articlesResult| == task) ==>
              acc.validArticles == old(acc.validArticles) && acc.errors == old(acc.errors)
  {
    var body := respond(tasks[task].0);
    if body.NotJson? {
      return articlesResult, None;
    }
    appended := articlesResult + [body.value];
    if task >= |appended| {
      return appended, Some(IndexError);
    }
    raised := ProcessTask(acc, appended[task], respond(tasks[task].1), build, now);
  }

  /** `get_updates(current_data)` for one poll, with the catalog fetched
      then given as `latest`. It never processes anything: when the lists
      differ it calls `process_data(new_data)`, which takes no argument, so
      the call raises `TypeError` (unless iterating `latest` raised first). */
  function GetUpdatesOf(current: Value, latest: Value): (r: Option<Error>)
    ensures r.None? <==> current == latest
    ensures current.List? && latest.List? && current != latest ==> r == Some(TypeError)
  {
    if current == latest then None
    else if !current.List? then Some(NotModelled)
    else
      match Pending(current.items, latest)
      case None => None
      case Some(Err(e)) => Some(e)
      case Some(Ok(_)) => Some(TypeError)
  }

  /** One task of the loop as written, from what it does case by case:
      the exception it raises, whether `articles_result` falls behind, and
      the two lists each extended by the outcome it records, if any. */
  lemma TaskAdvances(previous: Run, step: Step, build: Schema, aligned: bool, raised: Option<Error>,
                     validBase: seq<Article>, errorsBase: seq<ValidationError>,
                     validBefore: seq<Article>, errorsBefore: seq<ValidationError>,
                     validAfter: seq<Article>, errorsAfter: seq<ValidationError>)
    requires previous.raised.None? && (previous.short <==> !aligned)
    requires validBefore == validBase + BuiltOf(previous.outcomes)
    requires errorsBefore == errorsBase + RejectedOf(previous.outcomes)
    requires raised == (if step.Skipped? then None
                        else if !aligned then Some(IndexError)
                        else if step.Failed? then Some(step.error)
                        else None)
    requires step.Prepared? && aligned ==>
               validAfter == validBefore + BuiltOf([RetryOf(step.record, build).0]) &&
               errorsAfter == errorsBefore + RejectedOf([RetryOf(step.record, build).0])
    requires !(step.Prepared? && aligned) ==> validAfter == validBefore && errorsAfter == errorsBefore
    ensures var next := Next(previous, step, build);
            raised == next.raised && (next.short <==> !aligned || step.Skipped?) &&
            validAfter == validBase + BuiltOf(next.outcomes) &&
            errorsAfter == errorsBase + RejectedOf(next.outcomes)
  {
    match step
    case Skipped =>
    case Failed(_) =>
    case Prepared(record) =>
      if aligned {
        var o := RetryOf(record, build).0;
        assert Next(previous, step, build).outcomes == previous.outcomes + [o];
        RecordAll(previous.outcomes, o);
      }
  }

  /** The loop body for the `task`-th pair of URLs as one step of the loop
      as written: the exception raised, whether `articles_result` has
      fallen behind, and both lists are those of the run one task longer. */
  method RunTask(acc: Accumulators, tasks: seq<(string, string)>, ghost steps: seq<Step>, task: nat,
                 articlesResult: seq<Value>, respond: Responses, build: Schema, now: DateTime,
                 ghost validBase: seq<Article>, ghost errorsBase: seq<ValidationError>)
    returns (appended: seq<Value>, raised: Option<Error>)
    requires steps == StepsOf(tasks, respond, now) && task < |tasks| && |articlesResult| <= task
    requires var run := RunAsWritten(steps[..task], build);
             run.raised.None? && (run.short <==> |articlesResult| < task) &&
             acc.validArticles == validBase + BuiltOf(run.outcomes) &&
             acc.errors == errorsBase + RejectedOf(run.outcomes)
    modifies acc
    ensures var run := RunAsWritten(steps[..task + 1], build);
            raised == run.raised && |appended| <= task + 1 &&
            (run.raised.None? ==> (run.short <==> |appended| < task + 1)) &&
            acc.validArticles == validBase + BuiltOf(run.outcomes) &&
            acc.errors == errorsBase + RejectedOf(run.outcomes)
  {
    StepsAt(tasks, task, respond, now);
    RunAsWrittenStep(steps, task, build);
    ghost var validBefore, errorsBefore := acc.validArticles, acc.errors;
    appended, raised := TaskAt(acc, tasks, steps, task, articlesResult, respond, build, now);
    TaskAdvances(RunAsWritten(steps[..task], build), steps[task], build, |articlesResult| == task, raised,
                 validBase, errorsBase, validBefore, errorsBefore, acc.validArticles, acc.errors);
  }

  /** The loop of `process_data()` over the tasks, with its own
      `articles_result` list: each built or rejected article lands in one
      of the two lists, in task order, until a task raises. */
  method RunTasks(acc: Accumulators, tasks: seq<(string, string)>, ghost steps: seq<Step>,
                  respond: Responses, build: Schema, now: DateTime)
    returns (raised: Option<Error>)
    requires steps == StepsOf(tasks, respond, now)
    modifies acc
    ensures var run := RunAsWritten(steps, build);
            raised == run.raised &&
            acc.validArticles == old(acc.validArticles) + BuiltOf(run.outcomes) &&
            acc.errors == old(acc.errors) + RejectedOf(run.outcomes)
  {
    var articlesResult: seq<Value> := [];
    var task := 0;
    raised := None;
    assert steps[..0] == [];
    while task < |tasks| && raised.None?
      invariant task <= |tasks| && |articlesResult| <= task
      invariant var run := RunAsWritten(steps[..task], build);
                raised == run.raised &&
                (run.raised.None? ==> (run.short <==> |articlesResult| < task)) &&
                acc.validArticles == old(acc.validArticles) + BuiltOf(run.outcomes) &&
                acc.errors == old(acc.errors) + RejectedOf(run.outcomes)
      decreases |tasks| - task
    {
      articlesResult, raised := RunTask(acc, tasks, steps, task, articlesResult, respond, build, now,
                                        old(acc.validArticles), old(acc.errors));
      task := task + 1;
    }
    if raised.Some? {
      RunAsWrittenStops(steps, task, build);
    } else {
      assert steps[..task] == steps;
    }
  }

  /** `process_data()`: the tasks for the catalog, the loop over the
      responses, then the poll against the catalog fetched next (`latest`). */
  method ProcessData(acc: Accumulators, catalog: Value, respond: Responses, latest: Value,
                     build: Schema, now: DateTime)
    returns (raised: Option<Error>)
    modifies acc
    ensures TasksFor(catalog).Err? ==>
              raised == Some(TasksFor(catalog).error) &&
              acc.validArticles == old(acc.validArticles) && acc.errors == old(acc.errors)
    ensures TasksFor(catalog).Ok? ==>
              var run := RunAsWritten(StepsOf(TasksFor(catalog).value, respond, now), build);
              raised == (if run.raised.Some? then run.raised else GetUpdatesOf(catalog, latest)) &&
              acc.validArticles == old(acc.validArticles) + BuiltOf(run.outcomes) &&
              acc.errors == old(acc.errors) + RejectedOf(run.outcomes)
  {
    var tasks;
    tasks, raised := GetArticleTasks(catalog);
    if raised.Some? {
      return;
    }
    raised := RunTasks(acc, tasks, StepsOf(tasks, respond, now), respond, build, now);
    if raised.None? {
      raised := GetUpdatesOf(catalog, latest);
    }
  }

  /** The loop as evidently intended: a skipped task is simply passed over
      and every other task is handled on its own. */
  function NextIntended(previous: (seq<Outcome>, Option<Error>), step: Step, build: Schema): (r: (seq<Outcome>, Option<Error>))
    ensures previous.1.Some? || step.Skipped? ==> r == previous
    ensures |previous.0| <= |r.0| <= |previous.0| + 1
    ensures r.0 != previous.0 ==> step.Prepared?
  {
    if previous.1.Some? then previous
    else
      match step
      case Skipped => previous
      case Failed(e) => (previous.0, Some(e))
      case Prepared(record) => (previous.0 + [RetryOf(record, build).0], None)
  }

  function RunIntended(steps: seq<Step>, build: Schema): (r: (seq<Outcome>, Option<Error>))
    ensures |r.0| <= |steps|
  {
    if steps == [] then ([], None)
    else
      var last := |steps| - 1;
      NextIntended(RunIntended(steps[..last], build), steps[last], build)
  }

  lemma RunIntendedStep(steps: seq<Step>, i: nat, build: Schema)
    requires i < |steps|
    ensures RunIntended(steps[..i + 1], build) == NextIntended(RunIntended(steps[..i], build), steps[i], build)
  {
    assert steps[..i + 1][..i] == steps[..i];
    assert steps[..i + 1][i] == steps[i];
  }

  /** Once a task raises, the intended loop reaches no later task. */
  lemma {:induction false} RunIntendedStops(steps: seq<Step>, i: nat, build: Schema)
    requires i <= |steps| && RunIntended(steps[..i], build).1.Some?
    ensures RunIntended(steps, build) == RunIntended(steps[..i], build)
    decreases |steps|
  {
    var n := |steps|;
    if n > i {
      assert steps[..n - 1][..i] == steps[..i];
      RunIntendedStops(steps[..n - 1], i, build);
    } else {
      assert steps[..i] == steps;
    }
  }

  /** The loop body with the index corrected: the article just appended,
      `articles_result[-1]`, is the one processed, so a skipped task only
      leaves `articles_result` one shorter. */
  method TaskIntendedAt(acc: Accumulators, tasks: seq<(string, string)>, ghost steps: seq<Step>, task: nat,
                        articlesResult: seq<Value>, respond: Responses, build: Schema, now: DateTime)
    returns (appended: seq<Value>, raised: Option<Error>)
    requires task < |tasks| == |steps|
    requires steps[task] == StepOf(tasks[task], respond, now)
    modifies acc
    ensures var s := steps[task];
            |appended| == |articlesResult| + (if s.Skipped? then 0 else 1) &&
            raised == (if s.Failed? then Some(s.error) else None)
    ensures var s := steps[task];
            s.Prepared? ==>
              acc.validArticles == old(acc.validArticles) + BuiltOf([RetryOf(s.record, build).0]) &&
              acc.errors == old(acc.errors) + RejectedOf([RetryOf(s.record, build).0])
    ensures !steps[task].Prepared? ==> acc.validArticles == old(acc.validArticles) && acc.errors == old(acc.errors)
  {
    var body := respond(tasks[task].0);
    if body.NotJson? {
      return articlesResult, None;
    }
    appended := articlesResult + [body.value];
    raised := ProcessTask(acc, appended[|appended| - 1], respond(tasks[task].1), build, now);
  }

  /** One task of the corrected loop, from what it does case by case. */
  lemma TaskAdvancesIntended(previous: (seq<Outcome>, Option<Error>), step: Step, build: Schema, raised: Option<Error>,
                             validBase: seq<Article>, errorsBase: seq<ValidationError>,
                             validBefore: seq<Article>, errorsBefore: seq<ValidationError>,
                             validAfter: seq<Article>, errorsAfter: seq<ValidationError>)
    requires previous.1.None?
    requires validBefore == validBase + BuiltOf(previous.0)
    requires errorsBefore == errorsBase + RejectedOf(previous.0)
    requires raised == (if step.Failed? then Some(step.error) else None)
    requires step.Prepared? ==>
               validAfter == validBefore + BuiltOf([RetryOf(step.record, build).0]) &&
               errorsAfter == errorsBefore + RejectedOf([RetryOf(step.record, build).0])
    requires !step.Prepared? ==> validAfter == validBefore && errorsAfter == errorsBefore
    ensures var next := NextIntended(previous, step, build);
            raised == next.1 &&
            validAfter == validBase + BuiltOf(next.0) &&
            errorsAfter == errorsBase + RejectedOf(next.0)
  {
    match step
    case Skipped =>
    case Failed(_) =>
    case Prepared(record) =>
      var o := RetryOf(record, build).0;
      assert NextIntended(previous, step, build).0 == previous.0 + [o];
      RecordAll(previous.0, o);
  }

  /** The corrected loop body for the `task`-th pair of URLs as one step of
      the intended loop. */
  method RunTaskIntended(acc: Accumulators, tasks: seq<(string, string)>, ghost steps: seq<Step>, task: nat,
                         articlesResult: seq<Value>, respond: Responses, build: Schema, now: DateTime,
                         ghost validBase: seq<Article>, ghost errorsBase: seq<ValidationError>)
    returns (appended: seq<Value>, raised: Option<Error>)
    requires steps == StepsOf(tasks, respond, now) && task < |tasks|
    requires var run := RunIntended(steps[..task], build);
             run.1.None? &&
             acc.validArticles == validBase + BuiltOf(run.0) &&
             acc.errors == errorsBase + RejectedOf(run.0)
    modifies acc
    ensures var run := RunIntended(steps[..task + 1], build);
            raised == run.1 &&
            acc.validArticles == validBase + BuiltOf(run.0) &&
            acc.errors == errorsBase + RejectedOf(run.0)
  {
    StepsAt(tasks, task, respond, now);
    RunIntendedStep(steps, task, build);
    ghost var validBefore, errorsBefore := acc.validArticles, acc.errors;
    appended, raised := TaskIntendedAt(acc, tasks, steps, task, articlesResult, respond, build, now);
    TaskAdvancesIntended(RunIntended(steps[..task], build), steps[task], build, raised,
                         validBase, errorsBase, validBefore, errorsBefore, acc.validArticles, acc.errors);
  }

  /** The corrected loop of `process_data()`: skipped tasks are passed
      over, and every other task is built or raises on its own. */
  method RunTasksIntended(acc: Accumulators, tasks: seq<(string, string)>, ghost steps: seq<Step>,
                          respond: Responses, build: Schema, now: DateTime)
    returns (raised: Option<Error>)
    requires steps == StepsOf(tasks, respond, now)
    modifies acc
    ensures var run := RunIntended(steps, build);
            raised == run.1 &&
            acc.validArticles == old(acc.validArticles) + BuiltOf(run.0) &&
            acc.errors == old(acc.errors) + RejectedOf(run.0)
  {
    var articlesResult: seq<Value> := [];
    var task := 0;
    raised := None;
    assert steps[..0] == [];
    while task < |tasks| && raised.None?
      invariant task <= |tasks|
      invariant var run := RunIntended(steps[..task], build);
                raised == run.1 &&
                acc.validArticles == old(acc.validArticles) + BuiltOf(run.0) &&
                acc.errors == old(acc.errors) + RejectedOf(run.0)
      decreases |tasks| - task
    {
      articlesResult, raised := RunTaskIntended(acc, tasks, steps, task, articlesResult, respond, build, now,
                                                old(acc.validArticles), old(acc.errors));
      task := task + 1;
    }
    if raised.Some? {
      RunIntendedStops(steps, task, build);
    } else {
      assert steps[..task] == steps;
    }
  }

  /** A skipped task changes nothing in the intended loop: the run is the
      run of the other tasks. */
  lemma {:induction false} SkipIsAbsent(a: seq<Step>, b: seq<Step>, build: Schema)
    ensures RunIntended(a + [Skipped] + b, build) == RunIntended(a + b, build)
    decreases |b|
  {
    if b == [] {
      assert a + [Skipped] + b == a + [Skipped];
      assert (a + [Skipped])[..|a|] == a;
      assert a + b == a;
    } else {
      var last := |b| - 1;
      var s := a + [Skipped] + b;
      var t := a + b;
      SkipIsAbsent(a, b[..last], build);
      assert s[..|s| - 1] == a + [Skipped] + b[..last];
      assert s[|s| - 1] == b[last];
      assert t[..|t| - 1] == a + b[..last];
      assert t[|t| - 1] == b[last];
    }
  }

  /** Every skipped task comes after every task that was not skipped. */
  predicate TrailingSkips(steps: seq<Step>)
  {
    forall i, j :: 0 <= i < j < |steps| && steps[i].Skipped? ==> steps[j].Skipped?
  }

  /** As long as the loop as written has raised nothing, `articles_result`
      has fallen behind exactly when some task was skipped. */
  lemma {:induction false} ShortWhenSkipped(steps: seq<Step>, build: Schema)
    requires RunAsWritten(steps, build).raised.None?
    ensures RunAsWritten(steps, build).short <==> exists i :: 0 <= i < |steps| && steps[i].Skipped?
    decreases |steps|
  {
    if steps != [] {
      var last := |steps| - 1;
      var front := steps[..last];
      ShortWhenSkipped(front, build);
      assert forall i :: 0 <= i < last ==> front[i] == steps[i];
      if steps[last].Skipped? {
        assert exists i :: 0 <= i < |steps| && steps[i].Skipped?;
      }
    }
  }

  /** The loop as written agrees with the intended loop when the skipped
      tasks all come last, and it runs to the end only when they do: a skip
      followed by any task whose article decodes raises `IndexError`. */
  lemma {:induction false} AsWrittenAgrees(steps: seq<Step>, build: Schema)
    ensures TrailingSkips(steps) ==>
              (RunAsWritten(steps, build).outcomes, RunAsWritten(steps, build).raised) == RunIntended(steps, build)
    ensures RunAsWritten(steps, build).raised.None? ==> TrailingSkips(steps)
    decreases |steps|
  {
    if steps != [] {
      var last := |steps| - 1;
      var front := steps[..last];
      AsWrittenAgrees(front, build);
      assert forall i :: 0 <= i < last ==> front[i] == steps[i];
      var previous := RunAsWritten(front, build);
      if previous.raised.None? {
        ShortWhenSkipped(front, build);
        if TrailingSkips(steps) && !steps[last].Skipped? {
          assert !exists i :: 0 <= i < last && front[i].Skipped?;
        }
        if RunAsWritten(steps, build).raised.None? && !steps[last].Skipped? {
          assert !previous.short;
        }
      }
    }
  }

  /** The discrepancy on the smallest input: the first article is not JSON
      and the second is. As written, the loop raises `IndexError` at the
      second task and builds nothing; as intended, the second article is
      built. */
  lemma AsWrittenSample(record: map<string, Value>, build: Schema)
    ensures RunAsWritten([Skipped, Prepared(record)], build) == Run([], Some(IndexError), true)
    ensures RunIntended([Skipped, Prepared(record)], build) == ([RetryOf(record, build).0], None)
  {
    var steps := [Skipped, Prepared(record)];
    assert steps[..1] == [Skipped] && steps[..1][..0] == [];
    assert RunAsWritten(steps[..1], build) == Run([], None, true);
    assert RunAsWritten(steps, build) == Next(RunAsWritten(steps[..1], build), steps[1], build);
    assert RunIntended(steps[..1], build) == ([], None);
    assert RunIntended(steps, build) == NextIntended(RunIntended(steps[..1], build), steps[1], build);
    assert [] + [RetryOf(record, build).0] == [RetryOf(record, build).0];
  }
}
