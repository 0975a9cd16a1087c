# Article ingestion pipeline: a Dafny model

The repository pulls a catalog of article descriptors from object storage.
For every descriptor it fetches the article record and its media list. It then
normalises the record:

- `clean_dates` parses `pub_date`/`mod_date` into `publication_date`/`modification_date`;
- `remove_html_tags` strips HTML tags from each section's text;
- `add_media_and_image` appends the media to the section list.

Finally `create_article` builds an article from the record. A built article
lands in `valid_articles`; a validation error lands in `errors_list`. A poll
(`get_updates`) then fetches the catalog again and processes the
descriptors it has not seen.

There are two variants, and both are modelled:

- `data_processor.py` is synchronous. It fetches descriptor by descriptor, and
  its `create_article` makes a single attempt.
- `data_processor_async.py` fires all requests first and then walks the
  responses. Its `create_article` retries once with `sections` set to None.

The modules follow the program's structure:

| module | file | what it holds |
|---|---|---|
| `Values` | `values.dfy` | decoded JSON values (without floats), the Python exceptions as values, and the mutable dict and list (`MutableDict`, `MutableList`) the pipeline updates in place |
| `Decimal` | `decimal.dfy` | digit strings (`int(t)`, `str(n)`) |
| `Dates` | `dates.dfy` | `datetime.strptime` for the two date patterns |
| `Tags` | `tags.dfy` | `re.sub(r'<.+?>', '', s)` |
| `Catalog` | `catalog.dfy` | the new-descriptor filter of the poll, `descriptor["id"]`, and the four URL derivations |
| `Normalize` | `normalize.dfy` | `clean_dates`, `remove_html_tags` and `add_media_and_image`, each a method over the mutable dict or list, proved against a function |
| `Articles` | `articles.dfy` | the two result lists as a class, with both `create_article` variants; the article schema is a parameter |
| `SyncPipeline` | `sync_pipeline.dfy` | the synchronous `process_data` loop and `get_updates` |
| `AsyncPipeline` | `async_pipeline.dfy` | `get_article_tasks`, the asynchronous `process_data` loop and `get_updates` |

Inputs the code reads from outside are parameters:

- The network is a total function from a URL to what the fetch yields. In the
  synchronous module this is the value `get_data` returns. In the asynchronous
  module it is the decoded body, or `ContentTypeError` for a body that is not JSON.
- `datetime.now()` is a `DateTime` argument, one instant per batch.
- The pydantic `Article` model is an abstract `Schema`, a function from a
  record to `Built(article)` or `Rejected(error)`.

An exception that escapes is returned as an `Option<Error>`. An operation that
raises half way leaves every earlier update in place, as Python does.

Where the documented behaviour and the code differ, the model follows the code:

- A missing `pub_date` key raises `KeyError` from its `pop`
  (`data_processor_async.py:78`). A missing `mod_date` key raises `KeyError`
  from its `pop` (`data_processor_async.py:79`) when `pub_date` is falsy, and
  `TypeError` from `strptime(None, ...)` (`data_processor_async.py:75`) when
  it is truthy. No record is produced with `modification_date` absent.
- In the synchronous loop, a failed article fetch does not skip the item.
  `get_data` returns `[]` or None, and `article_data['url'] = ...` then raises
  `TypeError`, which ends the batch (`data_processor.py:101-103`).
- In the asynchronous loop, a media body that is not JSON does not skip the
  item. The media list becomes `[]` (`data_processor_async.py:214-217`).
  An article body that is not JSON skips the item, but see "## Findings".
- The asynchronous `get_updates` calls `process_data(new_data)`, but
  `process_data` takes no argument (`data_processor_async.py:151`). When the
  catalog has changed, the poll therefore raises `TypeError` and processes
  nothing. `AsyncPipeline.GetUpdatesOf` states this.

## Model

| member | source | states |
|---|---|---|
| Values.Get | data_processor_async.py:69-70 | `d.get(key, None)`: the entry when the key is there, None otherwise |
| Values.Truthy | data_processor_async.py:73 | Python truthiness: a value is false exactly when it is one of `None`, `False`, `0`, `""`, `[]` and `{}` |
| Values.Iterate | data_processor.py:95 | a `for` loop visits a list's items, or a string's one-character strings; None, booleans, numbers and datetimes raise `TypeError` |
| Values.MutableDict.Set | data_processor.py:103 | `d[key] = v` replaces that one entry and nothing else |
| Values.MutableDict.Pop | data_processor_async.py:78-79 | `d.pop(key)` returns the entry and removes exactly that key; a missing key raises `KeyError` and leaves the dict unchanged |
| Values.MutableList.Append | data_processor_async.py:165 | `l.append(v)` adds `v` at the end |
| Decimal.NatText | data_processor_async.py:38-39 | `f'{n}'` of a natural number is a digit string without leading zeros that reads back as `n` |
| Dates.ValidDateTime | data_processor_async.py:71-77 | the range checks `datetime` applies to the matched fields; a valid day is at most 31, and 29 February only in a leap year |
| Dates.Parse | data_processor_async.py:71-72 | a parse that succeeds yields a valid `datetime`; every failure is `ValueError` |
| Dates.ParseExact | data_processor_async.py:71-77 | the parser yields `dt` exactly when the text is laid out as the pattern says (four-digit year; one- or two-digit month, day, hour, minute and second in `strptime`'s ranges; a day may be a space and a digit) and the fields denote the valid timestamp `dt` |
| Dates.ParseSound | data_processor_async.py:71-72 | whatever the parser yields matches the pattern |
| Dates.ParseComplete | data_processor_async.py:71-72 | every text the pattern describes parses to the timestamp its fields denote |
| Dates.ParseRender | data_processor_async.py:71-77 | round trip: any valid timestamp, written zero-padded in the pattern, parses back to itself |
| Dates.ParseNeedsSeparator | data_processor_async.py:75-76 | text without the pattern's time separator is a `ValueError` |
| Dates.Strptime | data_processor_async.py:71-77 | `strptime` of a value that is not a string raises `TypeError`; a string is parsed |
| Dates.FieldBounds | data_processor_async.py:71-72 | `%S` accepts 60 and 61 but not 62; `%m` rejects 0, 00 and 13 |
| Dates.PublicationSample | data_processor_async.py:71-72 | `2024-01-01-10;00;00` parses to 2024-01-01 10:00:00 |
| Dates.ShortFieldsSample | data_processor_async.py:71-72 | one-digit fields and a space-padded day are accepted |
| Dates.SpacedHourSample | data_processor_async.py:71-72 | only the day may carry a leading space |
| Dates.ModificationSample | data_processor_async.py:75-76 | the modification pattern takes colons between the time fields |
| Dates.SeparatorMismatchSample | data_processor_async.py:71-72 | a colon-separated date is a `ValueError` under the publication pattern |
| Dates.CommonYearSample | data_processor_async.py:71-72 | 29 February of a common year is a `ValueError` |
| Dates.LeapSecondSample | data_processor_async.py:71-72 | second 60 passes the field check but not the timestamp check |
| Tags.TagEnd | data_processor_async.py:93 | where a match of `<.+?>` starting at the first character ends: a `>` at least two characters on, after a `<` |
| Tags.TagEndFirst | data_processor_async.py:93 | a tag opened by `<` closes at the first `>` at least two characters on, with no newline before it; no tag starts where none closes |
| Tags.Strip | data_processor_async.py:93-96 | the substitution never lengthens the text |
| Tags.StripIsClean | data_processor_async.py:93-96 | no tag is left in the result |
| Tags.StripClean | data_processor_async.py:93-96 | text without tags is returned unchanged |
| Tags.StripIdempotent | data_processor_async.py:93-96 | stripping twice is stripping once |
| Tags.NoCloserIsClean | data_processor_async.py:93 | text without `>` holds no tag |
| Tags.StripPlainPrefix | data_processor_async.py:93-96 | a prefix without `<` is copied and the scan resumes after it |
| Tags.StripTagPrefix | data_processor_async.py:93-96 | a whole tag at the front is removed and the scan resumes right after its `>` |
| Tags.StripKeepsLine | data_processor_async.py:93-96 | text with no `>` past its first character, followed by a newline or nothing, is copied unchanged |
| Tags.BoldSample | data_processor_async.py:93-96 | `<b>hi</b> there`, given as `<b>`, `hi`, `</b>` and ` there`, becomes `hi there` |
| Tags.KeptSamples | data_processor_async.py:93-96 | `<>`, `a<b` and `<` + newline + `>` are left as they are |
| Tags.EmptyLookingTagSample | data_processor_async.py:93-96 | `<>>` is a single tag and is removed |
| Catalog.NewItems | data_processor_async.py:150 | the new descriptors are at most as many as the fetched ones, and none of them is in the known list |
| Catalog.NewItemsMembers | data_processor_async.py:150 | a descriptor is new exactly when the fetched catalog holds it and the known list does not |
| Catalog.NewItemsInOrder | data_processor_async.py:150 | the new descriptors keep the catalog's order |
| Catalog.NewItemsCount | data_processor_async.py:150 | each new descriptor appears as often as in the catalog; known ones do not appear |
| Catalog.NothingNew | data_processor.py:154-156 | a catalog of known descriptors only, in any order, yields nothing new |
| Catalog.Pending | data_processor.py:154-157 | the poll does nothing exactly when the fetched catalog equals the known list; otherwise, for a list, it yields the new descriptors |
| Catalog.PollSample | data_processor.py:154-157 | known 1, 2, 3 and fetched 2, 3, 4, 5 leave 4 and 5 |
| Catalog.IdOf | data_processor_async.py:38-39 | `descriptor["id"]` succeeds exactly on a dict with an `id`; a dict without it raises `KeyError`, anything else `TypeError` |
| Catalog.IdText | data_processor_async.py:38-39 | an integer identifier is written in decimal, a string as it is |
| Catalog.WithoutSpaces | data_processor_async.py:38 | `replace(' ', '')` leaves no space and never lengthens the text |
| Catalog.ArticleBaseRepaired | data_processor_async.py:15-16 | removing the spaces from the declared article base, broken over two lines, gives the article base |
| Catalog.MediaBaseUnchanged | data_processor_async.py:17 | removing spaces leaves the media base as it is |
| Catalog.AsyncArticleUrl | data_processor_async.py:38-39 | the asynchronous article URL is formed exactly when the identifier can be written as text |
| Catalog.AsyncMediaUrl | data_processor_async.py:40-41 | the asynchronous media URL is formed exactly when the identifier can be written as text |
| Catalog.SyncArticleUrl | data_processor.py:96-97 | the synchronous article URL is formed exactly when the identifier can be written as text |
| Catalog.SyncMediaUrl | data_processor.py:98-99 | the synchronous media URL is formed exactly when the identifier can be written as text |
| Catalog.ArticleUrlsAgree | data_processor.py:96-97 | both modules derive the same article URL: the article base, the identifier and `.json` |
| Catalog.MediaUrlsAgree | data_processor.py:98-99 | both modules derive the same media URL: the media base, the identifier and `.json` |
| Catalog.UrlSample | data_processor.py:96-97 | descriptor 42 is fetched from the article base plus `42.json` |
| Normalize.CleanDatesGiven | data_processor_async.py:60-84 | `clean_dates` raises nothing exactly when both date keys are there and, if `pub_date` is truthy, both dates parse |
| Normalize.CleanDatesOf | data_processor_async.py:69-77 | the same with `pub_date` parsed by the `;` pattern and `mod_date` by the `:` pattern |
| Normalize.CleanDatesKeys | data_processor_async.py:71-79 | afterwards `pub_date` and `mod_date` are gone, the two new keys are there, and every other entry is unchanged |
| Normalize.CleanDatesParsed | data_processor_async.py:71-77 | with a truthy `pub_date` the two dates are the parsed timestamps |
| Normalize.CleanDatesDefaulted | data_processor_async.py:73-82 | with a falsy `pub_date` the publication date is now, and the modification date is that falsy value whatever `mod_date` holds |
| Normalize.CleanDatesErrors | data_processor_async.py:71-79 | the exceptions in statement order: `pub_date` parse (dict untouched), `mod_date` parse, then the two pops |
| Normalize.CleanDatesWith | data_processor_async.py:69-84 | the statements update the dict to exactly the entries the function gives and raise what it gives |
| Normalize.CleanDates | data_processor_async.py:60-84 | `clean_dates` in place: the dict and the exception are those of `CleanDatesOf` |
| Normalize.StripSection | data_processor_async.py:94-97 | the loop body succeeds exactly on a dict whose text, if truthy, is a string; a non-dict raises `AttributeError`, a truthy non-string text `TypeError` |
| Normalize.StripSectionShape | data_processor_async.py:94-97 | the section gains or keeps `text` and nothing else changes; a truthy text is stripped, a falsy one kept, an absent one becomes None |
| Normalize.FirstFailure | data_processor_async.py:94-97 | every section before the index is handled without error, and the section at the index fails |
| Normalize.StripSections | data_processor_async.py:94-97 | the loop of `remove_html_tags`: the list keeps its length, and when nothing is raised every section is its stripped counterpart |
| Normalize.StripSectionsUpTo | data_processor_async.py:94-99 | sections before the first failure are updated, the rest are unchanged, and the exception is the failure's |
| Normalize.RemoveHtmlTags | data_processor_async.py:87-99 | the loop updates the list in place to what `StripSections` gives |
| Normalize.RemoveHtmlTagsOf | data_processor_async.py:87-99 | a list succeeds exactly when no section fails, keeps its length, and each section is its updated self; a non-empty string or dict raises `AttributeError`; a non-iterable raises `TypeError` |
| Normalize.StripSectionIdempotent | data_processor_async.py:94-97 | updating a section twice is updating it once |
| Normalize.RemoveHtmlTagsIdempotent | data_processor_async.py:87-99 | `remove_html_tags` applied to its own result changes nothing |
| Normalize.AddMediaAndImage | data_processor_async.py:159-166 | the same list is returned, extended by the media in order |
| Normalize.Splice | data_processor_async.py:159-166 | media that cannot be iterated raise; empty media leave the sections as they are; a list is extended by the media; a non-list with media to add raises `AttributeError` |
| Normalize.SpliceShape | data_processor_async.py:159-166 | the result's length is the sum, with the sections first and unchanged and the media after them in order |
| Normalize.NormalizeRecordOf | data_processor.py:104-109 | a normalised record exists only if `clean_dates` succeeded and left `sections`; its exceptions come first, then the missing `sections` key |
| Normalize.NormalizeRecordShape | data_processor.py:104-109 | the record's keys are the input's with the date keys renamed; its `sections` are the stripped sections spliced with the media; the two dates are those `clean_dates` wrote; every other entry is kept |
| Normalize.NormalizeRecordKeeps | data_processor_async.py:60-84 | a key normalisation neither renames nor rebuilds keeps its entry |
| Normalize.NormalizeRecordSections | data_processor.py:105-109 | for list sections and list media, the sections are each stripped section followed by the media in order |
| Normalize.NormalizeRecord | data_processor.py:104-109 | the same steps on the record in place, ending in the record and the exception the function gives |
| Articles.OutcomesSplit | data_processor_async.py:169-185 | every outcome lands in exactly one of the two lists |
| Articles.RetryOf | data_processor_async.py:169-185 | a built first attempt is kept with the record unchanged; otherwise `sections` becomes None, every other entry stays, and the second attempt's outcome is the one recorded |
| Articles.RetryKeepsBuilt | data_processor_async.py:174-183 | the retry never replaces a built article, and an error is recorded only when both attempts were rejected |
| Articles.Accumulators.constructor | data_processor_async.py:19-20 | both lists start empty |
| Articles.Accumulators.Record | data_processor_async.py:176-183 | one outcome extends exactly one list by one |
| Articles.Accumulators.CreateArticle | data_processor.py:79-90 | synchronous `create_article`: one attempt; a built article extends `valid_articles`, a validation error extends `errors_list` |
| Articles.Accumulators.CreateArticleWithRetry | data_processor_async.py:169-185 | asynchronous `create_article`: the outcome and the record are those of `RetryOf`, and exactly one list grows by that outcome |
| Articles.RecordAll | data_processor_async.py:176-183 | recording outcomes one at a time extends each list by its share, in order |
| SyncPipeline.PrepareOf | data_processor.py:95-110 | an identifier error is raised as is; a record is built only from a dict fetched from the descriptor's article URL; a fetched article that is not a dict raises `TypeError` |
| SyncPipeline.PrepareShape | data_processor.py:96-109 | the record's `url` is the article base, the identifier and `.json`; it is the article fetched there, normalised with the media fetched from the media URL |
| SyncPipeline.ProcessItem | data_processor.py:95-110 | one loop pass raises what the preparation raises; otherwise it records the built outcome in the right list |
| SyncPipeline.BuildRecord | data_processor.py:104-110 | from `clean_dates` to `create_article` in place: raises what `NormalizeRecordOf` raises, otherwise records the built outcome of the normalised record |
| SyncPipeline.RunOf | data_processor.py:95-112 | the loop records at most one outcome per descriptor, and one for every descriptor when nothing is raised |
| SyncPipeline.RunInOrder | data_processor.py:95-112 | the outcomes are those of the first descriptors, in order; an exception is that of the descriptor right after them |
| SyncPipeline.RunStep | data_processor.py:95-112 | a descriptor that raises nothing adds its outcome |
| SyncPipeline.RunStops | data_processor.py:95-112 | once a descriptor raises, the run ends there with that exception |
| SyncPipeline.RunHalted | data_processor.py:95-112 | after the descriptor that raised, the rest of the list changes nothing |
| SyncPipeline.DescriptorAdvances | data_processor.py:95-110 | what one pass raises and appends is exactly one step of `RunOf` |
| SyncPipeline.RunDescriptor | data_processor.py:95-110 | the pass for descriptor `i` turns the run of the first `i` descriptors into the run of the first `i + 1` |
| SyncPipeline.ProcessData | data_processor.py:93-112 | the loop extends each list by its share of the run and raises the run's exception |
| SyncPipeline.GetUpdates | data_processor.py:141-162 | an unchanged catalog does nothing; a failed fetch (None) raises `TypeError` and records nothing; any other changed catalog raises what iterating it raises, or processes exactly its new descriptors |
| AsyncPipeline.TaskOf | data_processor_async.py:37-41 | an identifier error is raised as is |
| AsyncPipeline.TasksOf | data_processor_async.py:37-41 | one request pair per descriptor |
| AsyncPipeline.TasksFor | data_processor_async.py:37 | a catalog that cannot be iterated raises; otherwise its descriptors are turned into tasks |
| AsyncPipeline.TasksShape | data_processor_async.py:37-41 | the pairs are formed exactly when every descriptor's URLs are; the i-th pair is the article base and the media base, each with that descriptor's identifier and `.json` |
| AsyncPipeline.TaskShape | data_processor_async.py:37-41 | one descriptor's pair is the article base and the media base, each with its identifier and `.json` |
| AsyncPipeline.TasksStop | data_processor_async.py:37-41 | the first descriptor whose URLs cannot be formed decides the exception |
| AsyncPipeline.GetArticleTasks | data_processor_async.py:23-57 | the loop returns the pairs in order, or the exception of `TasksFor` |
| AsyncPipeline.MediaOf | data_processor_async.py:214-217 | a media body that is not JSON gives an empty media list |
| AsyncPipeline.PrepareArticle | data_processor_async.py:200-224 | an identifier error is raised as is; a record exists only for a dict with a writable `id` |
| AsyncPipeline.PrepareArticleShape | data_processor_async.py:200-224 | the record's `url` is the article base, the article's own identifier and `.json`; it is the normalised article; without media its sections are just the stripped sections |
| AsyncPipeline.ProcessTask | data_processor_async.py:201-225 | the rest of the loop body raises what the preparation raises; otherwise it records the retried outcome in the right list |
| AsyncPipeline.BuildRecord | data_processor_async.py:204-225 | from `clean_dates` to `create_article` in place: raises what `NormalizeRecordOf` raises, otherwise records the retried outcome of the normalised record |
| AsyncPipeline.StepOf | data_processor_async.py:199-224 | a task is skipped exactly when its article body is not JSON |
| AsyncPipeline.Next | data_processor_async.py:199-218 | one task of the loop as written: after an exception nothing changes; at most one outcome is added, and only for a decoded article while `articles_result` is aligned; once behind, it stays behind |
| AsyncPipeline.RunAsWritten | data_processor_async.py:199-225 | the loop records at most one outcome per task |
| AsyncPipeline.RunAsWrittenStops | data_processor_async.py:199-225 | once a task raises, the later tasks are never reached |
| AsyncPipeline.TaskAt | data_processor_async.py:199-225 | one pass: a skip appends nothing; a decoded article is appended; a list that has fallen behind raises `IndexError`; an aligned list raises the preparation's error or records the outcome |
| AsyncPipeline.TaskAdvances | data_processor_async.py:199-225 | that pass is exactly one step of `RunAsWritten`, with the lists extended by the new outcomes |
| AsyncPipeline.RunTask | data_processor_async.py:199-225 | the pass for task `i` turns the run of the first `i` tasks into the run of the first `i + 1` |
| AsyncPipeline.RunTasks | data_processor_async.py:199-225 | the loop extends each list by its share of `RunAsWritten` over the tasks and raises its exception |
| AsyncPipeline.GetUpdatesOf | data_processor_async.py:135-156 | the poll raises nothing exactly when the catalog is unchanged; a changed list raises `TypeError` |
| AsyncPipeline.ProcessData | data_processor_async.py:188-227 | the tasks' exception, or the lists extended by the run's outcomes and the run's exception, or else the poll's |
| AsyncPipeline.NextIntended | data_processor_async.py:199-218 | one task of the intended loop: after an exception or for a skipped task nothing changes; at most one outcome is added, and only for a decoded article |
| AsyncPipeline.RunIntended | data_processor_async.py:199-225 | the loop with skips passed over records at most one outcome per task |
| AsyncPipeline.RunIntendedStops | data_processor_async.py:199-225 | in the intended loop, once a task raises, the later tasks are never reached |
| AsyncPipeline.TaskIntendedAt | data_processor_async.py:199-225 | the corrected pass: a skip appends nothing and raises nothing; a decoded article raises its own preparation error or records its outcome, whatever was skipped before |
| AsyncPipeline.TaskAdvancesIntended | data_processor_async.py:199-225 | the corrected pass is exactly one step of `RunIntended` |
| AsyncPipeline.RunTaskIntended | data_processor_async.py:199-225 | the corrected pass for task `i` turns the intended run of the first `i` tasks into that of the first `i + 1` |
| AsyncPipeline.RunTasksIntended | data_processor_async.py:199-225 | the corrected loop extends each list by its share of `RunIntended` over the tasks and raises its exception |
| AsyncPipeline.SkipIsAbsent | data_processor_async.py:209-210 | in the intended loop, a skipped task changes nothing: the run is that of the other tasks |
| AsyncPipeline.ShortWhenSkipped | data_processor_async.py:199-210 | until something is raised, `articles_result` has fallen behind exactly when some task was skipped |
| AsyncPipeline.AsWrittenAgrees | data_processor_async.py:199-225 | the loop as written agrees with the intended loop when all skips come last; it runs to the end only when they do |
| AsyncPipeline.AsWrittenSample | data_processor_async.py:199-210 | a skipped first task and a decodable second: as written `IndexError` and nothing built; as intended the second article is built |

## Left out

- HTTP transport is left out: `requests.get`, the aiohttp session, `asyncio.gather` and status codes. Fetch results are parameters.
- A request that raises inside `get_article_tasks` (the `[]` placeholder) is left out; every request is taken to produce a response.
- Concurrency and the re-arming `Timer` in both `get_updates` are left out, including the async `args=(current_data)` that is not a tuple. One poll is modelled, with the fetched catalog as a parameter.
- `display_result`, `print` and `main` only print or wire the calls together.
- The pydantic `Article` schema is an abstract function from record to outcome. Its validation rules are not part of this model; `models.py` is not part of this model.
- `datetime.now()` is a parameter, and one instant serves a whole batch; Python reads the clock again for each record (`data_processor.py:43`, `data_processor_async.py:82`).
- Decoding of the catalog is left out (`get(...).json()` and the re-raised `JSONDecodeError`); the decoded catalog is the input.
- Iterating a dict (it yields its keys) and writing a list, dict or datetime identifier with `repr` both give the error value `NotModelled` rather than Python's result.
- `get_article_tasks` indexes the catalog over `range(len(article_data))` (`data_processor_async.py:37-41`): Python raises `KeyError(0)` for a non-empty dict catalog and yields no tasks for an empty one. `AsyncPipeline.TasksFor` gives `NotModelled` for every dict catalog.
- Comparing catalog entries (`i not in current_data`, `current_data != latest_data`, `data_processor.py:154-156`, `data_processor_async.py:150`) uses structural equality of values rather than Python's `==`. In Python `True == 1 == 1.0`, so a descriptor with id `True` counts as known when the known list holds one with id `1`; here it is new.
- JSON numbers with a fraction or exponent have no case in `Value`, so a float identifier such as `1.0` cannot be written.
- `strptime` accepts only ASCII digits here; Python's `\d` also accepts other Unicode decimal digits.
- Each section is a value inside the section list, so aliasing between a section dict and other references to it is not modelled; the section list and the record dict are updated in place.
- `images_result` is not tracked as its own list: whenever `articles_result` is aligned with the task index, so is `images_result`, and the loop raises `IndexError` before reading it otherwise.
- SyncPipeline.GetUpdates: takes the known catalog as a list; a known catalog that is not a list (possible only when the first catalog decoded to `""` or `{}`) is not modelled.
- AsyncPipeline.GetUpdatesOf: the poll as written never processes anything, so no corrected poll is modelled for the asynchronous module; a known catalog that is not a list and differs from the fetched one gives `NotModelled` rather than Python's result.
- AsyncPipeline.RunAsWritten: its own contract only bounds the outcomes; what the run does is stated by `AsWrittenAgrees`, `ShortWhenSkipped` and `AsWrittenSample`.
- AsyncPipeline.RunIntended: its own contract only bounds the outcomes; what it does is stated by `SkipIsAbsent` and `AsWrittenAgrees`.
- Tags.Strip: its own contract only bounds the length; what it does is stated by the lemmas beside it.

## Findings

| source | as written | input that shows it | evidently intended | confidence | as-written member | corrected member |
|---|---|---|---|---|---|---|
| data_processor_async.py:199-210 | a task whose article body is not JSON is skipped with `continue` and appends nothing to `articles_result`, yet later tasks still read `articles_result[task]` by task number | two tasks: the first article body is not JSON, the second is a valid article | the skipped task is passed over and the second article is built (the loop indexes the article it just appended; `SkipIsAbsent` proves a skip then changes nothing) | not executed | AsyncPipeline.AsWrittenSample | AsyncPipeline.RunTasksIntended |
