/** The record normaliser shared by both pipelines: `clean_dates`,
    `remove_html_tags` and `add_media_and_image`. Each works in place on a
    dict or a list; each is a method here, proved against a function that
    says what the dict or list holds afterwards and which exception, if any,
    escaped. */
module Normalize {
  import opened Values
  import opened Dates
  import opened Tags

  /** What a call leaves behind in a dict: its entries and the exception
      that escaped, if one did. */
  datatype Effect = Effect(entries: map<string, Value>, raised: Option<Error>)

  /** The two keys `clean_dates` removes and the two it writes. */
  predicate Renamed(k: string)
  {
    k == "pub_date" || k == "mod_date" || k == "publication_date" || k == "modification_date"
  }

  /** `clean_dates(data)` with `datetime.now()` given as `now`, once the two
      `strptime` calls are known to give `p` (for `pub_date`) and `m` (for
      `mod_date`); neither is consulted unless `pub_date` is truthy.

      Both parses are guarded by `pub_date`: with a falsy `pub_date` nothing
      is parsed and `modification_date` takes the falsy value itself. Both
      source keys are popped, so a missing one raises `KeyError`. */
  function CleanDatesGiven(d: map<string, Value>, now: DateTime, p: Result<DateTime>, m: Result<DateTime>): (r: Effect)
    // no exception exactly when both keys are there and, if pub_date is
    // truthy, both dates parse
    ensures r.raised.None? <==>
              "pub_date" in d && "mod_date" in d && (Truthy(Get(d, "pub_date")) ==> p.Ok? && m.Ok?)
  {
    var pub := Get(d, "pub_date");
    if Truthy(pub) && p.Err? then Effect(d, Some(p.error))
    else
      var d1 := d["publication_date" := if Truthy(pub) then Time(p.value) else pub];
      if Truthy(pub) && m.Err? then Effect(d1, Some(m.error))
      else
        var d2 := d1["modification_date" := if Truthy(pub) then Time(m.value) else pub];
        if "pub_date" !in d2 then Effect(d2, Some(KeyError("pub_date")))
        else
          var d3 := d2 - {"pub_date"};
          if "mod_date" !in d3 then Effect(d3, Some(KeyError("mod_date")))
          else
            var d4 := d3 - {"mod_date"};
            if !Truthy(d4["publication_date"]) then Effect(d4["publication_date" := Time(now)], None)
            else Effect(d4, None)
  }

  /** `clean_dates(data)`: `pub_date` parsed with the publication pattern,
      `mod_date` with the modification pattern. */
  function CleanDatesOf(d: map<string, Value>, now: DateTime): (r: Effect)
    ensures r.raised.None? <==>
              "pub_date" in d && "mod_date" in d &&
              (Truthy(Get(d, "pub_date")) ==> Strptime(Get(d, "pub_date"), PublicationSeparator).Ok? &&
                                              Strptime(Get(d, "mod_date"), ModificationSeparator).Ok?)
  {
    CleanDatesGiven(d, now, Strptime(Get(d, "pub_date"), PublicationSeparator),
                    Strptime(Get(d, "mod_date"), ModificationSeparator))
  }

  /** Afterwards the source keys are gone, the two dates are there, and
      every other entry is as it was. */
  lemma CleanDatesKeys(d: map<string, Value>, now: DateTime, p: Result<DateTime>, m: Result<DateTime>)
    requires CleanDatesGiven(d, now, p, m).raised.None?
    ensures var e := CleanDatesGiven(d, now, p, m).entries;
            e.Keys == d.Keys - {"pub_date", "mod_date"} + {"publication_date", "modification_date"} &&
            forall k :: k in d && !Renamed(k) ==> k in e && e[k] == d[k]
  {
  }

  /** A truthy `pub_date`: the two dates are what the two parses gave. */
  lemma CleanDatesParsed(d: map<string, Value>, now: DateTime, p: Result<DateTime>, m: Result<DateTime>)
    requires CleanDatesGiven(d, now, p, m).raised.None? && Truthy(Get(d, "pub_date"))
    ensures p.Ok? && m.Ok?
    ensures var e := CleanDatesGiven(d, now, p, m).entries;
            e["publication_date"] == Time(p.value) && e["modification_date"] == Time(m.value)
  {
  }

  /** A falsy `pub_date` (None, "" or any other falsy value): the
      publication date is `now`, and the modification date is that falsy
      value whatever `mod_date` holds. */
  lemma CleanDatesDefaulted(d: map<string, Value>, now: DateTime, p: Result<DateTime>, m: Result<DateTime>)
    requires CleanDatesGiven(d, now, p, m).raised.None? && !Truthy(Get(d, "pub_date"))
    ensures var e := CleanDatesGiven(d, now, p, m).entries;
            e["publication_date"] == Time(now) && e["modification_date"] == d["pub_date"]
  {
  }

  /** The exceptions, in the order the statements run: a malformed or
      non-string `pub_date` (the dict untouched), then a malformed or
      non-string `mod_date`, then the two pops. */
  lemma CleanDatesErrors(d: map<string, Value>, now: DateTime, p: Result<DateTime>, m: Result<DateTime>)
    ensures var pub := Get(d, "pub_date");
            var r := CleanDatesGiven(d, now, p, m);
            (Truthy(pub) && p.Err? ==> r == Effect(d, Some(p.error))) &&
            (Truthy(pub) && p.Ok? && m.Err? ==> r.raised == Some(m.error)) &&
            (!Truthy(pub) || (p.Ok? && m.Ok?) ==>
               ("pub_date" !in d ==> r.raised == Some(KeyError("pub_date"))) &&
               ("pub_date" in d && "mod_date" !in d ==> r.raised == Some(KeyError("mod_date"))))
  {
  }

  /** The statements of `clean_dates(data)`, updating `data` step by step,
      with the two `strptime` results given. */
  method CleanDatesWith(data: MutableDict, now: DateTime, p: Result<DateTime>, m: Result<DateTime>)
    returns (raised: Option<Error>)
    modifies data
    ensures Effect(data.entries, raised) == CleanDatesGiven(old(data.entries), now, p, m)
  {
    var pub := Get(data.entries, "pub_date");
    var publication := pub;
    if Truthy(pub) {
      if p.Err? {
        return Some(p.error);
      }
      publication := Time(p.value);
    }
    data.Set("publication_date", publication);
    var modification := pub;
    if Truthy(pub) {
      if m.Err? {
        return Some(m.error);
      }
      modification := Time(m.value);
    }
    data.Set("modification_date", modification);
    var popped := data.Pop("pub_date");
    if popped.Err? {
      return Some(popped.error);
    }
    popped := data.Pop("mod_date");
    if popped.Err? {
      return Some(popped.error);
    }
    if !Truthy(data.entries["publication_date"]) {
      data.Set("publication_date", Time(now));
    }
    return None;
  }

  /** `clean_dates(data)`; it returns the exception that escaped, if any
      (the Python function returns `data` itself). */
  method CleanDates(data: MutableDict, now: DateTime) returns (raised: Option<Error>)
    modifies data
    ensures Effect(data.entries, raised) == CleanDatesOf(old(data.entries), now)
  {
    var p := Strptime(Get(data.entries, "pub_date"), PublicationSeparator);
    var m := Strptime(Get(data.entries, "mod_date"), ModificationSeparator);
    raised := CleanDatesWith(data, now, p, m);
  }

  /** The body of the `remove_html_tags` loop for one section:
      `section['text'] = sub(section.get('text')) if it is truthy else as is`.
      A section that is not a dict has no `get` (`AttributeError`); a truthy
      text that is not a string cannot be searched (`TypeError`). */
  function StripSection(section: Value): (r: Result<Value>)
    ensures var text := if section.Dict? then Get(section.fields, "text") else Null;
            r.Ok? <==> section.Dict? && (Truthy(text) ==> text.Str?)
    ensures !section.Dict? ==> r == Err(AttributeError)
    ensures r.Err? && section.Dict? ==> r.error == TypeError
    ensures r.Ok? ==> r.value.Dict?
  {
    match section
    case Dict(fields) =>
      var text := Get(fields, "text");
      if !Truthy(text) then Ok(Dict(fields["text" := text]))
      else if text.Str? then Ok(Dict(fields["text" := Str(Strip(text.s))]))
      else Err(TypeError)
    case _ => Err(AttributeError)
  }

  /** The updated section gains or keeps `text` and nothing else changes; a
      truthy text is stripped, a falsy one kept, an absent one becomes None. */
  lemma StripSectionShape(section: Value)
    requires StripSection(section).Ok?
    ensures var fields := StripSection(section).value.fields;
            var text := Get(section.fields, "text");
            fields.Keys == section.fields.Keys + {"text"} &&
            (forall k :: k in section.fields && k != "text" ==> fields[k] == section.fields[k]) &&
            fields["text"] == if Truthy(text) then Str(Strip(text.s)) else text
  {
  }

  /** The index of the first section the loop body fails on, or the number
      of sections when it fails on none. */
  function FirstFailure(sections: seq<Value>): (n: nat)
    ensures n <= |sections|
    ensures forall i :: 0 <= i < n ==> StripSection(sections[i]).Ok?
    ensures n < |sections| ==> StripSection(sections[n]).Err?
  {
    if sections == [] || StripSection(sections[0]).Err? then 0
    else 1 + FirstFailure(sections[1..])
  }

  /** What the `remove_html_tags` loop leaves in a list of sections, and
      the exception that stops it, if any. */
  function StripSections(sections: seq<Value>): (r: (seq<Value>, Option<Error>))
    ensures |r.0| == |sections|
    ensures r.1.None? ==> forall i :: 0 <= i < |sections| ==> StripSection(sections[i]) == Ok(r.0[i])
  {
    if sections == [] then (sections, None)
    else
      match StripSection(sections[0])
      case Err(e) => (sections, Some(e))
      case Ok(s) =>
        var rest := StripSections(sections[1..]);
        ([s] + rest.0, rest.1)
  }

  /** Every section before the first failure is updated, the rest are as
      they were, and the exception is the failure's. */
  lemma {:induction false} StripSectionsUpTo(sections: seq<Value>)
    ensures var r := StripSections(sections);
            var n := FirstFailure(sections);
            (forall i :: 0 <= i < n ==> r.0[i] == StripSection(sections[i]).value) &&
            r.0[n..] == sections[n..] &&
            r.1 == if n < |sections| then Some(StripSection(sections[n]).error) else None
  {
    if sections != [] && StripSection(sections[0]).Ok? {
      var tail := sections[1..];
      StripSectionsUpTo(tail);
      var n := FirstFailure(tail);
      var r := StripSections(sections);
      assert r.0 == [StripSection(sections[0]).value] + StripSections(tail).0;
      assert r.0[n + 1..] == StripSections(tail).0[n..];
      assert sections[n + 1..] == tail[n..];
      assert forall i :: 1 <= i < |sections| ==> tail[i - 1] == sections[i];
    }
  }

  /** `remove_html_tags(sections)` on a list: the loop over its sections,
      updating each in place. The list keeps its length and order. */
  method RemoveHtmlTags(sections: MutableList) returns (raised: Option<Error>)
    modifies sections
    ensures (sections.items, raised) == StripSections(old(sections.items))
  {
    ghost var initial := sections.items;
    var i := 0;
    while i < |sections.items|
      invariant |sections.items| == |initial|
      invariant i <= FirstFailure(initial)
      invariant forall k :: 0 <= k < i ==> sections.items[k] == StripSection(initial[k]).value
      invariant sections.items[i..] == initial[i..]
      decreases |sections.items| - i
    {
      assert sections.items[i] == initial[i];
      var r := StripSection(sections.items[i]);
      if r.Err? {
        assert FirstFailure(initial) == i;
        StripSectionsUpTo(initial);
        SameSections(sections.items, initial, i);
        return Some(r.error);
      }
      sections.items := sections.items[i := r.value];
      i := i + 1;
    }
    assert i == |initial| == FirstFailure(initial);
    StripSectionsUpTo(initial);
    SameSections(sections.items, initial, i);
    return None;
  }

  /** A list that agrees with the loop's result before the first failure
      and with the original list from there on is the loop's result. */
  lemma SameSections(now: seq<Value>, initial: seq<Value>, n: nat)
    requires |now| == |initial| && n == FirstFailure(initial)
    requires forall k :: 0 <= k < n ==> now[k] == StripSection(initial[k]).value
    requires now[n..] == initial[n..]
    ensures now == StripSections(initial).0
  {
    StripSectionsUpTo(initial);
    var r := StripSections(initial).0;
    assert now[n..] == r[n..];
    SplitEqual(now, r, n);
  }

  lemma SplitEqual(x: seq<Value>, y: seq<Value>, n: nat)
    requires |x| == |y| && n <= |x|
    requires forall k :: 0 <= k < n ==> x[k] == y[k]
    requires x[n..] == y[n..]
    ensures x == y
  {
    assert x == x[..n] + x[n..] && y == y[..n] + y[n..];
  }

  /** `remove_html_tags(sections)` for any value the `sections` key may hold.
      A list is stripped section by section. Iterating a string gives
      one-character strings and iterating a dict gives its keys, neither of
      which has `get`, so both fail unless empty; anything else is not
      iterable. */
  function RemoveHtmlTagsOf(sections: Value): (r: Result<Value>)
    ensures sections.List? ==>
              (r.Ok? <==> FirstFailure(sections.items) == |sections.items|)
    ensures sections.List? && r.Ok? ==>
              r.value.List? && |r.value.items| == |sections.items| &&
              forall i :: 0 <= i < |sections.items| ==> StripSection(sections.items[i]) == Ok(r.value.items[i])
    ensures (sections.Str? || sections.Dict?) ==>
              r == if Truthy(sections) then Err(AttributeError) else Ok(sections)
    ensures (sections.Null? || sections.Bool? || sections.Int? || sections.Time?) ==> r == Err(TypeError)
  {
    match sections
    case List(items) =>
      StripSectionsUpTo(items);
      var (stripped, raised) := StripSections(items);
      if raised.Some? then Err(raised.value) else Ok(List(stripped))
    case Str(s) => if s == "" then Ok(sections) else Err(AttributeError)
    case Dict(fields) => if fields == map[] then Ok(sections) else Err(AttributeError)
    case _ => Err(TypeError)
  }

  /** Stripping a section a second time changes nothing. */
  lemma StripSectionIdempotent(section: Value)
    requires StripSection(section).Ok?
    ensures StripSection(StripSection(section).value) == StripSection(section)
  {
    var once := StripSection(section).value;
    var text := Get(section.fields, "text");
    if Truthy(text) {
      StripIdempotent(text.s);
      assert once.fields == once.fields["text" := Str(Strip(Strip(text.s)))];
    } else {
      assert once.fields == once.fields["text" := Get(once.fields, "text")];
    }
  }

  /** Every text the stripper leaves holds no tag, and stripping the
      sections again changes nothing. */
  lemma RemoveHtmlTagsIdempotent(sections: Value)
    requires RemoveHtmlTagsOf(sections).Ok?
    ensures RemoveHtmlTagsOf(RemoveHtmlTagsOf(sections).value) == RemoveHtmlTagsOf(sections)
  {
    var once := RemoveHtmlTagsOf(sections).value;
    if sections.List? {
      forall i | 0 <= i < |once.items|
        ensures StripSection(once.items[i]) == Ok(once.items[i])
      {
        StripSectionIdempotent(sections.items[i]);
      }
      var twice := RemoveHtmlTagsOf(once).value;
      assert twice.items == once.items;
    }
  }

  /** `add_media_and_image(section, media_data)`: appends each media item,
      in order, to the same list, and returns that list. */
  method AddMediaAndImage(section: MutableList, media: seq<Value>) returns (r: MutableList)
    modifies section
    ensures r == section
    ensures section.items == old(section.items) + media
  {
    ghost var initial := section.items;
    for i := 0 to |media|
      invariant section.items == initial + media[..i]
    {
      section.Append(media[i]);
      assert media[..i + 1] == media[..i] + [media[i]];
    }
    assert media[..|media|] == media;
    return section;
  }

  /** `add_media_and_image` for any values: the media value is iterated
      first (`TypeError` if it cannot be), and each item is appended, so a
      section value without `append` fails as soon as there is one item. */
  function Splice(sections: Value, media: Value): (r: Result<Value>)
    ensures Iterate(media).Err? ==> r == Err(Iterate(media).error)
    ensures Iterate(media) == Ok([]) ==> r == Ok(sections)
    ensures sections.List? && Iterate(media).Ok? ==> r == Ok(List(sections.items + Iterate(media).value))
    ensures !sections.List? && Iterate(media).Ok? && Iterate(media).value != [] ==> r == Err(AttributeError)
  {
    match Iterate(media)
    case Err(e) => Err(e)
    case Ok(items) =>
      if items == [] then
        assert sections.List? ==> sections.items + items == sections.items;
        Ok(sections)
      else if sections.List? then Ok(List(sections.items + items))
      else Err(AttributeError)
  }

  /** The spliced list: its length is the sum, the sections come first and
      unchanged, and the media follow in the order received. */
  lemma SpliceShape(sections: seq<Value>, media: Value)
    requires Iterate(media).Ok?
    ensures var items := Iterate(media).value;
            var r := Splice(List(sections), media);
            r.Ok? && |r.value.items| == |sections| + |items| &&
            r.value.items[..|sections|] == sections &&
            r.value.items[|sections|..] == items
  {
  }

  /** The normalisation a fetched article record (with its `url` already
      set) goes through before it is built: `clean_dates`, the `sections`
      popped, `remove_html_tags`, `add_media_and_image` with the media value,
      and the result stored back under `sections`. */
  function NormalizeRecordOf(d: map<string, Value>, media: Value, now: DateTime): (r: Result<map<string, Value>>)
    ensures r.Ok? ==> CleanDatesOf(d, now).raised.None? && "sections" in CleanDatesOf(d, now).entries
    ensures CleanDatesOf(d, now).raised.Some? ==> r == Err(CleanDatesOf(d, now).raised.value)
    ensures CleanDatesOf(d, now).raised.None? && "sections" !in d ==> r == Err(KeyError("sections"))
  {
    var cleaned := CleanDatesOf(d, now);
    if cleaned.raised.Some? then Err(cleaned.raised.value)
    else if "sections" !in cleaned.entries then Err(KeyError("sections"))
    else
      match RemoveHtmlTagsOf(cleaned.entries["sections"])
      case Err(e) => Err(e)
      case Ok(stripped) =>
        match Splice(stripped, media)
        case Err(e) => Err(e)
        case Ok(sections) => Ok((cleaned.entries - {"sections"})["sections" := sections])
  }

  /** The normalised record: its `sections` are the stripped sections
      spliced with the media, the date keys are renamed and hold the dates
      `clean_dates` wrote, and every other key is kept as it was. */
  lemma NormalizeRecordShape(d: map<string, Value>, media: Value, now: DateTime)
    requires NormalizeRecordOf(d, media, now).Ok?
    ensures "sections" in d && RemoveHtmlTagsOf(d["sections"]).Ok?
    ensures var record := NormalizeRecordOf(d, media, now).value;
            record.Keys == d.Keys - {"pub_date", "mod_date"} + {"publication_date", "modification_date"}
    ensures var record := NormalizeRecordOf(d, media, now).value;
            Splice(RemoveHtmlTagsOf(d["sections"]).value, media) == Ok(record["sections"])
    ensures var record := NormalizeRecordOf(d, media, now).value;
            forall k :: k in d && !Renamed(k) && k != "sections" ==> record[k] == d[k]
    ensures var record := NormalizeRecordOf(d, media, now).value;
            var cleaned := CleanDatesOf(d, now).entries;
            "publication_date" in cleaned && "modification_date" in cleaned &&
            record["publication_date"] == cleaned["publication_date"] &&
            record["modification_date"] == cleaned["modification_date"]
  {
    CleanDatesKeys(d, now, Strptime(Get(d, "pub_date"), PublicationSeparator),
                   Strptime(Get(d, "mod_date"), ModificationSeparator));
  }

  /** A key that normalisation neither renames nor rebuilds keeps its
      entry. */
  lemma NormalizeRecordKeeps(d: map<string, Value>, media: Value, now: DateTime, k: string)
    requires NormalizeRecordOf(d, media, now).Ok?
    requires k in d && !Renamed(k) && k != "sections"
    ensures k in NormalizeRecordOf(d, media, now).value && NormalizeRecordOf(d, media, now).value[k] == d[k]
  {
    NormalizeRecordShape(d, media, now);
  }

  /** With a list of sections and a list of media, the record's sections
      are the stripped sections followed by the media, in order. */
  lemma NormalizeRecordSections(d: map<string, Value>, media: Value, now: DateTime)
    requires NormalizeRecordOf(d, media, now).Ok?
    requires "sections" in d && d["sections"].List? && media.List?
    ensures var sections := d["sections"].items;
            var record := NormalizeRecordOf(d, media, now).value;
            record["sections"].List? &&
            |record["sections"].items| == |sections| + |media.items| &&
            record["sections"].items[|sections|..] == media.items &&
            forall i :: 0 <= i < |sections| ==> StripSection(sections[i]) == Ok(record["sections"].items[i])
  {
    NormalizeRecordShape(d, media, now);
  }

  /** The same normalisation on the record in place. */
  method NormalizeRecord(data: MutableDict, media: Value, now: DateTime) returns (raised: Option<Error>)
    modifies data
    ensures var r := NormalizeRecordOf(old(data.entries), media, now);
            raised == (if r.Err? then Some(r.error) else None) &&
            (r.Ok? ==> data.entries == r.value)
  {
    raised := CleanDates(data, now);
    if raised.Some? {
      return;
    }
    var sections := data.Pop("sections");
    if sections.Err? {
      return Some(sections.error);
    }
    var spliced: Value;
    if sections.value.List? {
      var list := new MutableList(sections.value.items);
      raised := RemoveHtmlTags(list);
      if raised.Some? {
        return;
      }
      var items := Iterate(media);
      if items.Err? {
        return Some(items.error);
      }
      list := AddMediaAndImage(list, items.value);
      spliced := List(list.items);
    } else {
      var stripped := RemoveHtmlTagsOf(sections.value);
      if stripped.Err? {
        return Some(stripped.error);
      }
      var r := Splice(stripped.value, media);
      if r.Err? {
        return Some(r.error);
      }
      spliced := r.value;
    }
    data.Set("sections", spliced);
    return None;
  }
}
