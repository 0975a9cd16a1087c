/** The catalog side of the pipeline: which descriptors are new since the
    last poll, and where a descriptor's article and media live. */
module Catalog {
  import opened Values
  import opened Decimal

  /** `[i for i in latest if i not in current]` */
  function NewItems(latest: seq<Value>, current: seq<Value>): (r: seq<Value>)
    ensures |r| <= |latest|
    ensures forall k :: 0 <= k < |r| ==> r[k] !in current
  {
    if latest == [] then []
    else (if latest[0] in current then [] else [latest[0]]) + NewItems(latest[1..], current)
  }

  /** A descriptor is new exactly when the catalog holds it and the known
      list does not. */
  lemma {:induction false} NewItemsMembers(latest: seq<Value>, current: seq<Value>)
    ensures forall x :: x in NewItems(latest, current) <==> x in latest && x !in current
    decreases |latest|
  {
    if latest != [] {
      NewItemsMembers(latest[1..], current);
      assert latest == [latest[0]] + latest[1..];
    }
  }

  /** `sub` is `s` with some elements left out, the rest in their order. */
  predicate IsSubsequence(sub: seq<Value>, s: seq<Value>)
  {
    if sub == [] then true
    else if s == [] then false
    else if sub[0] == s[0] then IsSubsequence(sub[1..], s[1..])
    else IsSubsequence(sub, s[1..])
  }

  /** The new items keep the catalog's order. */
  lemma {:induction false} NewItemsInOrder(latest: seq<Value>, current: seq<Value>)
    ensures IsSubsequence(NewItems(latest, current), latest)
    decreases |latest|
  {
    if latest != [] {
      NewItemsInOrder(latest[1..], current);
      var rest := NewItems(latest[1..], current);
      if latest[0] !in current {
        assert NewItems(latest, current) == [latest[0]] + rest;
        assert ([latest[0]] + rest)[1..] == rest;
      } else {
        assert NewItems(latest, current) == rest;
        NewItemsMembers(latest[1..], current);
        assert rest != [] ==> rest[0] in rest && rest[0] != latest[0];
      }
    }
  }

  /** Duplicates are kept: every descriptor not already known appears as
      often as it does in the catalog, and known ones not at all. */
  lemma {:induction false} NewItemsCount(latest: seq<Value>, current: seq<Value>, x: Value)
    ensures multiset(NewItems(latest, current))[x] == if x in current then 0 else multiset(latest)[x]
    decreases |latest|
  {
    if latest != [] {
      NewItemsCount(latest[1..], current, x);
      assert latest == [latest[0]] + latest[1..];
      assert multiset(latest) == multiset([latest[0]]) + multiset(latest[1..]);
    }
  }

  /** A catalog that holds only known descriptors, in whatever order and
      however often, yields nothing new. */
  lemma NothingNew(latest: seq<Value>, current: seq<Value>)
    requires forall x :: x in latest ==> x in current
    ensures NewItems(latest, current) == []
  {
    NewItemsMembers(latest, current);
    if NewItems(latest, current) != [] {
      assert NewItems(latest, current)[0] in NewItems(latest, current);
    }
  }

  /** What a poll decides: `None` when the fetched catalog equals the known
      one (`current_data != latest_data` is false, nothing is processed);
      otherwise the new descriptors, or the exception iterating the fetched
      value raises. */
  function Pending(current: seq<Value>, latest: Value): (r: Option<Result<seq<Value>>>)
    ensures r.None? <==> latest == List(current)
    ensures latest.List? && latest != List(current) ==> r == Some(Ok(NewItems(latest.items, current)))
  {
    if latest == List(current) then None
    else
      match Iterate(latest)
      case Err(e) => Some(Err(e))
      case Ok(items) => Some(Ok(NewItems(items, current)))
  }

  /** The sample poll: known descriptors 1, 2, 3 and a catalog of 2, 3, 4, 5
      leave 4 and 5 to process. */
  lemma PollSample(current: seq<Value>, latest: seq<Value>)
    requires current == [Dict(map["id" := Int(1)]), Dict(map["id" := Int(2)]), Dict(map["id" := Int(3)])]
    requires latest == [Dict(map["id" := Int(2)]), Dict(map["id" := Int(3)]), Dict(map["id" := Int(4)]), Dict(map["id" := Int(5)])]
    ensures Pending(current, List(latest)) == Some(Ok([Dict(map["id" := Int(4)]), Dict(map["id" := Int(5)])]))
  {
    assert latest[2] !in current by {
      assert latest[2].fields["id"] == Int(4);
      assert forall k :: 0 <= k < |current| ==> current[k].fields["id"] != Int(4);
    }
    assert latest[3] !in current by {
      assert latest[3].fields["id"] == Int(5);
      assert forall k :: 0 <= k < |current| ==> current[k].fields["id"] != Int(5);
    }
    assert latest[0] == current[1] && latest[1] == current[2];
    var l1 := latest[1..];
    var l2 := l1[1..];
    var l3 := l2[1..];
    assert l3 == [latest[3]] && l3[1..] == [];
    assert NewItems(l3, current) == [latest[3]];
    assert l2 == [latest[2], latest[3]];
    assert NewItems(l2, current) == [latest[2], latest[3]];
    assert NewItems(l1, current) == NewItems(l2, current);
    assert NewItems(latest, current) == NewItems(l1, current);
    assert List(latest) != List(current) by {
      assert |latest| != |current|;
    }
    assert Iterate(List(latest)) == Ok(latest);
  }

  /** `descriptor["id"]`: a dict without the key raises `KeyError`; any other
      value cannot be subscripted with a string (`TypeError`). */
  function IdOf(descriptor: Value): (r: Result<Value>)
    ensures r.Ok? <==> descriptor.Dict? && "id" in descriptor.fields
    ensures r.Ok? ==> r.value == descriptor.fields["id"]
    ensures descriptor.Dict? && "id" !in descriptor.fields ==> r == Err(KeyError("id"))
    ensures !descriptor.Dict? ==> r == Err(TypeError)
  {
    match descriptor
    case Dict(fields) => if "id" in fields then Ok(fields["id"]) else Err(KeyError("id"))
    case _ => Err(TypeError)
  }

  /** `f'{v}'`: how an identifier is written into a URL. Integers in decimal,
      strings as they are, booleans and `None` by name; lists and dicts
      (written with Python's `repr`) are not part of this model. */
  function IdText(v: Value): (r: Result<string>)
    ensures v.Int? ==> r == Ok(IntText(v.i))
    ensures v.Str? ==> r == Ok(v.s)
    ensures r.Err? <==> v.List? || v.Dict? || v.Time?
  {
    match v
    case Int(i) => Ok(IntText(i))
    case Str(s) => Ok(s)
    case Bool(b) => Ok(if b then "True" else "False")
    case Null => Ok("None")
    case _ => Err(NotModelled)
  }

  /** What `replace(' ', '')` keeps of one character. */
  function Kept(c: char): string
  {
    if c == ' ' then [] else [c]
  }

  /** `s.replace(' ', '')` */
  function WithoutSpaces(s: string): (r: string)
    ensures |r| <= |s|
    ensures forall k :: 0 <= k < |r| ==> r[k] != ' '
  {
    if s == [] then [] else Kept(s[0]) + WithoutSpaces(s[1..])
  }

  lemma {:induction false} WithoutSpacesAppend(a: string, b: string)
    ensures WithoutSpaces(a + b) == WithoutSpaces(a) + WithoutSpaces(b)
    decreases |a|
  {
    if a == [] {
      assert a + b == b;
    } else {
      assert (a + b)[0] == a[0];
      assert (a + b)[1..] == a[1..] + b;
      WithoutSpacesAppend(a[1..], b);
      assert WithoutSpaces(a + b) == Kept(a[0]) + (WithoutSpaces(a[1..]) + WithoutSpaces(b));
    }
  }

  /** Text without spaces is left as it is. */
  lemma {:induction false} WithoutSpacesNone(s: string)
    requires forall k :: 0 <= k < |s| ==> s[k] != ' '
    ensures WithoutSpaces(s) == s
    decreases |s|
  {
    if s != [] {
      WithoutSpacesNone(s[1..]);
      assert [s[0]] + s[1..] == s;
    }
  }

  /** Text made of spaces only is removed entirely. */
  lemma {:induction false} WithoutSpacesOfSpaces(s: string)
    requires forall k :: 0 <= k < |s| ==> s[k] == ' '
    ensures WithoutSpaces(s) == []
    decreases |s|
  {
    if s != [] {
      WithoutSpacesOfSpaces(s[1..]);
    }
  }

  /** Removing the spaces from a text made of a space-free part, a run of
      spaces and another space-free part joins the two parts. */
  lemma RemoveRun(head: string, run: string, tail: string)
    requires forall k :: 0 <= k < |head| ==> head[k] != ' '
    requires forall k :: 0 <= k < |run| ==> run[k] == ' '
    requires forall k :: 0 <= k < |tail| ==> tail[k] != ' '
    ensures WithoutSpaces(head + run + tail) == head + tail
  {
    WithoutSpacesAppend(head + run, tail);
    WithoutSpacesAppend(head, run);
    WithoutSpacesOfSpaces(run);
    WithoutSpacesNone(head);
    WithoutSpacesNone(tail);
    assert head + [] == head;
  }

  /** The pieces of the storage host's URLs. */
  const Scheme: string := "https://mapping-test.fra1."
  const Domain: string := "digitaloceanspaces.com"
  const ArticlePath: string := "/data/articles/"
  const MediaPath: string := "/data/media/"

  const ArticleBase: string := Scheme + (Domain + ArticlePath)
  const MediaBase: string := Scheme + (Domain + MediaPath)

  /** The article base URL as the asynchronous module declares it: the
      backslash continuation inside the string literal keeps the next line's
      nineteen spaces of indentation. */
  const Indent: string := "                   "
  const ArticleBaseAsDeclared: string := Scheme + Indent + (Domain + ArticlePath)

  /** Removing the spaces repairs the declared article base. */
  lemma ArticleBaseRepaired()
    ensures WithoutSpaces(ArticleBaseAsDeclared) == ArticleBase
  {
    var tail := Domain + ArticlePath;
    assert forall k :: 0 <= k < |tail| ==> tail[k] != ' ';
    RemoveRun(Scheme, Indent, tail);
  }

  /** Removing the spaces leaves the media base as it is. */
  lemma MediaBaseUnchanged()
    ensures WithoutSpaces(MediaBase) == MediaBase
  {
    assert MediaBase == Scheme + [] + (Domain + MediaPath);
    RemoveRun(Scheme, [], Domain + MediaPath);
  }

  /** The asynchronous module's article URL:
      `BASE_ARTICLE_URL.replace(' ', '') + f'{id}.json'`. */
  function AsyncArticleUrl(id: Value): (r: Result<string>)
    ensures r.Ok? <==> IdText(id).Ok?
  {
    match IdText(id)
    case Err(e) => Err(e)
    case Ok(text) => Ok(WithoutSpaces(ArticleBaseAsDeclared) + text + ".json")
  }

  /** The asynchronous module's media URL:
      `BASE_MEDIA_URL.replace(' ', '') + f'{id}.json'`. */
  function AsyncMediaUrl(id: Value): (r: Result<string>)
    ensures r.Ok? <==> IdText(id).Ok?
  {
    match IdText(id)
    case Err(e) => Err(e)
    case Ok(text) => Ok(WithoutSpaces(MediaBase) + text + ".json")
  }

  /** The synchronous module's article URL, an f-string continued over two
      adjacent literals that split the host name. */
  function SyncArticleUrl(id: Value): (r: Result<string>)
    ensures r.Ok? <==> IdText(id).Ok?
  {
    match IdText(id)
    case Err(e) => Err(e)
    case Ok(text) => Ok(Scheme + (Domain + ArticlePath + text + ".json"))
  }

  /** The synchronous module's media URL, split after the host name. */
  function SyncMediaUrl(id: Value): (r: Result<string>)
    ensures r.Ok? <==> IdText(id).Ok?
  {
    match IdText(id)
    case Err(e) => Err(e)
    case Ok(text) => Ok((Scheme + Domain) + (MediaPath + text + ".json"))
  }

  /** Both modules derive the same article URL: the article base followed
      by the identifier and `.json`. */
  lemma ArticleUrlsAgree(id: Value)
    ensures AsyncArticleUrl(id) == SyncArticleUrl(id)
    ensures IdText(id).Ok? ==> SyncArticleUrl(id) == Ok(ArticleBase + IdText(id).value + ".json")
  {
    ArticleBaseRepaired();
    if IdText(id).Ok? {
      var text := IdText(id).value;
      assert Scheme + (Domain + ArticlePath + text + ".json") == ArticleBase + text + ".json";
    }
  }

  /** Both modules derive the same media URL: the media base followed by the
      identifier and `.json`. */
  lemma MediaUrlsAgree(id: Value)
    ensures AsyncMediaUrl(id) == SyncMediaUrl(id)
    ensures IdText(id).Ok? ==> SyncMediaUrl(id) == Ok(MediaBase + IdText(id).value + ".json")
  {
    MediaBaseUnchanged();
    if IdText(id).Ok? {
      var text := IdText(id).value;
      assert (Scheme + Domain) + (MediaPath + text + ".json") == MediaBase + text + ".json";
    }
  }

  /** The sample descriptor 42 is fetched from `.../data/articles/42.json`. */
  lemma UrlSample()
    ensures SyncArticleUrl(Int(42)) == Ok(ArticleBase + "42.json")
  {
    assert Digit(4) == '4' && Digit(2) == '2';
    assert NatText(42) == NatText(4) + [Digit(2)] == "42";
    assert IdText(Int(42)) == Ok("42");
    ArticleUrlsAgree(Int(42));
    assert "42" + ".json" == "42.json";
    assert ArticleBase + "42" + ".json" == ArticleBase + ("42" + ".json");
  }
}
