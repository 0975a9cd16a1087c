/** The tag stripper: `re.sub(r'<.+?>', '', s)`.

    Python's regular-expression engine scans left to right. At a `<` it tries
    the lazy `.+?`: one character that is not a newline (which may itself be a
    `>`), then as few more non-newline characters as possible before a `>`.
    So the tag opened at index i closes at the smallest j >= i + 2 with
    `s[j] == '>'`, provided no newline lies in `s[i+1..j)`. Where no tag
    closes, the character is copied and the scan moves on by one. */
module Tags {
  import opened Values

  /** `s[0]` opens a tag that `s[j]` closes. */
  predicate ClosesAt(s: string, j: int)
  {
    0 < |s| && s[0] == '<' && 2 <= j < |s| && s[j] == '>' &&
    forall k :: 1 <= k < j ==> s[k] != '\n'
  }

  /** The lazy scan for the closing `>` of the tag `s[0]` opens, resumed at
      index k: everything in `s[1..k)` is already known to be neither a newline
      nor (from index 2 on) a `>`. */
  function ScanClose(s: string, k: nat): (r: Option<nat>)
    requires 0 < |s| && s[0] == '<' && 1 <= k
    ensures r.Some? ==> k <= r.value < |s| && 2 <= r.value && s[r.value] == '>'
    decreases |s| - k
  {
    if k >= |s| then None
    else if s[k] == '\n' then None
    else if k >= 2 && s[k] == '>' then Some(k)
    else ScanClose(s, k + 1)
  }

  /** The scan finds the first closing index, if there is one. */
  lemma {:induction false} ScanCloseFirst(s: string, k: nat)
    requires 0 < |s| && s[0] == '<' && 1 <= k
    requires forall m :: 1 <= m < k && m < |s| ==> s[m] != '\n' && (m >= 2 ==> s[m] != '>')
    ensures var r := ScanClose(s, k);
            (r.Some? ==> ClosesAt(s, r.value) && forall j :: j < r.value ==> !ClosesAt(s, j)) &&
            (r.None? ==> forall j :: !ClosesAt(s, j))
    decreases |s| - k
  {
    if k < |s| && s[k] != '\n' && !(k >= 2 && s[k] == '>') {
      ScanCloseFirst(s, k + 1);
    } else if k < |s| && s[k] == '\n' {
      forall j ensures !ClosesAt(s, j) {
        if k < j < |s| {
          assert s[k] == '\n';
        }
      }
    }
  }

  /** Where the tag starting at `s[0]` ends, if a tag starts and ends there. */
  function TagEnd(s: string): (r: Option<nat>)
    ensures r.Some? ==> 2 <= r.value < |s| && s[0] == '<' && s[r.value] == '>'
  {
    if 0 < |s| && s[0] == '<' then ScanClose(s, 1) else None
  }

  /** The tag ends at the smallest closing index, and there is none when the
      scan finds none. */
  lemma TagEndFirst(s: string)
    ensures var r := TagEnd(s);
            (r.Some? ==> ClosesAt(s, r.value) && forall j :: j < r.value ==> !ClosesAt(s, j)) &&
            (r.None? ==> forall j :: !ClosesAt(s, j))
  {
    if 0 < |s| && s[0] == '<' {
      ScanCloseFirst(s, 1);
    }
  }

  /** `re.sub(r'<.+?>', '', s)` */
  function Strip(s: string): (r: string)
    ensures |r| <= |s|
    decreases |s|
  {
    if s == [] then []
    else
      match TagEnd(s)
      case Some(j) => Strip(s[j + 1..])
      case None => [s[0]] + Strip(s[1..])
  }

  /** No tag starts anywhere in `t`. */
  predicate Clean(t: string)
  {
    forall i :: 0 <= i < |t| ==> TagEnd(t[i..]).None?
  }

  /** Text without tags is left as it is. */
  lemma {:induction false} StripClean(t: string)
    requires Clean(t)
    ensures Strip(t) == t
    decreases |t|
  {
    if t != [] {
      assert t[0..] == t;
      assert Clean(t[1..]) by {
        forall i | 0 <= i < |t[1..]| ensures TagEnd(t[1..][i..]).None? {
          assert t[1..][i..] == t[i + 1..];
        }
      }
      StripClean(t[1..]);
    }
  }

  /** The index of the first newline of `w`, or `|w|`. */
  function LineEnd(w: string): (p: nat)
    ensures p <= |w|
    ensures forall k :: 0 <= k < p ==> w[k] != '\n'
    ensures p < |w| ==> w[p] == '\n'
  {
    if w == [] || w[0] == '\n' then 0 else 1 + LineEnd(w[1..])
  }

  /** Text with no `>` past its first character, followed by a newline or
      by nothing, closes no tag: it is copied as it is and the scan resumes
      at the newline. */
  lemma {:induction false} StripKeepsLine(a: string, b: string)
    requires forall k :: 1 <= k < |a| ==> a[k] != '>'
    requires b == [] || b[0] == '\n'
    ensures Strip(a + b) == a + Strip(b)
    decreases |a|
  {
    if a != [] {
      var s := a + b;
      assert TagEnd(s).None? by {
        TagEndFirst(s);
        forall j ensures !ClosesAt(s, j) {
          if 2 <= j < |a| {
            assert s[j] == a[j];
          } else if |a| <= j < |s| {
            assert s[|a|] == '\n';
          }
        }
      }
      assert Strip(s) == [a[0]] + Strip(a[1..] + b) by {
        assert s[1..] == a[1..] + b;
      }
      assert Strip(a[1..] + b) == a[1..] + Strip(b) by {
        StripKeepsLine(a[1..], b);
      }
      assert [a[0]] + (a[1..] + Strip(b)) == a + Strip(b);
    } else {
      assert a + b == b;
    }
  }

  /** After a `<` that opens no tag, the stripped text begins with the rest
      of the line unchanged, and then a newline if there is one. */
  lemma OpenLine(s: string)
    requires 0 < |s| && s[0] == '<' && TagEnd(s).None?
    ensures var p := LineEnd(s[1..]);
            Strip(s[1..]) == s[1..p + 1] + Strip(s[p + 1..]) &&
            (p + 1 < |s| ==> s[p + 1] == '\n' && Strip(s[p + 1..])[0] == '\n')
  {
    var u := s[1..];
    var p := LineEnd(u);
    var a, b := s[1..p + 1], s[p + 1..];
    assert forall k :: 1 <= k < |a| ==> a[k] != '>' by {
      TagEndFirst(s);
      forall k | 1 <= k < |a| ensures a[k] != '>' {
        assert a[k] == s[k + 1];
        assert !ClosesAt(s, k + 1);
      }
    }
    assert b == [] || b[0] == '\n' by {
      assert p < |u| ==> u[p] == s[p + 1];
    }
    assert u == a + b;
    StripKeepsLine(a, b);
    if b != [] {
      assert Strip(b) == [b[0]] + Strip(b[1..]);
    }
  }

  /** A `<` that opens no tag in `s` opens none in the stripped text either. */
  lemma OpenStaysOpen(s: string)
    requires 0 < |s| && s[0] == '<' && TagEnd(s).None?
    ensures TagEnd([s[0]] + Strip(s[1..])).None?
  {
    var p := LineEnd(s[1..]);
    var x := [s[0]] + Strip(s[1..]);
    OpenLine(s);
    assert x == s[..p + 1] + Strip(s[p + 1..]);
    TagEndFirst(s);
    forall j | 2 <= j < |x| ensures !ClosesAt(x, j) {
      if j <= p {
        assert x[..j + 1] == s[..j + 1];
        ClosesAtPrefix(s, x, j);
      } else {
        assert x[p + 1] == '\n';
      }
    }
    TagEndFirst(x);
  }

  /** Whether `s[0]` opens a tag that `s[j]` closes depends on `s[..j + 1]`
      alone. */
  lemma ClosesAtPrefix(s: string, x: string, j: int)
    requires 0 <= j < |s| && j < |x| && s[..j + 1] == x[..j + 1]
    ensures ClosesAt(s, j) == ClosesAt(x, j)
  {
    forall k | 0 <= k <= j ensures s[k] == x[k] {
      assert s[k] == s[..j + 1][k];
      assert x[k] == x[..j + 1][k];
    }
  }

  /** What the stripper returns holds no tag. */
  lemma {:induction false} StripIsClean(s: string)
    ensures Clean(Strip(s))
    decreases |s|
  {
    if s != [] {
      match TagEnd(s)
      case Some(j) =>
        StripIsClean(s[j + 1..]);
      case None =>
        StripIsClean(s[1..]);
        var t := Strip(s[1..]);
        var x := [s[0]] + t;
        forall i | 0 <= i < |x| ensures TagEnd(x[i..]).None? {
          if i == 0 {
            assert x[0..] == x;
            if s[0] == '<' {
              OpenStaysOpen(s);
            }
          } else {
            assert x[i..] == t[i - 1..];
          }
        }
    }
  }

  /** Stripping twice is stripping once. */
  lemma StripIdempotent(s: string)
    ensures Strip(Strip(s)) == Strip(s)
  {
    StripIsClean(s);
    StripClean(Strip(s));
  }

  /** Text without `>` holds no tag. */
  lemma NoCloserIsClean(t: string)
    requires '>' !in t
    ensures Clean(t)
  {
    forall i | 0 <= i < |t| ensures TagEnd(t[i..]).None? {
      assert forall j :: 0 <= j < |t[i..]| ==> t[i..][j] in t;
    }
  }

  /** A prefix without `<` is copied and the scan resumes after it. */
  lemma {:induction false} StripPlainPrefix(a: string, b: string)
    requires '<' !in a
    ensures Strip(a + b) == a + Strip(b)
    decreases |a|
  {
    if a != [] {
      var s := a + b;
      assert a[0] in a;
      assert s[0] == a[0] != '<';
      assert Strip(s) == [s[0]] + Strip(s[1..]);
      assert s[1..] == a[1..] + b;
      StripPlainPrefix(a[1..], b);
      assert [a[0]] + (a[1..] + Strip(b)) == a + Strip(b);
    } else {
      assert a + b == b;
    }
  }

  /** ` there` holds no tag. */
  lemma PlainSample(s: string)
    requires s == " there"
    ensures Strip(s) == s
  {
    NoCloserIsClean(s);
    StripClean(s);
  }

  /** A whole tag at the front goes, and the scan resumes right after its
      `>`. */
  lemma StripTagPrefix(t: string, x: string)
    requires 3 <= |t| && t[0] == '<' && t[|t| - 1] == '>'
    requires forall k :: 1 <= k < |t| - 1 ==> t[k] != '\n' && (k >= 2 ==> t[k] != '>')
    ensures Strip(t + x) == Strip(x)
  {
    var s := t + x;
    var j := |t| - 1;
    TagEndFirst(s);
    assert ClosesAt(s, j);
    assert forall k :: 2 <= k < j ==> s[k] == t[k];
    assert s[j + 1..] == x;
  }

  /** The sample of the article feed: both tags of `<b>hi</b> there` go.
      (The sample is given in pieces so that the verifier does not evaluate
      the stripper on a literal by unfolding it.) */
  lemma BoldSample(open: string, word: string, close: string, rest: string)
    requires open == "<b>" && word == "hi" && close == "</b>" && rest == " there"
    ensures Strip(open + word + close + rest) == "hi there"
  {
    var tail := word + (close + rest);
    assert Strip(close + rest) == rest by {
      StripTagPrefix(close, rest);
      PlainSample(rest);
    }
    assert Strip(tail) == word + rest by {
      StripPlainPrefix(word, close + rest);
    }
    assert Strip(open + tail) == Strip(tail) by {
      StripTagPrefix(open, tail);
    }
    assert open + word + close + rest == open + tail;
  }

  /** `.+?` needs one character, which may be a `>`, but never a newline; and
      a `<` with no `>` after it stays. */
  lemma KeptSamples(s1: string, s2: string, s3: string)
    requires s1 == "<>" && s2 == "a<b" && s3 == "<\n>"
    ensures Strip(s1) == s1 && Strip(s2) == s2 && Strip(s3) == s3
  {
    NoCloserIsClean(s2);
    StripClean(s2);
    forall i | 0 <= i < |s1| ensures TagEnd(s1[i..]).None? {
      assert |s1[i..]| <= 2;
    }
    StripClean(s1);
    forall i | 0 <= i < |s3| ensures TagEnd(s3[i..]).None? {
      if i == 0 {
        assert s3[0..] == s3;
        TagEndFirst(s3);
        assert s3[1] == '\n';
      }
    }
    StripClean(s3);
  }

  /** The character right after `<` is taken by `.` even when it is `>`:
      `<>>` is one tag. */
  lemma EmptyLookingTagSample(s: string)
    requires s == "<>>"
    ensures Strip(s) == ""
  {
    TagEndFirst(s);
    assert ClosesAt(s, 2);
    assert s[3..] == [];
  }
}
