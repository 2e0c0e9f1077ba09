/** The text helpers of src/agents/search/tools.py: picking a result's text,
    whitespace normalisation, quote clipping, bullet truncation, result-list
    coercion and the score order of the results. */
module SearchText {
  import opened Text
  import opened Json

  // ---- whitespace ----

  /** Every whitespace character is a plain space and no two whitespace
      characters are adjacent. */
  predicate WellSpaced(s: string) {
    (forall i :: 0 <= i < |s| && IsSpace(s[i]) ==> s[i] == ' ')
    && (forall i :: 0 <= i < |s| - 1 ==> !(IsSpace(s[i]) && IsSpace(s[i + 1])))
  }

  /** `re.sub(r"\s+", " ", s)`: each maximal run of whitespace becomes one
      space. */
  function Collapse(s: string): (r: string)
    decreases |s|
    ensures WellSpaced(r)
    ensures s == [] <==> r == []
    ensures s != [] ==> r[0] == (if IsSpace(s[0]) then ' ' else s[0])
  {
    if s == [] then []
    else if IsSpace(s[0]) then
      var rest := LStrip(s[1..]);
      assert rest != [] ==> !IsSpace(rest[0]);
      " " + Collapse(rest)
    else [s[0]] + Collapse(s[1..])
  }

  /** `_normalize_whitespace`. */
  function Normalize(s: string): string {
    Strip(Collapse(s))
  }

  /** The non-whitespace characters of a text, in order. */
  function Squeeze(s: string): string {
    if s == [] then [] else (if IsSpace(s[0]) then [] else [s[0]]) + Squeeze(s[1..])
  }

  lemma {:induction false} SqueezeAppend(a: string, b: string)
    ensures Squeeze(a + b) == Squeeze(a) + Squeeze(b)
  {
    if a != [] {
      assert (a + b)[1..] == a[1..] + b;
      SqueezeAppend(a[1..], b);
    } else {
      assert a + b == b;
    }
  }

  lemma {:induction false} SqueezeOfSpaces(s: string)
    requires forall i :: 0 <= i < |s| ==> IsSpace(s[i])
    ensures Squeeze(s) == []
  {
    if s != [] {
      SqueezeOfSpaces(s[1..]);
    }
  }

  /** Stripping removes whitespace only. */
  lemma StripKeepsText(s: string)
    ensures Squeeze(Strip(s)) == Squeeze(s)
  {
    LStripKeepsText(s);
    RStripKeepsText(LStrip(s));
  }

  lemma LStripKeepsText(s: string)
    ensures Squeeze(LStrip(s)) == Squeeze(s)
  {
    var l := LStrip(s);
    var pre := s[..|s| - |l|];
    assert s == pre + l;
    assert forall i :: 0 <= i < |pre| ==> pre[i] == s[i];
    SqueezeOfSpaces(pre);
    SqueezeAppend(pre, l);
  }

  lemma RStripKeepsText(l: string)
    ensures Squeeze(RStrip(l)) == Squeeze(l)
  {
    var r := RStrip(l);
    var post := l[|r|..];
    assert l == r + post;
    assert forall i :: 0 <= i < |post| ==> post[i] == l[|r| + i];
    SqueezeOfSpaces(post);
    SqueezeAppend(r, post);
  }

  /** Collapsing removes whitespace only. */
  lemma {:induction false} CollapseKeepsText(s: string)
    ensures Squeeze(Collapse(s)) == Squeeze(s)
    decreases |s|
  {
    if s != [] {
      if IsSpace(s[0]) {
        var rest := LStrip(s[1..]);
        CollapseKeepsText(rest);
        SqueezeAppend(" ", Collapse(rest));
        var t := s[1..];
        assert t == t[..|t| - |rest|] + rest;
        SqueezeAppend(t[..|t| - |rest|], rest);
        SqueezeOfSpaces(t[..|t| - |rest|]);
      } else {
        CollapseKeepsText(s[1..]);
        SqueezeAppend([s[0]], Collapse(s[1..]));
      }
    }
  }

  /** A well-spaced text is its own collapse. */
  lemma {:induction false} CollapseOfWellSpaced(s: string)
    requires WellSpaced(s)
    ensures Collapse(s) == s
    decreases |s|
  {
    if s != [] {
      var t := s[1..];
      assert WellSpaced(t) by {
        forall i | 0 <= i < |t| - 1 ensures !(IsSpace(t[i]) && IsSpace(t[i + 1])) {
          assert t[i] == s[i + 1] && t[i + 1] == s[i + 2];
        }
      }
      if IsSpace(s[0]) {
        assert t == [] || !IsSpace(t[0]) by {
          if t != [] { assert t[0] == s[1]; }
        }
        if t != [] {
          LStripOfNonSpaceStart(t);
        }
      }
      CollapseOfWellSpaced(t);
    }
  }

  lemma WellSpacedSlice(s: string, i: nat, j: nat)
    requires WellSpaced(s) && i <= j <= |s|
    ensures WellSpaced(s[i..j])
  {
    var t := s[i..j];
    forall k | 0 <= k < |t| - 1 ensures !(IsSpace(t[k]) && IsSpace(t[k + 1])) {
      assert t[k] == s[i + k] && t[k + 1] == s[i + k + 1];
    }
  }

  lemma StripWellSpaced(s: string)
    requires WellSpaced(s)
    ensures WellSpaced(Strip(s))
  {
    var l := LStrip(s);
    WellSpacedSlice(s, |s| - |l|, |s|);
    WellSpacedSlice(l, 0, |RStrip(l)|);
  }

  /** The normalised text has no leading or trailing whitespace, no run of
      two whitespace characters and no whitespace but plain spaces, keeps
      every other character in order, and normalising again changes
      nothing. */
  lemma NormalizeProperties(s: string)
    ensures var n := Normalize(s);
      (n != [] ==> !IsSpace(n[0]) && !IsSpace(n[|n| - 1]))
      && WellSpaced(n)
      && Squeeze(n) == Squeeze(s)
      && Normalize(n) == n
  {
    var c := Collapse(s);
    var n := Strip(c);
    StripEnds(c);
    StripWellSpaced(c);
    StripKeepsText(c);
    CollapseKeepsText(s);
    CollapseOfWellSpaced(n);
    if n != [] {
      StripOfTrimmed(n);
    }
  }

  // ---- clipping ----

  const Ellipsis := "…"

  /** Where `_clip_for_quote` cuts: at the last ". " lying wholly within the
      first `maxChars` characters, else at `maxChars`. */
  function QuoteCut(n: string, maxChars: nat): (cut: nat)
    ensures cut <= maxChars
  {
    match RFindBefore(n, ". ", maxChars)
    case Some(i) => i
    case None => maxChars
  }

  /** `_clip_for_quote(s, max_chars)`. */
  function ClipForQuote(s: string, maxChars: nat): string {
    var n := Normalize(s);
    if |n| <= maxChars then n else RStrip(n[..QuoteCut(n, maxChars)]) + Ellipsis
  }

  /** A short enough normalised text is returned whole; a longer one is cut
      at the last sentence end within the limit (or at the limit), its kept
      prefix right-stripped, and "…" appended, so the result never exceeds
      the limit by more than the ellipsis. */
  lemma ClipForQuoteShape(s: string, maxChars: nat)
    ensures var n, r := Normalize(s), ClipForQuote(s, maxChars);
      (|n| <= maxChars ==> r == n)
      && (|n| > maxChars ==>
            EndsWith(r, Ellipsis) && |r| <= maxChars + 1
            && r[..|r| - 1] == RStrip(n[..QuoteCut(n, maxChars)])
            && StartsWith(n, r[..|r| - 1]))
  {
    var n := Normalize(s);
    if |n| > maxChars {
      var cut := QuoteCut(n, maxChars);
      var kept := RStrip(n[..cut]);
      var r := kept + Ellipsis;
      assert r[..|r| - 1] == kept;
      assert n[..|kept|] == n[..cut][..|kept|];
    }
  }

  /** The cut is a sentence boundary when one lies within the limit, and no
      later one does; otherwise it is the limit itself. */
  lemma QuoteCutIsLastSentenceEnd(n: string, maxChars: nat)
    ensures var cut := QuoteCut(n, maxChars);
      (exists j :: 0 <= j && j + 2 <= maxChars && OccursAt(n, ". ", j)) ==>
        (OccursAt(n, ". ", cut) && cut + 2 <= maxChars
         && forall j :: cut < j && j + 2 <= maxChars ==> !OccursAt(n, ". ", j))
    ensures (forall j :: 0 <= j && j + 2 <= maxChars ==> !OccursAt(n, ". ", j)) ==>
      QuoteCut(n, maxChars) == maxChars
  {
  }

  /** `_bullet_from_text(s, max_chars)`. */
  function BulletFromText(s: string, maxChars: nat): string {
    var n := Normalize(s);
    if |n| > maxChars then RStrip(n[..maxChars]) + Ellipsis else n
  }

  /** A short enough normalised text is kept; a longer one becomes its
      first `maxChars` characters, right-stripped, plus "…". */
  lemma BulletShape(s: string, maxChars: nat)
    ensures var n, r := Normalize(s), BulletFromText(s, maxChars);
      (|n| <= maxChars ==> r == n)
      && (|n| > maxChars ==>
            EndsWith(r, Ellipsis) && |r| <= maxChars + 1
            && StartsWith(n[..maxChars], r[..|r| - 1]))
  {
    var n := Normalize(s);
    if |n| > maxChars {
      var kept := RStrip(n[..maxChars]);
      var r := kept + Ellipsis;
      assert r[..|r| - 1] == kept;
    }
  }

  // ---- result lists ----

  /** `_ensure_list`. */
  function EnsureList(obj: Json): seq<Json> {
    match obj
    case JList(items) => items
    case JObj(fields) =>
      if "results" in fields && fields["results"].JList? then fields["results"].items else []
    case _ => []
  }

  /** A list is taken as is, a dict's list-valued "results" is taken, and
      anything else gives the empty list. */
  lemma EnsureListCases(obj: Json)
    ensures obj.JList? ==> EnsureList(obj) == obj.items
    ensures obj.JObj? && "results" in obj.fields && obj.fields["results"].JList? ==>
      EnsureList(obj) == obj.fields["results"].items
    ensures EnsureList(obj) != [] ==>
      obj.JList? || (obj.JObj? && "results" in obj.fields && obj.fields["results"].JList?)
  {
  }

  const TextKeys: seq<string> := ["content", "snippet", "body", "text", "summary"]

  /** The key holds a string that is not blank. */
  predicate Meaningful(d: map<string, Json>, key: string) {
    Get(d, key).JStr? && Strip(Get(d, key).s) != ""
  }

  /** The last resort: `d.get("raw_content") or d.get("raw") or ""`,
      stripped when it is a string. */
  function RawText(d: map<string, Json>): string {
    var v := Or(Or(Get(d, "raw_content"), Get(d, "raw")), JStr(""));
    if v.JStr? then Strip(v.s) else ""
  }

  function FirstMeaningfulFrom(d: map<string, Json>, keys: seq<string>): string {
    if keys == [] then RawText(d)
    else if Meaningful(d, keys[0]) then Strip(Get(d, keys[0]).s)
    else FirstMeaningfulFrom(d, keys[1..])
  }

  /** `_first_meaningful_text`. */
  function FirstMeaningfulText(d: map<string, Json>): string {
    FirstMeaningfulFrom(d, TextKeys)
  }

  /** The text is the stripped value of the first key, in order, that holds
      a non-blank string; when none does, the raw fallback. */
  lemma {:induction false} FirstMeaningfulIsFirst(d: map<string, Json>, keys: seq<string>)
    ensures forall i ::
      (0 <= i < |keys| && Meaningful(d, keys[i]) && (forall j :: 0 <= j < i ==> !Meaningful(d, keys[j])))
      ==> FirstMeaningfulFrom(d, keys) == Strip(d[keys[i]].s)
    ensures (forall i :: 0 <= i < |keys| ==> !Meaningful(d, keys[i])) ==>
      FirstMeaningfulFrom(d, keys) == RawText(d)
  {
    if keys != [] {
      FirstMeaningfulIsFirst(d, keys[1..]);
      forall i | 0 <= i < |keys| && Meaningful(d, keys[i])
        && (forall j :: 0 <= j < i ==> !Meaningful(d, keys[j]))
        ensures FirstMeaningfulFrom(d, keys) == Strip(d[keys[i]].s)
      {
        if i > 0 {
          assert !Meaningful(d, keys[0]);
          assert keys[1..][i - 1] == keys[i];
          assert forall j :: 0 <= j < i - 1 ==> keys[1..][j] == keys[j + 1];
        }
      }
      if forall i :: 0 <= i < |keys| ==> !Meaningful(d, keys[i]) {
        assert !Meaningful(d, keys[0]);
        assert forall i :: 0 <= i < |keys| - 1 ==> keys[1..][i] == keys[i + 1];
      }
    }
  }

  /** Whatever it finds, the text comes back stripped. */
  lemma {:induction false} FirstMeaningfulStripped(d: map<string, Json>, keys: seq<string>)
    ensures var t := FirstMeaningfulFrom(d, keys); Strip(t) == t
  {
    if keys == [] {
      var v := Or(Or(Get(d, "raw_content"), Get(d, "raw")), JStr(""));
      if v.JStr? {
        StripIdempotent(v.s);
      }
    } else if Meaningful(d, keys[0]) {
      StripIdempotent(Get(d, keys[0]).s);
    } else {
      FirstMeaningfulStripped(d, keys[1..]);
    }
  }

  // ---- score order ----

  /** `_score`: `float(d.get("score"))`, or 0.0 when `float` raises
      (`parseFloat` stands for `float` on a string). */
  function Score(d: Json, parseFloat: string -> Option<real>): real {
    if !d.JObj? then 0.0
    else
      match Get(d.fields, "score")
      case JNum(n) => n
      case JBool(b) => if b then 1.0 else 0.0
      case JStr(s) => (match parseFloat(s) case Some(x) => x case None => 0.0)
      case _ => 0.0
  }

  predicate SortedDesc(xs: seq<Json>, key: Json -> real) {
    forall i, j :: 0 <= i < j < |xs| ==> key(xs[i]) >= key(xs[j])
  }

  /** Puts `x` after every element whose key is at least its own. */
  function InsertDesc(x: Json, xs: seq<Json>, key: Json -> real): (r: seq<Json>)
    ensures multiset(r) == multiset(xs) + multiset{x}
    ensures |r| == |xs| + 1
  {
    if xs == [] then [x]
    else if key(x) > key(xs[0]) then [x] + xs
    else
      assert xs == [xs[0]] + xs[1..];
      [xs[0]] + InsertDesc(x, xs[1..], key)
  }

  lemma {:induction false} InsertDescSorted(x: Json, xs: seq<Json>, key: Json -> real)
    requires SortedDesc(xs, key)
    ensures SortedDesc(InsertDesc(x, xs, key), key)
  {
    if xs == [] {
    } else if key(x) > key(xs[0]) {
      SortedCons(x, xs, key);
    } else {
      var tail := xs[1..];
      var rest := InsertDesc(x, tail, key);
      InsertDescSorted(x, tail, key);
      forall j | 0 <= j < |rest| ensures key(xs[0]) >= key(rest[j]) {
        var y := rest[j];
        assert y in multiset(rest);
        if y != x {
          assert y in multiset(tail);
          var k :| 0 <= k < |tail| && tail[k] == y;
          assert xs[k + 1] == y;
        }
      }
      SortedCons(xs[0], rest, key);
    }
  }

  lemma SortedCons(y: Json, rest: seq<Json>, key: Json -> real)
    requires SortedDesc(rest, key)
    requires forall j :: 0 <= j < |rest| ==> key(y) >= key(rest[j])
    ensures SortedDesc([y] + rest, key)
  {
    var r := [y] + rest;
    forall i, j | 0 <= i < j < |r| ensures key(r[i]) >= key(r[j]) {
      assert r[j] == rest[j - 1];
      if i > 0 {
        assert r[i] == rest[i - 1];
      }
    }
  }

  /** `sorted(results, key=_score, reverse=True)`. */
  function SortDesc(xs: seq<Json>, key: Json -> real): seq<Json> {
    if xs == [] then [] else InsertDesc(xs[|xs| - 1], SortDesc(xs[..|xs| - 1], key), key)
  }

  /** The sorted list is in descending key order and holds exactly the
      same results. */
  lemma {:induction false} SortDescCorrect(xs: seq<Json>, key: Json -> real)
    ensures SortedDesc(SortDesc(xs, key), key)
    ensures multiset(SortDesc(xs, key)) == multiset(xs)
  {
    if xs != [] {
      var init := xs[..|xs| - 1];
      SortDescCorrect(init, key);
      InsertDescSorted(xs[|xs| - 1], SortDesc(init, key), key);
      assert xs == init + [xs[|xs| - 1]];
    }
  }

  /** Python `s[:k]`, a negative `k` counting from the end. */
  function SliceTo(s: seq<Json>, k: int): (r: seq<Json>)
    ensures 0 <= k ==> |r| == if k < |s| then k else |s|
    ensures k < 0 ==> |r| == if -k < |s| then |s| + k else 0
    ensures r == s[..|r|]
  {
    if k >= 0 then (if k < |s| then s[..k] else s)
    else if -k < |s| then s[..|s| + k] else []
  }
}
