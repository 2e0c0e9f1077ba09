/** Python string operations used across the agent, on `seq<char>`.
    `IsSpace` is Python's `str.isspace` (the characters `str.strip()` and the
    regular-expression class `\s` treat as whitespace). */
module Text {

  datatype Option<T> = None | Some(value: T)

  /** Every code point for which Python's `str.isspace()` is true. */
  predicate IsSpace(c: char) {
    c == ' ' || c == '\t' || c == '\n' || c == '\r' || c == '\U{0B}' || c == '\U{0C}'
    || ('\U{1C}' <= c <= '\U{1F}') || c == '\U{85}' || c == '\U{A0}' || c == '\U{1680}'
    || ('\U{2000}' <= c <= '\U{200A}') || c == '\U{2028}' || c == '\U{2029}'
    || c == '\U{202F}' || c == '\U{205F}' || c == '\U{3000}'
  }

  predicate NoSpace(s: string) {
    forall i :: 0 <= i < |s| ==> !IsSpace(s[i])
  }

  function LStrip(s: string): (r: string)
    ensures |r| <= |s| && r == s[|s| - |r|..]
    ensures r != [] ==> !IsSpace(r[0])
    ensures forall i :: 0 <= i < |s| - |r| ==> IsSpace(s[i])
  {
    if |s| > 0 && IsSpace(s[0]) then LStrip(s[1..]) else s
  }

  function RStrip(s: string): (r: string)
    ensures |r| <= |s| && r == s[..|r|]
    ensures r != [] ==> !IsSpace(r[|r| - 1])
    ensures forall i :: |r| <= i < |s| ==> IsSpace(s[i])
  {
    if |s| > 0 && IsSpace(s[|s| - 1]) then RStrip(s[..|s| - 1]) else s
  }

  /** Python `str.strip()` with no argument. */
  function Strip(s: string): string {
    RStrip(LStrip(s))
  }

  lemma StripEnds(s: string)
    ensures var r := Strip(s);
      (r != [] ==> !IsSpace(r[0]) && !IsSpace(r[|r| - 1]))
  {
  }

  lemma RStripOfNonSpaceEnd(s: string)
    requires s != [] && !IsSpace(s[|s| - 1])
    ensures RStrip(s) == s
  {
  }

  lemma LStripOfNonSpaceStart(s: string)
    requires s != [] && !IsSpace(s[0])
    ensures LStrip(s) == s
  {
  }

  /** Stripping a string that starts and ends with non-whitespace changes nothing. */
  lemma StripOfTrimmed(s: string)
    requires s != [] && !IsSpace(s[0]) && !IsSpace(s[|s| - 1])
    ensures Strip(s) == s
  {
  }

  /** Right-stripping `p + q` keeps all of `p` when `p` ends in non-whitespace. */
  lemma {:induction false} RStripKeepsPrefix(p: string, q: string)
    requires p != [] && !IsSpace(p[|p| - 1])
    ensures |p| <= |RStrip(p + q)| && RStrip(p + q)[..|p|] == p
  {
    if q == [] {
      assert p + q == p;
    } else if IsSpace(q[|q| - 1]) {
      assert (p + q)[..|p + q| - 1] == p + q[..|q| - 1];
      RStripKeepsPrefix(p, q[..|q| - 1]);
    } else {
      RStripOfNonSpaceEnd(p + q);
      assert (p + q)[..|p|] == p;
    }
  }

  predicate AllSpace(s: string) {
    forall i :: 0 <= i < |s| ==> IsSpace(s[i])
  }

  /** Stripping keeps a prefix that neither starts nor ends with
      whitespace. */
  lemma StripKeepsPrefix(s: string, t: string)
    requires StartsWith(s, t) && t != [] && !IsSpace(t[0]) && !IsSpace(t[|t| - 1])
    ensures StartsWith(Strip(s), t)
  {
    assert s == t + s[|t|..];
    LStripOfNonSpaceStart(s);
    RStripKeepsPrefix(t, s[|t|..]);
  }

  /** `s.strip()` is empty exactly when `s` is all whitespace. */
  lemma StripEmptyIff(s: string)
    ensures Strip(s) == "" <==> AllSpace(s)
  {
    var l := LStrip(s);
    if !AllSpace(s) && l != [] {
      assert !IsSpace(l[0]);
      assert RStrip(l)[..1] == l[..1] by { RStripKeepsPrefix(l[..1], l[1..]); assert l[..1] + l[1..] == l; }
    }
  }

  lemma {:induction false} LStripPadded(a: string, x: string)
    requires AllSpace(a) && x != [] && !IsSpace(x[0])
    ensures LStrip(a + x) == x
    decreases |a|
  {
    if a == [] {
      assert a + x == x;
      LStripOfNonSpaceStart(x);
    } else {
      assert (a + x)[1..] == a[1..] + x;
      LStripPadded(a[1..], x);
    }
  }

  lemma {:induction false} RStripPadded(x: string, b: string)
    requires AllSpace(b) && x != [] && !IsSpace(x[|x| - 1])
    ensures RStrip(x + b) == x
    decreases |b|
  {
    if b == [] {
      assert x + b == x;
      RStripOfNonSpaceEnd(x);
    } else {
      assert (x + b)[..|x + b| - 1] == x + b[..|b| - 1];
      RStripPadded(x, b[..|b| - 1]);
    }
  }

  /** Stripping whitespace from around a trimmed text gives the text back. */
  lemma StripPadded(a: string, x: string, b: string)
    requires AllSpace(a) && AllSpace(b)
    requires x != [] && !IsSpace(x[0]) && !IsSpace(x[|x| - 1])
    ensures Strip(a + x + b) == x
  {
    assert a + x + b == a + (x + b);
    LStripPadded(a, x + b);
    RStripPadded(x, b);
  }

  lemma StripIdempotent(s: string)
    ensures Strip(Strip(s)) == Strip(s)
  {
    var r := Strip(s);
    if r != [] {
      StripOfTrimmed(r);
    }
  }

  // ---- prefixes, suffixes, occurrences ----

  predicate StartsWith(s: string, p: string) {
    |p| <= |s| && s[..|p|] == p
  }

  predicate EndsWith(s: string, p: string) {
    |p| <= |s| && s[|s| - |p|..] == p
  }

  /** Python `str.removeprefix`. */
  function RemovePrefix(s: string, p: string): (r: string)
    ensures StartsWith(s, p) ==> s == p + r
    ensures !StartsWith(s, p) ==> r == s
  {
    if StartsWith(s, p) then s[|p|..] else s
  }

  /** Python `str.removesuffix` (an empty suffix removes nothing). */
  function RemoveSuffix(s: string, p: string): (r: string)
    ensures p != [] && EndsWith(s, p) ==> s == r + p
    ensures !(p != [] && EndsWith(s, p)) ==> r == s
  {
    if p != [] && EndsWith(s, p) then s[..|s| - |p|] else s
  }

  predicate OccursAt(s: string, d: string, i: int) {
    0 <= i && i + |d| <= |s| && s[i..i + |d|] == d
  }

  /** Python `d in s`. */
  predicate Contains(s: string, d: string) {
    exists i :: 0 <= i <= |s| && OccursAt(s, d, i)
  }

  /** The first occurrence of `d` in `s` at or after `k` (Python `s.find(d, k)`). */
  function FindFrom(s: string, d: string, k: nat): (r: Option<nat>)
    decreases |s| - k
    ensures r.Some? ==> (k <= r.value && OccursAt(s, d, r.value)
                         && forall j :: k <= j < r.value ==> !OccursAt(s, d, j))
    ensures r.None? ==> forall j :: k <= j ==> !OccursAt(s, d, j)
  {
    if k + |d| > |s| then None
    else if s[k..k + |d|] == d then Some(k)
    else FindFrom(s, d, k + 1)
  }

  function Find(s: string, d: string): (r: Option<nat>)
    ensures r.Some? <==> Contains(s, d)
    ensures r.Some? ==> OccursAt(s, d, r.value) && forall j :: 0 <= j < r.value ==> !OccursAt(s, d, j)
  {
    FindFrom(s, d, 0)
  }

  /** Python `s.rfind(d, 0, end)`: the last occurrence lying wholly inside `s[..end]`. */
  function RFindBefore(s: string, d: string, end: nat): (r: Option<nat>)
    decreases end
    ensures r.Some? ==> r.value + |d| <= end && OccursAt(s, d, r.value)
    ensures r.Some? ==> forall j :: r.value < j && j + |d| <= end ==> !OccursAt(s, d, j)
    ensures r.None? ==> forall j :: 0 <= j && j + |d| <= end ==> !OccursAt(s, d, j)
  {
    if end < |d| then None
    else if end <= |s| && s[end - |d|..end] == d then Some(end - |d|)
    else RFindBefore(s, d, end - 1)
  }

  /** An occurrence inside a middle part is an occurrence in the whole. */
  lemma ContainsWithin(a: string, x: string, b: string, w: string)
    requires Contains(x, w)
    ensures Contains(a + x + b, w)
  {
    var i :| 0 <= i <= |x| && OccursAt(x, w, i);
    var s := a + x + b;
    assert s[|a| + i..|a| + i + |w|] == x[i..i + |w|];
    assert OccursAt(s, w, |a| + i);
  }

  /** A part occurs in the whole. */
  lemma ContainsPart(a: string, x: string, b: string)
    ensures Contains(a + x + b, x)
  {
    var s := a + x + b;
    assert s[|a|..|a| + |x|] == x;
    assert OccursAt(s, x, |a|);
  }

  // ---- split and join ----

  /** Python `str.split(d)` for a non-empty separator. */
  function Split(s: string, d: string): (r: seq<string>)
    requires d != []
    decreases |s|
    ensures |r| >= 1
    ensures Contains(s, d) <==> |r| >= 2
  {
    match Find(s, d)
    case None => [s]
    case Some(i) => [s[..i]] + Split(s[i + |d|..], d)
  }

  /** Python `sep.join(parts)`. */
  function Join(parts: seq<string>, sep: string): string {
    if |parts| == 0 then ""
    else if |parts| == 1 then parts[0]
    else parts[0] + sep + Join(parts[1..], sep)
  }

  /** Joining the pieces of a split with the same separator gives back the text. */
  lemma {:induction false} JoinSplit(s: string, d: string)
    requires d != []
    ensures Join(Split(s, d), d) == s
  {
    match Find(s, d)
    case None =>
    case Some(i) =>
      var rest := s[i + |d|..];
      JoinSplit(rest, d);
      assert Split(s, d) == [s[..i]] + Split(rest, d);
      assert s == s[..i] + d + rest;
  }

  /** No piece of a split contains the separator. */
  lemma {:induction false} SplitPiecesFree(s: string, d: string)
    requires d != []
    ensures forall k :: 0 <= k < |Split(s, d)| ==> !Contains(Split(s, d)[k], d)
  {
    match Find(s, d)
    case None =>
    case Some(i) =>
      SplitPiecesFree(s[i + |d|..], d);
      var head := s[..i];
      forall j | OccursAt(head, d, j) ensures false {
        assert s[j..j + |d|] == head[j..j + |d|];
        assert OccursAt(s, d, j);
      }
  }

  /** A text without the separator splits into itself alone. */
  lemma SplitOfAbsent(s: string, d: string)
    requires d != [] && !Contains(s, d)
    ensures Split(s, d) == [s]
  {
  }

  /** Splitting at the first occurrence `i` of the separator: the first
      piece is the text before it, the rest are the pieces of the text
      after it. */
  lemma SplitAtFirst(s: string, d: string, i: nat)
    requires d != [] && OccursAt(s, d, i)
    requires forall j :: 0 <= j < i ==> !OccursAt(s, d, j)
    ensures Split(s, d) == [s[..i]] + Split(s[i + |d|..], d)
  {
    assert Find(s, d) == Some(i);
  }

  /** Every character of a piece of a split comes from the text. */
  lemma {:induction false} SplitPiecesIn(s: string, d: string, p: string)
    requires d != [] && p in Split(s, d)
    ensures forall i :: 0 <= i < |p| ==> p[i] in s
    decreases |s|
  {
    match Find(s, d)
    case None =>
    case Some(i) =>
      var rest := s[i + |d|..];
      if p != s[..i] {
        SplitPiecesIn(rest, d, p);
        forall j | 0 <= j < |p| ensures p[j] in s {
          var m :| 0 <= m < |rest| && rest[m] == p[j];
          assert s[i + |d| + m] == p[j];
        }
      } else {
        forall j | 0 <= j < |p| ensures p[j] in s {
          assert s[j] == p[j];
        }
      }
  }

  lemma JoinAppend(parts: seq<string>, x: string, sep: string)
    requires parts != []
    ensures Join(parts + [x], sep) == Join(parts, sep) + sep + x
  {
    if |parts| == 1 {
      assert parts + [x] == [parts[0], x];
    } else {
      assert (parts + [x])[1..] == parts[1..] + [x];
      JoinAppend(parts[1..], x, sep);
    }
  }

  /** Every part occurs in the joined text. */
  lemma {:induction false} JoinContainsParts(parts: seq<string>, sep: string, k: nat)
    requires k < |parts|
    ensures Contains(Join(parts, sep), parts[k])
    decreases k
  {
    var j := Join(parts, sep);
    if k == 0 {
      assert OccursAt(j, parts[0], 0) by { JoinStartsWith(parts, sep); }
    } else {
      var rest := Join(parts[1..], sep);
      JoinContainsParts(parts[1..], sep, k - 1);
      var i :| 0 <= i <= |rest| && OccursAt(rest, parts[1..][k - 1], i);
      var off := |parts[0] + sep|;
      assert j == parts[0] + sep + rest;
      assert j[off + i..off + i + |parts[k]|] == rest[i..i + |parts[k]|];
      assert OccursAt(j, parts[k], off + i);
    }
  }

  lemma JoinStartsWith(parts: seq<string>, sep: string)
    requires parts != []
    ensures StartsWith(Join(parts, sep), parts[0])
  {
  }

  // ---- character maps ----

  /** Python `s.replace(c, r)` for a one-character pattern. */
  function ReplaceChar(s: string, c: char, r: string): (t: string)
    ensures c !in r ==> c !in t
  {
    if s == [] then ""
    else (if s[0] == c then r else [s[0]]) + ReplaceChar(s[1..], c, r)
  }

  /** Python `str.lower()` on ASCII and Latin-1 letters. */
  function LowerChar(c: char): char {
    if 'A' <= c <= 'Z' then (c as int + 32) as char
    else if ('\U{C0}' <= c <= '\U{DE}') && c != '\U{D7}' then (c as int + 32) as char
    else c
  }

  function Lower(s: string): (r: string)
    ensures |r| == |s| && forall i :: 0 <= i < |s| ==> r[i] == LowerChar(s[i])
  {
    if s == [] then "" else [LowerChar(s[0])] + Lower(s[1..])
  }

  // ---- numbers ----

  function DigitChar(d: nat): char
    requires d < 10
  {
    ('0' as int + d) as char
  }

  /** Python `str(n)` for a natural number. */
  function NatToString(n: nat): (r: string)
    ensures r != [] && forall i :: 0 <= i < |r| ==> '0' <= r[i] <= '9'
  {
    if n < 10 then [DigitChar(n)] else NatToString(n / 10) + [DigitChar(n % 10)]
  }

  function DigitValue(c: char): nat
    requires '0' <= c <= '9'
  {
    c as int - '0' as int
  }

  /** Reads back a string of decimal digits. */
  function ParseNat(s: string): nat
    requires forall i :: 0 <= i < |s| ==> '0' <= s[i] <= '9'
  {
    if s == [] then 0 else ParseNat(s[..|s| - 1]) * 10 + DigitValue(s[|s| - 1])
  }

  lemma {:induction false} ParseNatToString(n: nat)
    ensures ParseNat(NatToString(n)) == n
  {
    if n >= 10 {
      var r := NatToString(n);
      assert r[..|r| - 1] == NatToString(n / 10);
      ParseNatToString(n / 10);
    }
  }

  /** Python `f"{n:02d}"`. */
  function Pad2(n: nat): (r: string)
    ensures |r| >= 2
    ensures forall i :: 0 <= i < |r| ==> '0' <= r[i] <= '9'
  {
    if n < 10 then "0" + NatToString(n) else NatToString(n)
  }

  /** The padded field reads back as the number, and is exactly two digits
      below 100. */
  lemma Pad2Reads(n: nat)
    ensures ParseNat(Pad2(n)) == n
    ensures n < 100 ==> |Pad2(n)| == 2
  {
    ParseNatToString(n);
    if n < 10 {
      var r := Pad2(n);
      assert r[..1] == "0";
      assert r[..1][..0] == [];
    } else if n < 100 {
      assert NatToString(n) == NatToString(n / 10) + [DigitChar(n % 10)];
    }
  }
}
