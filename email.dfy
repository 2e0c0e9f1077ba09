/** The pure parts and the cache of `EmailAgent`
    (src/agents/email/emailAgent.py): the HTML version of a mail body, the
    extraction of the drafted JSON from the model's reply, subject
    truncation and the listings, the unread-listing cache and the search
    for a sent mail across folders. IMAP, SMTP and the model are inputs. */
module EmailAgent {
  import opened Text

  // ---- HTML conversion ----

  /** Python `html.escape(c)` (with `quote=True`) for one character. */
  function EscapeChar(c: char): string {
    if c == '&' then "&amp;"
    else if c == '<' then "&lt;"
    else if c == '>' then "&gt;"
    else if c == '"' then "&quot;"
    else if c == '\'' then "&#x27;"
    else [c]
  }

  predicate IsMarkup(c: char) {
    c == '<' || c == '>' || c == '"' || c == '\''
  }

  /** Python `html.escape(s)`: no markup character is left in the text, and
      line breaks pass through. */
  function HtmlEscape(s: string): (r: string)
    ensures forall i :: 0 <= i < |r| ==> !IsMarkup(r[i])
    ensures ('\n' in r) == ('\n' in s)
  {
    if s == [] then "" else EscapeChar(s[0]) + HtmlEscape(s[1..])
  }

  /** The decoding of the five entities `html.escape` produces (a reference
      for what escaping keeps). */
  function HtmlUnescape(s: string): string
    decreases |s|
  {
    if s == [] then ""
    else if s[0] != '&' then [s[0]] + HtmlUnescape(s[1..])
    else if StartsWith(s, "&amp;") then "&" + HtmlUnescape(s[5..])
    else if StartsWith(s, "&lt;") then "<" + HtmlUnescape(s[4..])
    else if StartsWith(s, "&gt;") then ">" + HtmlUnescape(s[4..])
    else if StartsWith(s, "&quot;") then "\"" + HtmlUnescape(s[6..])
    else if StartsWith(s, "&#x27;") then "'" + HtmlUnescape(s[6..])
    else [s[0]] + HtmlUnescape(s[1..])
  }

  /** Decoding reads one escaped character and goes on after it. */
  lemma UnescapeHead(c: char, rest: string)
    ensures HtmlUnescape(EscapeChar(c) + rest) == [c] + HtmlUnescape(rest)
  {
    var e := EscapeChar(c);
    var t := e + rest;
    assert t[..|e|] == e;
    assert t[|e|..] == rest;
    if c == '&' {
      assert StartsWith(t, "&amp;");
    } else if c == '<' {
      assert !StartsWith(t, "&amp;") by { assert t[1] == 'l'; }
      assert StartsWith(t, "&lt;");
    } else if c == '>' {
      assert !StartsWith(t, "&amp;") by { assert t[1] == 'g'; }
      assert !StartsWith(t, "&lt;") by { assert t[1] == 'g'; }
      assert StartsWith(t, "&gt;");
    } else if c == '"' {
      assert !StartsWith(t, "&amp;") by { assert t[1] == 'q'; }
      assert !StartsWith(t, "&lt;") by { assert t[1] == 'q'; }
      assert !StartsWith(t, "&gt;") by { assert t[1] == 'q'; }
      assert StartsWith(t, "&quot;");
    } else if c == '\'' {
      assert !StartsWith(t, "&amp;") by { assert t[1] == '#'; }
      assert !StartsWith(t, "&lt;") by { assert t[1] == '#'; }
      assert !StartsWith(t, "&gt;") by { assert t[1] == '#'; }
      assert !StartsWith(t, "&quot;") by { assert t[1] == '#'; }
      assert StartsWith(t, "&#x27;");
    } else {
      assert t[0] == c && t[1..] == rest;
    }
  }

  /** Escaping loses nothing: decoding gives the body back. */
  lemma {:induction false} EscapeRoundTrip(s: string)
    ensures HtmlUnescape(HtmlEscape(s)) == s
  {
    if s != [] {
      EscapeRoundTrip(s[1..]);
      UnescapeHead(s[0], HtmlEscape(s[1..]));
      assert s == [s[0]] + s[1..];
    }
  }

  /** `p.replace("\n", "<br>")`. */
  function LineBreaks(p: string): (r: string)
    ensures '\n' !in r
  {
    ReplaceChar(p, '\n', "<br>")
  }

  /** Reads `<br>` back as a line break. */
  function UnBreak(t: string): string
    decreases |t|
  {
    if t == [] then ""
    else if StartsWith(t, "<br>") then "\n" + UnBreak(t[4..])
    else [t[0]] + UnBreak(t[1..])
  }

  /** On escaped text (which holds no `<`), every `<br>` stands for a line
      break of the paragraph, so the paragraph can be read back. */
  lemma {:induction false} LineBreaksRoundTrip(p: string)
    requires '<' !in p
    ensures UnBreak(LineBreaks(p)) == p
  {
    if p != [] {
      LineBreaksRoundTrip(p[1..]);
      var h := if p[0] == '\n' then "<br>" else [p[0]];
      var t := h + LineBreaks(p[1..]);
      assert LineBreaks(p) == t;
      assert t[..|h|] == h;
      assert t[|h|..] == LineBreaks(p[1..]);
      assert p == [p[0]] + p[1..];
    }
  }

  const ParagraphOpen: string := "<p style=\"margin: 10px 0; line-height: 1.6;\">"
  const ParagraphClose: string := "</p>"

  /** One HTML paragraph of the mail. */
  function HtmlParagraph(p: string): string {
    ParagraphOpen + LineBreaks(p) + ParagraphClose
  }

  /** The paragraphs whose `strip()` is not empty (see `StripEmptyIff`),
      in order. */
  function NonBlank(ps: seq<string>): (r: seq<string>)
    ensures |r| <= |ps|
    ensures forall k :: 0 <= k < |r| ==> !AllSpace(r[k]) && r[k] in ps
  {
    if ps == [] then []
    else
      var r := NonBlank(ps[..|ps| - 1]);
      var p := ps[|ps| - 1];
      assert ps == ps[..|ps| - 1] + [p];
      if !AllSpace(p) then r + [p] else r
  }

  /** No non-blank paragraph is dropped, and a text without blank
      paragraphs is kept whole. */
  lemma {:induction false} NonBlankKeepsAll(ps: seq<string>)
    ensures forall k :: 0 <= k < |ps| && !AllSpace(ps[k]) ==> ps[k] in NonBlank(ps)
    ensures (forall k :: 0 <= k < |ps| ==> !AllSpace(ps[k])) ==> NonBlank(ps) == ps
  {
    if ps != [] {
      var init := ps[..|ps| - 1];
      NonBlankKeepsAll(init);
      assert ps == init + [ps[|ps| - 1]];
      forall k | 0 <= k < |ps| && !AllSpace(ps[k]) ensures ps[k] in NonBlank(ps) {
        if k < |ps| - 1 {
          assert ps[k] == init[k];
        }
      }
    }
  }

  /** The `<p>` elements of a body: the escaped body is cut at blank lines
      and each non-blank paragraph is wrapped. */
  function HtmlParagraphs(body: string): (r: seq<string>)
    ensures |r| == |NonBlank(Split(HtmlEscape(body), "\n\n"))|
    ensures forall k :: 0 <= k < |r| ==> r[k] == HtmlParagraph(NonBlank(Split(HtmlEscape(body), "\n\n"))[k])
  {
    var ps := NonBlank(Split(HtmlEscape(body), "\n\n"));
    seq(|ps|, k requires 0 <= k < |ps| => HtmlParagraph(ps[k]))
  }

  /** The template's first line and its last tag. */
  const DocType: string := "<!DOCTYPE html>\n"
  const HtmlClose: string := "</html>"

  const HtmlHead: string := DocType + HeadBody
  const HeadBody: string :=
    "<html lang=\"fr\">\n"
    + "<head>\n"
    + "    <meta charset=\"UTF-8\">\n"
    + "    <meta name=\"viewport\" content=\"width=device-width, initial-scale=1.0\">\n"
    + "    <title>Email</title>\n"
    + "</head>\n"
    + "<body style=\"margin: 0; padding: 0; font-family: 'Segoe UI', Tahoma, Geneva, Verdana, sans-serif; background-color: #f4f4f4;\">\n"
    + "    <div style=\"max-width: 600px; margin: 20px auto; background-color: white; border-radius: 8px; box-shadow: 0 2px 10px rgba(0,0,0,0.1); overflow: hidden;\">\n"
    + "        <!-- Header -->\n"
    + "        <div style=\"background: linear-gradient(135deg, #667eea 0%, #764ba2 100%); padding: 20px; text-align: center;\">\n"
    + "            <h1 style=\"color: white; margin: 0; font-size: 24px; font-weight: 300;\">📧</h1>\n"
    + "        </div>\n"
    + "        \n"
    + "        <!-- Content -->\n"
    + "        <div style=\"padding: 30px;\">\n"
    + "            "
  const HtmlTail: string := TailBody + HtmlClose
  const TailBody: string :=
    "\n"
    + "        </div>\n"
    + "        \n"
    + "        <!-- Footer -->\n"
    + "        <div style=\"background-color: #f8f9fa; padding: 20px; text-align: center; border-top: 1px solid #e9ecef;\">\n"
    + "            <p style=\"margin: 0; color: #6c757d; font-size: 12px;\">\n"
    + "                Envoyé avec ❤️ par AI Email Agent de @kaiiine\n"
    + "            </p>\n"
    + "        </div>\n"
    + "    </div>\n"
    + "</body>\n"

  /** The page around the paragraphs. */
  function Page(paragraphs: string): string {
    HtmlHead + paragraphs + HtmlTail
  }

  /** The whitespace the template literal has before its first tag and
      after its last. */
  const Lead: string := "\n"
  const Trail: string := "\n        "

  /** `_convert_to_html`: the template filled with the paragraphs, then
      stripped. */
  function ConvertToHtml(body: string): string {
    Strip(Lead + Page(Join(HtmlParagraphs(body), "")) + Trail)
  }

  /** The page is exactly the template head, the paragraphs in order and
      the template tail: stripping removes only the literal's own padding. */
  lemma ConvertToHtmlShape(body: string)
    ensures ConvertToHtml(body) == HtmlHead + Join(HtmlParagraphs(body), "") + HtmlTail
  {
    var x := Page(Join(HtmlParagraphs(body), ""));
    TemplateEnds();
    assert x[0] == HtmlHead[0];
    assert x[|x| - 1] == HtmlTail[|HtmlTail| - 1];
    PaddingBlank();
    StripPadded(Lead, x, Trail);
  }

  lemma PaddingBlank()
    ensures AllSpace(Lead) && AllSpace(Trail)
  {
    forall i | 0 <= i < |Trail| ensures IsSpace(Trail[i]) {
      assert Trail[i] == '\n' || Trail[i] == ' ';
    }
  }

  /** The template opens on `<` and closes on `>`. */
  lemma TemplateEnds()
    ensures HtmlHead != [] && HtmlHead[0] == '<'
    ensures HtmlTail != [] && HtmlTail[|HtmlTail| - 1] == '>'
  {
    assert DocType[0] == '<';
    assert HtmlHead[0] == DocType[0];
    assert HtmlClose[|HtmlClose| - 1] == '>';
    assert HtmlTail[|HtmlTail| - 1] == HtmlClose[|HtmlClose| - 1];
  }

  /** What each `<p>` shows reads back as a non-blank paragraph of the
      escaped body, and decodes to the body's own text; no paragraph holds a
      raw line break. */
  lemma ParagraphContent(body: string, k: nat)
    requires k < |HtmlParagraphs(body)|
    ensures var p := NonBlank(Split(HtmlEscape(body), "\n\n"))[k];
      && HtmlParagraphs(body)[k] == ParagraphOpen + LineBreaks(p) + ParagraphClose
      && UnBreak(LineBreaks(p)) == p
      && Strip(p) != ""
      && p in Split(HtmlEscape(body), "\n\n")
      && '\n' !in LineBreaks(p)
  {
    var e := HtmlEscape(body);
    var ps := Split(e, "\n\n");
    var p := NonBlank(ps)[k];
    assert '<' !in p by {
      SplitPiecesIn(e, "\n\n", p);
    }
    LineBreaksRoundTrip(p);
    StripEmptyIff(p);
  }

  // ---- the draft in the model's reply ----

  const JsonFence: string := "```json"
  const Fence: string := "```"

  /** The fence extraction of `compose_email`: the text after the first
      "```json" up to the next fence, else the text between the first two
      fences, else the whole reply; then stripped. Every split is on a
      delimiter that occurs, so the JSON fallback of the `except` branch is
      never taken. */
  function ExtractDraft(reply: string): string {
    var inner :=
      if Contains(reply, JsonFence) then Split(Split(reply, JsonFence)[1], Fence)[0]
      else if Contains(reply, Fence) then Split(Split(reply, Fence)[1], Fence)[0]
      else reply;
    Strip(inner)
  }

  /** A "```json" is also a fence. */
  lemma JsonFenceIsFence(s: string)
    requires Contains(s, JsonFence)
    ensures Contains(s, Fence)
  {
    var i :| 0 <= i <= |s| && OccursAt(s, JsonFence, i);
    assert s[i..i + 3] == s[i..i + 7][..3];
    assert OccursAt(s, Fence, i);
  }

  /** A reply with a fence yields a draft without any fence; a reply
      without one yields the stripped reply. */
  lemma DraftFenceFree(reply: string)
    ensures Contains(reply, Fence) ==> !Contains(ExtractDraft(reply), Fence)
    ensures !Contains(reply, Fence) ==> ExtractDraft(reply) == Strip(reply)
  {
    if Contains(reply, JsonFence) {
      JsonFenceIsFence(reply);
      FirstPieceFenceFree(Split(reply, JsonFence)[1]);
    } else if Contains(reply, Fence) {
      FirstPieceFenceFree(Split(reply, Fence)[1]);
    }
  }

  lemma FirstPieceFenceFree(piece: string)
    ensures !Contains(Strip(Split(piece, Fence)[0]), Fence)
  {
    SplitPiecesFree(piece, Fence);
    StripIsSlice(Split(piece, Fence)[0], Fence);
  }

  /** A stripped text is a slice of the text, so it holds no pattern the
      text does not hold. */
  lemma StripIsSlice(t: string, d: string)
    requires !Contains(t, d)
    ensures !Contains(Strip(t), d)
  {
    var l := LStrip(t);
    var r := Strip(t);
    var a := |t| - |l|;
    assert l == t[a..];
    assert r == l[..|r|];
    if Contains(r, d) {
      var j :| 0 <= j <= |r| && OccursAt(r, d, j);
      assert t[a + j..a + j + |d|] == r[j..j + |d|];
      assert OccursAt(t, d, a + j);
    }
  }

  /** No fence starts inside a text without backticks. */
  lemma NoFenceInside(x: string, j: nat, f: string)
    requires '`' !in x && j < |x| && f != [] && f[0] == '`'
    ensures !OccursAt(x + Fence, f, j)
  {
    var rest := x + Fence;
    assert rest[j] == x[j];
  }

  /** A reply made of a "```json" block around a text without backticks
      gives back that text, stripped. */
  lemma DraftOfJsonBlock(x: string)
    requires '`' !in x
    ensures ExtractDraft(JsonFence + x + Fence) == Strip(x)
  {
    var s := JsonFence + x + Fence;
    assert OccursAt(s, JsonFence, 0);
    var rest := x + Fence;
    assert s[7..] == rest;
    assert !Contains(rest, JsonFence) by {
      assert |JsonFence| == 7;
      forall j | 0 <= j < |x| ensures !OccursAt(rest, JsonFence, j) {
        NoFenceInside(x, j, JsonFence);
      }
    }
    SplitAtFirst(s, JsonFence, 0);
    SplitOfAbsent(rest, JsonFence);
    assert Split(s, JsonFence)[1] == rest;
    assert OccursAt(rest, Fence, |x|);
    forall j | 0 <= j < |x| ensures !OccursAt(rest, Fence, j) {
      assert rest[j] == x[j];
    }
    SplitAtFirst(rest, Fence, |x|);
    assert rest[..|x|] == x;
  }

  // ---- listings ----

  /** `subject[:n] + "..." if len(subject) > n else subject`. */
  function Truncate(subject: string, n: nat): (r: string)
    ensures |subject| <= n ==> r == subject
    ensures |subject| > n ==> |r| == n + 3 && EndsWith(r, "...")
    ensures r[..(if |subject| < n then |subject| else n)] == subject[..(if |subject| < n then |subject| else n)]
  {
    if |subject| > n then subject[..n] + "..." else subject
  }

  /** A subject short enough is shown whole; a longer one is cut to `n`
      characters, so a shown subject never exceeds `n + 3` characters. */
  lemma TruncateBound(subject: string, n: nat)
    ensures |Truncate(subject, n)| <= n + 3
    ensures |Truncate(subject, n)| <= n ==> Truncate(subject, n) == subject
  {
  }

  /** One header as fetched: the date already formatted `%d/%m %H:%M`. */
  datatype MailHeader = MailHeader(uid: string, subject: string, date: string, sender: string, seen: bool)

  /** `list(islice(it, n))`. */
  function Take<T>(xs: seq<T>, n: nat): (r: seq<T>)
    ensures |r| == (if |xs| < n then |xs| else n) && r == xs[..|r|]
  {
    if |xs| <= n then xs else xs[..n]
  }

  const AllLimit: nat := 10
  const UnreadLimit: nat := 5

  function Status(m: MailHeader): string {
    if m.seen then "✅ Lu" else "🔵 Non lu"
  }

  /** One row of the `list_all_emails` table. */
  function AllRow(m: MailHeader): string {
    "| `" + m.uid + "` | " + Truncate(m.subject, 40) + " | " + m.date + " | " + m.sender + " | " + Status(m) + " |\n"
  }

  /** One row of the `list_unread_emails` table. */
  function UnreadRow(m: MailHeader): string {
    "| `" + m.uid + "` | " + Truncate(m.subject, 50) + " | " + m.date + " | " + m.sender + " |\n"
  }

  const NoMessage: string := "📭 **Aucun message trouvé.**"
  const NoUnread: string := "📭 **Aucun message non lu.**"

  function AllTitle(n: nat): string {
    "📬 **" + NatToString(n) + " emails récents :**\n\n"
    + "| UID | Sujet | Date | Expéditeur | Statut |\n"
    + "|-----|-------|------|------------|--------|\n"
  }

  function UnreadTitle(n: nat): string {
    "📧 **" + NatToString(n) + " emails non lus :**\n\n"
    + "| UID | Sujet | Date | Expéditeur |\n"
    + "|-----|-------|------|------------|\n"
  }

  /** The table rows the listing loop appends, one per mail, in order. */
  function Rows(ms: seq<MailHeader>, row: MailHeader -> string): (r: string)
    ensures ms == [] ==> r == ""
  {
    if ms == [] then "" else Rows(ms[..|ms| - 1], row) + row(ms[|ms| - 1])
  }

  /** `list_all_emails` on the inbox, newest first. */
  function AllListing(inbox: seq<MailHeader>): string {
    var shown := Take(inbox, AllLimit);
    if shown == [] then NoMessage else AllTitle(|shown|) + Rows(shown, AllRow)
  }

  /** The unread listing built on a cache miss, on the unread mails, newest
      first. */
  function UnreadListing(unread: seq<MailHeader>): string {
    var shown := Take(unread, UnreadLimit);
    if shown == [] then NoUnread else UnreadTitle(|shown|) + Rows(shown, UnreadRow)
  }

  /** Each mail's row occurs in the rows. */
  lemma {:induction false} RowsContain(ms: seq<MailHeader>, row: MailHeader -> string, k: nat)
    requires k < |ms|
    ensures Contains(Rows(ms, row), row(ms[k]))
  {
    var init := ms[..|ms| - 1];
    var r := Rows(ms, row);
    if k == |ms| - 1 {
      assert OccursAt(r, row(ms[k]), |Rows(init, row)|);
    } else {
      RowsContain(init, row, k);
      var i :| 0 <= i <= |Rows(init, row)| && OccursAt(Rows(init, row), row(init[k]), i);
      assert r[i..i + |row(ms[k])|] == Rows(init, row)[i..i + |row(ms[k])|];
      assert OccursAt(r, row(ms[k]), i);
    }
  }

  /** Every mail shown has its row in the listing. */
  lemma ListingShowsEach(inbox: seq<MailHeader>, k: nat)
    requires k < |Take(inbox, AllLimit)|
    ensures Contains(AllListing(inbox), AllRow(inbox[k]))
  {
    var shown := Take(inbox, AllLimit);
    RowsContain(shown, AllRow, k);
    ContainsInSuffix(AllTitle(|shown|), Rows(shown, AllRow), AllRow(shown[k]));
  }

  lemma ContainsInSuffix(t: string, j: string, x: string)
    requires Contains(j, x)
    ensures Contains(t + j, x)
  {
    var i :| 0 <= i <= |j| && OccursAt(j, x, i);
    assert (t + j)[|t| + i..|t| + i + |x|] == j[i..i + |x|];
    assert OccursAt(t + j, x, |t| + i);
  }

  /** A row opens with the uid in backquotes and the truncated subject. */
  lemma RowShowsSubject(m: MailHeader)
    ensures StartsWith(AllRow(m), "| `" + m.uid + "` | " + Truncate(m.subject, 40) + " | ")
    ensures StartsWith(UnreadRow(m), "| `" + m.uid + "` | " + Truncate(m.subject, 50) + " | ")
  {
    var p := "| `" + m.uid + "` | " + Truncate(m.subject, 40) + " | ";
    assert AllRow(m) == p + (m.date + " | " + m.sender + " | " + Status(m) + " |\n");
    var q := "| `" + m.uid + "` | " + Truncate(m.subject, 50) + " | ";
    assert UnreadRow(m) == q + (m.date + " | " + m.sender + " |\n");
  }

  /** What a cache hit adds to the cached text. */
  const CacheNote: string := "\n\n*⚡ (Données en cache)*"
  const UnreadKey: string := "unread_emails"
  /** `_cache_ttl`, 30 seconds, in milliseconds. */
  const CacheTtlMs: int := 30000

  /** Whether `list_unread_emails` answers from the cache at `now`. */
  predicate Fresh(cache: map<string, (int, string)>, now: int) {
    UnreadKey in cache && now - cache[UnreadKey].0 < CacheTtlMs
  }

  /** A listing built from the mailbox never ends with the cache note, so
      a cached answer is always told apart from a fresh one. */
  lemma ListingNotNoted(unread: seq<MailHeader>)
    ensures !EndsWith(UnreadListing(unread), CacheNote)
  {
    var shown := Take(unread, UnreadLimit);
    var l := UnreadListing(unread);
    assert CacheNote[|CacheNote| - 2] == ')';
    if shown == [] {
      assert l[|l| - 2] == '*';
    } else {
      var last := shown[|shown| - 1];
      var r := UnreadRow(last);
      assert l == UnreadTitle(|shown|) + Rows(shown[..|shown| - 1], UnreadRow) + r;
      assert l[|l| - 1] == r[|r| - 1] == '\n';
      assert CacheNote[|CacheNote| - 1] == '*';
    }
  }

  /** The listing loop: each mail's row is appended to the title. */
  method AppendRows(title: string, ms: seq<MailHeader>, row: MailHeader -> string) returns (r: string)
    ensures r == title + Rows(ms, row)
  {
    r := title;
    var i := 0;
    while i < |ms|
      invariant 0 <= i <= |ms|
      invariant r == title + Rows(ms[..i], row)
    {
      r := r + row(ms[i]);
      assert ms[..i + 1][..i] == ms[..i];
      i := i + 1;
    }
    assert ms[..i] == ms;
  }

  // ---- sent mail ----

  /** A sent mail as fetched; the date already formatted `%Y-%m-%d %H:%M`. */
  datatype SentMail = SentMail(to: seq<string>, date: string, subject: string, text: string, html: string)

  /** What one folder gives: the login raised, no mail with the uid, or
      the mail. */
  datatype FolderResult = LoginFailed | NoMatch | Match(mail: SentMail)

  /** The folders `view_sent_email` tries, in order. */
  const SentFolders: seq<string> := ["Sent", "INBOX.Sent", "Sent Items", "Éléments envoyés", "[Gmail]/Sent Mail"]

  /** The mail of the first folder, in order, that has it. */
  function FirstMatch(folders: seq<string>, lookup: string -> FolderResult): Option<SentMail> {
    if folders == [] then None
    else if lookup(folders[0]).Match? then Some(lookup(folders[0]).mail)
    else FirstMatch(folders[1..], lookup)
  }

  /** The search finds a mail exactly when some folder has it, and then it
      is the mail of the first such folder: failed logins and folders
      without the mail are passed over. */
  lemma {:induction false} FirstMatchIsFirst(folders: seq<string>, lookup: string -> FolderResult)
    ensures FirstMatch(folders, lookup).None? <==> forall k :: 0 <= k < |folders| ==> !lookup(folders[k]).Match?
    ensures FirstMatch(folders, lookup).Some? ==>
      (exists k :: (0 <= k < |folders|
                    && lookup(folders[k]) == Match(FirstMatch(folders, lookup).value)
                    && forall j :: 0 <= j < k ==> !lookup(folders[j]).Match?))
  {
    if folders != [] && !lookup(folders[0]).Match? {
      FirstMatchIsFirst(folders[1..], lookup);
      if FirstMatch(folders, lookup).Some? {
        var k :| 0 <= k < |folders[1..]|
          && lookup(folders[1..][k]) == Match(FirstMatch(folders, lookup).value)
          && forall j :: 0 <= j < k ==> !lookup(folders[1..][j]).Match?;
        assert lookup(folders[k + 1]) == Match(FirstMatch(folders, lookup).value);
        forall j | 0 <= j < k + 1 ensures !lookup(folders[j]).Match? {
          if j > 0 {
            assert folders[j] == folders[1..][j - 1];
          }
        }
      } else {
        forall k | 0 <= k < |folders| ensures !lookup(folders[k]).Match? {
          if k > 0 {
            assert folders[k] == folders[1..][k - 1];
          }
        }
      }
    } else if folders != [] {
      assert lookup(folders[0]) == Match(FirstMatch(folders, lookup).value);
    }
  }

  function Recipients(m: SentMail): string {
    if m.to == [] then "Destinataire inconnu" else Join(m.to, ", ")
  }

  /** `mail.text or mail.html or 'Contenu non disponible'`. */
  function Content(m: SentMail): string {
    if m.text != "" then m.text else if m.html != "" then m.html else "Contenu non disponible"
  }

  /** The header block of the view, up to the content label. */
  function ViewHeader(m: SentMail): string {
    "**📤 Email Envoyé**\n\n**À :** " + Recipients(m) + "\n**Date :** " + m.date
    + "\n**Sujet :** " + m.subject + "\n\n**Contenu :**"
  }

  /** The text `view_sent_email` returns for a found mail: the template,
      stripped. */
  function SentView(m: SentMail): string {
    Strip("\n" + ViewHeader(m) + "\n" + Content(m) + "\n")
  }

  /** Stripping keeps the whole header block: the view opens with the
      title, the recipients, the date, the subject and the content label. */
  lemma SentViewHeader(m: SentMail)
    ensures StartsWith(SentView(m), ViewHeader(m))
  {
    var h := ViewHeader(m);
    var tail := "\n" + Content(m) + "\n";
    var t := "**📤 Email Envoyé**\n\n**À :** ";
    assert h[..|t|] == t;
    assert h[0] == '*';
    var u := "\n\n**Contenu :**";
    assert h[|h| - |u|..] == u;
    assert h[|h| - 1] == '*';
    assert "\n" + h + "\n" + Content(m) + "\n" == "\n" + (h + tail);
    assert AllSpace("\n");
    LStripPadded("\n", h + tail);
    RStripKeepsPrefix(h, tail);
  }

  function NotFoundSent(uid: string): string {
    "❌ Aucun email envoyé trouvé pour l'UID " + uid + "."
  }

  /** `view_sent_email` given what each folder holds for the uid. */
  function ViewSent(uid: string, lookup: string -> FolderResult): string {
    match FirstMatch(SentFolders, lookup)
    case Some(m) => SentView(m)
    case None => NotFoundSent(uid)
  }

  /** The search over the folders, stopping at the first that has the mail. */
  method ViewSentEmail(uid: string, lookup: string -> FolderResult) returns (r: string)
    ensures r == ViewSent(uid, lookup)
  {
    var i := 0;
    while i < |SentFolders|
      invariant 0 <= i <= |SentFolders|
      invariant FirstMatch(SentFolders[i..], lookup) == FirstMatch(SentFolders, lookup)
    {
      var res := lookup(SentFolders[i]);
      if res.Match? {
        return SentView(res.mail);
      }
      assert SentFolders[i..][1..] == SentFolders[i + 1..];
      i := i + 1;
    }
    return NotFoundSent(uid);
  }

  // ---- the agent's state ----

  /** `EmailAgent`: the state it keeps between calls is its `_cache`,
      key to (time stored in milliseconds, listing). */
  class Agent {
    var cache: map<string, (int, string)>

    /** The cache holds only listings built from the mailbox. */
    ghost predicate Valid()
      reads this
    {
      UnreadKey in cache ==> !EndsWith(cache[UnreadKey].1, CacheNote)
    }

    constructor ()
      ensures cache == map[] && Valid()
    {
      cache := map[];
    }

    /** `list_all_emails` on the inbox headers, newest first. */
    method ListAllEmails(inbox: seq<MailHeader>) returns (r: string)
      ensures r == AllListing(inbox)
    {
      var emails := Take(inbox, AllLimit);
      if emails == [] {
        return NoMessage;
      }
      r := AppendRows(AllTitle(|emails|), emails, AllRow);
    }

    /** `list_unread_emails` at time `now` (milliseconds); on a miss the
        mailbox gives `unread` and the clock reads `storedAt` when the
        listing is stored. */
    method ListUnreadEmails(now: int, unread: seq<MailHeader>, storedAt: int) returns (r: string)
      requires Valid()
      modifies this
      ensures Valid()
      ensures Fresh(old(cache), now) ==> r == old(cache)[UnreadKey].1 + CacheNote && cache == old(cache)
      ensures !Fresh(old(cache), now) ==> r == UnreadListing(unread) && cache == old(cache)[UnreadKey := (storedAt, r)]
      ensures EndsWith(r, CacheNote) <==> Fresh(old(cache), now)
    {
      if UnreadKey in cache {
        var (timestamp, data) := cache[UnreadKey];
        if now - timestamp < CacheTtlMs {
          r := data + CacheNote;
          assert r[|r| - |CacheNote|..] == CacheNote;
          return;
        }
      }
      var emails := Take(unread, UnreadLimit);
      if emails == [] {
        r := NoUnread;
      } else {
        r := AppendRows(UnreadTitle(|emails|), emails, UnreadRow);
      }
      ListingNotNoted(unread);
      cache := cache[UnreadKey := (storedAt, r)];
    }
  }
}
