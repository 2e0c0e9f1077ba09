/** The Google Drive tools of src/agents/google_drive/tools.py: the file
    url, the search query, the shaping of the service's answers, and
    deletion. The Drive service is an input: a function from the request
    to its response, or the text of the `HttpError` it raises. */
module Drive {
  import opened Text
  import opened Json

  /** `_file_url`. */
  function FileUrl(fileId: string): (u: string)
    ensures |u| == |fileId| + 37
  {
    "https://drive.google.com/file/d/" + fileId + "/view"
  }

  /** The file id reads back out of the url. */
  lemma FileUrlReadsBack(fileId: string)
    ensures RemoveSuffix(RemovePrefix(FileUrl(fileId), "https://drive.google.com/file/d/"), "/view") == fileId
  {
    var p := "https://drive.google.com/file/d/";
    var u := FileUrl(fileId);
    assert u[..|p|] == p;
    var m := RemovePrefix(u, p);
    assert m == fileId + "/view";
    assert m[|m| - 5..] == "/view";
  }

  // ---- query literals ----

  /** Python `name.replace('"', '\\"')`: every double quote gets a
      backslash. */
  function EscapeDoubleQuotes(name: string): string {
    ReplaceChar(name, '"', "\\\"")
  }

  /** A name without a double quote is sent as it is. */
  lemma {:induction false} NoQuoteUnchanged(name: string)
    requires '"' !in name
    ensures EscapeDoubleQuotes(name) == name
  {
    if name != [] {
      NoQuoteUnchanged(name[1..]);
      assert name == [name[0]] + name[1..];
    }
  }

  const TrashedFalse: string := " and trashed = false"

  /** The query `drive_find_file_id` sends, as written: a double-quoted
      literal for an exact name, a single-quoted one for "contains", both
      escaping only double quotes. */
  function FindQueryAsWritten(name: string, exact: bool): string {
    if exact then "name = \"" + EscapeDoubleQuotes(name) + "\"" + TrashedFalse
    else "name contains '" + EscapeDoubleQuotes(name) + "'" + TrashedFalse
  }

  /** How the Drive query language reads a string literal once its
      opening quote `q` is consumed: a backslash takes the next character
      as it is, and the first bare `q` closes the literal. The result is the
      value and what follows the closing quote; `None` when the literal is
      never closed. */
  function ReadLiteral(t: string, q: char): Option<(string, string)>
    decreases |t|
  {
    if t == [] then None
    else if t[0] == q then Some(("", t[1..]))
    else if t[0] == '\\' then
      if |t| < 2 then None
      else match ReadLiteral(t[2..], q)
        case None => None
        case Some(r) => Some(([t[1]] + r.0, r.1))
    else match ReadLiteral(t[1..], q)
      case None => None
      case Some(r) => Some(([t[0]] + r.0, r.1))
  }

  /** Escaping as the query language wants it: a backslash before every
      backslash and every quote `q`. */
  function EscapeFor(name: string, q: char): string {
    if name == [] then ""
    else (if name[0] == '\\' || name[0] == q then ['\\', name[0]] else [name[0]]) + EscapeFor(name[1..], q)
  }

  /** An escaped literal reads back as the name, and the reader stops at
      its closing quote. */
  lemma {:induction false} EscapeForReadsBack(name: string, q: char, rest: string)
    requires q != '\\'
    ensures ReadLiteral(EscapeFor(name, q) + [q] + rest, q) == Some((name, rest))
  {
    var t := EscapeFor(name, q) + [q] + rest;
    if name == [] {
      assert t == [q] + rest;
      assert t[1..] == rest;
    } else {
      EscapeForReadsBack(name[1..], q, rest);
      var tail := EscapeFor(name[1..], q) + [q] + rest;
      if name[0] == '\\' || name[0] == q {
        assert t == ['\\', name[0]] + tail;
        assert t[2..] == tail;
      } else {
        assert t == [name[0]] + tail;
        assert t[1..] == tail;
      }
      assert name == [name[0]] + name[1..];
    }
  }

  /** The search query with both literals escaped for their own quote. */
  function FindQuery(name: string, exact: bool): string {
    if exact then "name = \"" + EscapeFor(name, '"') + "\"" + TrashedFalse
    else "name contains '" + EscapeFor(name, '\'') + "'" + TrashedFalse
  }

  /** Whatever the name, the literal of the query reads back as the name,
      followed by the trash filter. */
  lemma FindQueryReadsBack(name: string, exact: bool)
    ensures exact ==> (StartsWith(FindQuery(name, true), "name = \"")
                       && ReadLiteral(FindQuery(name, true)[8..], '"') == Some((name, TrashedFalse)))
    ensures !exact ==> (StartsWith(FindQuery(name, false), "name contains '")
                        && ReadLiteral(FindQuery(name, false)[15..], '\'') == Some((name, TrashedFalse)))
  {
    if exact {
      var e := EscapeFor(name, '"');
      var s := FindQuery(name, true);
      assert s == "name = \"" + (e + ['"'] + TrashedFalse);
      assert s[8..] == e + ['"'] + TrashedFalse;
      EscapeForReadsBack(name, '"', TrashedFalse);
    } else {
      var e := EscapeFor(name, '\'');
      var s := FindQuery(name, false);
      assert s == "name contains '" + (e + ['\''] + TrashedFalse);
      assert s[15..] == e + ['\''] + TrashedFalse;
      EscapeForReadsBack(name, '\'', TrashedFalse);
    }
  }

  /** A literal with neither its quote nor a backslash is never closed. */
  lemma {:induction false} UnclosedLiteral(t: string, q: char)
    requires q !in t && '\\' !in t
    ensures ReadLiteral(t, q) == None
  {
    if t != [] {
      UnclosedLiteral(t[1..], q);
    }
  }

  /** A plain run of characters is read up to the first quote. */
  lemma {:induction false} PlainLiteral(a: string, q: char, rest: string)
    requires q !in a && '\\' !in a
    ensures ReadLiteral(a + [q] + rest, q) == Some((a, rest))
  {
    var t := a + [q] + rest;
    if a == [] {
      assert t == [q] + rest;
      assert t[1..] == rest;
    } else {
      PlainLiteral(a[1..], q, rest);
      assert t[1..] == a[1..] + [q] + rest;
      assert a == [a[0]] + a[1..];
    }
  }

  /** As written, an apostrophe in the name ends the "contains" literal
      early: the literal holds only the part before it, and the rest of the
      name, with the closing quote, is left over as unparsed query text. */
  lemma ApostropheBreaksContains(a: string, b: string)
    requires '\'' !in a && '\\' !in a && '"' !in a && '"' !in b
    ensures ReadLiteral(FindQueryAsWritten(a + "'" + b, false)[15..], '\'') == Some((a, b + "'" + TrashedFalse))
  {
    var name := a + "'" + b;
    NoQuoteUnchanged(name);
    var s := FindQueryAsWritten(name, false);
    assert s == "name contains '" + (a + ['\''] + (b + "'" + TrashedFalse));
    assert s[15..] == a + ['\''] + (b + "'" + TrashedFalse);
    PlainLiteral(a, '\'', b + "'" + TrashedFalse);
  }

  /** For instance, for the name `l'été` the literal closes after `l` and
      `été'` is left over as unparsed query text. */
  lemma ApostropheExample()
    ensures ReadLiteral(FindQueryAsWritten("l'été", false)[15..], '\'') == Some(("l", "été'" + TrashedFalse))
  {
    assert "l'été" == "l" + "'" + "été";
    ApostropheBreaksContains("l", "été");
    assert "été" + "'" == "été'";
  }

  /** As written, a name ending in a backslash leaves the exact literal
      open: the backslash swallows the closing quote. */
  lemma BackslashBreaksExact()
    ensures ReadLiteral(FindQueryAsWritten("\\", true)[8..], '"') == None
  {
    var t := FindQueryAsWritten("\\", true)[8..];
    NoQuoteUnchanged("\\");
    assert t == "\\\"" + TrashedFalse;
    assert t[2..] == TrashedFalse;
    UnclosedLiteral(TrashedFalse, '"');
  }

  // ---- answers ----

  /** One file of a `files().list` answer. */
  datatype DriveFile = DriveFile(id: string, name: string, mimeType: Json, modifiedTime: Json)

  /** One entry of `matches` / `files` in a tool's answer. */
  datatype Entry = Entry(id: string, name: string, mimeType: Json, modifiedTime: Json, url: string)

  function EntryOf(f: DriveFile): Entry {
    Entry(f.id, f.name, f.mimeType, f.modifiedTime, FileUrl(f.id))
  }

  /** The comprehension over the service's files: one entry per file, in
      order, each carrying the url of its own id. */
  function Entries(files: seq<DriveFile>): (r: seq<Entry>)
    ensures |r| == |files|
    ensures forall k :: 0 <= k < |files| ==>
      (r[k].id == files[k].id && r[k].name == files[k].name && r[k].url == FileUrl(files[k].id))
  {
    seq(|files|, k requires 0 <= k < |files| => EntryOf(files[k]))
  }

  /** What the service answers to a listing: the files (`[]` when the key
      is absent) and the next page token, or an `HttpError`. */
  datatype ListResponse = Listed(files: seq<DriveFile>, nextPageToken: Option<string>) | ListFailed(error: string)

  /** The answer of `drive_find_file_id`. */
  datatype FindAnswer = Matches(matches: seq<Entry>) | NoMatches | FindError(error: string)

  /** The answer to one listing: the service's error, the empty answer,
      or one entry per file. */
  function AnswerOf(resp: ListResponse): FindAnswer {
    match resp
    case ListFailed(e) => FindError(e)
    case Listed(files, _) => if files == [] then NoMatches else Matches(Entries(files))
  }

  /** `drive_find_file_id(name, exact)` as written, where `list` is the
      service's answer to a query: the query sent is the one built above,
      escaping only double quotes. */
  function DriveFindFileId(name: string, exact: bool, list: string -> ListResponse): FindAnswer {
    AnswerOf(list(FindQueryAsWritten(name, exact)))
  }

  /** The same operation sending the query escaped for its own quote. */
  function DriveFindFileIdCorrected(name: string, exact: bool, list: string -> ListResponse): FindAnswer {
    AnswerOf(list(FindQuery(name, exact)))
  }

  /** The three outcomes: an error exactly when the service raised, the
      empty answer exactly when it found nothing, otherwise one match per
      file found for the query as written. */
  lemma FindOutcomes(name: string, exact: bool, list: string -> ListResponse)
    ensures var resp := list(FindQueryAsWritten(name, exact));
      var a := DriveFindFileId(name, exact, list);
      && (a.FindError? <==> resp.ListFailed?)
      && (a.NoMatches? <==> resp.Listed? && resp.files == [])
      && (a.Matches? ==> resp.Listed? && a.matches == Entries(resp.files) && |a.matches| == |resp.files| > 0)
  {
  }

  /** The corrected operation has the same three outcomes, for a query
      whose literal reads back as the name. */
  lemma CorrectedFindOutcomes(name: string, exact: bool, list: string -> ListResponse)
    ensures var resp := list(FindQuery(name, exact));
      var a := DriveFindFileIdCorrected(name, exact, list);
      && (a.FindError? <==> resp.ListFailed?)
      && (a.NoMatches? <==> resp.Listed? && resp.files == [])
      && (a.Matches? ==> resp.Listed? && a.matches == Entries(resp.files) && |a.matches| == |resp.files| > 0)
    ensures exact ==> ReadLiteral(FindQuery(name, true)[8..], '"') == Some((name, TrashedFalse))
    ensures !exact ==> ReadLiteral(FindQuery(name, false)[15..], '\'') == Some((name, TrashedFalse))
  {
    FindQueryReadsBack(name, exact);
  }

  /** The answer of `drive_list_files`. */
  datatype ListAnswer = Files(files: seq<Entry>, nextPageToken: Option<string>) | ListError(error: string)

  const DefaultQuery: string := "trashed = false"

  /** The query `drive_list_files` sends. */
  function ListQuery(q: Option<string>): string {
    if q.None? then DefaultQuery else q.value
  }

  /** `drive_list_files(q, page_size, page_token)` where `list` is the
      service's answer to (query, page size, page token). */
  function DriveListFiles(q: Option<string>, pageSize: int, pageToken: Option<string>,
                          list: (string, int, Option<string>) -> ListResponse): ListAnswer {
    match list(ListQuery(q), pageSize, pageToken)
    case ListFailed(e) => ListError(e)
    case Listed(files, next) => Files(Entries(files), next)
  }

  /** Without a query the trash is filtered out; a given query is sent as
      it is; the page size and token go to the service unchanged and its
      next-page token comes back unchanged; the files come back as one
      entry per file, in order, each with the url of its id. */
  lemma ListFilesPassesThrough(q: Option<string>, pageSize: int, pageToken: Option<string>,
                               list: (string, int, Option<string>) -> ListResponse)
    ensures q.None? ==> ListQuery(q) == "trashed = false"
    ensures q.Some? ==> ListQuery(q) == q.value
    ensures var resp := list(ListQuery(q), pageSize, pageToken);
      var a := DriveListFiles(q, pageSize, pageToken, list);
      && (a.ListError? <==> resp.ListFailed?)
      && (resp.ListFailed? ==> a.error == resp.error)
      && (resp.Listed? ==> a.nextPageToken == resp.nextPageToken && a.files == Entries(resp.files)
                           && |a.files| == |resp.files|)
  {
  }

  /** The two calls `drive_delete_file` can make. */
  datatype DeleteCall = DeletePermanently(fileId: string) | MoveToTrash(fileId: string)

  datatype DeleteAnswer = Deleted(message: string) | DeleteError(error: string)

  /** `drive_delete_file(file_id, permanently)`: the call made and the
      answer, where `run` gives the `HttpError` text of a call, if any. */
  function DriveDeleteFile(fileId: string, permanently: bool, run: DeleteCall -> Option<string>): (r: (DeleteCall, DeleteAnswer))
  {
    var call := if permanently then DeletePermanently(fileId) else MoveToTrash(fileId);
    var answer :=
      if run(call).Some? then DeleteError(run(call).value)
      else if permanently then Deleted("Fichier " + fileId + " supprimé définitivement.")
      else Deleted("Fichier " + fileId + " mis à la corbeille.");
    (call, answer)
  }

  /** A file is erased only when `permanently` is set; otherwise it is
      only trashed. Any error of the call is the answer. */
  lemma DeleteOnlyWhenPermanent(fileId: string, permanently: bool, run: DeleteCall -> Option<string>)
    ensures var (call, answer) := DriveDeleteFile(fileId, permanently, run);
      && (call.DeletePermanently? <==> permanently)
      && call.fileId == fileId
      && (answer.DeleteError? <==> run(call).Some?)
      && (answer.DeleteError? ==> answer.error == run(call).value)
  {
  }

  /** The metadata `files().get` returns: owners are their fields. */
  datatype Metadata = Metadata(id: string, name: string, mimeType: Json, size: Json, modifiedTime: Json,
                               owners: seq<map<string, string>>)

  datatype FileInfo = FileInfo(id: string, name: string, mimeType: Json, size: Json, modifiedTime: Json,
                               ownerEmails: seq<string>, url: string)

  /** `o.get("emailAddress", "?")`. */
  function OwnerEmail(o: map<string, string>): string {
    if "emailAddress" in o then o["emailAddress"] else "?"
  }

  /** The `file` dictionary of `drive_get_file_metadata`: the service's
      fields, one e-mail per owner ("?" for an owner without one) and the
      file's url. */
  function FileInfoOf(m: Metadata): (f: FileInfo)
    ensures f.id == m.id && f.url == FileUrl(m.id) && |f.ownerEmails| == |m.owners|
    ensures forall k :: 0 <= k < |m.owners| && "emailAddress" in m.owners[k] ==>
      f.ownerEmails[k] == m.owners[k]["emailAddress"]
    ensures forall k :: 0 <= k < |m.owners| && "emailAddress" !in m.owners[k] ==>
      f.ownerEmails[k] == "?"
  {
    FileInfo(m.id, m.name, m.mimeType, m.size, m.modifiedTime,
             seq(|m.owners|, k requires 0 <= k < |m.owners| => OwnerEmail(m.owners[k])), FileUrl(m.id))
  }

  /** What the service answers to `files().get`: the metadata, or an
      `HttpError`. */
  datatype GetResponse = Got(meta: Metadata) | GetFailed(error: string)

  datatype MetadataAnswer = FileFound(file: FileInfo) | MetadataError(error: string)

  /** `drive_get_file_metadata(file_id)` where `get` is the service's
      answer for an id, or the text of its `HttpError`. */
  function DriveGetFileMetadata(fileId: string, get: string -> GetResponse): (a: MetadataAnswer)
    ensures get(fileId).GetFailed? ==> a == MetadataError(get(fileId).error)
    ensures get(fileId).Got? ==>
      (a.FileFound? && a.file.id == get(fileId).meta.id && a.file.url == FileUrl(get(fileId).meta.id))
  {
    match get(fileId)
    case GetFailed(e) => MetadataError(e)
    case Got(m) => FileFound(FileInfoOf(m))
  }
}
