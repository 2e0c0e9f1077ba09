/** The Google Docs tools of src/agents/google_doc/tools.py: creation
    through the module-level cache of created documents, and the append
    request. The Docs service is an input. */
module GoogleDoc {

  /** `f"https://docs.google.com/document/d/{doc_id}/edit"`. */
  function DocUrl(docId: string): (u: string)
    ensures |u| == |docId| + 40
  {
    "https://docs.google.com/document/d/" + docId + "/edit"
  }

  /** The url names the document: different ids give different urls. */
  lemma DocUrlInjective(a: string, b: string)
    requires DocUrl(a) == DocUrl(b)
    ensures a == b
  {
    var p := "https://docs.google.com/document/d/";
    assert DocUrl(a)[|p|..|p| + |a|] == a;
    assert DocUrl(b)[|p|..|p| + |b|] == b;
  }

  /** The dictionary `google_docs_create` returns. */
  datatype Created = Created(docId: string, title: string, url: string)

  /** `google_docs_create` on the cache `cache`, where `newId` is the id
      the Docs service gives a new document: the cached id when the title
      is known, else the new document, recorded under its title. The
      second component says whether the service was called. */
  function CreateStep(cache: map<string, string>, title: string, newId: string): (r: (map<string, string>, Created, bool))
    ensures r.1.title == title && r.1.url == DocUrl(r.1.docId)
  {
    if title in cache then (cache, Created(cache[title], title, DocUrl(cache[title])), false)
    else (cache[title := newId], Created(newId, title, DocUrl(newId)), true)
  }

  /** The service is called exactly for an unknown title; a known title
      gets its cached id; entries are only added, never changed or
      removed. */
  lemma CreateStepCases(cache: map<string, string>, title: string, newId: string)
    ensures var (c, d, called) := CreateStep(cache, title, newId);
      && (called <==> title !in cache)
      && (title in cache ==> d.docId == cache[title] && c == cache)
      && (title !in cache ==> d.docId == newId)
      && c.Keys == cache.Keys + {title}
      && (forall t :: t in cache ==> c[t] == cache[t])
      && c[title] == d.docId
  {
  }

  /** Two creations with the same title give the same document, whatever
      ids the service would hand out, and the second one calls nothing. */
  lemma CreateTwice(cache: map<string, string>, title: string, id1: string, id2: string)
    ensures var (c1, d1, _) := CreateStep(cache, title, id1);
      var (c2, d2, called2) := CreateStep(c1, title, id2);
      d2.docId == d1.docId && d2.url == d1.url && !called2 && c2 == c1
  {
  }

  /** `_CREATED_DOCS_CACHE`, title to document id, shared by every call. */
  class DocsCache {
    var created: map<string, string>

    constructor ()
      ensures created == map[]
    {
      created := map[];
    }

    /** `google_docs_create(title)`; `newId` is what the service would
        return for a new document. */
    method Create(title: string, newId: string) returns (d: Created, called: bool)
      modifies this
      ensures (created, d, called) == CreateStep(old(created), title, newId)
    {
      if title in created {
        var docId := created[title];
        return Created(docId, title, DocUrl(docId)), false;
      }
      var docId := newId;
      created := created[title := docId];
      return Created(docId, title, DocUrl(docId)), true;
    }
  }

  /** The single request `google_docs_update` sends. */
  datatype Request = InsertTextAtEnd(text: string)

  /** `google_docs_update`: the request list sent to `batchUpdate` and the
      confirmation returned. */
  function Update(docId: string, md: string): (r: (seq<Request>, string))
    ensures |r.0| == 1 && |r.0[0].text| == |md| + 1 && r.0[0].text[..|md|] == md && r.0[0].text[|md|..] == "\n"
  {
    ([InsertTextAtEnd(md + "\n")], "✅ Contenu ajouté au Doc `" + docId + "`")
  }
}
