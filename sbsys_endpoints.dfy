/** The `/api/sbsys/fil/keywords` route (`fil_by_keyword`): it validates the request,
    then collects the files of the case's documents whose name contains one of the
    keywords, case-insensitively, and falls back to every file of every document when
    no keyword selects one. A file is kept only when its content is non-empty and, if
    a list of allowed extensions is given, its extension is in that list.

    The two SBSYS calls are parameters: `documents` is what `fetch_documents(sagID)`
    returns, and `fetch` maps a file's `ShortId` to what `fetch_file` returns (an
    exception, or the content, an empty one standing also for None). `encode` is
    Base64 as in section 4 of RFC 4648, followed by the UTF-8 decode. */
module SbsysEndpoints {
  import opened Text
  import opened PyJson

  const RequiredMsg :=
    "'keywords' and 'sagID' properties are required. 'keywords' is an array of strings. 'sagID' is a integer"
  const KeywordsListMsg := "keywords has to be a list"
  const FiletypesMsg := "allowedFiletypes must be a list of strings. e.g. ['pdf', 'docs']"

  /** One element of the answer list. */
  datatype Entry = Entry(filename: Json, documentName: Json, data: string, mimeType: Json)

  /** What the route answers: 400 with a message, 404 naming the case id (the message
      is `No documents were found with sag id: ` and the id), 500 with the error text
      (not modelled), or 200 with the files. */
  datatype Reply =
    | BadRequest(msg: string)
    | NotFound(sagId: Json)
    | ServerError
    | Files(entries: seq<Entry>)

  function Status(r: Reply): int {
    match r
    case BadRequest(_) => 400
    case NotFound(_) => 404
    case ServerError => 500
    case Files(_) => 200
  }

  // ---------------------------------------------------------------------------
  // One file

  /** `allowed_filetypes and not fil['Filendelse'].lower() in allowed_filetypes`,
      negated: None when the extension is missing or not a string. */
  function Admitted(fil: Json, allowed: seq<Json>): (r: Option<bool>)
    ensures allowed == [] ==> r == Some(true)
    ensures r == Some(true) && allowed != [] ==>
      Sub(fil, "Filendelse").Some? && Sub(fil, "Filendelse").value.Str? &&
      Str(Lower(Sub(fil, "Filendelse").value.s)) in allowed
  {
    if allowed == [] then Some(true)
    else match Sub(fil, "Filendelse")
      case None => None
      case Some(ext) => if ext.Str? then Some(Str(Lower(ext.s)) in allowed) else None
  }

  /** The body of the innermost loop for one file of `doc`: skipped (None) when the
      fetched content is empty or the extension is not allowed, else the entry. */
  function FileEntry(doc: Json, fil: Json, allowed: seq<Json>,
                     fetch: Json -> Outcome<seq<byte>>, encode: seq<byte> -> string): Outcome<Option<Entry>>
  {
    match Sub(fil, "ShortId")
    case None => Raised
    case Some(id) =>
      match fetch(id)
      case Raised => Raised
      case Returned(content) =>
        if content == [] then Returned(None)
        else match Admitted(fil, allowed)
          case None => Raised
          case Some(false) => Returned(None)
          case Some(true) =>
            if Sub(fil, "Filnavn").None? || Sub(doc, "Navn").None? || Sub(fil, "MimeType").None? then Raised
            else Returned(Some(Entry(Sub(fil, "Filnavn").value, Sub(doc, "Navn").value,
                                     encode(content), Sub(fil, "MimeType").value)))
  }

  /** `files` followed by what `o` adds; an exception stays an exception. */
  function Extend(files: seq<Entry>, o: Outcome<seq<Entry>>): Outcome<seq<Entry>> {
    match o
    case Raised => Raised
    case Returned(es) => Returned(files + es)
  }

  lemma ExtendTwice(a: seq<Entry>, b: seq<Entry>, o: Outcome<seq<Entry>>)
    ensures Extend(a + b, o) == Extend(a, Extend(b, o))
  {
    if o.Returned? {
      assert a + b + o.value == a + (b + o.value);
    }
  }

  /** The entries of the files `fils` of `doc`, in order. */
  function DocFiles(doc: Json, fils: seq<Json>, allowed: seq<Json>,
                    fetch: Json -> Outcome<seq<byte>>, encode: seq<byte> -> string): Outcome<seq<Entry>>
    decreases |fils|
  {
    if fils == [] then Returned([])
    else
      match FileEntry(doc, fils[0], allowed, fetch, encode)
      case Raised => Raised
      case Returned(None) => DocFiles(doc, fils[1..], allowed, fetch, encode)
      case Returned(Some(e)) => Extend([e], DocFiles(doc, fils[1..], allowed, fetch, encode))
  }

  /** `for fil in document['Filer']`: a document without `Filer`, or whose `Filer`
      cannot be iterated, raises. */
  function FilesOf(doc: Json, allowed: seq<Json>,
                   fetch: Json -> Outcome<seq<byte>>, encode: seq<byte> -> string): Outcome<seq<Entry>>
  {
    match Sub(doc, "Filer")
    case None => Raised
    case Some(f) =>
      match Elements(f)
      case None => Raised
      case Some(fils) => DocFiles(doc, fils, allowed, fetch, encode)
  }

  /** The entries of the files of every document of `docs`, document by document. */
  function DocsFiles(docs: seq<Json>, allowed: seq<Json>,
                     fetch: Json -> Outcome<seq<byte>>, encode: seq<byte> -> string): Outcome<seq<Entry>>
    decreases |docs|
  {
    if docs == [] then Returned([])
    else
      match FilesOf(docs[0], allowed, fetch, encode)
      case Raised => Raised
      case Returned(es) => Extend(es, DocsFiles(docs[1..], allowed, fetch, encode))
  }

  // ---------------------------------------------------------------------------
  // The keyword pass

  /** `'Navn' in doc and keyword in doc['Navn'].lower()`: None when `in` or the lookup
      raises, or the name is not a string. */
  function Matches(doc: Json, keyword: string): Option<bool> {
    match In("Navn", doc)
    case None => None
    case Some(false) => Some(false)
    case Some(true) =>
      match Sub(doc, "Navn")
      case None => None
      case Some(n) => if n.Str? then Some(Contains(Lower(n.s), keyword)) else None
  }

  /** `filtered_documents`: the documents whose name contains `keyword`, in order. */
  function Filtered(docs: seq<Json>, keyword: string): Option<seq<Json>>
    decreases |docs|
  {
    if docs == [] then Some([])
    else
      match Filtered(docs[..|docs| - 1], keyword)
      case None => None
      case Some(ds) =>
        match Matches(docs[|docs| - 1], keyword)
        case None => None
        case Some(false) => Some(ds)
        case Some(true) => Some(ds + [docs[|docs| - 1]])
  }

  /** The files one keyword selects: it must be a string (`keyword.lower()`); it is
      lowered, and the files of the documents it selects follow one another. */
  function KeywordFiles(kw: Json, docs: seq<Json>, allowed: seq<Json>,
                        fetch: Json -> Outcome<seq<byte>>, encode: seq<byte> -> string): Outcome<seq<Entry>>
  {
    if !kw.Str? then Raised
    else match Filtered(docs, Lower(kw.s))
      case None => Raised
      case Some(ds) => DocsFiles(ds, allowed, fetch, encode)
  }

  /** `for keyword in data['keywords']`: the keywords' selections, keyword by keyword. */
  function KeywordPass(kws: seq<Json>, docs: seq<Json>, allowed: seq<Json>,
                       fetch: Json -> Outcome<seq<byte>>, encode: seq<byte> -> string): Outcome<seq<Entry>>
    decreases |kws|
  {
    if kws == [] then Returned([])
    else
      match KeywordFiles(kws[0], docs, allowed, fetch, encode)
      case Raised => Raised
      case Returned(es) => Extend(es, KeywordPass(kws[1..], docs, allowed, fetch, encode))
  }

  /** The keyword pass, or every file of every document when it selects nothing. */
  function Selection(kws: seq<Json>, docs: seq<Json>, allowed: seq<Json>,
                     fetch: Json -> Outcome<seq<byte>>, encode: seq<byte> -> string): Outcome<seq<Entry>>
  {
    match KeywordPass(kws, docs, allowed, fetch, encode)
    case Raised => Raised
    case Returned(fs) => if fs != [] then Returned(fs) else DocsFiles(docs, allowed, fetch, encode)
  }

  // ---------------------------------------------------------------------------
  // The route

  /** The allowed extensions: `data.get('allowedFiletypes', None)` when truthy; None
      when it is truthy but not a list. */
  function AllowedOf(data: Json): Option<seq<Json>>
    requires data.Obj?
  {
    var ft := Get(data, "allowedFiletypes", Null).value;
    if !Truthy(ft) then Some([])
    else if ft.Arr? then Some(ft.items)
    else None
  }

  /** `fil_by_keyword`. `body` is what `request.get_json()` gives; every exception,
      from parsing the body onwards, is caught and answered with 500. */
  function FilByKeywordSpec(body: Outcome<Json>, documents: Outcome<Json>,
                            fetch: Json -> Outcome<seq<byte>>, encode: seq<byte> -> string): Reply
  {
    match body
    case Raised => ServerError
    case Returned(data) =>
      if !Truthy(data) then BadRequest(RequiredMsg)
      else match Sub(data, "keywords")
        case None => ServerError
        case Some(kws) =>
          if !Truthy(kws) then BadRequest(RequiredMsg)
          else match Sub(data, "sagID")
            case None => ServerError
            case Some(sag) =>
              if !Truthy(sag) then BadRequest(RequiredMsg)
              else if !kws.Arr? then BadRequest(KeywordsListMsg)
              else match AllowedOf(data)
                case None => BadRequest(FiletypesMsg)
                case Some(allowed) =>
                  match documents
                  case Raised => ServerError
                  case Returned(d) =>
                    if !Truthy(d) then NotFound(sag)
                    else match Elements(d)
                      case None => ServerError
                      case Some(docs) =>
                        match Selection(kws.items, docs, allowed, fetch, encode)
                        case Raised => ServerError
                        case Returned(files) => Files(files)
  }

  // ---------------------------------------------------------------------------
  // The loops

  /** `for fil in document['Filer']`, appending to `files`. */
  method AppendDocFiles(files: seq<Entry>, doc: Json, fils: seq<Json>, allowed: seq<Json>,
                        fetch: Json -> Outcome<seq<byte>>, encode: seq<byte> -> string)
    returns (o: Outcome<seq<Entry>>)
    ensures o == Extend(files, DocFiles(doc, fils, allowed, fetch, encode))
  {
    var acc := files;
    var i := 0;
    while i < |fils|
      invariant 0 <= i <= |fils|
      invariant Extend(files, DocFiles(doc, fils, allowed, fetch, encode)) ==
                Extend(acc, DocFiles(doc, fils[i..], allowed, fetch, encode))
    {
      var fil := fils[i];
      assert fils[i..][1..] == fils[i + 1..];
      var id := Sub(fil, "ShortId");
      if id.None? {
        return Raised;
      }
      var content := fetch(id.value);
      if content.Raised? {
        return Raised;
      }
      if content.value == [] {
        i := i + 1;
        continue;
      }
      var ok := Admitted(fil, allowed);
      if ok.None? {
        return Raised;
      }
      if !ok.value {
        i := i + 1;
        continue;
      }
      var encoded := encode(content.value);
      var filename := Sub(fil, "Filnavn");
      var name := Sub(doc, "Navn");
      var mime := Sub(fil, "MimeType");
      if filename.None? || name.None? || mime.None? {
        return Raised;
      }
      var entry := Entry(filename.value, name.value, encoded, mime.value);
      ExtendTwice(acc, [entry], DocFiles(doc, fils[i + 1..], allowed, fetch, encode));
      acc := acc + [entry];
      i := i + 1;
    }
    assert acc + [] == acc;
    return Returned(acc);
  }

  /** `for document in ...: for fil in document['Filer']`, appending to `files`. */
  method AppendDocsFiles(files: seq<Entry>, docs: seq<Json>, allowed: seq<Json>,
                         fetch: Json -> Outcome<seq<byte>>, encode: seq<byte> -> string)
    returns (o: Outcome<seq<Entry>>)
    ensures o == Extend(files, DocsFiles(docs, allowed, fetch, encode))
  {
    var acc := files;
    var j := 0;
    while j < |docs|
      invariant 0 <= j <= |docs|
      invariant Extend(files, DocsFiles(docs, allowed, fetch, encode)) ==
                Extend(acc, DocsFiles(docs[j..], allowed, fetch, encode))
    {
      var doc := docs[j];
      assert docs[j..][1..] == docs[j + 1..];
      var filer := Sub(doc, "Filer");
      if filer.None? {
        return Raised;
      }
      var fils := Elements(filer.value);
      if fils.None? {
        return Raised;
      }
      var next := AppendDocFiles(acc, doc, fils.value, allowed, fetch, encode);
      if next.Raised? {
        return Raised;
      }
      ghost var es := FilesOf(doc, allowed, fetch, encode).value;
      ExtendTwice(acc, es, DocsFiles(docs[j + 1..], allowed, fetch, encode));
      acc := next.value;
      j := j + 1;
    }
    assert acc + [] == acc;
    return Returned(acc);
  }

  /** `for keyword in data['keywords']`, appending to `files`. */
  method AppendKeywordPass(kws: seq<Json>, docs: seq<Json>, allowed: seq<Json>,
                           fetch: Json -> Outcome<seq<byte>>, encode: seq<byte> -> string)
    returns (o: Outcome<seq<Entry>>)
    ensures o == KeywordPass(kws, docs, allowed, fetch, encode)
  {
    var files: seq<Entry> := [];
    var k := 0;
    ghost var whole := KeywordPass(kws, docs, allowed, fetch, encode);
    if whole.Returned? {
      assert [] + whole.value == whole.value;
    }
    while k < |kws|
      invariant 0 <= k <= |kws|
      invariant whole == Extend(files, KeywordPass(kws[k..], docs, allowed, fetch, encode))
    {
      var kw := kws[k];
      assert kws[k..][1..] == kws[k + 1..];
      ghost var rest := KeywordPass(kws[k + 1..], docs, allowed, fetch, encode);
      if !kw.Str? {
        return Raised;
      }
      var filtered := Filtered(docs, Lower(kw.s));
      if filtered.None? {
        return Raised;
      }
      var next := AppendDocsFiles(files, filtered.value, allowed, fetch, encode);
      if next.Raised? {
        return Raised;
      }
      ExtendTwice(files, KeywordFiles(kw, docs, allowed, fetch, encode).value, rest);
      files := next.value;
      k := k + 1;
    }
    assert files + [] == files;
    return Returned(files);
  }

  /** The two passes of `fil_by_keyword` over the documents. */
  method Select(kws: seq<Json>, docs: seq<Json>, allowed: seq<Json>,
                fetch: Json -> Outcome<seq<byte>>, encode: seq<byte> -> string)
    returns (o: Outcome<seq<Entry>>)
    ensures o == Selection(kws, docs, allowed, fetch, encode)
  {
    var files := AppendKeywordPass(kws, docs, allowed, fetch, encode);
    if files.Raised? {
      return Raised;
    }
    if files.value == [] {
      ghost var all := DocsFiles(docs, allowed, fetch, encode);
      if all.Returned? {
        assert [] + all.value == all.value;
      }
      o := AppendDocsFiles([], docs, allowed, fetch, encode);
      return;
    }
    return files;
  }

  /** `fil_by_keyword` */
  method FilByKeyword(body: Outcome<Json>, documents: Outcome<Json>,
                      fetch: Json -> Outcome<seq<byte>>, encode: seq<byte> -> string)
    returns (r: Reply)
    ensures r == FilByKeywordSpec(body, documents, fetch, encode)
  {
    if body.Raised? {
      return ServerError;
    }
    var data := body.value;
    if !Truthy(data) {
      return BadRequest(RequiredMsg);
    }
    var kws := Sub(data, "keywords");
    if kws.None? {
      return ServerError;
    }
    if !Truthy(kws.value) {
      return BadRequest(RequiredMsg);
    }
    var sag := Sub(data, "sagID");
    if sag.None? {
      return ServerError;
    }
    if !Truthy(sag.value) {
      return BadRequest(RequiredMsg);
    }
    if !kws.value.Arr? {
      return BadRequest(KeywordsListMsg);
    }
    var allowed: seq<Json> := [];
    var ft := Get(data, "allowedFiletypes", Null).value;
    if Truthy(ft) {
      if !ft.Arr? {
        return BadRequest(FiletypesMsg);
      }
      allowed := ft.items;
    }
    if documents.Raised? {
      return ServerError;
    }
    if !Truthy(documents.value) {
      return NotFound(sag.value);
    }
    var docs := Elements(documents.value);
    if docs.None? {
      return ServerError;
    }
    var files := Select(kws.value.items, docs.value, allowed, fetch, encode);
    if files.Raised? {
      return ServerError;
    }
    return Files(files.value);
  }

  // ---------------------------------------------------------------------------
  // Properties

  /** The validation answers: 400 with the combined message for a falsy body, or a
      falsy `keywords` or `sagID`; 400 for `keywords` that is not a list and for a
      truthy `allowedFiletypes` that is not one; 404 naming the id for a falsy
      documents reply. */
  lemma Validation(data: Json, documents: Outcome<Json>,
                   fetch: Json -> Outcome<seq<byte>>, encode: seq<byte> -> string)
    ensures var r := FilByKeywordSpec(Returned(data), documents, fetch, encode);
      && (r == BadRequest(RequiredMsg) <==>
            !Truthy(data) ||
            (Sub(data, "keywords").Some? &&
             (!Truthy(Sub(data, "keywords").value) ||
              (Sub(data, "sagID").Some? && !Truthy(Sub(data, "sagID").value)))))
      && (r == BadRequest(KeywordsListMsg) <==>
            Truthy(data) && Sub(data, "keywords").Some? && Truthy(Sub(data, "keywords").value) &&
            Sub(data, "sagID").Some? && Truthy(Sub(data, "sagID").value) &&
            !Sub(data, "keywords").value.Arr?)
      && (r == BadRequest(FiletypesMsg) ==>
            Get(data, "allowedFiletypes", Null).Some? &&
            Truthy(Get(data, "allowedFiletypes", Null).value) &&
            !Get(data, "allowedFiletypes", Null).value.Arr?)
      && (r.NotFound? ==> documents.Returned? && !Truthy(documents.value) && r.sagId == Sub(data, "sagID").value)
  {
  }

  /** The file `fil` of `doc` gives entry `e`: its content is non-empty and the
      extension is admitted; the entry carries the file's name and MIME type, the
      document's name and the encoded content. */
  predicate FromFile(e: Entry, doc: Json, fil: Json, allowed: seq<Json>,
                     fetch: Json -> Outcome<seq<byte>>, encode: seq<byte> -> string)
  {
    && Sub(fil, "ShortId").Some?
    && fetch(Sub(fil, "ShortId").value).Returned?
    && fetch(Sub(fil, "ShortId").value).value != []
    && Admitted(fil, allowed) == Some(true)
    && Sub(fil, "Filnavn") == Some(e.filename)
    && Sub(doc, "Navn") == Some(e.documentName)
    && Sub(fil, "MimeType") == Some(e.mimeType)
    && e.data == encode(fetch(Sub(fil, "ShortId").value).value)
  }

  /** An entry made for one file is made from that file. */
  lemma FileEntryFrom(doc: Json, fil: Json, allowed: seq<Json>,
                      fetch: Json -> Outcome<seq<byte>>, encode: seq<byte> -> string)
    requires FileEntry(doc, fil, allowed, fetch, encode).Returned?
    requires FileEntry(doc, fil, allowed, fetch, encode).value.Some?
    ensures FromFile(FileEntry(doc, fil, allowed, fetch, encode).value.value, doc, fil, allowed, fetch, encode)
  {
  }

  /** Every entry of a document's files comes from one of those files. */
  lemma {:induction false} DocFilesFrom(doc: Json, fils: seq<Json>, allowed: seq<Json>,
                                        fetch: Json -> Outcome<seq<byte>>, encode: seq<byte> -> string)
    requires DocFiles(doc, fils, allowed, fetch, encode).Returned?
    ensures forall e :: e in DocFiles(doc, fils, allowed, fetch, encode).value ==>
      exists fil :: fil in fils && FromFile(e, doc, fil, allowed, fetch, encode)
    decreases |fils|
  {
    if fils != [] {
      var rest := fils[1..];
      DocFilesFrom(doc, rest, allowed, fetch, encode);
      assert forall fil :: fil in rest ==> fil in fils;
      var head := FileEntry(doc, fils[0], allowed, fetch, encode);
      if head.value.Some? {
        FileEntryFrom(doc, fils[0], allowed, fetch, encode);
      }
    }
  }

  /** A file of a document, as `for fil in document['Filer']` visits it. */
  predicate FileOf(doc: Json, fil: Json) {
    Sub(doc, "Filer").Some? && Elements(Sub(doc, "Filer").value).Some? &&
    fil in Elements(Sub(doc, "Filer").value).value
  }

  /** `e` is made from a file of one of `docs`. */
  ghost predicate FromDocs(e: Entry, docs: seq<Json>, allowed: seq<Json>,
                     fetch: Json -> Outcome<seq<byte>>, encode: seq<byte> -> string)
  {
    exists doc, fil :: doc in docs && FileOf(doc, fil) && FromFile(e, doc, fil, allowed, fetch, encode)
  }

  lemma FromDocsWithin(e: Entry, ds: seq<Json>, docs: seq<Json>, allowed: seq<Json>,
                       fetch: Json -> Outcome<seq<byte>>, encode: seq<byte> -> string)
    requires FromDocs(e, ds, allowed, fetch, encode)
    requires forall d :: d in ds ==> d in docs
    ensures FromDocs(e, docs, allowed, fetch, encode)
  {
    var doc, fil :| doc in ds && FileOf(doc, fil) && FromFile(e, doc, fil, allowed, fetch, encode);
    assert doc in docs;
  }

  /** Every entry collected from a document's `Filer` comes from one of them. */
  lemma FilesOfFrom(doc: Json, allowed: seq<Json>,
                    fetch: Json -> Outcome<seq<byte>>, encode: seq<byte> -> string)
    requires FilesOf(doc, allowed, fetch, encode).Returned?
    ensures forall e :: e in FilesOf(doc, allowed, fetch, encode).value ==>
      FromDocs(e, [doc], allowed, fetch, encode)
  {
    var fils := Elements(Sub(doc, "Filer").value).value;
    DocFilesFrom(doc, fils, allowed, fetch, encode);
    forall e | e in FilesOf(doc, allowed, fetch, encode).value
      ensures FromDocs(e, [doc], allowed, fetch, encode)
    {
      var fil :| fil in fils && FromFile(e, doc, fil, allowed, fetch, encode);
      assert FileOf(doc, fil);
    }
  }

  /** Every entry collected from a list of documents comes from a file of one of them. */
  lemma {:induction false} DocsFilesFrom(docs: seq<Json>, allowed: seq<Json>,
                                         fetch: Json -> Outcome<seq<byte>>, encode: seq<byte> -> string)
    requires DocsFiles(docs, allowed, fetch, encode).Returned?
    ensures forall e :: e in DocsFiles(docs, allowed, fetch, encode).value ==>
      FromDocs(e, docs, allowed, fetch, encode)
    decreases |docs|
  {
    if docs != [] {
      var rest := docs[1..];
      FilesOfFrom(docs[0], allowed, fetch, encode);
      DocsFilesFrom(rest, allowed, fetch, encode);
      assert forall d :: d in rest ==> d in docs;
      assert forall d :: d in [docs[0]] ==> d in docs;
      forall e | e in DocsFiles(docs, allowed, fetch, encode).value
        ensures FromDocs(e, docs, allowed, fetch, encode)
      {
        if e in FilesOf(docs[0], allowed, fetch, encode).value {
          FromDocsWithin(e, [docs[0]], docs, allowed, fetch, encode);
        } else {
          FromDocsWithin(e, rest, docs, allowed, fetch, encode);
        }
      }
    }
  }

  /** The documents a keyword selects are exactly those whose name, lowered, contains
      it. */
  lemma {:induction false} FilteredSpec(docs: seq<Json>, keyword: string)
    requires Filtered(docs, keyword).Some?
    ensures forall d :: d in Filtered(docs, keyword).value <==> d in docs && Matches(d, keyword) == Some(true)
    ensures |Filtered(docs, keyword).value| <= |docs|
    decreases |docs|
  {
    if docs != [] {
      var n := |docs| - 1;
      FilteredSpec(docs[..n], keyword);
      assert docs == docs[..n] + [docs[n]];
      forall d | d in docs[..n]
        ensures Matches(d, keyword).Some?
      {
        FilteredDefined(docs[..n], keyword, d);
      }
    }
  }

  /** A keyword pass that succeeded found every document's name test defined. */
  lemma {:induction false} FilteredDefined(docs: seq<Json>, keyword: string, d: Json)
    requires Filtered(docs, keyword).Some? && d in docs
    ensures Matches(d, keyword).Some?
    decreases |docs|
  {
    var n := |docs| - 1;
    if d != docs[n] {
      assert docs == docs[..n] + [docs[n]];
      FilteredDefined(docs[..n], keyword, d);
    }
  }

  /** The pass over a list of keywords is the pass over its first part followed by the
      pass over the rest: a document matching several keywords is emitted once per
      keyword. */
  lemma {:induction false} KeywordPassAppend(a: seq<Json>, b: seq<Json>, docs: seq<Json>, allowed: seq<Json>,
                                             fetch: Json -> Outcome<seq<byte>>, encode: seq<byte> -> string)
    ensures KeywordPass(a + b, docs, allowed, fetch, encode) ==
      (match KeywordPass(a, docs, allowed, fetch, encode)
       case Raised => Raised
       case Returned(es) => Extend(es, KeywordPass(b, docs, allowed, fetch, encode)))
    decreases |a|
  {
    var pb := KeywordPass(b, docs, allowed, fetch, encode);
    if a == [] {
      assert a + b == b;
      if pb.Returned? {
        assert [] + pb.value == pb.value;
      }
    } else {
      assert (a + b)[0] == a[0];
      assert (a + b)[1..] == a[1..] + b;
      KeywordPassAppend(a[1..], b, docs, allowed, fetch, encode);
      var head := KeywordFiles(a[0], docs, allowed, fetch, encode);
      var tail := KeywordPass(a[1..], docs, allowed, fetch, encode);
      if head.Returned? && tail.Returned? {
        ExtendTwice(head.value, tail.value, pb);
      }
    }
  }

  /** The same keyword given twice selects its files twice. */
  lemma RepeatedKeyword(kw: Json, docs: seq<Json>, allowed: seq<Json>,
                        fetch: Json -> Outcome<seq<byte>>, encode: seq<byte> -> string)
    requires KeywordFiles(kw, docs, allowed, fetch, encode).Returned?
    ensures var once := KeywordFiles(kw, docs, allowed, fetch, encode).value;
      KeywordPass([kw, kw], docs, allowed, fetch, encode) == Returned(once + once)
  {
    var once := KeywordFiles(kw, docs, allowed, fetch, encode).value;
    assert [kw, kw][1..] == [kw];
    assert [kw][1..] == [];
    assert KeywordPass([kw], docs, allowed, fetch, encode) == Returned(once + []);
    assert once + [] == once;
  }

  /** Lowering is idempotent, so a keyword and its lowered form select the same files:
      the match ignores the case of the keyword. */
  lemma KeywordCaseInsensitive(s: string, docs: seq<Json>, allowed: seq<Json>,
                               fetch: Json -> Outcome<seq<byte>>, encode: seq<byte> -> string)
    ensures KeywordFiles(Str(s), docs, allowed, fetch, encode) == KeywordFiles(Str(Lower(s)), docs, allowed, fetch, encode)
  {
    assert Lower(Lower(s)) == Lower(s);
  }

  /** When every keyword is a string and selects no document, the answer is every file of
      every document. */
  lemma {:induction false} NoMatchFallsBack(kws: seq<Json>, docs: seq<Json>, allowed: seq<Json>,
                                            fetch: Json -> Outcome<seq<byte>>, encode: seq<byte> -> string)
    requires forall k :: 0 <= k < |kws| ==> kws[k].Str? && Filtered(docs, Lower(kws[k].s)) == Some([])
    ensures KeywordPass(kws, docs, allowed, fetch, encode) == Returned([])
    ensures Selection(kws, docs, allowed, fetch, encode) == DocsFiles(docs, allowed, fetch, encode)
    decreases |kws|
  {
    if kws != [] {
      assert forall k :: 0 <= k < |kws| - 1 ==> kws[1..][k] == kws[k + 1];
      NoMatchFallsBack(kws[1..], docs, allowed, fetch, encode);
      assert KeywordFiles(kws[0], docs, allowed, fetch, encode) == Returned([]);
      var none: seq<Entry> := [];
      assert none + none == none;
    }
  }

  /** A keyword pass that selects something is the answer; the documents' full file
      list is not consulted. */
  lemma KeywordHitWins(kws: seq<Json>, docs: seq<Json>, allowed: seq<Json>,
                       fetch: Json -> Outcome<seq<byte>>, encode: seq<byte> -> string)
    requires KeywordPass(kws, docs, allowed, fetch, encode).Returned?
    requires KeywordPass(kws, docs, allowed, fetch, encode).value != []
    ensures Selection(kws, docs, allowed, fetch, encode) == KeywordPass(kws, docs, allowed, fetch, encode)
  {
  }

  /** Every entry of one keyword's selection comes from a file of a document whose name
      contains the lowered keyword. */
  lemma KeywordFilesFrom(kw: Json, docs: seq<Json>, allowed: seq<Json>,
                         fetch: Json -> Outcome<seq<byte>>, encode: seq<byte> -> string)
    requires KeywordFiles(kw, docs, allowed, fetch, encode).Returned?
    ensures kw.Str?
    ensures forall e :: e in KeywordFiles(kw, docs, allowed, fetch, encode).value ==>
      exists doc, fil :: doc in docs && Matches(doc, Lower(kw.s)) == Some(true) &&
        FileOf(doc, fil) && FromFile(e, doc, fil, allowed, fetch, encode)
  {
    var ds := Filtered(docs, Lower(kw.s)).value;
    FilteredSpec(docs, Lower(kw.s));
    DocsFilesFrom(ds, allowed, fetch, encode);
    forall e | e in KeywordFiles(kw, docs, allowed, fetch, encode).value
      ensures exists doc, fil ::
        (doc in docs && Matches(doc, Lower(kw.s)) == Some(true) &&
         FileOf(doc, fil) && FromFile(e, doc, fil, allowed, fetch, encode))
    {
      var doc, fil :| doc in ds && FileOf(doc, fil) && FromFile(e, doc, fil, allowed, fetch, encode);
      assert doc in docs && Matches(doc, Lower(kw.s)) == Some(true);
    }
  }

  /** Every entry of the keyword pass comes from a file of one of the documents. */
  lemma {:induction false} KeywordPassFrom(kws: seq<Json>, docs: seq<Json>, allowed: seq<Json>,
                                           fetch: Json -> Outcome<seq<byte>>, encode: seq<byte> -> string)
    requires KeywordPass(kws, docs, allowed, fetch, encode).Returned?
    ensures forall e :: e in KeywordPass(kws, docs, allowed, fetch, encode).value ==>
      FromDocs(e, docs, allowed, fetch, encode)
    decreases |kws|
  {
    if kws != [] {
      KeywordFilesFrom(kws[0], docs, allowed, fetch, encode);
      KeywordPassFrom(kws[1..], docs, allowed, fetch, encode);
    }
  }

  /** Every file in a 200 answer comes from a document of the case, with a non-empty
      content and an admitted extension, and carries that file's and that document's
      fields. */
  lemma AnswerEntries(kws: seq<Json>, docs: seq<Json>, allowed: seq<Json>,
                      fetch: Json -> Outcome<seq<byte>>, encode: seq<byte> -> string)
    requires Selection(kws, docs, allowed, fetch, encode).Returned?
    ensures forall e :: e in Selection(kws, docs, allowed, fetch, encode).value ==>
      FromDocs(e, docs, allowed, fetch, encode)
  {
    var p := KeywordPass(kws, docs, allowed, fetch, encode);
    if p.value == [] {
      DocsFilesFrom(docs, allowed, fetch, encode);
    } else {
      KeywordPassFrom(kws, docs, allowed, fetch, encode);
    }
  }

  // ---------------------------------------------------------------------------
  // Completeness: the answer lists every file that qualifies, in order

  /** The values of the present elements of `xs`, in order. */
  function Present<T>(xs: seq<Option<T>>): seq<T>
    decreases |xs|
  {
    if xs == [] then [] else (if xs[0].Some? then [xs[0].value] else []) + Present(xs[1..])
  }

  lemma {:induction false} PresentMembers<T>(xs: seq<Option<T>>, x: T)
    ensures x in Present(xs) <==> Some(x) in xs
    decreases |xs|
  {
    if xs != [] {
      PresentMembers(xs[1..], x);
      assert xs == [xs[0]] + xs[1..];
    }
  }

  lemma {:induction false} PresentAppend<T>(a: seq<Option<T>>, b: seq<Option<T>>)
    ensures Present(a + b) == Present(a) + Present(b)
    decreases |a|
  {
    if a == [] {
      assert a + b == b;
    } else {
      assert (a + b)[0] == a[0];
      assert (a + b)[1..] == a[1..] + b;
      PresentAppend(a[1..], b);
    }
  }

  /** The lists of `vs` one after another. */
  function Concat(vs: seq<seq<Entry>>): seq<Entry>
    decreases |vs|
  {
    if vs == [] then [] else vs[0] + Concat(vs[1..])
  }

  /** What the innermost loop makes of one file: its entry, or nothing when the file is
      skipped or raises. */
  function EntryOf(doc: Json, fil: Json, allowed: seq<Json>,
                   fetch: Json -> Outcome<seq<byte>>, encode: seq<byte> -> string): Option<Entry>
  {
    match FileEntry(doc, fil, allowed, fetch, encode)
    case Raised => None
    case Returned(o) => o
  }

  /** File by file, what the innermost loop makes of each of `fils`. */
  function EntriesOf(doc: Json, fils: seq<Json>, allowed: seq<Json>,
                     fetch: Json -> Outcome<seq<byte>>, encode: seq<byte> -> string): (r: seq<Option<Entry>>)
    ensures |r| == |fils|
    ensures forall i :: 0 <= i < |fils| ==> r[i] == EntryOf(doc, fils[i], allowed, fetch, encode)
    decreases |fils|
  {
    if fils == [] then []
    else [EntryOf(doc, fils[0], allowed, fetch, encode)] + EntriesOf(doc, fils[1..], allowed, fetch, encode)
  }

  /** One file both ways: it gives entry `e` exactly when it qualifies for `e`, and it
      is skipped exactly when its content is empty or its extension is not admitted. */
  lemma FileEntryIff(doc: Json, fil: Json, allowed: seq<Json>,
                     fetch: Json -> Outcome<seq<byte>>, encode: seq<byte> -> string, e: Entry)
    ensures FileEntry(doc, fil, allowed, fetch, encode) == Returned(Some(e)) <==>
      FromFile(e, doc, fil, allowed, fetch, encode)
    ensures FileEntry(doc, fil, allowed, fetch, encode) == Returned(None) <==>
      && Sub(fil, "ShortId").Some? && fetch(Sub(fil, "ShortId").value).Returned?
      && (fetch(Sub(fil, "ShortId").value).value == [] || Admitted(fil, allowed) == Some(false))
  {
  }

  /** The loop over a document's files raises exactly when one file does; otherwise it
      yields the entries of the files that qualify, in the order of the files. */
  lemma {:induction false} DocFilesExact(doc: Json, fils: seq<Json>, allowed: seq<Json>,
                                         fetch: Json -> Outcome<seq<byte>>, encode: seq<byte> -> string)
    ensures DocFiles(doc, fils, allowed, fetch, encode).Returned? <==>
      forall i :: 0 <= i < |fils| ==> FileEntry(doc, fils[i], allowed, fetch, encode).Returned?
    ensures DocFiles(doc, fils, allowed, fetch, encode).Returned? ==>
      DocFiles(doc, fils, allowed, fetch, encode).value == Present(EntriesOf(doc, fils, allowed, fetch, encode))
    decreases |fils|
  {
    if fils != [] {
      DocFilesExact(doc, fils[1..], allowed, fetch, encode);
      assert forall i :: 1 <= i < |fils| ==> fils[1..][i - 1] == fils[i];
      var xs := EntriesOf(doc, fils, allowed, fetch, encode);
      assert xs[1..] == EntriesOf(doc, fils[1..], allowed, fetch, encode);
    }
  }

  /** Every file of the list that qualifies is in the document's entries. */
  lemma DocFileListed(doc: Json, fils: seq<Json>, allowed: seq<Json>,
                      fetch: Json -> Outcome<seq<byte>>, encode: seq<byte> -> string, fil: Json, e: Entry)
    requires DocFiles(doc, fils, allowed, fetch, encode).Returned?
    requires fil in fils && FromFile(e, doc, fil, allowed, fetch, encode)
    ensures e in DocFiles(doc, fils, allowed, fetch, encode).value
  {
    DocFilesExact(doc, fils, allowed, fetch, encode);
    FileEntryIff(doc, fil, allowed, fetch, encode, e);
    var xs := EntriesOf(doc, fils, allowed, fetch, encode);
    var i :| 0 <= i < |fils| && fils[i] == fil;
    assert xs[i] == Some(e);
    PresentMembers(xs, e);
  }

  /** The files `for fil in document['Filer']` visits; none when `Filer` is missing or
      cannot be iterated. */
  function FilerOf(doc: Json): seq<Json> {
    if Sub(doc, "Filer").Some? && Elements(Sub(doc, "Filer").value).Some?
    then Elements(Sub(doc, "Filer").value).value else []
  }

  /** One document's entries: it raises exactly when `Filer` is missing, cannot be
      iterated, or one of its files raises; otherwise the qualifying files in order. */
  lemma FilesOfExact(doc: Json, allowed: seq<Json>,
                     fetch: Json -> Outcome<seq<byte>>, encode: seq<byte> -> string)
    ensures FilesOf(doc, allowed, fetch, encode).Returned? <==>
      && Sub(doc, "Filer").Some? && Elements(Sub(doc, "Filer").value).Some?
      && forall i :: 0 <= i < |FilerOf(doc)| ==> FileEntry(doc, FilerOf(doc)[i], allowed, fetch, encode).Returned?
    ensures FilesOf(doc, allowed, fetch, encode).Returned? ==>
      FilesOf(doc, allowed, fetch, encode).value == Present(EntriesOf(doc, FilerOf(doc), allowed, fetch, encode))
  {
    DocFilesExact(doc, FilerOf(doc), allowed, fetch, encode);
  }

  /** Document by document, the entries each yields (none for one that raises). */
  function PerDoc(docs: seq<Json>, allowed: seq<Json>,
                  fetch: Json -> Outcome<seq<byte>>, encode: seq<byte> -> string): (r: seq<seq<Entry>>)
    ensures |r| == |docs|
    ensures forall i :: 0 <= i < |docs| ==>
      r[i] == (if FilesOf(docs[i], allowed, fetch, encode).Returned? then FilesOf(docs[i], allowed, fetch, encode).value else [])
    decreases |docs|
  {
    if docs == [] then []
    else
      var o := FilesOf(docs[0], allowed, fetch, encode);
      [if o.Returned? then o.value else []] + PerDoc(docs[1..], allowed, fetch, encode)
  }

  /** The loop over documents raises exactly when one document does; otherwise it yields
      each document's entries, in the order of the documents. */
  lemma {:induction false} DocsFilesExact(docs: seq<Json>, allowed: seq<Json>,
                                          fetch: Json -> Outcome<seq<byte>>, encode: seq<byte> -> string)
    ensures DocsFiles(docs, allowed, fetch, encode).Returned? <==>
      forall i :: 0 <= i < |docs| ==> FilesOf(docs[i], allowed, fetch, encode).Returned?
    ensures DocsFiles(docs, allowed, fetch, encode).Returned? ==>
      DocsFiles(docs, allowed, fetch, encode).value == Concat(PerDoc(docs, allowed, fetch, encode))
    decreases |docs|
  {
    if docs != [] {
      DocsFilesExact(docs[1..], allowed, fetch, encode);
      assert forall i :: 1 <= i < |docs| ==> docs[1..][i - 1] == docs[i];
      var vs := PerDoc(docs, allowed, fetch, encode);
      assert vs[1..] == PerDoc(docs[1..], allowed, fetch, encode);
    }
  }

  /** Every qualifying file of every document is in the documents' entries. */
  lemma {:induction false} DocsFileListed(docs: seq<Json>, allowed: seq<Json>,
                                          fetch: Json -> Outcome<seq<byte>>, encode: seq<byte> -> string,
                                          doc: Json, fil: Json, e: Entry)
    requires DocsFiles(docs, allowed, fetch, encode).Returned?
    requires doc in docs && FileOf(doc, fil) && FromFile(e, doc, fil, allowed, fetch, encode)
    ensures e in DocsFiles(docs, allowed, fetch, encode).value
    decreases |docs|
  {
    var head := FilesOf(docs[0], allowed, fetch, encode);
    var tail := DocsFiles(docs[1..], allowed, fetch, encode);
    assert DocsFiles(docs, allowed, fetch, encode).value == head.value + tail.value;
    if docs[0] == doc {
      DocFileListed(doc, FilerOf(doc), allowed, fetch, encode, fil, e);
    } else {
      assert doc in docs[1..];
      DocsFileListed(docs[1..], allowed, fetch, encode, doc, fil, e);
    }
  }

  /** Position by position, the documents a keyword selects. */
  function MatchMask(docs: seq<Json>, keyword: string): (r: seq<Option<Json>>)
    ensures |r| == |docs|
    ensures forall i :: 0 <= i < |docs| ==>
      r[i] == (if Matches(docs[i], keyword) == Some(true) then Some(docs[i]) else None)
    decreases |docs|
  {
    if docs == [] then []
    else [if Matches(docs[0], keyword) == Some(true) then Some(docs[0]) else None] + MatchMask(docs[1..], keyword)
  }

  /** `filtered_documents` keeps the matching documents in the order of the response. */
  lemma {:induction false} FilteredInOrder(docs: seq<Json>, keyword: string)
    requires Filtered(docs, keyword).Some?
    ensures Filtered(docs, keyword).value == Present(MatchMask(docs, keyword))
    decreases |docs|
  {
    if docs != [] {
      var n := |docs| - 1;
      FilteredInOrder(docs[..n], keyword);
      var m := MatchMask(docs, keyword);
      var last := [if Matches(docs[n], keyword) == Some(true) then Some(docs[n]) else None];
      assert m == MatchMask(docs[..n], keyword) + last;
      PresentAppend(MatchMask(docs[..n], keyword), last);
      assert Present(last) == (if Matches(docs[n], keyword) == Some(true) then [docs[n]] else []) + Present(last[1..]);
    }
  }

  /** One keyword's files are the entries of the documents it selects, in the order of
      the response. */
  lemma KeywordFilesExact(kw: Json, docs: seq<Json>, allowed: seq<Json>,
                          fetch: Json -> Outcome<seq<byte>>, encode: seq<byte> -> string)
    requires KeywordFiles(kw, docs, allowed, fetch, encode).Returned?
    ensures kw.Str? && Filtered(docs, Lower(kw.s)).Some?
    ensures var ds := Present(MatchMask(docs, Lower(kw.s)));
      KeywordFiles(kw, docs, allowed, fetch, encode).value == Concat(PerDoc(ds, allowed, fetch, encode))
  {
    FilteredInOrder(docs, Lower(kw.s));
    DocsFilesExact(Filtered(docs, Lower(kw.s)).value, allowed, fetch, encode);
  }

  /** Keyword by keyword, the files each selects (none for one that raises). */
  function PerKeyword(kws: seq<Json>, docs: seq<Json>, allowed: seq<Json>,
                      fetch: Json -> Outcome<seq<byte>>, encode: seq<byte> -> string): (r: seq<seq<Entry>>)
    ensures |r| == |kws|
    ensures forall k :: 0 <= k < |kws| ==>
      r[k] == (if KeywordFiles(kws[k], docs, allowed, fetch, encode).Returned?
               then KeywordFiles(kws[k], docs, allowed, fetch, encode).value else [])
    decreases |kws|
  {
    if kws == [] then []
    else
      var o := KeywordFiles(kws[0], docs, allowed, fetch, encode);
      [if o.Returned? then o.value else []] + PerKeyword(kws[1..], docs, allowed, fetch, encode)
  }

  /** The keyword pass raises exactly when one keyword does; otherwise it is each
      keyword's files, in the order of the keywords. */
  lemma {:induction false} KeywordPassExact(kws: seq<Json>, docs: seq<Json>, allowed: seq<Json>,
                                            fetch: Json -> Outcome<seq<byte>>, encode: seq<byte> -> string)
    ensures KeywordPass(kws, docs, allowed, fetch, encode).Returned? <==>
      forall k :: 0 <= k < |kws| ==> KeywordFiles(kws[k], docs, allowed, fetch, encode).Returned?
    ensures KeywordPass(kws, docs, allowed, fetch, encode).Returned? ==>
      KeywordPass(kws, docs, allowed, fetch, encode).value == Concat(PerKeyword(kws, docs, allowed, fetch, encode))
    decreases |kws|
  {
    if kws != [] {
      KeywordPassExact(kws[1..], docs, allowed, fetch, encode);
      assert forall k :: 1 <= k < |kws| ==> kws[1..][k - 1] == kws[k];
      var vs := PerKeyword(kws, docs, allowed, fetch, encode);
      assert vs[1..] == PerKeyword(kws[1..], docs, allowed, fetch, encode);
    }
  }

  /** Every qualifying file of a document that keyword `k` selects is in the pass. */
  lemma {:induction false} KeywordFileListed(kws: seq<Json>, docs: seq<Json>, allowed: seq<Json>,
                                             fetch: Json -> Outcome<seq<byte>>, encode: seq<byte> -> string,
                                             k: nat, doc: Json, fil: Json, e: Entry)
    requires KeywordPass(kws, docs, allowed, fetch, encode).Returned?
    requires k < |kws| && kws[k].Str? && doc in docs && Matches(doc, Lower(kws[k].s)) == Some(true)
    requires FileOf(doc, fil) && FromFile(e, doc, fil, allowed, fetch, encode)
    ensures e in KeywordPass(kws, docs, allowed, fetch, encode).value
    decreases |kws|
  {
    var head := KeywordFiles(kws[0], docs, allowed, fetch, encode);
    var tail := KeywordPass(kws[1..], docs, allowed, fetch, encode);
    assert KeywordPass(kws, docs, allowed, fetch, encode).value == head.value + tail.value;
    if k == 0 {
      var ds := Filtered(docs, Lower(kws[0].s)).value;
      FilteredSpec(docs, Lower(kws[0].s));
      DocsFileListed(ds, allowed, fetch, encode, doc, fil, e);
    } else {
      assert kws[1..][k - 1] == kws[k];
      KeywordFileListed(kws[1..], docs, allowed, fetch, encode, k - 1, doc, fil, e);
    }
  }

  /** The whole answer: the keyword files in keyword order when there are any, else the
      entries of every document in document order; and every qualifying file of a
      selected document (any document, on the fallback) is in it. */
  lemma AnswerExact(kws: seq<Json>, docs: seq<Json>, allowed: seq<Json>,
                    fetch: Json -> Outcome<seq<byte>>, encode: seq<byte> -> string)
    requires Selection(kws, docs, allowed, fetch, encode).Returned?
    ensures var hits := Concat(PerKeyword(kws, docs, allowed, fetch, encode));
      Selection(kws, docs, allowed, fetch, encode).value ==
        if hits != [] then hits else Concat(PerDoc(docs, allowed, fetch, encode))
    ensures forall k, doc, fil, e ::
      (0 <= k < |kws| && kws[k].Str? && doc in docs && Matches(doc, Lower(kws[k].s)) == Some(true) &&
       FileOf(doc, fil) && FromFile(e, doc, fil, allowed, fetch, encode))
      ==> e in Selection(kws, docs, allowed, fetch, encode).value
    ensures KeywordPass(kws, docs, allowed, fetch, encode) == Returned([]) ==>
      forall doc, fil, e ::
        (doc in docs && FileOf(doc, fil) && FromFile(e, doc, fil, allowed, fetch, encode))
        ==> e in Selection(kws, docs, allowed, fetch, encode).value
  {
    KeywordPassExact(kws, docs, allowed, fetch, encode);
    var p := KeywordPass(kws, docs, allowed, fetch, encode);
    if p.value == [] {
      DocsFilesExact(docs, allowed, fetch, encode);
      forall doc, fil, e | doc in docs && FileOf(doc, fil) && FromFile(e, doc, fil, allowed, fetch, encode)
        ensures e in Selection(kws, docs, allowed, fetch, encode).value
      {
        DocsFileListed(docs, allowed, fetch, encode, doc, fil, e);
      }
    }
    forall k, doc, fil, e |
      0 <= k < |kws| && kws[k].Str? && doc in docs && Matches(doc, Lower(kws[k].s)) == Some(true) &&
      FileOf(doc, fil) && FromFile(e, doc, fil, allowed, fetch, encode)
      ensures e in Selection(kws, docs, allowed, fetch, encode).value
    {
      KeywordFileListed(kws, docs, allowed, fetch, encode, k, doc, fil, e);
    }
  }
}
