/** The ingestion tool: after the shared path guards it measures the file,
    has the vector store load or create itself from the PDF, loads the
    pages to count them, and appends an entry to the document registry
    file. The vector store, the PDF loader and the file size are outside
    the model: their outcomes are inputs. */
module AddPdfToKnowledge {
  import opened Wrappers
  import opened Text
  import opened JsonData
  import opened KwikTools

  const StoreFailed := "Error: " + "Failed to create or load vector store."

  const FailurePrefix := "Error: " + "Failed to add PDF to knowledge base: "

  /** The registry entry recorded for an ingested file. */
  function RegistryEntry(filename: string, filePath: string, uploadDate: string,
                         pageCount: nat, fileSize: nat): Json {
    JObj(map[
      "filename" := JStr(filename),
      "file_path" := JStr(filePath),
      "upload_date" := JStr(uploadDate),
      "page_count" := JInt(pageCount),
      "file_size_bytes" := JInt(fileSize),
      "status" := JStr("processed")
    ])
  }

  function SuccessText(filename: string, pageCount: nat): string {
    "Successfully added " + filename + " to knowledge base - " + NatStr(pageCount) + " pages processed."
  }

  /** What `async_invoke` decides: refuse with an error message, or record
      an entry in the registry and report success. */
  datatype Ingestion =
    | Refused(message: string)
    | Ingested(entry: Json, message: string)

  /** The guard chain and the `try` block of `async_invoke`, apart from the
      registry write. `existing` is the set of paths `os.path.exists`
      accepts; `fileSize` is what `os.path.getsize` returns or raises;
      `store` is the outcome of loading or creating the vector store (true
      for a truthy store); `load` is what the PDF loader returns or raises;
      `now` is the ISO-8601 time of the call. */
  function Plan(args: Args, existing: set<string>, fileSize: Attempt<nat>, store: Attempt<bool>,
                load: Attempt<seq<Page>>, now: string): (p: Ingestion)
    ensures var filePath := Arg(args, "file_path", "");
      p.Ingested? <==>
        CheckPdfPath(filePath, existing).None? && fileSize.Done? && store == Done(true) && load.Done?
    ensures p.Refused? ==> IsErrorText(p.message)
    ensures var filePath := Arg(args, "file_path", "");
      CheckPdfPath(filePath, existing).Some? ==> p == Refused(CheckPdfPath(filePath, existing).value)
    ensures var filePath := Arg(args, "file_path", "");
      CheckPdfPath(filePath, existing).None? && fileSize.Raised? ==>
        p == Refused(FailureText(filePath, fileSize.error, FailurePrefix))
    ensures var filePath := Arg(args, "file_path", "");
      CheckPdfPath(filePath, existing).None? && fileSize.Done? && store.Raised? ==>
        p == Refused(FailureText(filePath, store.error, FailurePrefix))
    ensures var filePath := Arg(args, "file_path", "");
      CheckPdfPath(filePath, existing).None? && fileSize.Done? && store == Done(false) ==>
        p == Refused(StoreFailed)
    ensures var filePath := Arg(args, "file_path", "");
      CheckPdfPath(filePath, existing).None? && fileSize.Done? && store == Done(true) && load.Raised? ==>
        p == Refused(FailureText(filePath, load.error, FailurePrefix))
    ensures var filePath := Arg(args, "file_path", "");
      p.Ingested? ==>
        var filename := AfterLast(filePath, '/');
        && p.entry == RegistryEntry(filename, filePath, now, |load.value|, fileSize.value)
        && p.message == SuccessText(filename, |load.value|)
  {
    var filePath := Arg(args, "file_path", "");
    assert StoreFailed[..6] == "Error:" && FailurePrefix[..6] == "Error:";
    match CheckPdfPath(filePath, existing)
    case Some(guardMessage) => Refused(guardMessage)
    case None =>
      var filename := AfterLast(filePath, '/');
      match fileSize
      case Raised(e) => Refused(FailureText(filePath, e, FailurePrefix))
      case Done(size) =>
        match store
        case Raised(e) => Refused(FailureText(filePath, e, FailurePrefix))
        case Done(truthy) =>
          if !truthy then Refused(StoreFailed)
          else
            match load
            case Raised(e) => Refused(FailureText(filePath, e, FailurePrefix))
            case Done(docs) =>
              var pageCount := |docs|;
              Ingested(RegistryEntry(filename, filePath, now, pageCount, size),
                       SuccessText(filename, pageCount))
  }

  /** A registry document the tool can append to: a dict whose
      `"documents"` is a list. */
  predicate HasDocumentList(registry: Json) {
    registry.JObj? && "documents" in registry.fields && registry.fields["documents"].JArr?
  }

  function DocumentList(registry: Json): seq<Json>
    requires HasDocumentList(registry)
  {
    registry.fields["documents"].items
  }

  /** The entries a registry file holds, as the tool reads it; a missing
      file counts as `{"documents": []}`. */
  function PriorDocuments(file: FileState): seq<Json> {
    if file.Stored? && HasDocumentList(file.doc) then DocumentList(file.doc) else []
  }

  /** The registry document `_update_document_registry` writes back, or
      None when reading the file or appending to it raises (a file that
      does not decode, a document that is not a dict, has no
      `"documents"` key, or whose `"documents"` is not a list). The new
      entry goes at the end; everything else is kept. */
  function UpdatedRegistry(file: FileState, entry: Json): (r: Option<Json>)
    ensures r.Some? <==> file.Absent? || (file.Stored? && HasDocumentList(file.doc))
    ensures r.Some? ==> HasDocumentList(r.value) && DocumentList(r.value) == PriorDocuments(file) + [entry]
    ensures r.Some? && file.Absent? ==> r.value.fields.Keys == {"documents"}
    ensures r.Some? && file.Stored? ==>
      && r.value.fields.Keys == file.doc.fields.Keys
      && forall k :: k in file.doc.fields && k != "documents" ==> r.value.fields[k] == file.doc.fields[k]
  {
    var registry := match file
      case Absent => Some(JObj(map["documents" := JArr([])]))
      case Unreadable(_) => None
      case Stored(doc) => Some(doc);
    if registry.Some? && HasDocumentList(registry.value) then
      var fields := registry.value.fields;
      Some(JObj(fields["documents" := JArr(DocumentList(registry.value) + [entry])]))
    else
      None
  }

  /** The registry file after an update: the updated document when reading,
      appending and writing all succeed, otherwise the file as it was
      (every exception is logged and swallowed). */
  function RegistryAfter(file: FileState, entry: Json, writeFails: bool): FileState {
    var updated := UpdatedRegistry(file, entry);
    if updated.Some? && !writeFails then Stored(updated.value) else file
  }

  /** The document registry file, `DocumentRegistry.json`. */
  class RegistryFile {
    var state: FileState

    constructor (initial: FileState)
      ensures state == initial
    {
      state := initial;
    }

    /** `_update_document_registry`: read the file (or start from an empty
        list), append the entry, write the whole document back.
        `writeFails` says whether opening the file for writing or dumping
        the JSON raises. */
    method UpdateDocumentRegistry(entry: Json, writeFails: bool)
      modifies this
      ensures state == RegistryAfter(old(state), entry, writeFails)
    {
      var registry: Json;
      match state {
        case Absent =>
          registry := JObj(map["documents" := JArr([])]);
        case Unreadable(_) =>
          return;
        case Stored(doc) =>
          registry := doc;
      }
      if !HasDocumentList(registry) {
        return;
      }
      registry := JObj(registry.fields["documents" := JArr(DocumentList(registry) + [entry])]);
      if writeFails {
        return;
      }
      state := Stored(registry);
    }
  }

  /** `async_invoke`: the decision of `Plan`, with the registry written only
      for an ingested file. The message does not depend on whether the
      registry write succeeds. */
  method AsyncInvoke(args: Args, existing: set<string>, fileSize: Attempt<nat>, store: Attempt<bool>,
                     load: Attempt<seq<Page>>, now: string, registry: RegistryFile, writeFails: bool)
    returns (r: string)
    modifies registry
    ensures r == Plan(args, existing, fileSize, store, load, now).message
    ensures var p := Plan(args, existing, fileSize, store, load, now);
      registry.state == if p.Ingested? then RegistryAfter(old(registry.state), p.entry, writeFails)
                        else old(registry.state)
  {
    var p := Plan(args, existing, fileSize, store, load, now);
    if p.Ingested? {
      registry.UpdateDocumentRegistry(p.entry, writeFails);
    }
    r := p.message;
  }

  /** The guards run in order: an empty path, then a missing file, then a
      suffix other than `.pdf` in any case. A missing `.txt` file is
      reported as not found, and nothing after the guards matters. */
  lemma GuardOrder(existing: set<string>, fileSize: Attempt<nat>, store: Attempt<bool>,
                   load: Attempt<seq<Page>>, now: string)
    ensures Plan(map[], existing, fileSize, store, load, now) == Refused(MissingFilePath)
    ensures "notes.txt" !in existing ==>
      Plan(map["file_path" := "notes.txt"], existing, fileSize, store, load, now)
        == Refused(NotFoundText("notes.txt"))
    ensures "notes.txt" in existing ==>
      Plan(map["file_path" := "notes.txt"], existing, fileSize, store, load, now)
        == Refused(NotPdfText("notes.txt"))
  {
    assert Lower("notes.txt")[6] == 't';
  }

  /** An ingested file's entry is `processed` and counts the loaded pages. */
  lemma EntryRecordsPages(args: Args, existing: set<string>, fileSize: Attempt<nat>,
                          load: Attempt<seq<Page>>, now: string)
    requires Plan(args, existing, fileSize, Done(true), load, now).Ingested?
    ensures var e := Plan(args, existing, fileSize, Done(true), load, now).entry;
      && e.JObj? && "status" in e.fields && "page_count" in e.fields
      && e.fields["status"] == JStr("processed")
      && e.fields["page_count"] == JInt(|load.value|)
  {
  }

  /** Success is never reported as an error. */
  lemma SuccessIsNotError(args: Args, existing: set<string>, fileSize: Attempt<nat>,
                          store: Attempt<bool>, load: Attempt<seq<Page>>, now: string)
    ensures var p := Plan(args, existing, fileSize, store, load, now);
      IsErrorText(p.message) <==> p.Refused?
  {
    var p := Plan(args, existing, fileSize, store, load, now);
    if p.Ingested? {
      assert p.message[0] == 'S';
    }
  }

  /** A missing registry file ends up holding exactly the new entry. */
  lemma MissingRegistryHoldsOnlyEntry(entry: Json)
    ensures RegistryAfter(Absent, entry, false) == Stored(JObj(map["documents" := JArr([entry])]))
  {
    var r := UpdatedRegistry(Absent, entry).value;
    assert r.fields.Keys == {"documents"};
    assert r.fields["documents"] == JArr([entry]);
    assert r == JObj(map["documents" := JArr([entry])]);
  }

  /** The update appends: earlier entries keep their places and the new
      one is last; a failed update leaves the file as it was. */
  lemma RegistryAppendOnly(file: FileState, entry: Json, writeFails: bool)
    ensures var after := RegistryAfter(file, entry, writeFails);
      after == file
      || (after.Stored? && HasDocumentList(after.doc)
          && DocumentList(after.doc) == PriorDocuments(file) + [entry])
    ensures writeFails || file.Unreadable? ==> RegistryAfter(file, entry, writeFails) == file
  {
  }

  /** Ingesting twice (the same file or not) records two entries, in order;
      nothing removes or merges duplicates. */
  lemma TwoIngestionsTwoEntries(file: FileState, first: Json, second: Json)
    requires UpdatedRegistry(file, first).Some?
    ensures var after := RegistryAfter(RegistryAfter(file, first, false), second, false);
      after.Stored? && HasDocumentList(after.doc)
      && DocumentList(after.doc) == PriorDocuments(file) + [first, second]
  {
    var middle := RegistryAfter(file, first, false);
    assert middle.Stored? && HasDocumentList(middle.doc);
    assert PriorDocuments(middle) == PriorDocuments(file) + [first];
    assert PriorDocuments(file) + [first] + [second] == PriorDocuments(file) + [first, second];
  }
}
