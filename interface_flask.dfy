/** The web layer of the PDF knowledge assistant: the upload filter and
    handler, the chat event handler, and the read-only endpoints that
    report topics, facts, documents and counts from the JSON files the
    tools and the agent keep. Flask routing, Werkzeug's filename
    sanitiser, the clock and the agent session are outside the model:
    they are inputs. */
module InterfaceFlask {
  import opened Wrappers
  import opened Text
  import opened JsonData
  import KwikTools
  import AddPdfToKnowledge

  const UploadFolder := "apps/pdf_knowledge_assistant/static/uploads"

  const AllowedExtensions: set<string> := {"pdf"}

  const NoFactsFound := "No facts found for this topic."

  const NoMemoryFound := "No memory found."

  const NoAgentResponse := "No response from agent."

  const EmptyQueryError := "Error: Empty query received."

  /** An HTTP response: the status code and the JSON body. */
  datatype Response = Response(status: nat, body: Json)

  /** `jsonify({"error": message}), status` */
  function ErrorResponse(status: nat, message: string): Response {
    Response(status, JObj(map["error" := JStr(message)]))
  }

  /** `allowed_file`: the text after the last dot, lower-cased, is an
      allowed extension. */
  predicate AllowedFile(filename: string) {
    '.' in filename && Lower(AfterLast(filename, '.')) in AllowedExtensions
  }

  lemma LowerCharIs(c: char, d: char)
    requires d == '.' || IsLowerAscii(d)
    ensures LowerChar(c) == d <==> c == d || (IsLowerAscii(d) && c == UpperChar(d))
  {
  }

  /** The four characters a `.pdf` suffix puts at the end of a string. */
  lemma PdfSuffixChars(s: string)
    requires EndsWith(s, ".pdf")
    ensures s[|s| - 4] == '.' && s[|s| - 3] == 'p' && s[|s| - 2] == 'd' && s[|s| - 1] == 'f'
  {
    var t := s[|s| - 4..];
    assert t == ".pdf";
    assert t[0] == s[|s| - 4] && t[1] == s[|s| - 3] && t[2] == s[|s| - 2] && t[3] == s[|s| - 1];
  }

  /** A name whose last extension is `pdf` in any case ends with `.pdf`
      once lower-cased. */
  lemma AllowedFileHasPdfSuffix(filename: string)
    requires AllowedFile(filename)
    ensures KwikTools.HasPdfSuffix(filename)
  {
    var n := |filename|;
    var ext := AfterLast(filename, '.');
    var lowered := Lower(filename);
    assert Lower(ext) == "pdf";
    assert |ext| == 3;
    assert filename[n - 4] == '.';
    assert ext == filename[n - 3..];
    assert lowered[n - 4..] == [LowerChar(filename[n - 4]), Lower(ext)[0], Lower(ext)[1], Lower(ext)[2]];
  }

  /** A name that ends with `.pdf` once lower-cased has `pdf`, in some
      case, after its last dot. */
  lemma PdfSuffixIsAllowedFile(filename: string)
    requires KwikTools.HasPdfSuffix(filename)
    ensures AllowedFile(filename)
  {
    var n := |filename|;
    var ext := AfterLast(filename, '.');
    var lowered := Lower(filename);
    PdfSuffixChars(lowered);
    assert LowerChar(filename[n - 4]) == '.' && LowerChar(filename[n - 3]) == 'p';
    assert LowerChar(filename[n - 2]) == 'd' && LowerChar(filename[n - 1]) == 'f';
    LowerCharIs(filename[n - 4], '.');
    LowerCharIs(filename[n - 3], 'p');
    LowerCharIs(filename[n - 2], 'd');
    LowerCharIs(filename[n - 1], 'f');
    assert '.' in filename;
    assert |ext| < n && filename[n - |ext| - 1] == '.';
    assert |ext| == 3;
    assert ext == filename[n - 3..];
    assert Lower(ext) == "pdf";
  }

  /** The upload filter agrees with the tools' suffix guard: a name is
      allowed exactly when, lower-cased, it ends with `.pdf`. */
  lemma AllowedFileIffPdfSuffix(filename: string)
    ensures AllowedFile(filename) <==> KwikTools.HasPdfSuffix(filename)
  {
    if AllowedFile(filename) {
      AllowedFileHasPdfSuffix(filename);
    }
    if KwikTools.HasPdfSuffix(filename) {
      PdfSuffixIsAllowedFile(filename);
    }
  }

  /** Names the filter accepts: any case, any number of earlier dots. */
  lemma AllowedFileAccepts()
    ensures AllowedFile("a.PDF") && AllowedFile("a.tar.pdf")
  {
    AllowedFileIffPdfSuffix("a.PDF");
    var lowered := Lower("a.PDF");
    assert lowered[2] == 'p' && lowered[3] == 'd' && lowered[4] == 'f';
    assert lowered[1..] == ".pdf";
    AllowedFileIffPdfSuffix("a.tar.pdf");
    assert Lower("a.tar.pdf") == "a.tar.pdf";
  }

  /** Names the filter rejects: no dot at all, or another last extension. */
  lemma AllowedFileRejects()
    ensures !AllowedFile("pdf") && !AllowedFile("a.pdf.txt") && !AllowedFile("")
  {
    AllowedFileIffPdfSuffix("a.pdf.txt");
    assert Lower("a.pdf.txt")[8] == 't';
  }

  /** `request.files`: the form field name of each uploaded part, with the
      file name the client sent for it. */
  type UploadedFiles = map<string, string>

  /** The early returns of `upload_file`, in order: no `file` part, an
      empty file name, a name the filter rejects. None when all pass. */
  function UploadGuard(files: UploadedFiles): (r: Option<Response>)
    ensures "file" !in files ==> r == Some(ErrorResponse(400, "No file part in request"))
    ensures "file" in files && files["file"] == "" ==> r == Some(ErrorResponse(400, "No file selected"))
    ensures "file" in files && files["file"] != "" && !AllowedFile(files["file"]) ==>
      r == Some(ErrorResponse(400, "Only PDF files are allowed"))
    ensures r.None? <==> "file" in files && AllowedFile(files["file"])
  {
    if "file" !in files then Some(ErrorResponse(400, "No file part in request"))
    else if files["file"] == "" then Some(ErrorResponse(400, "No file selected"))
    else if !AllowedFile(files["file"]) then Some(ErrorResponse(400, "Only PDF files are allowed"))
    else None
  }

  /** The name a saved upload gets: `f"{timestamp}_{filename}"`. */
  function StoredName(timestamp: string, securedName: string): (name: string)
    ensures StartsWith(name, timestamp + "_") && EndsWith(name, securedName)
    ensures |name| == |timestamp| + 1 + |securedName|
  {
    var name := timestamp + "_" + securedName;
    assert name[|name| - |securedName|..] == securedName;
    name
  }

  /** The outcome of one call into the agent session: its last chat
      response (None for Python's None) and the updated thread. */
  datatype AgentReply = AgentReply(response: Option<string>, thread: Json)

  /** The response as `jsonify` renders it. */
  function ResponseJson(response: Option<string>): Json {
    match response
    case Some(s) => JStr(s)
    case None => JNull
  }

  function FailedToProcess(message: string): string {
    "Failed to process file: " + message
  }

  /** A socket event emitted on the `/chat` namespace, with its `data`. */
  datatype Emit = Emit(event: string, data: string)

  /** `response or "No response from agent."` */
  function ReplyText(response: Option<string>): (text: string)
    ensures response.Some? && response.value != "" ==> text == response.value
    ensures text == NoAgentResponse <==> response == None || response == Some("") || response == Some(NoAgentResponse)
    ensures text != ""
  {
    match response
    case Some(s) => if s == "" then NoAgentResponse else s
    case None => NoAgentResponse
  }

  /** The events `handle_user_query` emits for a query, given what the
      agent call returns or raises. */
  function ChatEmits(query: string, reply: Attempt<AgentReply>): (es: seq<Emit>)
    ensures |es| >= 1 && es[|es| - 1].event == "agent_response"
    ensures query == "" ==> es == [Emit("agent_response", EmptyQueryError)]
    ensures query != "" ==> |es| == 2 && es[0] == Emit("user_message", query)
    ensures query != "" && reply.Done? ==> es[1] == Emit("agent_response", ReplyText(reply.value.response))
    ensures query != "" && reply.Raised? ==>
      es[1] == Emit("agent_response", "Error processing query: " + reply.error.Message())
    ensures forall i :: 0 <= i < |es| && es[i].event == "user_message" ==> query != "" && es[i].data == query
  {
    if query == "" then [Emit("agent_response", EmptyQueryError)]
    else
      [Emit("user_message", query),
       Emit("agent_response",
            match reply
            case Done(r) => ReplyText(r.response)
            case Raised(e) => "Error processing query: " + e.Message())]
  }

  /** The process-wide state the handlers update: the conversation thread
      (the global `knowledge_thread`), the paths written into the upload
      folder, and the events emitted on the chat channel, in order. */
  class KnowledgeApp {
    var thread: Json
    var saved: seq<string>
    var emitted: seq<Emit>

    constructor (initialThread: Json)
      ensures thread == initialThread && saved == [] && emitted == []
    {
      thread := initialThread;
      saved := [];
      emitted := [];
    }

    /** `upload_file`. `secureFilename` is Werkzeug's sanitiser,
        `timestamp` the formatted time of the call, `absPath` is
        `os.path.abspath`, `saveError` the message of an exception raised
        while creating the folder or saving the file (None when both
        succeed), and `processUpload` the agent call for the saved path.
        Every guard answers 400 before anything is written. */
    method UploadFile(files: UploadedFiles, timestamp: string, secureFilename: string -> string,
                      absPath: string -> string, saveError: Option<string>,
                      processUpload: (Json, string) -> Attempt<AgentReply>)
      returns (resp: Response)
      modifies this
      ensures emitted == old(emitted)
      ensures UploadGuard(files).Some? ==>
        resp == UploadGuard(files).value && resp.status == 400
        && saved == old(saved) && thread == old(thread)
      ensures UploadGuard(files).None? && saveError.Some? ==>
        resp == ErrorResponse(500, FailedToProcess(saveError.value))
        && saved == old(saved) && thread == old(thread)
      ensures UploadGuard(files).None? && saveError.None? ==>
        var uniqueFilename := StoredName(timestamp, secureFilename(files["file"]));
        var filepath := UploadFolder + "/" + uniqueFilename;
        var reply := processUpload(old(thread), absPath(filepath));
        && saved == old(saved) + [filepath]
        && (reply.Raised? ==>
              resp == ErrorResponse(500, FailedToProcess(reply.error.Message())) && thread == old(thread))
        && (reply.Done? ==>
              thread == reply.value.thread
              && resp == Response(200, JObj(map[
                   "success" := JBool(true),
                   "message" := ResponseJson(reply.value.response),
                   "filename" := JStr(uniqueFilename),
                   "filepath" := JStr(absPath(filepath))])))
    {
      var guard := UploadGuard(files);
      if guard.Some? {
        return guard.value;
      }
      var filename := secureFilename(files["file"]);
      var uniqueFilename := StoredName(timestamp, filename);
      var filepath := UploadFolder + "/" + uniqueFilename;
      if saveError.Some? {
        return ErrorResponse(500, FailedToProcess(saveError.value));
      }
      saved := saved + [filepath];
      var absFilepath := absPath(filepath);
      var reply := processUpload(thread, absFilepath);
      match reply {
        case Raised(e) =>
          resp := ErrorResponse(500, FailedToProcess(e.Message()));
        case Done(r) =>
          thread := r.thread;
          resp := Response(200, JObj(map[
            "success" := JBool(true),
            "message" := ResponseJson(r.response),
            "filename" := JStr(uniqueFilename),
            "filepath" := JStr(absFilepath)]));
      }
    }

    /** `handle_user_query`. `payload` is the event's decoded data (its
        string-valued keys) and `processQuery` the agent call. An empty
        query answers with an error and is neither echoed nor sent to the
        agent; otherwise the echo comes before the answer. */
    method HandleUserQuery(payload: Args, processQuery: (Json, string) -> Attempt<AgentReply>)
      modifies this
      ensures saved == old(saved)
      ensures var query := Arg(payload, "data", "");
        emitted == old(emitted) + ChatEmits(query, processQuery(old(thread), query))
      ensures var query := Arg(payload, "data", "");
        thread == if query != "" && processQuery(old(thread), query).Done?
                  then processQuery(old(thread), query).value.thread
                  else old(thread)
    {
      var userQuery := Arg(payload, "data", "");
      if userQuery == "" {
        emitted := emitted + [Emit("agent_response", EmptyQueryError)];
        return;
      }
      emitted := emitted + [Emit("user_message", userQuery)];
      var reply := processQuery(thread, userQuery);
      match reply {
        case Done(r) =>
          thread := r.thread;
          emitted := emitted + [Emit("agent_response", ReplyText(r.response))];
        case Raised(e) =>
          emitted := emitted + [Emit("agent_response", "Error processing query: " + e.Message())];
      }
    }
  }

  /** `get_topics`: the keys of the topic memory, an empty list when the
      file is missing, an error when it cannot be read or is not a dict. */
  method GetTopics(memoryFile: FileState) returns (resp: Response)
    ensures memoryFile.Absent? ==> resp == Response(200, JObj(map["topics" := JArr([])]))
    ensures memoryFile.Unreadable? ==>
      resp == ErrorResponse(500, "Failed to load topics: " + memoryFile.reason)
    ensures memoryFile.Stored? && !memoryFile.doc.JObj? ==>
      resp == ErrorResponse(500, "Failed to load topics: " + NoAttribute(memoryFile.doc, "keys"))
    ensures memoryFile.Stored? && memoryFile.doc.JObj? ==>
      && resp.status == 200 && resp.body.JObj? && resp.body.fields.Keys == {"topics"}
      && var topics := resp.body.fields["topics"];
      && topics.JArr? && |topics.items| == |memoryFile.doc.fields|
      && (forall t :: t in memoryFile.doc.fields <==> JStr(t) in topics.items)
      && (forall i :: 0 <= i < |topics.items| ==> topics.items[i].JStr?)
  {
    match memoryFile {
      case Absent =>
        resp := Response(200, JObj(map["topics" := JArr([])]));
      case Unreadable(reason) =>
        resp := ErrorResponse(500, "Failed to load topics: " + reason);
      case Stored(memory) =>
        if !memory.JObj? {
          return ErrorResponse(500, "Failed to load topics: " + NoAttribute(memory, "keys"));
        }
        var topics := KeyList(memory.fields);
        var listed := Strs(topics);
        forall t ensures t in memory.fields <==> JStr(t) in listed.items {
          if JStr(t) in listed.items {
            var i :| 0 <= i < |listed.items| && listed.items[i] == JStr(t);
            assert topics[i] == t;
          }
          if t in topics {
            var i :| 0 <= i < |topics| && topics[i] == t;
            assert listed.items[i] == JStr(t);
          }
        }
        resp := Response(200, JObj(map["topics" := listed]));
    }
  }

  /** `get_topic_facts`: the facts stored under a topic; a placeholder
      message when the topic or the whole memory file is missing. */
  function GetTopicFacts(topic: string, memoryFile: FileState): (resp: Response)
    ensures resp.status == 200 <==> memoryFile.Absent? || (memoryFile.Stored? && memoryFile.doc.JObj?)
    ensures resp.status == 200 ==>
      && resp.body.JObj? && resp.body.fields.Keys == {"topic", "facts"}
      && resp.body.fields["topic"] == JStr(topic)
      && var facts := resp.body.fields["facts"];
      && (memoryFile.Absent? ==> facts == JStr(NoMemoryFound))
      && (memoryFile.Stored? && topic in memoryFile.doc.fields ==> facts == memoryFile.doc.fields[topic])
      && (memoryFile.Stored? && topic !in memoryFile.doc.fields ==> facts == JStr(NoFactsFound))
    ensures memoryFile.Unreadable? ==>
      resp == ErrorResponse(500, "Failed to load topic facts: " + memoryFile.reason)
    ensures memoryFile.Stored? && !memoryFile.doc.JObj? ==>
      resp == ErrorResponse(500, "Failed to load topic facts: " + NoAttribute(memoryFile.doc, "get"))
  {
    match memoryFile
    case Absent =>
      Response(200, JObj(map["topic" := JStr(topic), "facts" := JStr(NoMemoryFound)]))
    case Unreadable(reason) =>
      ErrorResponse(500, "Failed to load topic facts: " + reason)
    case Stored(memory) =>
      if !memory.JObj? then ErrorResponse(500, "Failed to load topic facts: " + NoAttribute(memory, "get"))
      else
        var facts := GetOr(memory.fields, topic, JStr(NoFactsFound));
        Response(200, JObj(map["topic" := JStr(topic), "facts" := facts]))
  }

  /** `get_documents`: the registry as stored, `{"documents": []}` when
      the file is missing. */
  function GetDocuments(registryFile: FileState): (resp: Response)
    ensures registryFile.Absent? ==> resp == Response(200, JObj(map["documents" := JArr([])]))
    ensures registryFile.Stored? ==> resp == Response(200, registryFile.doc)
    ensures registryFile.Unreadable? ==>
      resp == ErrorResponse(500, "Failed to load documents: " + registryFile.reason)
  {
    match registryFile
    case Absent => Response(200, JObj(map["documents" := JArr([])]))
    case Stored(registry) => Response(200, registry)
    case Unreadable(reason) => ErrorResponse(500, "Failed to load documents: " + reason)
  }

  /** `len(registry.get("documents", []))` on a decoded registry. */
  function DocumentCount(registry: Json): (r: Attempt<nat>)
    ensures !registry.JObj? ==> r == Raised(OtherError(NoAttribute(registry, "get")))
    ensures registry.JObj? && "documents" !in registry.fields ==> r == Done(0)
    ensures AddPdfToKnowledge.HasDocumentList(registry) ==>
      r == Done(|AddPdfToKnowledge.DocumentList(registry)|)
  {
    if !registry.JObj? then Raised(OtherError(NoAttribute(registry, "get")))
    else
      var documents := GetOr(registry.fields, "documents", JArr([]));
      match Len(documents)
      case Some(n) => Done(n)
      case None => Raised(OtherError(NoLen(documents)))
  }

  /** The document count the stats report for a registry file: 0 when it
      is missing, the exception when it cannot be read. */
  function FileDocumentCount(registryFile: FileState): (r: Attempt<nat>)
    ensures registryFile.Absent? ==> r == Done(0)
    ensures registryFile.Unreadable? ==> r == Raised(OtherError(registryFile.reason))
    ensures registryFile.Stored? && AddPdfToKnowledge.HasDocumentList(registryFile.doc) ==>
      r == Done(|AddPdfToKnowledge.DocumentList(registryFile.doc)|)
    ensures registryFile.Stored? && !registryFile.doc.JObj? ==> r.Raised?
  {
    match registryFile
    case Absent => Done(0)
    case Unreadable(reason) => Raised(OtherError(reason))
    case Stored(registry) => DocumentCount(registry)
  }

  /** The topic count the stats report for a memory file: the number of
      keys of the memory dict, 0 when the file is missing. */
  function FileTopicCount(memoryFile: FileState): (r: Attempt<nat>)
    ensures memoryFile.Absent? ==> r == Done(0)
    ensures memoryFile.Stored? && memoryFile.doc.JObj? ==> r == Done(|memoryFile.doc.fields|)
    ensures r.Done? <==> memoryFile.Absent? || (memoryFile.Stored? && memoryFile.doc.JObj?)
  {
    match memoryFile
    case Absent => Done(0)
    case Unreadable(reason) => Raised(OtherError(reason))
    case Stored(memory) =>
      if memory.JObj? then Done(|memory.fields|)
      else Raised(OtherError(NoAttribute(memory, "keys")))
  }

  function StatsBody(documentCount: nat, topicCount: nat): Json {
    JObj(map["document_count" := JInt(documentCount), "topic_count" := JInt(topicCount)])
  }

  /** `get_stats`: the two counts start at 0 and are replaced by what each
      file holds; the first exception (registry before memory) answers 500. */
  method GetStats(registryFile: FileState, memoryFile: FileState) returns (resp: Response)
    ensures var d, t := FileDocumentCount(registryFile), FileTopicCount(memoryFile);
      resp == if d.Raised? then ErrorResponse(500, "Failed to load stats: " + d.error.Message())
              else if t.Raised? then ErrorResponse(500, "Failed to load stats: " + t.error.Message())
              else Response(200, StatsBody(d.value, t.value))
  {
    var docCount: nat := 0;
    var topicCount: nat := 0;

    match registryFile {
      case Absent =>
      case Unreadable(reason) =>
        return ErrorResponse(500, "Failed to load stats: " + reason);
      case Stored(registry) =>
        match DocumentCount(registry) {
          case Raised(e) =>
            return ErrorResponse(500, "Failed to load stats: " + e.Message());
          case Done(n) =>
            docCount := n;
        }
    }

    match memoryFile {
      case Absent =>
      case Unreadable(reason) =>
        return ErrorResponse(500, "Failed to load stats: " + reason);
      case Stored(memory) =>
        if !memory.JObj? {
          return ErrorResponse(500, "Failed to load stats: " + NoAttribute(memory, "keys"));
        }
        topicCount := |memory.fields|;
    }

    return Response(200, StatsBody(docCount, topicCount));
  }

  /** Before anything is uploaded or remembered, the stats are zero and
      the lists are empty. */
  lemma FreshInstallDefaults()
    ensures FileDocumentCount(Absent) == Done(0) && FileTopicCount(Absent) == Done(0)
    ensures GetDocuments(Absent).body == JObj(map["documents" := JArr([])])
    ensures GetTopicFacts("pricing", Absent).body.fields["facts"] == JStr(NoMemoryFound)
  {
  }

  /** The document count the stats report grows by exactly one with each
      successful registry update, and is unchanged by a failed one. */
  lemma {:induction false} CountAfterRegistryUpdate(file: FileState, entry: Json, writeFails: bool)
    requires FileDocumentCount(file).Done?
    ensures var after := AddPdfToKnowledge.RegistryAfter(file, entry, writeFails);
      FileDocumentCount(after).Done?
      && FileDocumentCount(after).value
         == FileDocumentCount(file).value
            + (if AddPdfToKnowledge.UpdatedRegistry(file, entry).Some? && !writeFails then 1 else 0)
  {
    var updated := AddPdfToKnowledge.UpdatedRegistry(file, entry);
    if updated.Some? && !writeFails {
      assert FileDocumentCount(file).value == |AddPdfToKnowledge.PriorDocuments(file)|;
      assert FileDocumentCount(Stored(updated.value)).value
        == |AddPdfToKnowledge.PriorDocuments(file) + [entry]|;
    }
  }

  /** After the first ingestion into a missing registry, the documents
      endpoint lists exactly that entry. */
  lemma FirstIngestionListed(entry: Json)
    ensures GetDocuments(AddPdfToKnowledge.RegistryAfter(Absent, entry, false))
      == Response(200, JObj(map["documents" := JArr([entry])]))
  {
    AddPdfToKnowledge.MissingRegistryHoldsOnlyEntry(entry);
  }
}
