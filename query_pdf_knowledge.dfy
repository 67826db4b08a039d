/** The knowledge-base query tool: a missing query and a missing vector
    store are reported before the store is opened; the similarity search
    result is returned unchanged unless it is blank. The vector store itself
    (loading and searching) is outside the model: its outcomes are inputs. */
module QueryPdfKnowledge {
  import opened Wrappers
  import opened Text
  import opened JsonData
  import opened KwikTools

  const VectorStorePath := "./pdf_knowledge_vectorstore.json"

  const MissingQuery := "Error: " + "Missing required input 'query'."

  const NoKnowledgeBase := "Error: " + "No knowledge base found. Please upload PDF documents first."

  const CorruptedStore :=
    "Error: " + "Failed to load knowledge base. The vector store may be corrupted."

  const NoRelevantInformation :=
    "No " + "relevant information found in the knowledge base for this query."

  const StoreFileNotFound :=
    "Error: " + "Knowledge base file not found. Please upload PDF documents first."

  const FailurePrefix := "Error: " + "Failed to query knowledge base: "

  /** The message for an exception raised while loading or searching the
      store: FileNotFoundError has its own message, every other exception
      (ValueError included) is reported with its text. */
  function QueryFailureText(e: Exc): (r: string)
    ensures IsErrorText(r)
    ensures e.NotFoundError? ==> r == StoreFileNotFound
    ensures !e.NotFoundError? ==> StartsWith(r, FailurePrefix) && r[|FailurePrefix|..] == e.Message()
  {
    if e.NotFoundError? then StoreFileNotFound
    else
      assert (FailurePrefix + e.Message())[..6] == "Error:";
      FailurePrefix + e.Message()
  }

  /** The tool's fixed error messages follow the error convention; the
      no-information message does not. */
  lemma FixedMessages()
    ensures IsErrorText(MissingQuery) && IsErrorText(NoKnowledgeBase) && IsErrorText(CorruptedStore)
    ensures !IsErrorText(NoRelevantInformation)
  {
    assert MissingQuery[..6] == "Error:";
    assert NoKnowledgeBase[..6] == "Error:";
    assert CorruptedStore[..6] == "Error:";
    assert NoRelevantInformation[0] == 'N';
  }

  /** `async_invoke`. `existing` is the set of paths `os.path.exists`
      accepts; `loadStore` is the outcome of loading the persisted store
      (true for a truthy store); `search` is the similarity search for a
      query. */
  function AsyncInvoke(args: Args, existing: set<string>, loadStore: Attempt<bool>,
                       search: string -> Attempt<string>): (r: string)
    ensures var query := Arg(args, "query", "");
      query != "" && VectorStorePath in existing && loadStore == Done(true)
      && search(query).Done? && !IsBlank(search(query).value)
      ==> r == search(query).value
    ensures var query := Arg(args, "query", "");
      r == NoRelevantInformation ==>
        query != "" && VectorStorePath in existing && loadStore == Done(true)
        && search(query).Done? && (IsBlank(search(query).value) || search(query).value == r)
    ensures var query := Arg(args, "query", "");
      !(query != "" && VectorStorePath in existing && loadStore == Done(true) && search(query).Done?)
      ==> IsErrorText(r)
    ensures var query := Arg(args, "query", "");
      query != "" && VectorStorePath in existing && loadStore.Raised? ==>
        r == QueryFailureText(loadStore.error)
    ensures var query := Arg(args, "query", "");
      query != "" && VectorStorePath in existing && loadStore == Done(true) && search(query).Raised? ==>
        r == QueryFailureText(search(query).error)
  {
    FixedMessages();
    var query := Arg(args, "query", "");
    if query == "" then MissingQuery
    else if VectorStorePath !in existing then NoKnowledgeBase
    else
      match loadStore
      case Raised(e) => QueryFailureText(e)
      case Done(store) =>
        if !store then CorruptedStore
        else
          match search(query)
          case Raised(e) => QueryFailureText(e)
          case Done(result) =>
            if result == "" || Strip(result) == "" then
              StripEmptyIffBlank(result);
              NoRelevantInformation
            else
              StripEmptyIffBlank(result);
              result
  }

  /** An empty query is reported before anything about the store is looked
      at: the result depends on nothing else. */
  lemma EmptyQueryFirst(args: Args, existing: set<string>, loadStore: Attempt<bool>,
                        search: string -> Attempt<string>)
    requires Arg(args, "query", "") == ""
    ensures AsyncInvoke(args, existing, loadStore, search) == MissingQuery
  {
  }

  /** Querying before anything was ingested (no store file) reports the
      missing knowledge base, whatever loading or searching would do. */
  lemma QueryBeforeIngestion(args: Args, existing: set<string>, loadStore: Attempt<bool>,
                             search: string -> Attempt<string>)
    requires Arg(args, "query", "") != ""
    requires VectorStorePath !in existing
    ensures AsyncInvoke(args, existing, loadStore, search) == NoKnowledgeBase
  {
  }

  /** A store that loads but is falsy is reported as corrupted. */
  lemma FalsyStoreIsCorrupted(args: Args, existing: set<string>,
                              search: string -> Attempt<string>)
    requires Arg(args, "query", "") != ""
    requires VectorStorePath in existing
    ensures AsyncInvoke(args, existing, Done(false), search) == CorruptedStore
  {
  }

  /** Once the search ran, its result maps to the no-information message
      exactly when it is empty or whitespace only, and is otherwise
      returned unchanged. */
  lemma SearchResultMapping(args: Args, existing: set<string>, search: string -> Attempt<string>)
    requires Arg(args, "query", "") != ""
    requires VectorStorePath in existing
    requires search(Arg(args, "query", "")).Done?
    ensures var result := search(Arg(args, "query", "")).value;
      AsyncInvoke(args, existing, Done(true), search)
        == if IsBlank(result) then NoRelevantInformation else result
  {
    var result := search(Arg(args, "query", "")).value;
    StripEmptyIffBlank(result);
    if result == "" {
      assert IsBlank(result);
    }
  }

  /** A result of spaces and newlines only counts as no information. */
  lemma WhitespaceResultIsNoInformation(existing: set<string>, search: string -> Attempt<string>)
    requires VectorStorePath in existing
    requires search("lead time") == Done(" \n\t ")
    ensures AsyncInvoke(map["query" := "lead time"], existing, Done(true), search)
      == NoRelevantInformation
  {
    SearchResultMapping(map["query" := "lead time"], existing, search);
    assert IsBlank(" \n\t ");
  }

  /** `load_documents`: this tool never loads documents. */
  function LoadDocuments(loaderArgs: LoaderArgs): (docs: seq<Page>)
    ensures |docs| == 0
  {
    []
  }
}
