# PDF knowledge assistant and order-fulfilment tools: a Dafny model

This project models the decision logic of two groups of "coded tools" and of
one web front end.

* The four order-fulfilment lookup tools: an approved-supplier list, a
  production parameter table, a failure-mode (FMEA) table and a compliance
  checklist. Each one takes a key, normalises it (except the supplier tool,
  whose SKU lookup is exact), looks it up in a fixed table, and returns either
  an `Error:` string or a view built from the record. The supplier tool builds
  one entry per approved supplier and leaves out the hidden
  `plasticiser_thermal_degradation_onset_celsius` field. It adds a
  `rush_advisory` only when the upper-cased priority is `RUSH`.
* The three PDF knowledge tools:
  * ingest a PDF into the vector store and append an entry to
    `DocumentRegistry.json`;
  * extract a summary of a PDF for the agent;
  * query the vector store.

  Each runs a fixed chain of guards before its `try` block. Each turns the
  exceptions it catches into `Error:` strings.
* The Flask/SocketIO layer:
  * the upload filter and upload handler;
  * the chat event handler, which relays a query to the agent session and
    updates the process-wide conversation thread;
  * the read-only endpoints that report topics, facts, documents and counts
    from the JSON files.

The libraries the tools call are inputs to the model, never modelled
themselves. These are the PDF loader, the vector store, the agent session,
`os.path.exists` and the decoded content of the JSON files. A call that may
raise is an `Attempt` (`Done(value)` or `Raised(exception)`). A JSON file is
a `FileState`: `Absent`, `Unreadable(reason)` or `Stored(document)`. The
registry file and the web layer's process-wide state are classes whose
methods update their fields. The guard chains, the views and the string
builders are functions.

Modules: `Wrappers`, `Text` (the Python string operations used), `JsonData`
(decoded JSON values and dicts), one module per order-fulfilment tool,
`KwikTools` (what the three PDF tools share), `AddPdfToKnowledge`,
`ExtractPdfKnowledge`, `QueryPdfKnowledge` and `InterfaceFlask`.

Unlike the other three lookup tools, the supplier tool looks its SKU up
exactly (`SkuLookupIsExact`).

## Model

| member | source | states |
|---|---|---|
| ApprovedSupplierDatabase.Invoke | coded_tools/industry/order_fulfilment_system/approved_supplier_database.py:97-147 | An unknown SKU gives exactly the not-found error. A known SKU gives the seven result keys, plus `rush_advisory` exactly when the priority is RUSH. The result echoes the SKU, copies the product fields and lists the five tested parameters in order. It holds one projected entry per source supplier, in order, and no entry has the hidden field. |
| ApprovedSupplierDatabase.AsyncInvoke | coded_tools/industry/order_fulfilment_system/approved_supplier_database.py:149-151 | Delegates to `invoke`, and its result satisfies everything `Invoke` promises (`IsInvokeResult`): the not-found error, the SKU echo, the copied fields, the tested parameters, the projected suppliers without the hidden field, and the advisory exactly for RUSH. |
| ApprovedSupplierDatabase.Project | coded_tools/industry/order_fulfilment_system/approved_supplier_database.py:108-118 | An output entry has exactly the nine copied keys, each equal to the source supplier's value. |
| ApprovedSupplierDatabase.ProjectionOmitsHiddenField | coded_tools/industry/order_fulfilment_system/approved_supplier_database.py:105-119 | A projected entry never contains `plasticiser_thermal_degradation_onset_celsius`. |
| ApprovedSupplierDatabase.SourceSuppliersCarryHiddenField | coded_tools/industry/order_fulfilment_system/approved_supplier_database.py:24-73 | Every internal supplier record does carry the hidden field. |
| ApprovedSupplierDatabase.SupplierDataShape | coded_tools/industry/order_fulfilment_system/approved_supplier_database.py:24-73 | Every table record has the fields `invoke` reads, so no lookup raises. |
| ApprovedSupplierDatabase.SkuLookupIsExact | coded_tools/industry/order_fulfilment_system/approved_supplier_database.py:97-100 | The SKU is not case-folded or normalised: the lower-case or normalised spelling is not found. |
| ApprovedSupplierDatabase.RushCases | coded_tools/industry/order_fulfilment_system/approved_supplier_database.py:97-145 | "rush" and "Rush" trigger the advisory. An absent priority (STANDARD), "urgent" and "RUSH " with a trailing space do not. |
| ApprovedSupplierDatabase.RushIffCaseInsensitive | coded_tools/industry/order_fulfilment_system/approved_supplier_database.py:97-145 | The advisory condition holds exactly when the priority is the four letters R-U-S-H in any case. |
| ProductionParameterDatabase.Invoke | coded_tools/industry/order_fulfilment_system/production_parameter_database.py:96-115 | An unknown normalised key gives an error quoting the normalised key. A known one gives `approved_parameters` equal to the record's `parameters` unchanged, the other record fields copied verbatim, and the note. |
| ProductionParameterDatabase.View | coded_tools/industry/order_fulfilment_system/production_parameter_database.py:101-115 | The result dict has exactly the copied fields, `approved_parameters` and `note`, each taken from the record. |
| ProductionParameterDatabase.ParameterRangesShape | coded_tools/industry/order_fulfilment_system/production_parameter_database.py:26-70 | Every table record has the fields the view reads. |
| ProductionParameterDatabase.ParameterRangesOrdered | coded_tools/industry/order_fulfilment_system/production_parameter_database.py:30-61 | Every parameter in the table has integer bounds with `min < max`. |
| ProductionParameterDatabase.DefaultProcessTypeSucceeds | coded_tools/industry/order_fulfilment_system/production_parameter_database.py:96 | A missing `process_type` selects injection moulding and succeeds. |
| ProductionParameterDatabase.DisplayNameFindsRecord | coded_tools/industry/order_fulfilment_system/production_parameter_database.py:96 | "Injection Moulding" normalises to `injection_moulding` and finds the same record. |
| ProductionParameterDatabase.UnknownKeyIsQuotedNormalised | coded_tools/industry/order_fulfilment_system/production_parameter_database.py:98-99 | "Blow Moulding" is reported as `blow_moulding`. |
| ProductionParameterDatabase.LookupKeyStable | coded_tools/industry/order_fulfilment_system/production_parameter_database.py:96 | Looking up the normalised key gives the same result as the original key. |
| JsonData.NormalisedArg | coded_tools/industry/order_fulfilment_system/production_parameter_database.py:96 | `args.get(name, default).lower().replace(" ", "_")`: the key is the lower-cased argument with spaces replaced by `_`. It keeps the argument's length and has no space and no upper-case letter. |
| ProductionParameterDatabase.LookupKey | coded_tools/industry/order_fulfilment_system/production_parameter_database.py:96 | The lookup key is the `process_type` argument (default `injection_moulding`) lower-cased, with spaces replaced by `_`. |
| Text.NormaliseKeyIsLowerThenReplace | coded_tools/industry/order_fulfilment_system/production_parameter_database.py:96 | The one-pass normalisation equals lower-casing followed by replacing spaces with `_`. |
| Text.NormaliseKeyIsNormal | coded_tools/industry/order_fulfilment_system/quality_failure_mode_database.py:131 | A normalised key keeps its length and has no space and no upper-case letter. |
| Text.NormaliseKeyFixpoint | coded_tools/industry/order_fulfilment_system/compliance_checklist_database.py:122 | Normalisation leaves a key unchanged exactly when the key has no space and no upper-case letter. |
| Text.NormaliseKeyIdempotent | coded_tools/industry/order_fulfilment_system/production_parameter_database.py:96 | Normalising twice is the same as normalising once. |
| Text.NormaliseKey | coded_tools/industry/order_fulfilment_system/production_parameter_database.py:96 | `.lower().replace(" ", "_")` in one pass. Its properties are the four lemmas above: lower-then-replace, normal form, fixpoint and idempotence. |
| QualityFailureModeDatabase.Invoke | coded_tools/industry/order_fulfilment_system/quality_failure_mode_database.py:131-149 | An unknown key gives an error naming the normalised key. A known one passes `failure_modes` and `scope_note` through unchanged, with `total_failure_modes` equal to the list's length. |
| QualityFailureModeDatabase.View | coded_tools/industry/order_fulfilment_system/quality_failure_mode_database.py:136-149 | The view's keys, its count equal to the length of the returned list, and its fields taken from the record. |
| QualityFailureModeDatabase.Mode | coded_tools/industry/order_fulfilment_system/quality_failure_mode_database.py:31-98 | Each failure-mode record carries its id. |
| QualityFailureModeDatabase.FailureModesShape | coded_tools/industry/order_fulfilment_system/quality_failure_mode_database.py:27-106 | Every table record has the fields the view reads. |
| QualityFailureModeDatabase.FailureModesKeys | coded_tools/industry/order_fulfilment_system/quality_failure_mode_database.py:27-106 | The table holds the single key `pvc_injection_moulding`. |
| QualityFailureModeDatabase.PvcModeIds | coded_tools/industry/order_fulfilment_system/quality_failure_mode_database.py:31-98 | It lists six failure modes, FM-001 to FM-006, in order. |
| QualityFailureModeDatabase.DefaultProcessTypeSucceeds | coded_tools/industry/order_fulfilment_system/quality_failure_mode_database.py:131 | A missing key defaults to `pvc_injection_moulding` and reports six modes. |
| QualityFailureModeDatabase.DisplayNameFindsRecord | coded_tools/industry/order_fulfilment_system/quality_failure_mode_database.py:131 | "PVC Injection Moulding" finds the same record as the default. |
| QualityFailureModeDatabase.LookupKey | coded_tools/industry/order_fulfilment_system/quality_failure_mode_database.py:131 | The lookup key is the `process_type` argument (default `pvc_injection_moulding`) lower-cased, with spaces replaced by `_`. |
| ComplianceChecklistDatabase.Invoke | coded_tools/industry/order_fulfilment_system/compliance_checklist_database.py:122-140 | An unknown category gives an error naming the normalised key. A known one returns `applicable_regulations` and `checklist_items` unchanged, with `total_items` equal to the list's length. |
| ComplianceChecklistDatabase.View | coded_tools/industry/order_fulfilment_system/compliance_checklist_database.py:127-140 | The view's keys, its count equal to the length of the returned list, and its fields taken from the record. |
| ComplianceChecklistDatabase.Item | coded_tools/industry/order_fulfilment_system/compliance_checklist_database.py:37-94 | Each checklist item carries its id. |
| ComplianceChecklistDatabase.ComplianceChecklistsShape | coded_tools/industry/order_fulfilment_system/compliance_checklist_database.py:27-97 | Every table record has the fields the view reads. |
| ComplianceChecklistDatabase.ToyItemIds | coded_tools/industry/order_fulfilment_system/compliance_checklist_database.py:36-95 | The checklist holds seven items, CC-001 to CC-007, in order. |
| ComplianceChecklistDatabase.DefaultCategorySucceeds | coded_tools/industry/order_fulfilment_system/compliance_checklist_database.py:122 | A missing category selects the children's toy checklist: seven items under its three regulations. |
| ComplianceChecklistDatabase.ApostropheSpellingNotFound | coded_tools/industry/order_fulfilment_system/compliance_checklist_database.py:122-125 | "Children's Toy Production" keeps its apostrophe and is not found. |
| ComplianceChecklistDatabase.SpacedSpellingFindsRecord | coded_tools/industry/order_fulfilment_system/compliance_checklist_database.py:122 | "Childrens Toy Production" finds the default record. |
| ComplianceChecklistDatabase.LookupKey | coded_tools/industry/order_fulfilment_system/compliance_checklist_database.py:122 | The lookup key is the `product_category` argument (default `childrens_toy_production`) lower-cased, with spaces replaced by `_`. |
| KwikTools.CheckPdfPath | coded_tools/kwik_agents/add_pdf_to_knowledge.py:66-78 | The guards fire in order: empty path, then nonexistent path, then a missing `.pdf` suffix in any case. All three pass exactly when none fires, and every guard message is an `Error:` string. |
| KwikTools.MissingNonPdfReportsNotFound | coded_tools/kwik_agents/add_pdf_to_knowledge.py:72-78 | A missing `.txt` path reports "File not found", not "must be a PDF". |
| KwikTools.UpperCaseSuffixPasses | coded_tools/kwik_agents/add_pdf_to_knowledge.py:77 | `X.PDF` passes the suffix guard and `X.txt` does not. |
| KwikTools.HasPdfSuffix | coded_tools/kwik_agents/add_pdf_to_knowledge.py:77 | `file_path.lower().endswith(".pdf")`. `InterfaceFlask.AllowedFileIffPdfSuffix` proves it agrees with the upload filter, and `UpperCaseSuffixPasses` shows that case is ignored. |
| KwikTools.FailureText | coded_tools/kwik_agents/add_pdf_to_knowledge.py:117-127 | FileNotFoundError and ValueError have their own messages. Any other exception gets the tool's prefix before its text. All are `Error:` strings. |
| KwikTools.SyncInvoke | coded_tools/kwik_agents/extract_pdf_knowledge.py:122-126 | Synchronous `invoke` always returns the async-required error. |
| KwikTools.LoadPdfDocuments | coded_tools/kwik_agents/add_pdf_to_knowledge.py:135-156 | The `extend` loop computes `Gather` over the `urls` list. |
| KwikTools.Gather | coded_tools/kwik_agents/add_pdf_to_knowledge.py:142-156 | What `load_documents` returns or raises for a list of paths. `GatherIsConcat`, `GatherRaisesIffFatal` and `GatherStopsAtFatal` state its meaning, and `LoadPdfDocuments` is proved equal to it. |
| KwikTools.GatherIsConcat | coded_tools/kwik_agents/add_pdf_to_knowledge.py:142-156 | When every failure is one it catches, `load_documents` returns the pages of each path in input order, and a failing path adds nothing. |
| KwikTools.GatherRaisesIffFatal | coded_tools/kwik_agents/extract_pdf_knowledge.py:138-149 | `load_documents` raises exactly when some path's loader raises something other than FileNotFoundError or ValueError. |
| KwikTools.GatherStopsAtFatal | coded_tools/kwik_agents/extract_pdf_knowledge.py:138-149 | After an uncaught exception, later paths do not change the outcome. |
| AddPdfToKnowledge.Plan | coded_tools/kwik_agents/add_pdf_to_knowledge.py:66-127 | The tool ingests exactly when the guards pass, the size is read, the store is truthy and the pages load. A refusal is an `Error:` string. A guard failure returns that guard's message. An exception from the size read, the store or the loader gets that exception's `FailureText`: its own message for FileNotFoundError and ValueError, the tool's prefix otherwise. A falsy store returns the store error. An ingestion records the entry built from basename, path, time, page count and size, and reports the success message. |
| AddPdfToKnowledge.UpdatedRegistry | coded_tools/kwik_agents/add_pdf_to_knowledge.py:164-177 | The update succeeds exactly when the file is missing or holds a dict with a `documents` list. The new list is the old one plus the entry at the end, and every other key is kept. A missing file becomes `{"documents": [entry]}`. |
| AddPdfToKnowledge.RegistryAfter | coded_tools/kwik_agents/add_pdf_to_knowledge.py:164-182 | The registry file after `_update_document_registry`: the updated document, or the file unchanged when any step raises. `RegistryAppendOnly`, `MissingRegistryHoldsOnlyEntry` and `TwoIngestionsTwoEntries` state its properties. |
| AddPdfToKnowledge.RegistryFile.UpdateDocumentRegistry | coded_tools/kwik_agents/add_pdf_to_knowledge.py:158-182 | The read-modify-write leaves the file as `RegistryAfter` says. A read, append or write failure is swallowed and leaves the file as it was. |
| AddPdfToKnowledge.RegistryFile.constructor | coded_tools/kwik_agents/add_pdf_to_knowledge.py:32 | The registry file starts in the given state. |
| AddPdfToKnowledge.AsyncInvoke | coded_tools/kwik_agents/add_pdf_to_knowledge.py:52-127 | Returns `Plan`'s message, so a registry write failure still reports success. The registry is written only for an ingested file, and not at all on refusal (a falsy store included). |
| AddPdfToKnowledge.GuardOrder | coded_tools/kwik_agents/add_pdf_to_knowledge.py:66-78 | A missing path gives the missing-input error, a missing `.txt` gives "not found", and an existing `.txt` gives "must be a PDF". Later inputs do not matter. |
| AddPdfToKnowledge.EntryRecordsPages | coded_tools/kwik_agents/add_pdf_to_knowledge.py:96-109 | The entry has `status == "processed"` and `page_count` equal to the number of loaded pages. |
| AddPdfToKnowledge.SuccessIsNotError | coded_tools/kwik_agents/add_pdf_to_knowledge.py:115 | The message is an `Error:` string exactly when the tool refused. |
| AddPdfToKnowledge.MissingRegistryHoldsOnlyEntry | coded_tools/kwik_agents/add_pdf_to_knowledge.py:166-177 | A missing registry file ends up holding exactly the new entry. |
| AddPdfToKnowledge.RegistryAppendOnly | coded_tools/kwik_agents/add_pdf_to_knowledge.py:164-182 | After an update the file is unchanged, or its list is the earlier entries followed by the new one. A write failure or an unreadable file changes nothing. |
| AddPdfToKnowledge.TwoIngestionsTwoEntries | coded_tools/kwik_agents/add_pdf_to_knowledge.py:166-177 | Two successful updates append two entries in order, with no deduplication. |
| ExtractPdfKnowledge.PageTexts | coded_tools/kwik_agents/extract_pdf_knowledge.py:93 | One text per page, in page order. |
| ExtractPdfKnowledge.FullText | coded_tools/kwik_agents/extract_pdf_knowledge.py:93 | The page texts joined with a blank line (`"\n\n"`), in page order. `Text.JoinAt` places each page text verbatim. |
| ExtractPdfKnowledge.TextSample | coded_tools/kwik_agents/extract_pdf_knowledge.py:96 | The sample is the prefix of length min(10000, len) of the full text, and the whole text when it is 10000 characters or fewer. |
| ExtractPdfKnowledge.SummaryLines | coded_tools/kwik_agents/extract_pdf_knowledge.py:171-200 | The first lines are `Document: <filename>` and `Pages: <count>`, and the sample is a whole line. There are 15 lines, with the focus request at line 5 and the focus reminder last, when focus areas are given. Otherwise there are 12 and neither appears. |
| ExtractPdfKnowledge.GenerateDocumentSummary | coded_tools/kwik_agents/extract_pdf_knowledge.py:151-202 | The appends build exactly `SummaryLines`, joined with `"\n"`. |
| ExtractPdfKnowledge.SummaryHeader | coded_tools/kwik_agents/extract_pdf_knowledge.py:171-202 | The summary text starts with `Document: <filename>\nPages: <count>\n`. |
| ExtractPdfKnowledge.SampleVerbatim | coded_tools/kwik_agents/extract_pdf_knowledge.py:185-202 | The sample appears verbatim in the summary, between the joined lines before it and after it. |
| ExtractPdfKnowledge.SummaryIsNotError | coded_tools/kwik_agents/extract_pdf_knowledge.py:171-202 | A summary never starts with `Error:`. |
| ExtractPdfKnowledge.AsyncInvoke | coded_tools/kwik_agents/extract_pdf_knowledge.py:64-120 | Guard failures come first. A loader exception gets the tool's failure message, and zero pages give the empty-document error. Otherwise the result is the summary of the basename, page count, sample of the `"\n\n"`-joined text and focus areas. The result is an `Error:` string exactly when it is not a summary. |
| ExtractPdfKnowledge.GuardsBeforeLoading | coded_tools/kwik_agents/extract_pdf_knowledge.py:68-77 | A missing `.txt` path reports "not found", and an existing `REPORT.PDF` passes the guards. |
| QueryPdfKnowledge.AsyncInvoke | coded_tools/kwik_agents/query_pdf_knowledge.py:60-95 | A non-blank search result is returned unchanged. The no-information message comes only from a blank result, or from a result that is that text. Anything short of a completed search is an `Error:` string. An exception while loading the store or searching gives `QueryFailureText` of that exception. |
| QueryPdfKnowledge.QueryFailureText | coded_tools/kwik_agents/query_pdf_knowledge.py:89-95 | FileNotFoundError gives the knowledge-base-file error, and any other exception gives the prefix followed by its text. |
| QueryPdfKnowledge.FixedMessages | coded_tools/kwik_agents/query_pdf_knowledge.py:63-83 | The fixed failures are `Error:` strings and the no-information message is not. |
| QueryPdfKnowledge.EmptyQueryFirst | coded_tools/kwik_agents/query_pdf_knowledge.py:63-66 | An empty query returns the missing-query error before the store file is checked. |
| QueryPdfKnowledge.QueryBeforeIngestion | coded_tools/kwik_agents/query_pdf_knowledge.py:69-70 | With no store file, the result is "No knowledge base found" whatever loading and searching would do. |
| QueryPdfKnowledge.FalsyStoreIsCorrupted | coded_tools/kwik_agents/query_pdf_knowledge.py:76-77 | A falsy store gives the corrupted-store error. |
| QueryPdfKnowledge.SearchResultMapping | coded_tools/kwik_agents/query_pdf_knowledge.py:80-87 | A completed search gives the no-information message exactly when the result is empty or whitespace only, and otherwise the result unchanged. |
| QueryPdfKnowledge.WhitespaceResultIsNoInformation | coded_tools/kwik_agents/query_pdf_knowledge.py:82-83 | A result of spaces, tabs and newlines counts as no information. |
| QueryPdfKnowledge.LoadDocuments | coded_tools/kwik_agents/query_pdf_knowledge.py:103-110 | `load_documents` always returns the empty list. |
| Text.StripEmptyIffBlank | coded_tools/kwik_agents/query_pdf_knowledge.py:82 | `s.strip() == ""` holds exactly when every character is whitespace. |
| Text.Strip | coded_tools/kwik_agents/query_pdf_knowledge.py:82 | `s.strip()` is `rstrip` applied to `lstrip`, so it is what is left of `s` after the whitespace at both ends is removed. `StripLeft` returns a suffix of its input and `StripRight` a prefix, and each removes only whitespace. The result is no longer than `s` and neither starts nor ends with whitespace. |
| Text.AfterLast | apps/pdf_knowledge_assistant/interface_flask.py:38 | The text after the last separator (all of it when there is none) is a suffix without the separator, and the separator precedes it when present. This is `rsplit(sep, 1)[-1]`, and `os.path.basename` for `/`. |
| Text.NatStr | coded_tools/kwik_agents/add_pdf_to_knowledge.py:115 | `str(n)` is non-empty decimal digits with no leading zero. |
| Text.NatStrRoundTrip | coded_tools/kwik_agents/extract_pdf_knowledge.py:173 | Reading the digits of `str(n)` back gives `n`. |
| Text.JoinAt | coded_tools/kwik_agents/extract_pdf_knowledge.py:202 | Each part of a join appears verbatim between the joins of the parts before and after it. |
| Text.Join | coded_tools/kwik_agents/extract_pdf_knowledge.py:202 | `sep.join(parts)`. `JoinAt` places each part verbatim between the joins of its neighbours. |
| InterfaceFlask.AllowedFileIffPdfSuffix | apps/pdf_knowledge_assistant/interface_flask.py:26-38 | `allowed_file` holds exactly when the lower-cased name ends with `.pdf`, the same test the tools' suffix guard makes. |
| InterfaceFlask.AllowedFileAccepts | apps/pdf_knowledge_assistant/interface_flask.py:36-38 | `a.PDF` and `a.tar.pdf` are accepted. |
| InterfaceFlask.AllowedFileRejects | apps/pdf_knowledge_assistant/interface_flask.py:36-38 | `pdf`, `a.pdf.txt` and the empty name are rejected. |
| InterfaceFlask.AllowedFile | apps/pdf_knowledge_assistant/interface_flask.py:36-38 | There is a dot and the lower-cased text after the last dot is `pdf`. `AllowedFileIffPdfSuffix` proves this equals a lower-cased `.pdf` suffix. |
| InterfaceFlask.UploadGuard | apps/pdf_knowledge_assistant/interface_flask.py:52-61 | The guards fire in order (no file part, then empty name, then disallowed name), each with 400. All pass exactly when a `file` part has an allowed name. |
| InterfaceFlask.StoredName | apps/pdf_knowledge_assistant/interface_flask.py:65-67 | The stored name starts with `<timestamp>_`, ends with the secured name and has exactly their combined length, so it is `<timestamp>_<secured name>`. |
| InterfaceFlask.KnowledgeApp.constructor | apps/pdf_knowledge_assistant/interface_flask.py:30 | The app starts with the assistant's initial thread, nothing saved and nothing emitted. |
| InterfaceFlask.KnowledgeApp.UploadFile | apps/pdf_knowledge_assistant/interface_flask.py:47-90 | A guard failure answers 400 with nothing saved and the thread unchanged. A save failure answers 500. Otherwise exactly `<folder>/<timestamp>_<secured name>` is saved. The agent's reply then sets the thread and the success body, or its exception gives 500 and the thread is not rebound. No event is emitted. |
| InterfaceFlask.ReplyText | apps/pdf_knowledge_assistant/interface_flask.py:112 | A non-empty reply is passed through unchanged. The text is never empty, and it is the fallback exactly for a None or empty reply (or one that is the fallback text). |
| InterfaceFlask.ChatEmits | apps/pdf_knowledge_assistant/interface_flask.py:98-115 | An empty query emits only the error `agent_response`. A non-empty one emits the `user_message` echo and then `agent_response` with the agent's reply text, or with `Error processing query: ` and the exception's text when the agent call raises. No echo is ever empty. |
| InterfaceFlask.KnowledgeApp.HandleUserQuery | apps/pdf_knowledge_assistant/interface_flask.py:93-115 | Appends exactly `ChatEmits` to the emitted events. The thread is rebound only when a non-empty query gets a reply. Nothing is saved. |
| JsonData.KeyList | apps/pdf_knowledge_assistant/interface_flask.py:125 | `list(d.keys())` lists every key exactly once. |
| InterfaceFlask.GetTopics | apps/pdf_knowledge_assistant/interface_flask.py:118-130 | A missing memory file gives `{"topics": []}`. A dict gives one topic per key. An unreadable file or a non-dict gives 500 with the exception text. |
| InterfaceFlask.GetTopicFacts | apps/pdf_knowledge_assistant/interface_flask.py:133-145 | A missing file gives "No memory found.", a missing topic gives "No facts found for this topic.", and a present topic gives its stored value. The topic is echoed. An unreadable file, or a decoded value that is not a dict, gives 500 with `Failed to load topic facts: ` and the exception's text. |
| InterfaceFlask.GetDocuments | apps/pdf_knowledge_assistant/interface_flask.py:148-159 | A missing registry gives `{"documents": []}`, a stored one is returned as is, and an unreadable one gives 500. |
| InterfaceFlask.DocumentCount | apps/pdf_knowledge_assistant/interface_flask.py:169-172 | The count is the length of `documents`, 0 when the key is absent. A non-dict registry raises. |
| InterfaceFlask.FileDocumentCount | apps/pdf_knowledge_assistant/interface_flask.py:169-172 | 0 for a missing registry, the exception for an unreadable one, the length of the `documents` list for a stored registry, and an exception for a stored non-dict. |
| InterfaceFlask.FileTopicCount | apps/pdf_knowledge_assistant/interface_flask.py:174-177 | The count is the number of memory keys, 0 when the file is absent. It succeeds exactly for an absent file or a dict. |
| InterfaceFlask.GetStats | apps/pdf_knowledge_assistant/interface_flask.py:162-184 | Both counts start at 0 and are replaced from each file. The first exception (registry before memory) answers 500. |
| InterfaceFlask.FreshInstallDefaults | apps/pdf_knowledge_assistant/interface_flask.py:118-177 | With no files yet, the counts are 0, the documents list is empty and facts report "No memory found.". |
| InterfaceFlask.CountAfterRegistryUpdate | apps/pdf_knowledge_assistant/interface_flask.py:169-172 | Each successful registry update raises `document_count` by exactly one, and a failed update leaves it unchanged. |
| InterfaceFlask.FirstIngestionListed | apps/pdf_knowledge_assistant/interface_flask.py:152-157 | After the first ingestion into a missing registry, the documents endpoint lists exactly that entry. |

## Left out

- PDF parsing, chunking, embeddings, similarity search and the vector store's contents are not modelled. Their outcomes are inputs: pages or an exception, a truthy or falsy store, a search result. So the duplicate chunks that repeated ingestion adds to the store are not modelled. The duplicate registry entries are.
- `apps/pdf_knowledge_assistant/pdf_knowledge_assistant.py` is not part of this model. The agent session calls (`process_pdf_upload`, `process_user_query`) are function inputs that return a reply and a new thread, or raise. The session writes the query into the caller's thread dict before the call that may raise. That key is overwritten before it is next read, so the model treats a failed call as leaving the thread as it was.
- Flask and SocketIO routing, `index` and `render_template`, the `Cache-Control` header, `shutdown`, `cleanup`, `atexit` and the 50 MB request limit the framework enforces are not modelled.
- Werkzeug's `secure_filename` and `os.path.abspath` are opaque function inputs. `os.path.getsize` is an input outcome.
- The clock is an input: the upload timestamp and the ISO-8601 upload date are given strings, not formatted from a date.
- JSON encoding and decoding are not modelled. A file's decoded content is an input, and a file that fails to open or decode is `Unreadable` with the exception's text.
- InterfaceFlask.GetTopics: does not state the order of the listed topics. Objects are maps, so the insertion order Python keeps for `memory.keys()` is not part of the model.
- AddPdfToKnowledge.RegistryFile.UpdateDocumentRegistry: a failed write leaves the file unchanged. A write that truncates the file and then fails part way is not modelled, and neither are concurrent read-modify-write races between requests.
- Case mapping (`lower`, `upper`) covers ASCII letters only. `strip` uses Python's full whitespace set.
- Tool arguments and the chat payload are modelled with string values only. A non-string `order_priority` or a non-dict event payload would raise in the source, and neither is modelled.
- ExtractPdfKnowledge.AsyncInvoke: `focus_areas` is modelled as absent or a list of strings. A `None` value is falsy and behaves like an absent one, which the model covers. A string value is truthy and is joined character by character, which is not modelled. A non-iterable value raises inside the `try` and gives the tool's failure message, which is not modelled either.
- Floating-point table values are kept as exact decimal constants. Only their pass-through matters.
- Logging is not modelled. `async`/`await` calls are modelled as ordinary sequential calls.
- `async_invoke` of the production parameter, failure-mode and compliance tools only returns `invoke`'s result. It has no member of its own.
