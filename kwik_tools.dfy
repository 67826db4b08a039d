/** What the three PDF knowledge tools share: the page documents a PDF
    loader yields, the path guards that run before any file is opened, the
    messages for exceptions raised while working on a file, and the
    accumulating document loader. */
module KwikTools {
  import opened Wrappers
  import opened Text
  import opened JsonData

  /** A loaded page; only its text matters to the tools. */
  datatype Page = Page(pageContent: string)

  /** Tool arguments for a loader: the list under `"urls"`. */
  type LoaderArgs = map<string, seq<string>>

  const AsyncRequired := "Error: " + "This tool requires async execution. Please use async_invoke."

  const MissingFilePath := "Error: " + "Missing required input 'file_path'."

  /** The synchronous `invoke` of every PDF tool: always the async-required
      error, whatever the arguments. */
  function SyncInvoke(args: Args): (r: string)
    ensures IsErrorText(r)
    ensures r == AsyncRequired
  {
    AsyncRequired
  }

  function NotFoundText(filePath: string): string {
    "Error: File not found: " + filePath
  }

  function NotPdfText(filePath: string): string {
    "Error: File must be a PDF: " + filePath
  }

  function InvalidInputText(filePath: string, reason: string): string {
    "Error: " + "Invalid file or unsupported input: " + filePath + " - " + reason
  }

  /** `file_path.lower().endswith('.pdf')` */
  predicate HasPdfSuffix(filePath: string) {
    EndsWith(Lower(filePath), ".pdf")
  }

  /** The early returns before the `try` of the ingest and extract tools:
      an empty path, then a path that does not exist, then one without a
      `.pdf` suffix in any case; None when the path passes all three. */
  function CheckPdfPath(filePath: string, existing: set<string>): (r: Option<string>)
    ensures filePath == "" ==> r == Some(MissingFilePath)
    ensures filePath != "" && filePath !in existing ==> r == Some(NotFoundText(filePath))
    ensures filePath != "" && filePath in existing && !HasPdfSuffix(filePath)
      ==> r == Some(NotPdfText(filePath))
    ensures r == None <==> filePath != "" && filePath in existing && HasPdfSuffix(filePath)
    ensures r.Some? ==> IsErrorText(r.value)
  {
    assert NotFoundText(filePath)[..6] == "Error:";
    assert NotPdfText(filePath)[..6] == "Error:";
    if filePath == "" then Some(MissingFilePath)
    else if filePath !in existing then Some(NotFoundText(filePath))
    else if !HasPdfSuffix(filePath) then Some(NotPdfText(filePath))
    else None
  }

  /** Existence is checked before the suffix: a missing non-PDF path is
      reported as not found. */
  lemma MissingNonPdfReportsNotFound(existing: set<string>)
    ensures "notes.txt" !in existing ==>
      CheckPdfPath("notes.txt", existing) == Some(NotFoundText("notes.txt"))
  {
  }

  /** The suffix test ignores case: an existing `X.PDF` passes the guards,
      while an existing `X.txt` does not. */
  lemma UpperCaseSuffixPasses(existing: set<string>)
    ensures "X.PDF" in existing ==> CheckPdfPath("X.PDF", existing) == None
    ensures "X.txt" in existing ==> CheckPdfPath("X.txt", existing) == Some(NotPdfText("X.txt"))
  {
    assert Lower("X.PDF") == "x.pdf";
    assert Lower("X.txt")[2] == 't';
  }

  /** The message of an exception raised inside a tool's `try` block:
      FileNotFoundError and ValueError have their own messages, and any
      other exception gets the tool's own prefix before `str(e)`. */
  function FailureText(filePath: string, e: Exc, otherPrefix: string): (r: string)
    ensures e.NotFoundError? ==> r == NotFoundText(filePath)
    ensures e.ValueError? ==>
      r == InvalidInputText(filePath, e.msg)
    ensures e.OtherError? ==> r == otherPrefix + e.msg
    ensures IsErrorText(otherPrefix) ==> IsErrorText(r)
  {
    assert NotFoundText(filePath)[..6] == "Error:";
    assert InvalidInputText(filePath, e.msg)[..6] == "Error:";
    assert IsErrorText(otherPrefix) ==> (otherPrefix + e.msg)[..6] == otherPrefix[..6];
    match e
    case NotFoundError(_) => NotFoundText(filePath)
    case ValueError(m) => InvalidInputText(filePath, m)
    case OtherError(m) => otherPrefix + m
  }

  /** `loader_args.get("urls", [])` */
  function Urls(loaderArgs: LoaderArgs): seq<string> {
    if "urls" in loaderArgs then loaderArgs["urls"] else []
  }

  /** A loader failure that `load_documents` logs and skips. */
  predicate Skipped(a: Attempt<seq<Page>>) {
    a.Raised? && (a.error.NotFoundError? || a.error.ValueError?)
  }

  /** The outcome of `load_documents` on `urls`, one path at a time from the
      front: pages are appended in path order, skipped failures add nothing,
      and any other exception leaves the loop and propagates. */
  function Gather(urls: seq<string>, load: string -> Attempt<seq<Page>>): Attempt<seq<Page>>
    decreases |urls|
  {
    if urls == [] then Done([])
    else
      var last := urls[|urls| - 1];
      match Gather(urls[..|urls| - 1], load)
      case Raised(e) => Raised(e)
      case Done(docs) =>
        match load(last)
        case Done(pages) => Done(docs + pages)
        case Raised(e) => if Skipped(load(last)) then Done(docs) else Raised(e)
  }

  /** `load_documents`: the loop over the paths with `docs.extend`. */
  method LoadPdfDocuments(loaderArgs: LoaderArgs, load: string -> Attempt<seq<Page>>)
    returns (r: Attempt<seq<Page>>)
    ensures r == Gather(Urls(loaderArgs), load)
  {
    var docs: seq<Page> := [];
    var urls := Urls(loaderArgs);
    for i := 0 to |urls|
      invariant Gather(urls[..i], load) == Done(docs)
    {
      assert urls[..i + 1][..i] == urls[..i];
      var doc := load(urls[i]);
      match doc {
        case Done(pages) =>
          docs := docs + pages;
        case Raised(e) =>
          if !Skipped(doc) {
            assert Gather(urls[..i + 1], load) == Raised(e);
            assert urls[..i + 1] == urls[..i] + [urls[i]];
            GatherStopsAtFatal(urls[..i + 1], urls[i + 1..], load);
            assert urls[..i + 1] + urls[i + 1..] == urls;
            return Raised(e);
          }
      }
    }
    assert urls[..|urls|] == urls;
    return Done(docs);
  }

  /** The pages of one load, empty when it failed. */
  function PagesOf(a: Attempt<seq<Page>>): seq<Page> {
    if a.Done? then a.value else []
  }

  /** Reference definition: the pages of every path, front to back. */
  function Concat(urls: seq<string>, load: string -> Attempt<seq<Page>>): seq<Page> {
    if urls == [] then [] else PagesOf(load(urls[0])) + Concat(urls[1..], load)
  }

  /** No path's loader raises an exception that `load_documents` does not catch. */
  predicate NoFatal(urls: seq<string>, load: string -> Attempt<seq<Page>>) {
    forall i :: 0 <= i < |urls| ==> load(urls[i]).Done? || Skipped(load(urls[i]))
  }

  lemma {:induction false} ConcatSnoc(urls: seq<string>, u: string, load: string -> Attempt<seq<Page>>)
    ensures Concat(urls + [u], load) == Concat(urls, load) + PagesOf(load(u))
    decreases |urls|
  {
    if urls == [] {
      assert [u][1..] == [];
    } else {
      assert (urls + [u])[1..] == urls[1..] + [u];
      ConcatSnoc(urls[1..], u, load);
    }
  }

  /** Once a fatal exception has been raised, later paths do not matter. */
  lemma {:induction false} GatherStopsAtFatal(urls: seq<string>, more: seq<string>,
                                              load: string -> Attempt<seq<Page>>)
    requires Gather(urls, load).Raised?
    ensures Gather(urls + more, load) == Gather(urls, load)
    decreases |more|
  {
    if more == [] {
      assert urls + more == urls;
    } else {
      var front := more[..|more| - 1];
      GatherStopsAtFatal(urls, front, load);
      assert (urls + more)[..|urls + more| - 1] == urls + front;
    }
  }

  /** When every failure is one `load_documents` catches, its result is the
      concatenation of the pages of every path in input order; failing
      paths contribute nothing. */
  lemma {:induction false} GatherIsConcat(urls: seq<string>, load: string -> Attempt<seq<Page>>)
    requires NoFatal(urls, load)
    ensures Gather(urls, load) == Done(Concat(urls, load))
    decreases |urls|
  {
    if urls != [] {
      var front, last := urls[..|urls| - 1], urls[|urls| - 1];
      assert NoFatal(front, load) by {
        forall i | 0 <= i < |front| ensures load(front[i]).Done? || Skipped(load(front[i])) {
          assert front[i] == urls[i];
        }
      }
      GatherIsConcat(front, load);
      assert load(urls[|urls| - 1]).Done? || Skipped(load(urls[|urls| - 1]));
      assert urls == front + [last];
      ConcatSnoc(front, last, load);
      if load(last).Raised? {
        assert Concat(front, load) + PagesOf(load(last)) == Concat(front, load);
      }
    }
  }

  /** `load_documents` raises exactly when some path's loader raises an
      exception it does not catch. */
  lemma {:induction false} GatherRaisesIffFatal(urls: seq<string>, load: string -> Attempt<seq<Page>>)
    ensures Gather(urls, load).Raised? <==> !NoFatal(urls, load)
    decreases |urls|
  {
    if urls != [] {
      var front, last := urls[..|urls| - 1], urls[|urls| - 1];
      GatherRaisesIffFatal(front, load);
      assert NoFatal(urls, load) <==> NoFatal(front, load) && (load(last).Done? || Skipped(load(last))) by {
        if NoFatal(front, load) && (load(last).Done? || Skipped(load(last))) {
          forall i | 0 <= i < |urls| ensures load(urls[i]).Done? || Skipped(load(urls[i])) {
            if i < |front| { assert urls[i] == front[i]; }
          }
        }
        if NoFatal(urls, load) {
          forall i | 0 <= i < |front| ensures load(front[i]).Done? || Skipped(load(front[i])) {
            assert front[i] == urls[i];
          }
          assert load(urls[|urls| - 1]).Done? || Skipped(load(urls[|urls| - 1]));
        }
      }
    }
  }
}
