/** The knowledge extraction tool: after the shared path guards it loads the
    PDF's pages, joins their text, keeps at most the first 10000 characters
    as a sample and builds a plain-text summary around it for the agent.
    The PDF loader is outside the model: its outcome is an input. */
module ExtractPdfKnowledge {
  import opened Wrappers
  import opened Text
  import opened JsonData
  import opened KwikTools

  /** The most characters of document text the summary carries. */
  const SampleLimit := 10000

  const FailurePrefix := "Error: " + "Failed to extract knowledge from PDF: "

  const SampleIntro := "The following is a sample of the document content:"

  const AnalyzeInstruction :=
    "Please analyze the above content and identify key topics and facts. "
    + "For each significant topic you identify, use the commit_to_memory tool "
    + "to store relevant facts under that topic."

  function EmptyDocumentText(filePath: string): string {
    "Error: " + "Failed to load document or document is empty: " + filePath
  }

  /** The text of each page, in page order. */
  function PageTexts(docs: seq<Page>): (texts: seq<string>)
    ensures |texts| == |docs|
    ensures forall i :: 0 <= i < |docs| ==> texts[i] == docs[i].pageContent
  {
    seq(|docs|, i requires 0 <= i < |docs| => docs[i].pageContent)
  }

  /** `"\n\n".join([doc.page_content for doc in docs])` */
  function FullText(docs: seq<Page>): string {
    Join("\n\n", PageTexts(docs))
  }

  /** `full_text[:10000] if len(full_text) > 10000 else full_text`: the
      prefix of the text of length min(10000, len), so the whole text when
      it is short enough. */
  function TextSample(fullText: string): (sample: string)
    ensures |sample| == if |fullText| > SampleLimit then SampleLimit else |fullText|
    ensures sample == fullText[..|sample|]
    ensures |fullText| <= SampleLimit ==> sample == fullText
  {
    if |fullText| > SampleLimit then fullText[..SampleLimit] else fullText
  }

  function FocusRequested(focusAreas: seq<string>): string {
    "Focus areas requested: " + Join(", ", focusAreas)
  }

  function PayAttention(focusAreas: seq<string>): string {
    "Pay special attention to information related to: " + Join(", ", focusAreas) + "."
  }

  /** Where the text sample sits among the summary lines. */
  function SampleIndex(focusAreas: seq<string>): nat {
    if focusAreas != [] then 9 else 7
  }

  /** The lines of the summary, the reference the builder is checked
      against: a two-line header (file name, page count), an overview
      heading, the requested focus areas when there are any, the sample,
      the instruction, and a closing focus reminder when there are focus
      areas. */
  function SummaryLines(filename: string, pageCount: nat, textSample: string,
                        focusAreas: seq<string>): (lines: seq<string>)
    ensures |lines| == if focusAreas != [] then 15 else 12
    ensures lines[0] == "Document: " + filename
    ensures lines[1] == "Pages: " + NatStr(pageCount)
    ensures lines[SampleIndex(focusAreas)] == textSample
    ensures focusAreas != [] ==>
      lines[5] == FocusRequested(focusAreas) && lines[|lines| - 1] == PayAttention(focusAreas)
    ensures focusAreas == [] ==> lines[5] == SampleIntro && lines[|lines| - 1] == AnalyzeInstruction
  {
    ["Document: " + filename, "Pages: " + NatStr(pageCount), "", "CONTENT OVERVIEW:", ""]
    + (if focusAreas != [] then [FocusRequested(focusAreas), ""] else [])
    + [SampleIntro, "", textSample, "", "---", "", AnalyzeInstruction]
    + (if focusAreas != [] then [PayAttention(focusAreas)] else [])
  }

  /** `_generate_document_summary`: the list of parts grows by appends and
      is joined with newlines. */
  method GenerateDocumentSummary(filename: string, pageCount: nat, textSample: string,
                                 focusAreas: seq<string>) returns (summary: string)
    ensures summary == Join("\n", SummaryLines(filename, pageCount, textSample, focusAreas))
  {
    var summaryParts := [
      "Document: " + filename,
      "Pages: " + NatStr(pageCount),
      "",
      "CONTENT OVERVIEW:",
      ""
    ];
    if focusAreas != [] {
      summaryParts := summaryParts + [FocusRequested(focusAreas)];
      summaryParts := summaryParts + [""];
    }
    summaryParts := summaryParts + [SampleIntro];
    summaryParts := summaryParts + [""];
    summaryParts := summaryParts + [textSample];
    summaryParts := summaryParts + [""];
    summaryParts := summaryParts + ["---"];
    summaryParts := summaryParts + [""];
    summaryParts := summaryParts + [AnalyzeInstruction];
    if focusAreas != [] {
      summaryParts := summaryParts + [PayAttention(focusAreas)];
    }
    assert summaryParts == SummaryLines(filename, pageCount, textSample, focusAreas);
    summary := Join("\n", summaryParts);
  }

  /** The summary opens with the file name line and the page count line. */
  lemma SummaryHeader(filename: string, pageCount: nat, textSample: string, focusAreas: seq<string>)
    ensures var lines := SummaryLines(filename, pageCount, textSample, focusAreas);
      Join("\n", lines)
        == "Document: " + filename + "\n" + "Pages: " + NatStr(pageCount) + "\n" + Join("\n", lines[2..])
  {
    var lines := SummaryLines(filename, pageCount, textSample, focusAreas);
    assert lines == [lines[0]] + lines[1..];
    JoinAppend("\n", [lines[0]], lines[1..]);
    assert lines[1..] == [lines[1]] + lines[2..];
    JoinAppend("\n", [lines[1]], lines[2..]);
  }

  /** The text sample appears verbatim in the summary, as one whole line
      between the lines before it and the lines after it. */
  lemma SampleVerbatim(filename: string, pageCount: nat, textSample: string, focusAreas: seq<string>)
    ensures var lines := SummaryLines(filename, pageCount, textSample, focusAreas);
      var k := SampleIndex(focusAreas);
      Join("\n", lines) == Join("\n", lines[..k]) + "\n" + textSample + "\n" + Join("\n", lines[k + 1..])
  {
    var lines := SummaryLines(filename, pageCount, textSample, focusAreas);
    JoinAt("\n", lines, SampleIndex(focusAreas));
  }

  /** A summary never looks like an error: it starts with "Document: ". */
  lemma SummaryIsNotError(filename: string, pageCount: nat, textSample: string, focusAreas: seq<string>)
    ensures !IsErrorText(Join("\n", SummaryLines(filename, pageCount, textSample, focusAreas)))
  {
    SummaryHeader(filename, pageCount, textSample, focusAreas);
    var s := Join("\n", SummaryLines(filename, pageCount, textSample, focusAreas));
    assert s[0] == 'D';
  }

  /** `async_invoke`. `focusAreas` is the `focus_areas` argument (None when
      absent); `existing` is the set of paths `os.path.exists` accepts;
      `load` is what the PDF loader returns or raises for the path. */
  method AsyncInvoke(args: Args, focusAreas: Option<seq<string>>, existing: set<string>,
                     load: Attempt<seq<Page>>) returns (r: string)
    ensures var filePath := Arg(args, "file_path", "");
      CheckPdfPath(filePath, existing).Some? ==> r == CheckPdfPath(filePath, existing).value
    ensures var filePath := Arg(args, "file_path", "");
      CheckPdfPath(filePath, existing).None? && load.Raised? ==>
        r == FailureText(filePath, load.error, FailurePrefix)
    ensures var filePath := Arg(args, "file_path", "");
      CheckPdfPath(filePath, existing).None? && load == Done([]) ==> r == EmptyDocumentText(filePath)
    ensures var filePath := Arg(args, "file_path", "");
      CheckPdfPath(filePath, existing).None? && load.Done? && load.value != [] ==>
        r == Join("\n", SummaryLines(AfterLast(filePath, '/'), |load.value|,
                                     TextSample(FullText(load.value)), focusAreas.GetOr([])))
    ensures var filePath := Arg(args, "file_path", "");
      IsErrorText(r) <==> !(CheckPdfPath(filePath, existing).None? && load.Done? && load.value != [])
  {
    var filePath := Arg(args, "file_path", "");
    var focus := focusAreas.GetOr([]);

    var guard := CheckPdfPath(filePath, existing);
    if guard.Some? {
      return guard.value;
    }

    match load {
      case Raised(e) =>
        assert FailurePrefix[..6] == "Error:";
        r := FailureText(filePath, e, FailurePrefix);
      case Done(docs) =>
        if docs == [] {
          r := EmptyDocumentText(filePath);
          assert r[..6] == "Error:";
          return;
        }
        var filename := AfterLast(filePath, '/');
        var pageCount := |docs|;
        var fullText := FullText(docs);
        var textSample := TextSample(fullText);
        r := GenerateDocumentSummary(filename, pageCount, textSample, focus);
        SummaryIsNotError(filename, pageCount, textSample, focus);
    }
  }

  /** A missing file is reported as such before its suffix is looked at,
      and an upper-case `.PDF` passes the suffix guard. */
  lemma GuardsBeforeLoading(existing: set<string>, load: Attempt<seq<Page>>)
    ensures "report.txt" !in existing ==>
      CheckPdfPath("report.txt", existing) == Some(NotFoundText("report.txt"))
    ensures "REPORT.PDF" in existing ==> CheckPdfPath("REPORT.PDF", existing) == None
  {
    assert Lower("REPORT.PDF") == "report.pdf";
  }
}
