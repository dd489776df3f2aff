/**
 * ResumeGPT/process.py: turning the pages of a PDF into one normalised text,
 * the single chat call with its response-shape check, and `process_resume`,
 * which maps every failure to a `ResumeProcessingError`.
 * The PDF library, the provider and the JSON decoder are oracles.
 */
module Process {
  import opened Wrappers
  import opened Strings
  import opened Prompt
  import opened ChatApi

  /** The kinds of `ResumeProcessingError`, plus provider exceptions that propagate unchanged. */
  datatype ProcessError =
    | UnreadablePdf(reason: string)   // "Unable to read PDF bytes: ..."
    | UnexpectedResponse              // "Unexpected response from OpenAI"
    | InvalidJson                     // "OpenAI did not return valid JSON"
    | ApiFailure(error: ApiError)     // raised by the provider, not wrapped

  /** What `PdfReader` makes of the bytes: an error, or per page the result of `extract_text()`. */
  datatype PdfReading = Unreadable(reason: string) | Pages(pages: seq<Option<string>>)

  /** `page.extract_text() or ""` for every page. */
  function PageTexts(pages: seq<Option<string>>): (texts: seq<string>)
    ensures |texts| == |pages|
    ensures forall i :: 0 <= i < |pages| ==> texts[i] == if pages[i].Some? then pages[i].value else ""
  {
    seq(|pages|, i requires 0 <= i < |pages| => pages[i].GetOr(""))
  }

  /**
   * `re.sub(r"\n(?:\s*)", "\n", s)`: scanning left to right, a newline together
   * with the maximal whitespace run after it (newlines included) becomes a
   * single newline. It never lengthens the text and keeps its first character.
   */
  function CollapseNewlines(s: string): (r: string)
    ensures |r| <= |s|
    ensures s != [] ==> r != [] && r[0] == s[0]
    decreases |s|
  {
    if s == [] then []
    else if s[0] == '\n' then "\n" + CollapseNewlines(TrimStart(s[1..]))
    else [s[0]] + CollapseNewlines(s[1..])
  }

  /** The text `extract_text_from_pdf_bytes` returns for readable pages. */
  function PdfText(pages: seq<Option<string>>): string {
    CollapseNewlines(Join("\n", PageTexts(pages)))
  }

  /** No newline is immediately followed by whitespace. */
  predicate NoSpaceAfterNewline(t: string) {
    forall i :: 0 <= i < |t| - 1 && t[i] == '\n' ==> !IsSpace(t[i + 1])
  }

  /** `extract_text_from_pdf_bytes`. */
  method ExtractTextFromPdfBytes(reading: PdfReading) returns (r: Result<string, ProcessError>)
    ensures reading.Unreadable? ==> r == Failure(UnreadablePdf(reading.reason))
    ensures reading.Pages? ==> r == Success(PdfText(reading.pages))
  {
    if reading.Unreadable? {
      return Failure(UnreadablePdf(reading.reason));
    }
    var pages := reading.pages;
    var textChunks: seq<string> := [];
    for i := 0 to |pages|
      invariant |textChunks| == i
      invariant forall k :: 0 <= k < i ==> textChunks[k] == pages[k].GetOr("")
    {
      textChunks := textChunks + [pages[i].GetOr("")];
    }
    assert textChunks == PageTexts(pages);
    var rawText := Join("\n", textChunks);
    r := Success(CollapseNewlines(rawText));
  }

  /** N pages are joined with exactly N - 1 newline separators. */
  lemma RawTextLength(pages: seq<Option<string>>)
    requires pages != []
    ensures |Join("\n", PageTexts(pages))| == SumLengths(PageTexts(pages)) + |pages| - 1
  {
    JoinLength("\n", PageTexts(pages));
  }

  /** After normalisation no newline is followed by whitespace. */
  lemma {:induction false} CollapseLeavesNoSpaceAfterNewline(s: string)
    ensures NoSpaceAfterNewline(CollapseNewlines(s))
    decreases |s|
  {
    if s != [] {
      if s[0] == '\n' {
        var t := TrimStart(s[1..]);
        TrimStartSpec(s[1..]);
        CollapseLeavesNoSpaceAfterNewline(t);
        var c := CollapseNewlines(t);
        assert CollapseNewlines(s) == "\n" + c;
        forall i | 0 <= i < |c| ensures ("\n" + c)[i + 1] == c[i] { }
      } else {
        var c := CollapseNewlines(s[1..]);
        CollapseLeavesNoSpaceAfterNewline(s[1..]);
        assert CollapseNewlines(s) == [s[0]] + c;
        forall i | 0 <= i < |c| ensures ([s[0]] + c)[i + 1] == c[i] { }
      }
    }
  }

  /** Text that is already normalised is left alone. */
  lemma {:induction false} CollapseFixpoint(t: string)
    requires NoSpaceAfterNewline(t)
    ensures CollapseNewlines(t) == t
    decreases |t|
  {
    if t != [] {
      var rest := t[1..];
      assert NoSpaceAfterNewline(rest) by {
        forall i | 0 <= i < |rest| - 1 && rest[i] == '\n' ensures !IsSpace(rest[i + 1]) {
          assert rest[i] == t[i + 1] && rest[i + 1] == t[i + 2];
        }
      }
      if t[0] == '\n' {
        if rest != [] {
          assert !IsSpace(rest[0]);
        }
        assert TrimStart(rest) == rest;
      }
      CollapseFixpoint(rest);
      assert t == [t[0]] + rest;
    }
  }

  /** Normalisation is idempotent. */
  lemma CollapseIdempotent(s: string)
    ensures CollapseNewlines(CollapseNewlines(s)) == CollapseNewlines(s)
  {
    CollapseLeavesNoSpaceAfterNewline(s);
    CollapseFixpoint(CollapseNewlines(s));
  }

  /** Normalisation deletes whitespace only: the non-whitespace characters are kept, in order. */
  lemma {:induction false} CollapseKeepsNonSpace(s: string)
    ensures NonSpace(CollapseNewlines(s)) == NonSpace(s)
    decreases |s|
  {
    if s != [] {
      if s[0] == '\n' {
        var t := TrimStart(s[1..]);
        CollapseKeepsNonSpace(t);
        NonSpaceTrimStart(s[1..]);
        var c := CollapseNewlines(t);
        assert ("\n" + c)[0] == '\n' && ("\n" + c)[1..] == c;
      } else {
        var c := CollapseNewlines(s[1..]);
        CollapseKeepsNonSpace(s[1..]);
        assert ([s[0]] + c)[0] == s[0] && ([s[0]] + c)[1..] == c;
      }
    }
  }

  /** Text without a newline is returned unchanged. */
  lemma {:induction false} CollapseWithoutNewline(s: string)
    requires forall i :: 0 <= i < |s| ==> s[i] != '\n'
    ensures CollapseNewlines(s) == s
    decreases |s|
  {
    if s != [] {
      CollapseWithoutNewline(s[1..]);
      assert s == [s[0]] + s[1..];
    }
  }

  /** Joining with newlines adds whitespace only. */
  lemma {:induction false} NonSpaceOfNewlineJoin(xs: seq<string>)
    ensures NonSpace(Join("\n", xs)) == NonSpace(Concat(xs))
    decreases |xs|
  {
    if |xs| == 1 {
      assert xs[1..] == [];
      assert Concat(xs) == xs[0] + [];
      assert xs[0] + [] == xs[0];
    } else if |xs| > 1 {
      NonSpaceOfNewlineJoin(xs[1..]);
      NonSpaceAppend(xs[0] + "\n", Join("\n", xs[1..]));
      NonSpaceAppend(xs[0], "\n");
      NonSpaceAppend(xs[0], Concat(xs[1..]));
      assert NonSpace("\n") == [];
    }
  }

  /**
   * The non-whitespace content of the extracted text is that of the pages,
   * in page order; pages without text contribute nothing.
   */
  lemma PdfTextKeepsPageContent(pages: seq<Option<string>>)
    ensures NonSpace(PdfText(pages)) == NonSpace(Concat(PageTexts(pages)))
    ensures NoSpaceAfterNewline(PdfText(pages))
  {
    CollapseKeepsNonSpace(Join("\n", PageTexts(pages)));
    NonSpaceOfNewlineJoin(PageTexts(pages));
    CollapseLeavesNoSpaceAfterNewline(Join("\n", PageTexts(pages)));
  }

  /**
   * `_call_openai_chat`: one request with exactly two messages, system = the
   * prompt then user = the resume text, at the caller's model and temperature;
   * the content of the first choice, or `UnexpectedResponse` when the response
   * lacks it; provider exceptions propagate.
   */
  function CallOpenAiChat(prompt: string, cvContent: string, model: string, temperature: real,
                          provider: Request -> Outcome): (r: Result<string, ProcessError>)
    ensures var outcome := provider(Request(model, [Message(System, prompt), Message(User, cvContent)], temperature));
      && (outcome.Raised? ==> r == Failure(ApiFailure(outcome.error)))
      && (outcome.Answered? && FirstContent(outcome.response).None? ==> r == Failure(UnexpectedResponse))
      && (r.Success? <==> outcome.Answered? && FirstContent(outcome.response).Some?)
      && (r.Success? ==> Some(r.value) == FirstContent(outcome.response))
  {
    match provider(ChatRequest(model, prompt, cvContent, temperature))
    case Raised(error) => Failure(ApiFailure(error))
    case Answered(response) =>
      match FirstContent(response)
      case None => Failure(UnexpectedResponse)
      case Some(content) => Success(content)
  }

  /**
   * `process_resume`: the prompt (given, or else the bundled one) with the
   * positions substituted, the PDF text, one chat call at the caller's model,
   * and `json.loads` of the answer. There is no fallback model on this path.
   */
  function ProcessResume(reading: PdfReading, desired: seq<string>, promptText: Option<string>,
                         bundledPrompt: string, model: string, temperature: real,
                         provider: Request -> Outcome, decode: Decoder): (r: Result<Json, ProcessError>)
    ensures reading.Unreadable? ==> r == Failure(UnreadablePdf(reading.reason))
    ensures reading.Pages? ==>
      var prompt := SubstituteDesiredPositions(promptText.GetOr(bundledPrompt), desired);
      var outcome := provider(Request(model, [Message(System, prompt), Message(User, PdfText(reading.pages))], temperature));
      && (outcome.Raised? ==> r == Failure(ApiFailure(outcome.error)))
      && (outcome.Answered? && FirstContent(outcome.response).None? ==> r == Failure(UnexpectedResponse))
      && (outcome.Answered? && FirstContent(outcome.response).Some? ==>
            r == if decode(FirstContent(outcome.response).value).Some?
                 then Success(decode(FirstContent(outcome.response).value).value)
                 else Failure(InvalidJson))
  {
    var basePrompt := promptText.GetOr(bundledPrompt);
    var prompt := SubstituteDesiredPositions(basePrompt, desired);
    match reading
    case Unreadable(reason) => Failure(UnreadablePdf(reason))
    case Pages(pages) =>
      match CallOpenAiChat(prompt, PdfText(pages), model, temperature, provider)
      case Failure(e) => Failure(e)
      case Success(rawResponse) =>
        match decode(rawResponse)
        case None => Failure(InvalidJson)
        case Some(value) => Success(value)
  }
}
