# ResumeGPT extraction core, modelled in Dafny

ResumeGPT turns resume PDFs into structured records. It reads the text of each PDF and builds a prompt that names the desired positions. It sends both to a chat-completion model and decodes the JSON answer. The decoded answer is flattened into one table row, which is appended to a CSV file. This project models that core and proves properties of it:

- **`prompt.dfy`** (module `Prompt`): `substitute_desired_positions`.
  - Every desired position is stripped and blank ones are dropped.
  - The positions are rendered as `"(p1, p2, ...)"`. With no usable position the default filler `"(suitable position for the candidate)"` is used instead.
  - Every occurrence of the placeholder phrase is replaced by that rendering.
- **`strings.dfy`** (module `Strings`): the Python string operations the core relies on.
  - `str.strip`, with Python's whitespace set: the code points U+0009–U+000D, U+001C–U+0020, U+0085, U+00A0, U+1680, U+2000–U+200A, U+2028, U+2029, U+202F, U+205F and U+3000. The regular expression class `\s` uses the same set.
  - `str.join`.
  - `str.replace`: global, left to right, non-overlapping.
- **`chat.dfy`** (module `ChatApi`): the chat-completion boundary.
  - A request holds a model, two messages and a temperature.
  - A response may lack its `choices` or the first choice's content.
  - The provider either answers or raises. `InvalidRequestError` is told apart from every other error.
  - In the batch pipeline the provider is a `ScriptedProvider` object. It answers from a finite script of outcomes and logs every request it answers. Once the script is used up, a call records nothing.
- **`process.dfy`** (module `Process`): the single-resume path of `ResumeGPT/process.py`.
  - Page texts are joined with `"\n"` and normalised with `re.sub(r"\n(?:\s*)", "\n", ...)`.
  - The one chat call checks the response shape.
  - `process_resume` maps failures to the kinds of `ResumeProcessingError`.
- **`pipeline.dfy`** (module `Pipeline`): the batch pipeline `CVsInfoExtractor` of `ResumeGPT/ChatGPT_Pipeline.py`, as a class.
  - Its fields are the input rows, the assigned `CV_Info_Json` column, the prompt, the provider and the CSV file. The file is modelled as whether it exists, its header and its data rows.
  - Its methods update that state in place: `_call_gpt_for_cv_info_extraction`, `_write_response_to_file`, `_gpt_pipeline` (its retry recursion is written as a loop) and `extract_cv_info`.
  - Each method is proved against a specification function. `PipelineRun` specifies one resume with its retries. `BatchRun` specifies the whole input. `WriteRow` specifies one CSV write.
- **`wrappers.dfy`**: `Option` and `Result`.

The PDF library, the provider, the JSON decoder and `pandas.json_normalize` are oracles, passed in as values or function parameters:

- **PDF library**: a `PdfReading` is either an error or, per page, the result of `extract_text()`.
- **Provider**: a function `Request -> Outcome` in `process.py`, and a `ScriptedProvider` in the pipeline.
- **JSON decoder**: `string -> Option<Json>`.
- **`pandas.json_normalize`**: `Json -> seq<Cell>` on the values it accepts, a JSON object or array (`Tabular`). On every other value, `None`, a string, a number or a boolean, it raises `NotImplementedError`, and the model has it fail with `NotTabular`.

Python's `None` is `JNull` throughout. `json.loads("null")` also yields `None`, so the pipeline cannot distinguish that answer from a decode failure, and neither can the model.

### Behaviour of the code worth noting

- **Escalation repeats.** `_gpt_pipeline` calls itself on `gpt-4` after every `InvalidRequestError`, not only after the first (ChatGPT_Pipeline.py:126-134). The code's logic sets no bound on the number of retries. `UnboundedEscalation` proves that any number of such errors is followed by one more attempt.
- **Every occurrence is replaced.** `str.replace` at prompt.py:22 replaces every occurrence of the placeholder, left to right, not only the first (`SubstituteAtFirstPlaceholder`, `ReplaceAtFirst`).
- **The placeholder can survive substitution.** A position whose text is the placeholder's inner phrase renders as the placeholder itself, so the placeholder is still in the output (`PlaceholderCanSurvive`).
- **Not every resume gets a row.** Three things propagate out of `_gpt_pipeline`, end the batch and leave that resume without a row:
  - a provider error other than `InvalidRequestError`;
  - a first choice without content;
  - a result that `pd.json_normalize` refuses. A response without choices, or content that does not decode, gives `None`, and `json_normalize(None)` raises; so does a decoded string, number or boolean. `NoneAnswerRaises` shows the `None` case and `AttemptResult` the others.

  `PipelineRetriesOnlyOnInvalidRequest` shows that a returned result is always an object or an array. `StoreGrowsOneRowPerResume` states the row count the code achieves when every answer is a JSON object: one per returned resume. An answer that is an array of k records writes k rows, which the model does not capture (see "## Left out").

## Model

| member | source | states |
|---|---|---|
| Strings.IsSpace | ResumeGPT/prompt.py:20 | definition: Python's whitespace set (Py_UNICODE_ISSPACE), used by `str.strip()` here and by `\s` in the `re.sub` at process.py:27 |
| Strings.Strip | ResumeGPT/prompt.py:20 | `str.strip()` never lengthens the text; its exact shape is stated by `StripShape` |
| Strings.TrimStartSpec | ResumeGPT/prompt.py:20 | the leading half of `p.strip()` removes exactly the maximal whitespace prefix: the removed part is all whitespace and the rest does not start with whitespace |
| Strings.TrimEndSpec | ResumeGPT/prompt.py:20 | the trailing half of `p.strip()` removes exactly the maximal whitespace suffix |
| Strings.StripEmptyIffBlank | ResumeGPT/prompt.py:20 | `str(p).strip()` is empty (falsy) if and only if `p` consists of whitespace only |
| Strings.StripShape | ResumeGPT/prompt.py:20 | `s.strip()` splits `s` into a whitespace prefix, the result and a whitespace suffix, and the result neither starts nor ends with whitespace |
| Strings.Join | ResumeGPT/process.py:26 | definition: `sep.join(xs)`, the empty string for no parts, the part itself for one, else the first part, `sep` and the join of the rest; its length is stated by `JoinLength` |
| Strings.JoinLength | ResumeGPT/process.py:26 | joining k ≥ 1 strings inserts exactly k − 1 separators and nothing else (length = sum of lengths + (k − 1)·\|sep\|) |
| Strings.Replace | ResumeGPT/prompt.py:22 | definition: `s.replace(p, q)` for a non-empty `p`, scanning left to right and replacing each non-overlapping occurrence; its meaning is stated by `ReplaceAbsent` and `ReplaceAtFirst` |
| Strings.ReplaceBySelf | ResumeGPT/prompt.py:22 | `s.replace(p, p) == s` |
| Strings.ReplaceAbsent | ResumeGPT/prompt.py:22 | a text without the pattern is returned unchanged by `replace` |
| Strings.ReplaceAtFirst | ResumeGPT/prompt.py:22 | `replace` keeps the text before the first occurrence verbatim, substitutes that occurrence, and continues after it (non-overlapping, left to right) |
| Prompt.DesiredPositions | ResumeGPT/prompt.py:20 | the list comprehension never yields more positions than it is given |
| Prompt.Rendering | ResumeGPT/prompt.py:21 | the text that replaces the placeholder is always parenthesised: `"(p1, ..., pk)"`, or the placeholder itself with no position |
| Prompt.SubstituteDesiredPositions | ResumeGPT/prompt.py:18-22 | definition: `substitute_desired_positions` is `Replace` of the placeholder by `Rendering` of the selected positions; its behaviour is stated by the `Substitute…` lemmas below |
| Prompt.DesiredPositionsAppend | ResumeGPT/prompt.py:20 | the comprehension treats every entry independently and keeps order: positions of `a + b` are positions of `a` followed by those of `b` |
| Prompt.DesiredPositionsTrimmed | ResumeGPT/prompt.py:20 | every selected position is non-empty and has no leading or trailing whitespace |
| Prompt.DesiredPositionsSingle | ResumeGPT/prompt.py:20 | one entry contributes its stripped text, or nothing exactly when it is blank |
| Prompt.DesiredPositionsOfBlanks | ResumeGPT/prompt.py:20 | a list of whitespace-only entries selects no position |
| Prompt.BlankEntriesIgnored | ResumeGPT/prompt.py:20 | inserting whitespace-only entries anywhere in the list selects the same positions |
| Prompt.SubstituteIgnoresBlankEntries | ResumeGPT/prompt.py:18-22 | inserting whitespace-only entries anywhere yields the same prompt |
| Prompt.SubstituteWithoutPositions | ResumeGPT/prompt.py:21-22 | with no usable position the default filler replaces the placeholder by itself, so the prompt is unchanged |
| Prompt.SubstituteWithoutPlaceholder | ResumeGPT/prompt.py:22 | a prompt without the placeholder is returned unchanged whatever the positions (the permissive case) |
| Prompt.SubstituteAtFirstPlaceholder | ResumeGPT/prompt.py:21-22 | with positions p1..pk the first placeholder becomes `"(p1, ..., pk)"`, the text before it is kept and the rest is substituted the same way |
| Prompt.SubstituteSinglePlaceholder | ResumeGPT/prompt.py:21-22 | a prompt with exactly one placeholder becomes prefix + `"(p1, ..., pk)"` + suffix, whose length is the old length − \|placeholder\| + 2 + Σ\|pi\| + 2(k − 1) |
| Prompt.PlaceholderCanSurvive | ResumeGPT/prompt.py:20-22 | the placeholder phrase can still appear after substitution with a non-empty position list |
| ChatApi.ChatRequest | ResumeGPT/ChatGPT_Pipeline.py:39-43 | definition: the `completion_params` dict, built the same way at process.py:37-44: the model, a system message with the prompt, a user message with the resume text, and the temperature |
| ChatApi.HasChoices | ResumeGPT/ChatGPT_Pipeline.py:48 | definition: the response has a `choices` list and it is not empty |
| ChatApi.FirstContent | ResumeGPT/ChatGPT_Pipeline.py:48-49 | the first choice's content is present only when the response has choices |
| ChatApi.ScriptedProvider.Create | ResumeGPT/ChatGPT_Pipeline.py:46 | one `ChatCompletion.create` call consumes exactly one scripted outcome and logs the request; with the script used up nothing changes |
| Process.PageTexts | ResumeGPT/process.py:23-25 | one text per page, in page order: the page's `extract_text()` result, or `""` when it is `None` |
| Process.PdfText | ResumeGPT/process.py:23-27 | definition: the page texts joined with `"\n"`, then normalised by `CollapseNewlines`; its content is stated by `PdfTextKeepsPageContent` |
| Process.CollapseNewlines | ResumeGPT/process.py:27 | the substitution never lengthens the text and keeps its first character |
| Process.ExtractTextFromPdfBytes | ResumeGPT/process.py:16-27 | unreadable bytes give `UnreadablePdf` with the library's reason; otherwise the loop collects `extract_text() or ""` per page and the result is the normalised newline join of those texts |
| Process.RawTextLength | ResumeGPT/process.py:23-26 | N pages are joined with exactly N − 1 newline separators |
| Process.CollapseLeavesNoSpaceAfterNewline | ResumeGPT/process.py:27 | after normalisation no `"\n"` is immediately followed by whitespace, newline included |
| Process.CollapseFixpoint | ResumeGPT/process.py:27 | text in which no newline is followed by whitespace is left unchanged |
| Process.CollapseIdempotent | ResumeGPT/process.py:27 | normalising twice equals normalising once |
| Process.CollapseKeepsNonSpace | ResumeGPT/process.py:27 | normalisation deletes whitespace only: the non-whitespace characters are kept, in order |
| Process.CollapseWithoutNewline | ResumeGPT/process.py:27 | text containing no newline is returned unchanged |
| Process.NonSpaceOfNewlineJoin | ResumeGPT/process.py:26 | joining with `"\n"` adds whitespace only |
| Process.PdfTextKeepsPageContent | ResumeGPT/process.py:23-27 | the extracted text holds exactly the pages' non-whitespace characters in page order, and no newline in it is followed by whitespace |
| Process.CallOpenAiChat | ResumeGPT/process.py:30-49 | the request is the caller's model and temperature with exactly two messages, system = prompt then user = resume text; provider errors propagate; a missing choice or content gives `UnexpectedResponse`; otherwise the result is the first choice's content, and success happens exactly then |
| Process.ProcessResume | ResumeGPT/process.py:52-77 | unreadable PDF → `UnreadablePdf`; the prompt is the given prompt (or the bundled one) with positions substituted and is sent with the PDF text in one request; the call's errors pass through; content that does not decode → `InvalidJson`; otherwise the decoded value |
| Pipeline.ExtractionResult | ResumeGPT/ChatGPT_Pipeline.py:47-61 | no `choices`, or an empty list → `None`; a first choice without content raises; content that does not decode → `None`; otherwise exactly the decoded value |
| Pipeline.Tabular | ResumeGPT/ChatGPT_Pipeline.py:74 | definition: the values `pd.json_normalize` accepts, a JSON object or array; on None, a string, a number or a boolean it raises |
| Pipeline.CallResult | ResumeGPT/ChatGPT_Pipeline.py:36-61 | `_call_gpt_for_cv_info_extraction` raises the provider's error, or yields what `ExtractionResult` makes of the response |
| Pipeline.AttemptResult | ResumeGPT/ChatGPT_Pipeline.py:100-123 | the `try` block returns exactly when the call returns a value that `pd.json_normalize` accepts, and then returns that value; a call that raises passes its exception on; a refused value raises `NotTabular` |
| Pipeline.TableRow | ResumeGPT/ChatGPT_Pipeline.py:67-77 | the row is `CV_Filename` first, the flattened columns in between, and the whole response verbatim as `All_Info_JSON` last |
| Pipeline.NormalizeGptJsonResponse | ResumeGPT/ChatGPT_Pipeline.py:65-80 | `_normalize_gpt_json_response` fails exactly when `pd.json_normalize` refuses the value (neither object nor array); otherwise it gives the row of `TableRow` |
| Pipeline.WriteRow | ResumeGPT/ChatGPT_Pipeline.py:84-87 | after a write the file exists; its header is the old one if the file existed, else the row's columns; the row is appended after the old rows |
| Pipeline.WriteRows | ResumeGPT/ChatGPT_Pipeline.py:84-87 | definition: the writes of `_write_response_to_file`, one row after another; its effect is stated by `WriteRowsAppends` |
| Pipeline.WriteRowsAppends | ResumeGPT/ChatGPT_Pipeline.py:84-87 | the CSV file is append-only: after any writes its rows are the old rows followed by the new ones; the header is kept when the file existed and is otherwise the first written row's columns, so it is written once |
| Pipeline.PipelineRun | ResumeGPT/ChatGPT_Pipeline.py:91-134 | every attempt consumes one provider outcome |
| Pipeline.PipelineModelSelection | ResumeGPT/ChatGPT_Pipeline.py:91-134 | attempt 0 uses the caller's model and every later attempt `gpt-4`; all attempts carry the same prompt and resume text at temperature 0 |
| Pipeline.PipelineRetriesOnlyOnInvalidRequest | ResumeGPT/ChatGPT_Pipeline.py:100-134 | every consumed outcome but the last was an `InvalidRequestError`; the last one decides the result; an `InvalidRequestError` never escapes; the run ends without a result only when every scripted outcome was such an error; a returned result is always a JSON object or array |
| Pipeline.UnboundedEscalation | ResumeGPT/ChatGPT_Pipeline.py:126-134 | after any number k of `InvalidRequestError`s there is an attempt k + 1 (on `gpt-4` when k > 0), whose answer is the result |
| Pipeline.NoneAnswerRaises | ResumeGPT/ChatGPT_Pipeline.py:47-74 | an answer that yields `None` (no choices, or content that does not decode) makes `pd.json_normalize` raise: the run ends after one request, with no retry and no row |
| Pipeline.BatchRun | ResumeGPT/ChatGPT_Pipeline.py:156 | the batch consumes no more provider outcomes than there are |
| Pipeline.BatchResultCount | ResumeGPT/ChatGPT_Pipeline.py:156 | a batch that completes has exactly one result per input row; one that raises stops before the end; every result is a JSON object or array |
| Pipeline.StoreGrowsOneRowPerResume | ResumeGPT/ChatGPT_Pipeline.py:150-156 | the CSV gains exactly one row per resume whose pipeline returned, in input order, each with that resume's filename and result; earlier rows are untouched; a completed batch adds one row per input |
| Pipeline.CVsInfoExtractor.constructor | ResumeGPT/ChatGPT_Pipeline.py:22-27 | the prompt is built once, from the bundled prompt and the desired positions; the column `CV_Info_Json` is not yet assigned |
| Pipeline.CVsInfoExtractor.CallGptForCvInfoExtraction | ResumeGPT/ChatGPT_Pipeline.py:36-61 | exactly one request, with the given model, prompt, resume text and temperature, is sent and one outcome consumed; the result is `CallResult` of the consumed outcome: the provider error or the result mapping of `ExtractionResult` |
| Pipeline.CVsInfoExtractor.WriteResponseToFile | ResumeGPT/ChatGPT_Pipeline.py:84-87 | an existing file gets the row appended with no header; a missing file is created with the row's columns as header and the row; the "no file, no rows" invariant is kept |
| Pipeline.CVsInfoExtractor.GptPipeline | ResumeGPT/ChatGPT_Pipeline.py:91-134 | the result, the requests sent and the outcomes consumed are those of `PipelineRun`; a returned result writes exactly one row, the `TableRow` of that result; a raised one, from the provider or from `pd.json_normalize`, writes nothing |
| Pipeline.CVsInfoExtractor.ExtractCvInfo | ResumeGPT/ChatGPT_Pipeline.py:150-156 | the rows are processed in order as `BatchRun` says; the CSV gains one row per returned resume; `CV_Info_Json` is assigned, with one result per row, only when no row raised |

## Left out

- `load_prompt_text` (ResumeGPT/prompt.py:7-15) reads a packaged file. The bundled prompt is a parameter.
- `process_resume_file` (ResumeGPT/process.py:80-99) only reads a file and calls `process_resume`. It is left out as I/O.
- ResumeGPT/cli.py, ResumeGPT/api.py, ResumeGPT/main.py, ResumeGPT/helpers.py (`output_paths`) and ResumeGPT/__init__.py are not part of this model.
- Setting `openai.api_key` (ChatGPT_Pipeline.py:32, process.py:62) assigns global credential state. It has no effect on the modelled behaviour and is left out.
- PyPDF2 is not modelled. `PdfReader` and `extract_text()` are the `PdfReading` oracle: the reader's error message, or per page a text or `None`.
- JSON decoding is not modelled. It is the `Decoder` oracle. JSON numbers are integers only.
- Chat content that is present but `null` is not represented; a choice's content is a string or absent. In the code, `json.loads(None)` raises `TypeError`.
- `pandas.json_normalize` is the `Flattener` oracle on the values it accepts. The model assumes it yields one row of cells per response, as for a JSON object. A JSON array yields one row per element (an empty array none) and is not modelled. Refused values raise `NotImplementedError` in pandas 1.1 and later and `TypeError` in 1.0; the model has one failure kind, `NotTabular`, for both.
- CSV serialisation is not modelled: quoting, and columns matched by position when later rows have other columns. The file is its header and its rows of cells.
- `_write_final_results_to_excel` (ChatGPT_Pipeline.py:137-146) and the `final_df` that `extract_cv_info` returns are left out. They re-read the CSV and write an Excel file, which is I/O. With an empty input the model writes no row, so it never creates the CSV, and the re-read would fail. This is not modelled. The code itself may create the CSV in that case (see the `Pipeline.CVsInfoExtractor.ExtractCvInfo` line below). `ExtractCvInfo` returns the failure instead, or `None` when every row returned.
- `time.sleep(5)`, `print` and the tqdm progress bar have no effect on the modelled state and are left out.
- Temperatures are uninterpreted `real` values. Only their identity matters: `_gpt_pipeline` always sends 0.
- Exceptions are values: `Result` failures and the `Failure` and `ProcessError` kinds. Their message texts are not modelled.
- Missing `CV_Filename`/`CV_Content` keys in an input row are not modelled; every row has both fields.
- Pipeline.PipelineRun: the provider is a finite script. When the script is used up, a run ends with `ScriptExhausted`, an outcome that exists only in the model. The code would keep calling the provider; `UnboundedEscalation` shows that no bound is imposed before that point.
- Pipeline.CVsInfoExtractor.ExtractCvInfo: the empty input is not modelled as pandas runs it.
  - `progress_apply(self._gpt_pipeline, axis=1)` (ChatGPT_Pipeline.py:156) goes through `DataFrame.apply`. On a frame with no rows, `apply` still calls the function once, on an all-NaN row, to infer the result type, and swallows any exception from that call.
  - So `_gpt_pipeline` runs once: it sends a request whose resume text is NaN, retries on `gpt-4` after an `InvalidRequestError`, and writes a row whose filename is NaN if a call returns a value.
  - The model's empty batch sends no request and writes no row, and `CV_Info_Json` becomes empty. Its contract describes the code only without that probe call.
- Pipeline.UnboundedEscalation: each retry is a nested call (ChatGPT_Pipeline.py:134), so CPython's default recursion limit of 1000 frames turns roughly the thousandth consecutive `InvalidRequestError` into a `RecursionError`. Nothing catches it, and it ends the batch with no row. The model has no call stack and does not capture this limit.
- Pipeline.CVsInfoExtractor.CallGptForCvInfoExtraction: provider errors are returned as a `Failure`, not raised. The callers' handling of each kind is modelled as in the code.
