/**
 * ResumeGPT/ChatGPT_Pipeline.py: the `CVsInfoExtractor` batch pipeline.
 * Each resume is sent to the provider (retrying on `gpt-4` after an
 * `InvalidRequestError`), the answer is decoded and flattened into one row,
 * and the row is appended to the CSV store, whose header is written once.
 *
 * The provider answers from a finite script (ChatApi.ScriptedProvider), the
 * JSON decoder and `pd.json_normalize` are parameters, and the CSV file is
 * the state (exists, header, rows).
 */
module Pipeline {
  import opened Wrappers
  import opened Prompt
  import opened ChatApi
  import Strings

  /** The common prefix of the default and the fallback model names. */
  const Gpt: string := "gpt"

  /** The default model of `_gpt_pipeline`: "gpt-3.5-turbo". */
  const DefaultModel: string := Gpt + "-3.5-turbo"

  /** The model used after an `InvalidRequestError`: "gpt-4". */
  const FallbackModel: string := Gpt + "-4"

  /** One row of the input table: `CV_Filename` and `CV_Content`. */
  datatype CvRow = CvRow(filename: string, content: string)

  datatype Value = Text(text: string) | JsonValue(json: Json)

  datatype Cell = Cell(column: string, value: Value)

  /** One output row: its cells, each with its column name. */
  type Row = seq<Cell>

  /**
   * `pd.json_normalize` on one decoded response that it accepts (see
   * `Tabular`): the flattened cells.
   */
  type Flattener = Json -> seq<Cell>

  /**
   * The values `pd.json_normalize` accepts: an object (one record) or an
   * array (a list of records). On None (`JNull`), a string, a number or a
   * boolean it raises `NotImplementedError`.
   */
  predicate Tabular(json: Json) {
    json.JObject? || json.JArray?
  }

  /** What makes `_gpt_pipeline` raise instead of returning. */
  datatype Failure =
    | ProviderRaised(error: ApiError)   // a provider exception that is not caught
    | MissingContent                    // KeyError: the first choice has no message content
    | ScriptExhausted                   // the scripted provider has no answer left
    | NotTabular                        // NotImplementedError: `pd.json_normalize` refused the value

  predicate IsInvalidRequest(outcome: Outcome) {
    outcome.Raised? && outcome.error.InvalidRequestError?
  }

  /**
   * `_call_gpt_for_cv_info_extraction` once the provider has answered: a
   * response without choices, or whose content is not valid JSON, gives None
   * (`JNull`); otherwise the decoded value. A first choice without content raises.
   */
  function ExtractionResult(response: Response, decode: Decoder): (r: Result<Json, Failure>)
    ensures !HasChoices(response) ==> r == Success(JNull)
    ensures HasChoices(response) && FirstContent(response).None? ==> r == Failure(MissingContent)
    ensures FirstContent(response).Some? && decode(FirstContent(response).value).None? ==> r == Success(JNull)
    ensures FirstContent(response).Some? && decode(FirstContent(response).value).Some? ==>
      r == Success(decode(FirstContent(response).value).value)
  {
    if !HasChoices(response) then Success(JNull)
    else
      match response.choices.value[0].content
      case None => Failure(MissingContent)
      case Some(cleanedResponse) => Success(decode(cleanedResponse).GetOr(JNull))
  }

  /** What `_call_gpt_for_cv_info_extraction` returns or raises, given what the provider did. */
  function CallResult(outcome: Outcome, decode: Decoder): (r: Result<Json, Failure>)
    ensures outcome.Raised? ==> r == Failure(ProviderRaised(outcome.error))
    ensures outcome.Answered? ==> r == ExtractionResult(outcome.response, decode)
  {
    match outcome
    case Raised(error) => Failure(ProviderRaised(error))
    case Answered(response) => ExtractionResult(response, decode)
  }

  /**
   * What the `try` block of `_gpt_pipeline` ends with, given what the
   * provider did and unless it is the `InvalidRequestError` that is retried:
   * the extracted value when `pd.json_normalize` accepts it; otherwise the
   * exception raised on the way, by the call or by the normalisation.
   */
  function AttemptResult(outcome: Outcome, decode: Decoder): (r: Result<Json, Failure>)
    ensures r.Success? <==> CallResult(outcome, decode).Success? && Tabular(CallResult(outcome, decode).value)
    ensures r.Success? ==> r == CallResult(outcome, decode)
    ensures CallResult(outcome, decode).Failure? ==> r == CallResult(outcome, decode)
    ensures r.Failure? && CallResult(outcome, decode).Success? ==> r == Failure(NotTabular)
  {
    match CallResult(outcome, decode)
    case Failure(f) => Failure(f)
    case Success(json) => if Tabular(json) then Success(json) else Failure(NotTabular)
  }

  /**
   * The row `_normalize_gpt_json_response` builds for a value `pd.json_normalize`
   * accepts: `CV_Filename` first, the flattened columns in between, the whole
   * response verbatim in `All_Info_JSON` last.
   */
  function TableRow(filename: string, json: Json, flatten: Flattener): (row: Row)
    ensures |row| == |flatten(json)| + 2
    ensures row[0] == Cell("CV_Filename", Text(filename))
    ensures row[1..|row| - 1] == flatten(json)
    ensures row[|row| - 1] == Cell("All_Info_JSON", JsonValue(json))
  {
    [Cell("CV_Filename", Text(filename))] + flatten(json) + [Cell("All_Info_JSON", JsonValue(json))]
  }

  /**
   * `_normalize_gpt_json_response`: the row of `TableRow`, or None where
   * `pd.json_normalize` raises.
   */
  function NormalizeGptJsonResponse(filename: string, json: Json, flatten: Flattener): (row: Option<Row>)
    ensures row.None? <==> !Tabular(json)
    ensures row.Some? ==> row.value == TableRow(filename, json, flatten)
  {
    if Tabular(json) then Some(TableRow(filename, json, flatten)) else None
  }

  function Columns(row: Row): seq<string> {
    seq(|row|, i requires 0 <= i < |row| => row[i].column)
  }

  /** The CSV file: whether it exists, its header line and its data rows. */
  datatype StoreState = StoreState(present: bool, header: seq<string>, rows: seq<Row>)

  /** A file that does not exist has neither header nor rows. */
  predicate WellFormed(store: StoreState) {
    !store.present ==> store.header == [] && store.rows == []
  }

  /**
   * `_write_response_to_file` on the file: when it exists, append the row
   * without a header; otherwise create it with the row's columns as header.
   */
  function WriteRow(store: StoreState, row: Row): (after: StoreState)
    ensures after.present
    ensures after.header == if store.present then store.header else Columns(row)
    ensures WellFormed(store) ==> after.rows == store.rows + [row]
  {
    if store.present then StoreState(true, store.header, store.rows + [row])
    else StoreState(true, Columns(row), [row])
  }

  /** Several writes in turn. */
  function WriteRows(store: StoreState, rows: seq<Row>): StoreState
    decreases |rows|
  {
    if rows == [] then store else WriteRows(WriteRow(store, rows[0]), rows[1..])
  }

  /**
   * The store is append-only and its header is written once: after any
   * sequence of writes the rows are the old ones followed by the new ones, and
   * the header is the old one if the file existed, else the first row's columns.
   */
  lemma {:induction false} WriteRowsAppends(store: StoreState, rows: seq<Row>)
    requires WellFormed(store)
    ensures var after := WriteRows(store, rows);
      && WellFormed(after)
      && after.present == (store.present || rows != [])
      && after.rows == store.rows + rows
      && after.header == if store.present || rows == [] then store.header else Columns(rows[0])
    decreases |rows|
  {
    if rows == [] {
      assert store.rows + rows == store.rows;
    } else {
      var next := WriteRow(store, rows[0]);
      WriteRowsAppends(next, rows[1..]);
      assert store.rows + rows == store.rows + [rows[0]] + rows[1..];
    }
  }

  /** Writing one more row after several is one more write. */
  lemma {:induction false} WriteRowsSnoc(store: StoreState, rows: seq<Row>, row: Row)
    ensures WriteRows(store, rows + [row]) == WriteRow(WriteRows(store, rows), row)
    decreases |rows|
  {
    if rows == [] {
      assert rows + [row] == [row];
    } else {
      assert (rows + [row])[0] == rows[0] && (rows + [row])[1..] == rows[1..] + [row];
      WriteRowsSnoc(WriteRow(store, rows[0]), rows[1..], row);
    }
  }

  /** What one run of `_gpt_pipeline` does: the requests it sends and what it returns or raises. */
  datatype Run = Run(sent: seq<Request>, result: Result<Json, Failure>)

  /**
   * `_gpt_pipeline` over a script of provider outcomes: each attempt consumes
   * one outcome; an `InvalidRequestError` starts another attempt on `gpt-4`,
   * without any bound; any other outcome ends the run.
   */
  function PipelineRun(prompt: string, cv: CvRow, model: string, script: seq<Outcome>, decode: Decoder): (run: Run)
    ensures |run.sent| <= |script|
    decreases |script|
  {
    if script == [] then Run([], Failure(ScriptExhausted))
    else
      var request := ChatRequest(model, prompt, cv.content, 0.0);
      if IsInvalidRequest(script[0]) then
        var retry := PipelineRun(prompt, cv, FallbackModel, script[1..], decode);
        Run([request] + retry.sent, retry.result)
      else Run([request], AttemptResult(script[0], decode))
  }

  /**
   * Model selection: the first attempt uses the caller's model and every later
   * one `gpt-4`; all attempts carry the same prompt and resume text, at
   * temperature 0.
   */
  lemma {:induction false} PipelineModelSelection(prompt: string, cv: CvRow, model: string, script: seq<Outcome>, decode: Decoder)
    ensures forall k :: 0 <= k < |PipelineRun(prompt, cv, model, script, decode).sent| ==>
      PipelineRun(prompt, cv, model, script, decode).sent[k]
        == ChatRequest(if k == 0 then model else FallbackModel, prompt, cv.content, 0.0)
    decreases |script|
  {
    if script != [] && IsInvalidRequest(script[0]) {
      var retry := PipelineRun(prompt, cv, FallbackModel, script[1..], decode);
      PipelineModelSelection(prompt, cv, FallbackModel, script[1..], decode);
      var run := PipelineRun(prompt, cv, model, script, decode);
      assert run.sent == [ChatRequest(model, prompt, cv.content, 0.0)] + retry.sent;
      forall k | 1 <= k < |run.sent|
        ensures run.sent[k] == ChatRequest(FallbackModel, prompt, cv.content, 0.0)
      {
        assert run.sent[k] == retry.sent[k - 1];
      }
    }
  }

  /**
   * Only `InvalidRequestError` leads to a retry: every outcome but the last one
   * consumed was such an error, the last one decides the result, and the error
   * itself never escapes. The run stops short of an answer only when every
   * scripted outcome was such an error, and what it returns is always a value
   * `pd.json_normalize` accepted.
   */
  lemma {:induction false} PipelineRetriesOnlyOnInvalidRequest(prompt: string, cv: CvRow, model: string, script: seq<Outcome>, decode: Decoder)
    ensures var run := PipelineRun(prompt, cv, model, script, decode);
      && (forall k :: 0 <= k < |run.sent| - 1 ==> IsInvalidRequest(script[k]))
      && (run.result == Failure(ScriptExhausted) <==> forall k :: 0 <= k < |script| ==> IsInvalidRequest(script[k]))
      && (run.result == Failure(ScriptExhausted) ==> |run.sent| == |script|)
      && (run.result != Failure(ScriptExhausted) ==>
            && |run.sent| >= 1
            && !IsInvalidRequest(script[|run.sent| - 1])
            && run.result == AttemptResult(script[|run.sent| - 1], decode))
      && !(run.result.Failure? && run.result.error.ProviderRaised? && run.result.error.error.InvalidRequestError?)
      && (run.result.Success? ==> Tabular(run.result.value))
    decreases |script|
  {
    if script != [] {
      if IsInvalidRequest(script[0]) {
        var rest := script[1..];
        PipelineRetriesOnlyOnInvalidRequest(prompt, cv, FallbackModel, rest, decode);
        var retry := PipelineRun(prompt, cv, FallbackModel, rest, decode);
        forall k | 1 <= k < |script| ensures script[k] == rest[k - 1] { }
        if retry.result == Failure(ScriptExhausted) {
          assert forall k :: 0 <= k < |script| ==> IsInvalidRequest(script[k]) by {
            forall k | 0 <= k < |script| ensures IsInvalidRequest(script[k]) {
              if k > 0 {
                assert IsInvalidRequest(rest[k - 1]);
              }
            }
          }
        } else {
          assert !IsInvalidRequest(rest[|retry.sent| - 1]);
        }
      } else {
        assert !IsInvalidRequest(script[0]);
        assert AttemptResult(script[0], decode) != Failure(ScriptExhausted);
      }
    }
  }

  /** `k` outcomes that are all `InvalidRequestError`. */
  function InvalidRequests(k: nat, message: string): (s: seq<Outcome>)
    ensures |s| == k && forall i :: 0 <= i < k ==> s[i] == Raised(InvalidRequestError(message))
  {
    seq(k, i => Raised(InvalidRequestError(message)))
  }

  /**
   * The retry is unbounded: after any number `k` of `InvalidRequestError`s the
   * pipeline still makes attempt `k + 1` (on `gpt-4`) and returns what it yields.
   */
  lemma {:induction false} UnboundedEscalation(prompt: string, cv: CvRow, model: string, k: nat, message: string,
                                               response: Response, decode: Decoder)
    ensures var run := PipelineRun(prompt, cv, model, InvalidRequests(k, message) + [Answered(response)], decode);
      && |run.sent| == k + 1
      && run.sent[k].model == (if k == 0 then model else FallbackModel)
      && run.result == AttemptResult(Answered(response), decode)
    decreases k
  {
    var script := InvalidRequests(k, message) + [Answered(response)];
    if k > 0 {
      assert script[1..] == InvalidRequests(k - 1, message) + [Answered(response)];
      UnboundedEscalation(prompt, cv, FallbackModel, k - 1, message, response, decode);
    }
  }

  /**
   * An answer without choices, or whose content is not valid JSON, is None,
   * and `pd.json_normalize` raises on None: the run ends after its one
   * request, without a retry and without a row.
   */
  lemma NoneAnswerRaises(prompt: string, cv: CvRow, model: string, response: Response, rest: seq<Outcome>,
                         decode: Decoder)
    requires ExtractionResult(response, decode) == Success(JNull)
    ensures PipelineRun(prompt, cv, model, [Answered(response)] + rest, decode)
      == Run([ChatRequest(model, prompt, cv.content, 0.0)], Failure(NotTabular))
  {
    assert ([Answered(response)] + rest)[0] == Answered(response);
  }

  /** What `extract_cv_info` does over the whole input: the requests, the returned values, and the exception if any. */
  datatype Batch = Batch(sent: seq<Request>, results: seq<Json>, failure: Option<Failure>)

  /**
   * The rows from input `from` on, in order, each run through
   * `_gpt_pipeline` with the default model, stopping at the first row whose
   * pipeline raises. The whole of `extract_cv_info` starts at `from == 0`.
   */
  function BatchRun(prompt: string, cvs: seq<CvRow>, from: nat, script: seq<Outcome>, decode: Decoder): (batch: Batch)
    requires from <= |cvs|
    ensures |batch.sent| <= |script|
    decreases |cvs| - from
  {
    if from == |cvs| then Batch([], [], None)
    else
      var run := PipelineRun(prompt, cvs[from], DefaultModel, script, decode);
      match run.result
      case Failure(f) => Batch(run.sent, [], Some(f))
      case Success(json) =>
        var rest := BatchRun(prompt, cvs, from + 1, script[|run.sent|..], decode);
        Batch(run.sent + rest.sent, [json] + rest.results, rest.failure)
  }

  /**
   * A batch that completes has one result per input; one that raises stops
   * before the end; every result was accepted by `pd.json_normalize`.
   */
  lemma {:induction false} BatchResultCount(prompt: string, cvs: seq<CvRow>, from: nat, script: seq<Outcome>, decode: Decoder)
    requires from <= |cvs|
    ensures var batch := BatchRun(prompt, cvs, from, script, decode);
      && |batch.results| <= |cvs| - from
      && (batch.failure.None? <==> |batch.results| == |cvs| - from)
      && forall i :: 0 <= i < |batch.results| ==> Tabular(batch.results[i])
    decreases |cvs| - from
  {
    if from < |cvs| {
      var run := PipelineRun(prompt, cvs[from], DefaultModel, script, decode);
      if run.result.Success? {
        PipelineRetriesOnlyOnInvalidRequest(prompt, cvs[from], DefaultModel, script, decode);
        BatchResultCount(prompt, cvs, from + 1, script[|run.sent|..], decode);
        var rest := BatchRun(prompt, cvs, from + 1, script[|run.sent|..], decode);
        assert BatchRun(prompt, cvs, from, script, decode).results == [run.result.value] + rest.results;
      }
    }
  }

  /** The rows written for the first `|results|` inputs. */
  function ResultRows(cvs: seq<CvRow>, results: seq<Json>, flatten: Flattener): seq<Row>
    requires |results| <= |cvs|
  {
    seq(|results|, i requires 0 <= i < |results| => TableRow(cvs[i].filename, results[i], flatten))
  }

  /**
   * After `extract_cv_info` the store has grown by exactly one row per
   * processed resume, in input order, each holding that resume's filename
   * first and its result last; the earlier rows are untouched, and a batch
   * that completes adds one row per input.
   */
  lemma StoreGrowsOneRowPerResume(store: StoreState, prompt: string, cvs: seq<CvRow>, script: seq<Outcome>,
                                  decode: Decoder, flatten: Flattener)
    requires WellFormed(store)
    ensures var batch := BatchRun(prompt, cvs, 0, script, decode);
      |batch.results| <= |cvs| &&
      var after := WriteRows(store, ResultRows(cvs, batch.results, flatten));
      && |after.rows| == |store.rows| + |batch.results|
      && after.rows[..|store.rows|] == store.rows
      && (batch.failure.None? ==> |after.rows| == |store.rows| + |cvs|)
      && forall i :: 0 <= i < |batch.results| ==>
           after.rows[|store.rows| + i] == TableRow(cvs[i].filename, batch.results[i], flatten)
  {
    BatchResultCount(prompt, cvs, 0, script, decode);
    WriteResultRows(store, cvs, BatchRun(prompt, cvs, 0, script, decode).results, flatten);
  }

  /** Writing the rows of the first `|results|` inputs appends exactly those rows. */
  lemma WriteResultRows(store: StoreState, cvs: seq<CvRow>, results: seq<Json>, flatten: Flattener)
    requires WellFormed(store) && |results| <= |cvs|
    ensures |WriteRows(store, ResultRows(cvs, results, flatten)).rows| == |store.rows| + |results|
    ensures WriteRows(store, ResultRows(cvs, results, flatten)).rows[..|store.rows|] == store.rows
    ensures forall i :: 0 <= i < |results| ==>
      WriteRows(store, ResultRows(cvs, results, flatten)).rows[|store.rows| + i]
        == TableRow(cvs[i].filename, results[i], flatten)
  {
    var rows := ResultRows(cvs, results, flatten);
    WriteRowsAppends(store, rows);
    var after := WriteRows(store, rows);
    assert after.rows == store.rows + rows;
    forall i | 0 <= i < |results|
      ensures after.rows[|store.rows| + i] == TableRow(cvs[i].filename, results[i], flatten)
    {
      assert after.rows[|store.rows| + i] == rows[i];
    }
  }

  /**
   * One step of `extract_cv_info` against `BatchRun`: when input `i` raises,
   * the batch ends there; when it returns, the rest of the batch starts after
   * the outcomes it consumed.
   */
  lemma BatchAdvance(prompt: string, cvs: seq<CvRow>, i: nat, script: seq<Outcome>, decode: Decoder,
                     batch: Batch, done: seq<Request>, results: seq<Json>)
    requires i < |cvs|
    requires var rest := BatchRun(prompt, cvs, i, script, decode);
      batch == Batch(done + rest.sent, results + rest.results, rest.failure)
    ensures var run := PipelineRun(prompt, cvs[i], DefaultModel, script, decode);
      && (run.result.Failure? ==> batch == Batch(done + run.sent, results, Some(run.result.error)))
      && (run.result.Success? ==>
            var next := BatchRun(prompt, cvs, i + 1, script[|run.sent|..], decode);
            batch == Batch((done + run.sent) + next.sent, (results + [run.result.value]) + next.results, next.failure))
  {
    var run := PipelineRun(prompt, cvs[i], DefaultModel, script, decode);
    if run.result.Success? {
      var next := BatchRun(prompt, cvs, i + 1, script[|run.sent|..], decode);
      Strings.AppendAssoc(done, run.sent, next.sent);
      Strings.AppendAssoc(results, [run.result.value], next.results);
    } else {
      assert results + [] == results;
    }
  }

  /**
   * Where `extract_cv_info` stands once the inputs before `|results|` have
   * returned `results`: the provider has received `done` on top of `sent0`
   * and consumed as many outcomes, the rest of the batch accounts for the
   * remainder of `batch`, and the store holds one row per returned input.
   */
  ghost predicate BatchProgress(prompt: string, cvs: seq<CvRow>, decode: Decoder, flatten: Flattener,
                                batch: Batch, sent0: seq<Request>, script0: seq<Outcome>, store0: StoreState,
                                done: seq<Request>, results: seq<Json>,
                                sent: seq<Request>, script: seq<Outcome>, store: StoreState)
  {
    && |results| <= |cvs|
    && sent == sent0 + done
    && |done| <= |script0| && script == script0[|done|..]
    && (var rest := BatchRun(prompt, cvs, |results|, script, decode);
        batch == Batch(done + rest.sent, results + rest.results, rest.failure))
    && store == WriteRows(store0, ResultRows(cvs, results, flatten))
  }

  /** One pass of the loop of `extract_cv_info`, on the values it works with. */
  lemma BatchProgressStep(prompt: string, cvs: seq<CvRow>, decode: Decoder, flatten: Flattener,
                          batch: Batch, sent0: seq<Request>, script0: seq<Outcome>, store0: StoreState,
                          done: seq<Request>, results: seq<Json>,
                          sent: seq<Request>, script: seq<Outcome>, store: StoreState, json: Json)
    requires |results| < |cvs|
    requires BatchProgress(prompt, cvs, decode, flatten, batch, sent0, script0, store0, done, results, sent, script, store)
    requires PipelineRun(prompt, cvs[|results|], DefaultModel, script, decode).result == Success(json)
    ensures var run := PipelineRun(prompt, cvs[|results|], DefaultModel, script, decode);
      BatchProgress(prompt, cvs, decode, flatten, batch, sent0, script0, store0, done + run.sent, results + [json],
                    sent + run.sent, script[|run.sent|..],
                    WriteRow(store, TableRow(cvs[|results|].filename, json, flatten)))
  {
    var run := PipelineRun(prompt, cvs[|results|], DefaultModel, script, decode);
    BatchAdvance(prompt, cvs, |results|, script, decode, batch, done, results);
    Strings.AppendAssoc(sent0, done, run.sent);
    assert script0[|done + run.sent|..] == script[|run.sent|..];
    StoreAdvance(store0, cvs, results, json, flatten);
  }

  /** The loop of `extract_cv_info` stops at an input whose pipeline raised. */
  lemma BatchProgressFailed(prompt: string, cvs: seq<CvRow>, decode: Decoder, flatten: Flattener,
                            batch: Batch, sent0: seq<Request>, script0: seq<Outcome>, store0: StoreState,
                            done: seq<Request>, results: seq<Json>,
                            sent: seq<Request>, script: seq<Outcome>, store: StoreState)
    requires |results| < |cvs|
    requires BatchProgress(prompt, cvs, decode, flatten, batch, sent0, script0, store0, done, results, sent, script, store)
    requires PipelineRun(prompt, cvs[|results|], DefaultModel, script, decode).result.Failure?
    ensures var run := PipelineRun(prompt, cvs[|results|], DefaultModel, script, decode);
      && batch.results == results
      && batch.failure == Some(run.result.error)
      && sent + run.sent == sent0 + batch.sent
      && script[|run.sent|..] == script0[|batch.sent|..]
      && store == WriteRows(store0, ResultRows(cvs, batch.results, flatten))
  {
    var run := PipelineRun(prompt, cvs[|results|], DefaultModel, script, decode);
    BatchAdvance(prompt, cvs, |results|, script, decode, batch, done, results);
    Strings.AppendAssoc(sent0, done, run.sent);
    assert script0[|done + run.sent|..] == script[|run.sent|..];
  }

  /** The loop of `extract_cv_info` ran through every input. */
  lemma BatchProgressFinished(prompt: string, cvs: seq<CvRow>, decode: Decoder, flatten: Flattener,
                              batch: Batch, sent0: seq<Request>, script0: seq<Outcome>, store0: StoreState,
                              done: seq<Request>, results: seq<Json>,
                              sent: seq<Request>, script: seq<Outcome>, store: StoreState)
    requires |results| == |cvs|
    requires BatchProgress(prompt, cvs, decode, flatten, batch, sent0, script0, store0, done, results, sent, script, store)
    ensures && batch.results == results
            && batch.failure == None
            && sent == sent0 + batch.sent
            && script == script0[|batch.sent|..]
            && store == WriteRows(store0, ResultRows(cvs, batch.results, flatten))
  {
    assert done + [] == done && results + [] == results;
  }

  /** One more returned input adds its row to the store. */
  lemma StoreAdvance(store: StoreState, cvs: seq<CvRow>, results: seq<Json>, json: Json, flatten: Flattener)
    requires |results| < |cvs|
    ensures WriteRows(store, ResultRows(cvs, results + [json], flatten))
         == WriteRow(WriteRows(store, ResultRows(cvs, results, flatten)),
                     TableRow(cvs[|results|].filename, json, flatten))
  {
    ResultRowsSnoc(cvs, results, json, flatten);
    WriteRowsSnoc(store, ResultRows(cvs, results, flatten), TableRow(cvs[|results|].filename, json, flatten));
  }

  lemma ResultRowsSnoc(cvs: seq<CvRow>, results: seq<Json>, json: Json, flatten: Flattener)
    requires |results| < |cvs|
    ensures ResultRows(cvs, results + [json], flatten)
         == ResultRows(cvs, results, flatten) + [TableRow(cvs[|results|].filename, json, flatten)]
  {
  }

  /**
   * `CVsInfoExtractor`: the substituted prompt, the input table with its
   * `CV_Info_Json` column (None until assigned), the provider, and the CSV store.
   */
  class CVsInfoExtractor {
    var cvs: seq<CvRow>
    var cvInfoJson: Option<seq<Json>>
    const prompt: string
    const provider: ScriptedProvider
    const decode: Decoder
    const flatten: Flattener
    var csvExists: bool
    var csvHeader: seq<string>
    var csvRows: seq<Row>

    function Store(): StoreState
      reads this
    {
      StoreState(csvExists, csvHeader, csvRows)
    }

    ghost predicate Valid()
      reads this
    {
      WellFormed(Store())
    }

    /** `__init__`: the prompt is built once, from the bundled prompt and the desired positions. */
    constructor (cvs: seq<CvRow>, basePrompt: string, desiredPositions: seq<string>, provider: ScriptedProvider,
                 decode: Decoder, flatten: Flattener, store: StoreState)
      requires WellFormed(store)
      ensures Valid()
      ensures this.cvs == cvs && cvInfoJson == None
      ensures prompt == SubstituteDesiredPositions(basePrompt, desiredPositions)
      ensures this.provider == provider && this.decode == decode && this.flatten == flatten
      ensures Store() == store
    {
      this.cvs := cvs;
      cvInfoJson := None;
      prompt := SubstituteDesiredPositions(basePrompt, desiredPositions);
      this.provider := provider;
      this.decode := decode;
      this.flatten := flatten;
      csvExists, csvHeader, csvRows := store.present, store.header, store.rows;
    }

    /**
     * `_call_gpt_for_cv_info_extraction`: one two-message request at the given
     * model and temperature, then the result mapping of `ExtractionResult`
     * (`CallResult`).
     */
    method CallGptForCvInfoExtraction(prompt: string, cvContent: string, model: string, temperature: real)
      returns (r: Result<Json, Failure>)
      modifies provider
      ensures old(provider.script) == [] ==>
        r == Failure(ScriptExhausted) && provider.script == [] && provider.sent == old(provider.sent)
      ensures old(provider.script) != [] ==>
        && provider.sent == old(provider.sent) + [ChatRequest(model, prompt, cvContent, temperature)]
        && provider.script == old(provider.script)[1..]
        && r == CallResult(old(provider.script)[0], decode)
    {
      var outcome := provider.Create(ChatRequest(model, prompt, cvContent, temperature));
      match outcome
      case None =>
        r := Failure(ScriptExhausted);
      case Some(Raised(error)) =>
        r := Failure(ProviderRaised(error));
      case Some(Answered(response)) =>
        r := ExtractionResult(response, decode);
    }

    /** `_write_response_to_file`. */
    method WriteResponseToFile(df: Row)
      requires Valid()
      modifies this
      ensures Valid()
      ensures Store() == WriteRow(old(Store()), df)
      ensures cvs == old(cvs) && cvInfoJson == old(cvInfoJson)
    {
      var append := csvExists;
      if append {
        csvRows := csvRows + [df];
      } else {
        csvHeader := Columns(df);
        csvRows := [df];
        csvExists := true;
      }
    }

    /**
     * `_gpt_pipeline`: attempts until one does not raise `InvalidRequestError`;
     * a successful attempt writes exactly one row; one that raises, in the
     * call or in `pd.json_normalize`, writes nothing.
     */
    method GptPipeline(row: CvRow, model: string) returns (r: Result<Json, Failure>)
      requires Valid()
      modifies this, provider
      ensures Valid()
      ensures var run := PipelineRun(prompt, row, model, old(provider.script), decode);
        && r == run.result
        && provider.sent == old(provider.sent) + run.sent
        && provider.script == old(provider.script)[|run.sent|..]
      ensures Store() == if r.Success?
                         then WriteRow(old(Store()), TableRow(row.filename, r.value, flatten))
                         else old(Store())
      ensures cvs == old(cvs) && cvInfoJson == old(cvInfoJson)
    {
      var currentModel := model;
      ghost var run0 := PipelineRun(prompt, row, model, provider.script, decode);
      ghost var sentBefore := provider.sent;
      ghost var scriptBefore := provider.script;
      ghost var done: seq<Request> := [];
      while true
        invariant Valid() && Store() == old(Store())
        invariant cvs == old(cvs) && cvInfoJson == old(cvInfoJson)
        invariant provider.sent == sentBefore + done
        invariant |done| <= |scriptBefore| && provider.script == scriptBefore[|done|..]
        invariant var run := PipelineRun(prompt, row, currentModel, provider.script, decode);
          run0.sent == done + run.sent && run0.result == run.result
        decreases |provider.script|
      {
        ghost var script := provider.script;
        ghost var run := PipelineRun(prompt, row, currentModel, script, decode);
        var result := CallGptForCvInfoExtraction(prompt, row.content, currentModel, 0.0);
        if result.Failure? && result.error.ProviderRaised? && result.error.error.InvalidRequestError? {
          assert script != [] && IsInvalidRequest(script[0]);
          ghost var request := ChatRequest(currentModel, prompt, row.content, 0.0);
          ghost var retry := PipelineRun(prompt, row, FallbackModel, script[1..], decode);
          assert run.sent == [request] + retry.sent;
          Strings.AppendAssoc(done, [request], retry.sent);
          Strings.AppendAssoc(sentBefore, done, [request]);
          assert scriptBefore[|done| + 1..] == script[1..];
          done := done + [request];
          currentModel := FallbackModel;
          continue;
        }
        assert provider.sent == sentBefore + (done + run.sent) by {
          if script != [] {
            Strings.AppendAssoc(sentBefore, done, run.sent);
          }
        }
        assert provider.script == scriptBefore[|done + run.sent|..];
        if result.Failure? {
          return result;
        }
        var df := NormalizeGptJsonResponse(row.filename, result.value, flatten);
        if df.None? {
          return Failure(NotTabular);
        }
        WriteResponseToFile(df.value);
        return result;
      }
    }

    /**
     * `extract_cv_info`: the pipeline over every input row in order; the
     * `CV_Info_Json` column is assigned only when every row returned.
     */
    method ExtractCvInfo() returns (failure: Option<Failure>)
      requires Valid()
      modifies this, provider
      ensures Valid()
      ensures var batch := BatchRun(prompt, old(cvs), 0, old(provider.script), decode);
        && |batch.results| <= |old(cvs)|
        && failure == batch.failure
        && provider.sent == old(provider.sent) + batch.sent
        && provider.script == old(provider.script)[|batch.sent|..]
        && Store() == WriteRows(old(Store()), ResultRows(old(cvs), batch.results, flatten))
        && cvInfoJson == if batch.failure.None? then Some(batch.results) else old(cvInfoJson)
      ensures cvs == old(cvs)
    {
      ghost var batch0 := BatchRun(prompt, cvs, 0, provider.script, decode);
      ghost var sent0 := provider.sent;
      ghost var script0 := provider.script;
      ghost var store0 := Store();
      ghost var done: seq<Request> := [];
      var results: seq<Json> := [];
      var i := 0;
      assert batch0 == Batch([] + batch0.sent, [] + batch0.results, batch0.failure);
      while i < |cvs|
        invariant i == |results| && Valid() && cvs == old(cvs) && cvInfoJson == old(cvInfoJson)
        invariant BatchProgress(prompt, cvs, decode, flatten, batch0, sent0, script0, store0,
                                done, results, provider.sent, provider.script, Store())
      {
        ghost var sent := provider.sent;
        ghost var script := provider.script;
        ghost var store := Store();
        ghost var run := PipelineRun(prompt, cvs[i], DefaultModel, script, decode);
        var r := GptPipeline(cvs[i], DefaultModel);
        if r.Failure? {
          BatchProgressFailed(prompt, cvs, decode, flatten, batch0, sent0, script0, store0,
                              done, results, sent, script, store);
          return Some(r.error);
        }
        BatchProgressStep(prompt, cvs, decode, flatten, batch0, sent0, script0, store0,
                          done, results, sent, script, store, r.value);
        done := done + run.sent;
        results := results + [r.value];
        i := i + 1;
      }
      BatchProgressFinished(prompt, cvs, decode, flatten, batch0, sent0, script0, store0,
                            done, results, provider.sent, provider.script, Store());
      cvInfoJson := Some(results);
      failure := None;
    }
  }
}
