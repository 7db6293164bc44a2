/**
 * backend/app/api/endpoints.py: the routes that reach the model manager. A raised
 * `HTTPException` is an `HttpError` response; the formatting of the confidence is
 * a parameter `formatConfidence`.
 */
module Endpoints {
  import opened Wrappers
  import opened Strings
  import opened Helpers
  import opened Config
  import opened Schemas
  import opened ModelManager

  /** What a route hands back: a body, an HTTP error, or a request rejected by validation. */
  datatype Response<T> = Ok(body: T) | HttpError(status: int, detail: string) | Unprocessable(error: ValidationError)

  const NotReadyDetail := "Model not loaded. Please try again in a moment."
  const StartingUpDetail := "Model not loaded. Service is starting up."

  /** The text of the validation exception when a result record is refused. */
  function ValidationMessage(e: ValidationError): string {
    match e
    case ConfidenceOutOfRange => "confidence: value must lie between 0.0 and 1.0"
    case _ => "validation error"
  }

  // ---------------------------------------------------------------- one text

  /**
   * The body of the `try` block for one validated text: normalise, predict, and
   * build the result record around the text as received.
   */
  function AnalyzeOne(st: ManagerState, s: Settings, rt: Runtime, formatConfidence: real -> real, text: string)
    : Result<SentimentResult, string>
  {
    match Predict(st, s, rt, PreprocessText(text))
    case Failure(e) => Failure(PredictErrorMessage(e))
    case Success((sentiment, confidence)) =>
      match MakeSentimentResult(text, sentiment, formatConfidence(confidence))
      case Failure(e) => Failure(ValidationMessage(e))
      case Success(r) => Success(r)
  }

  /**
   * On a ready manager a result keeps the text as received, carries one of the two
   * labels and a confidence in [0, 1], and exists exactly when the prediction of the
   * normalised text succeeds with a formatted confidence in range.
   */
  lemma AnalyzeOneResult(st: ManagerState, s: Settings, rt: Runtime, formatConfidence: real -> real, text: string)
    ensures var r := AnalyzeOne(st, s, rt, formatConfidence, text);
      var p := Predict(st, s, rt, PreprocessText(text));
      && (r.Success? <==> p.Success? && 0.0 <= formatConfidence(p.value.1) <= 1.0)
      && (r.Success? ==>
        && r.value.text == text
        && r.value.sentiment == p.value.0 && r.value.sentiment in Labels
        && r.value.confidence == formatConfidence(p.value.1))
  {
    PredictGuard(st, s, rt, PreprocessText(text));
  }

  /** `POST /analyze` on a validated input: the readiness gate, then the `try` block. */
  function Analyze(st: ManagerState, s: Settings, rt: Runtime, formatConfidence: real -> real, input: TextInput)
    : (r: Response<SentimentResult>)
    ensures !st.Ready() ==> r == HttpError(503, NotReadyDetail)
  {
    if !st.Ready() then HttpError(503, NotReadyDetail)
    else
      match AnalyzeOne(st, s, rt, formatConfidence, input.text)
      case Failure(m) => HttpError(500, "Error analyzing sentiment: " + m)
      case Success(result) => Ok(result)
  }

  /** A ready manager answers 200 with the result for the text, or 500 with the failure's message. */
  lemma AnalyzeWhenReady(st: ManagerState, s: Settings, rt: Runtime, formatConfidence: real -> real, input: TextInput)
    requires st.Ready()
    ensures var r := Analyze(st, s, rt, formatConfidence, input);
      var one := AnalyzeOne(st, s, rt, formatConfidence, input.text);
      && (r.Ok? <==> one.Success?)
      && (r.Ok? ==> r.body == one.value && r.body.text == input.text)
      && (r.HttpError? ==> r.status == 500 && r.detail == "Error analyzing sentiment: " + one.error)
  {
    AnalyzeOneResult(st, s, rt, formatConfidence, input.text);
  }

  // ---------------------------------------------------------------- a batch

  /** The loop of lines 135-150: results for the texts in order, stopping at the first failure. */
  function BatchResults(st: ManagerState, s: Settings, rt: Runtime, formatConfidence: real -> real, texts: seq<string>)
    : Result<seq<SentimentResult>, string>
    decreases |texts|
  {
    if texts == [] then Success([])
    else
      match AnalyzeOne(st, s, rt, formatConfidence, texts[0])
      case Failure(m) => Failure(m)
      case Success(r) =>
        match BatchResults(st, s, rt, formatConfidence, texts[1..])
        case Failure(m) => Failure(m)
        case Success(rs) => Success([r] + rs)
  }

  /** How many texts the loop gets to: up to and including the first that fails. */
  function Attempted(st: ManagerState, s: Settings, rt: Runtime, formatConfidence: real -> real, texts: seq<string>)
    : (n: nat)
    ensures n <= |texts|
    decreases |texts|
  {
    if texts == [] then 0
    else if AnalyzeOne(st, s, rt, formatConfidence, texts[0]).Failure? then 1
    else 1 + Attempted(st, s, rt, formatConfidence, texts[1..])
  }

  /**
   * The batch succeeds exactly when every text does; then there is one result per
   * text, the i-th for the i-th text.
   */
  lemma {:induction false} BatchResultsPointwise(st: ManagerState, s: Settings, rt: Runtime,
    formatConfidence: real -> real, texts: seq<string>)
    ensures var b := BatchResults(st, s, rt, formatConfidence, texts);
      && (b.Success? <==> forall i :: 0 <= i < |texts| ==> AnalyzeOne(st, s, rt, formatConfidence, texts[i]).Success?)
      && (b.Success? ==> (|b.value| == |texts| &&
           forall i :: 0 <= i < |texts| ==> Success(b.value[i]) == AnalyzeOne(st, s, rt, formatConfidence, texts[i])))
    decreases |texts|
  {
    if texts != [] {
      BatchResultsPointwise(st, s, rt, formatConfidence, texts[1..]);
      var b := BatchResults(st, s, rt, formatConfidence, texts);
      var rest := BatchResults(st, s, rt, formatConfidence, texts[1..]);
      forall i | 1 <= i < |texts| ensures texts[i] == texts[1..][i - 1] {}
      if b.Success? {
        assert b.value == [AnalyzeOne(st, s, rt, formatConfidence, texts[0]).value] + rest.value;
        forall i | 0 <= i < |texts|
          ensures Success(b.value[i]) == AnalyzeOne(st, s, rt, formatConfidence, texts[i])
        {
          if i > 0 { assert b.value[i] == rest.value[i - 1]; }
        }
      }
    }
  }

  /**
   * Fail-fast: a failed batch reports the error of the first failing text, and the loop
   * got exactly as far as that text; a successful batch went through every text.
   */
  lemma {:induction false} BatchResultsFirstFailure(st: ManagerState, s: Settings, rt: Runtime,
    formatConfidence: real -> real, texts: seq<string>)
    ensures var b := BatchResults(st, s, rt, formatConfidence, texts);
      var n := Attempted(st, s, rt, formatConfidence, texts);
      && (b.Success? ==> n == |texts|)
      && (b.Failure? ==> (0 < n
           && AnalyzeOne(st, s, rt, formatConfidence, texts[n - 1]) == Failure(b.error)
           && forall i :: 0 <= i < n - 1 ==> AnalyzeOne(st, s, rt, formatConfidence, texts[i]).Success?))
    decreases |texts|
  {
    if texts != [] {
      BatchUnfold(st, s, rt, formatConfidence, texts);
      if AnalyzeOne(st, s, rt, formatConfidence, texts[0]).Success? {
        BatchResultsFirstFailure(st, s, rt, formatConfidence, texts[1..]);
        forall i | 1 <= i < |texts| ensures texts[i] == texts[1..][i - 1] {}
      }
    }
  }

  /** `POST /analyze/batch` on a validated input: the readiness gate, the loop, and `total == len(results)`. */
  function AnalyzeBatch(st: ManagerState, s: Settings, rt: Runtime, formatConfidence: real -> real, input: BatchTextInput)
    : (r: Response<BatchSentimentResult>)
    ensures !st.Ready() ==> r == HttpError(503, NotReadyDetail)
    ensures r.Ok? ==> r.body.total == |r.body.results| == |input.texts|
  {
    if !st.Ready() then HttpError(503, NotReadyDetail)
    else
      BatchResultsPointwise(st, s, rt, formatConfidence, input.texts);
      match BatchResults(st, s, rt, formatConfidence, input.texts)
      case Failure(m) => HttpError(500, "Error analyzing batch sentiment: " + m)
      case Success(results) => Ok(BatchSentimentResult(results, |results|))
  }

  /**
   * On a ready manager the batch answers 200 with the i-th result for the i-th text
   * when every text succeeds, and otherwise 500 with no partial results.
   */
  lemma AnalyzeBatchWhenReady(st: ManagerState, s: Settings, rt: Runtime, formatConfidence: real -> real,
    input: BatchTextInput)
    requires st.Ready()
    ensures var r := AnalyzeBatch(st, s, rt, formatConfidence, input);
      var texts := input.texts;
      && (r.Ok? <==> forall i :: 0 <= i < |texts| ==> AnalyzeOne(st, s, rt, formatConfidence, texts[i]).Success?)
      && (r.Ok? ==> forall i :: 0 <= i < |texts| ==>
            Success(r.body.results[i]) == AnalyzeOne(st, s, rt, formatConfidence, texts[i])
            && r.body.results[i].text == texts[i])
      && (!r.Ok? ==> r.HttpError? && r.status == 500)
  {
    var texts := input.texts;
    BatchResultsPointwise(st, s, rt, formatConfidence, texts);
    var r := AnalyzeBatch(st, s, rt, formatConfidence, input);
    if r.Ok? {
      forall i | 0 <= i < |texts| ensures r.body.results[i].text == texts[i] {
        AnalyzeOneResult(st, s, rt, formatConfidence, texts[i]);
      }
    }
  }

  /** The texts the loop hands to the predictor: the first `n`, each normalised. */
  function Normalised(texts: seq<string>): (r: seq<string>)
    ensures |r| == |texts|
    ensures forall i :: 0 <= i < |texts| ==> r[i] == PreprocessText(texts[i])
  {
    seq(|texts|, i requires 0 <= i < |texts| => PreprocessText(texts[i]))
  }

  // ---------------------------------------------------------------- the routes

  /** Lines 92-116: `analyze_sentiment`; the predictor sees the normalised text, and only when ready. */
  method AnalyzeSentiment(mm: ModelManager, s: Settings, rt: Runtime, formatConfidence: real -> real, input: TextInput)
    returns (r: Response<SentimentResult>)
    modifies mm`classified
    ensures r == Analyze(mm.State(), s, rt, formatConfidence, input)
    ensures mm.classified == old(mm.classified) + (if mm.IsReady() then [PreprocessText(input.text)] else [])
  {
    if !mm.IsReady() {
      return HttpError(503, NotReadyDetail);
    }
    var processed := PreprocessText(input.text);
    var p := mm.PredictSentiment(s, rt, processed);
    if p.Failure? {
      return HttpError(500, "Error analyzing sentiment: " + PredictErrorMessage(p.error));
    }
    var (sentiment, confidence) := p.value;
    var result := MakeSentimentResult(input.text, sentiment, formatConfidence(confidence));
    if result.Failure? {
      return HttpError(500, "Error analyzing sentiment: " + ValidationMessage(result.error));
    }
    r := Ok(result.value);
  }

  /** Prefixing already-built results onto the outcome of the remaining texts. */
  function Prepend(done: seq<SentimentResult>, rest: Result<seq<SentimentResult>, string>)
    : Result<seq<SentimentResult>, string>
  {
    match rest
    case Failure(m) => Failure(m)
    case Success(rs) => Success(done + rs)
  }

  /** One turn of the loop, as `BatchResults` and `Attempted` see it. */
  lemma BatchUnfold(st: ManagerState, s: Settings, rt: Runtime, formatConfidence: real -> real, rest: seq<string>)
    requires rest != []
    ensures var one := AnalyzeOne(st, s, rt, formatConfidence, rest[0]);
      && (one.Failure? ==>
           BatchResults(st, s, rt, formatConfidence, rest) == Failure(one.error)
           && Attempted(st, s, rt, formatConfidence, rest) == 1)
      && (one.Success? ==>
           BatchResults(st, s, rt, formatConfidence, rest) == Prepend([one.value], BatchResults(st, s, rt, formatConfidence, rest[1..]))
           && Attempted(st, s, rt, formatConfidence, rest) == 1 + Attempted(st, s, rt, formatConfidence, rest[1..]))
  {
  }

  lemma PrependNothing(rest: Result<seq<SentimentResult>, string>)
    ensures Prepend([], rest) == rest
  {
    if rest.Success? {
      assert [] + rest.value == rest.value;
    }
  }

  lemma PrependPrepend(a: seq<SentimentResult>, b: seq<SentimentResult>, rest: Result<seq<SentimentResult>, string>)
    ensures Prepend(a, Prepend(b, rest)) == Prepend(a + b, rest)
  {
    if rest.Success? {
      assert a + (b + rest.value) == (a + b) + rest.value;
    }
  }

  lemma NormalisedSnoc(texts: seq<string>, i: nat)
    requires i < |texts|
    ensures Normalised(texts[..i + 1]) == Normalised(texts[..i]) + [PreprocessText(texts[i])]
  {
  }

  /**
   * Lines 134-150: the loop over the validated texts. The predictor is called once per
   * text, in order, on the normalised text, up to the first failure.
   */
  method BatchLoop(mm: ModelManager, s: Settings, rt: Runtime, formatConfidence: real -> real, texts: seq<string>)
    returns (res: Result<seq<SentimentResult>, string>)
    requires mm.IsReady()
    modifies mm`classified
    ensures res == BatchResults(mm.State(), s, rt, formatConfidence, texts)
    ensures mm.classified == old(mm.classified) + Normalised(texts[..Attempted(mm.State(), s, rt, formatConfidence, texts)])
  {
    ghost var st := mm.State();
    var results: seq<SentimentResult> := [];
    var i := 0;
    assert texts[i..] == texts && texts[..i] == [];
    PrependNothing(BatchResults(st, s, rt, formatConfidence, texts));
    while i < |texts|
      invariant 0 <= i <= |texts|
      invariant mm.State() == st
      invariant BatchResults(st, s, rt, formatConfidence, texts) == Prepend(results, BatchResults(st, s, rt, formatConfidence, texts[i..]))
      invariant Attempted(st, s, rt, formatConfidence, texts) == i + Attempted(st, s, rt, formatConfidence, texts[i..])
      invariant mm.classified == old(mm.classified) + Normalised(texts[..i])
    {
      var text := texts[i];
      ghost var one := AnalyzeOne(st, s, rt, formatConfidence, text);
      BatchUnfold(st, s, rt, formatConfidence, texts[i..]);
      NormalisedSnoc(texts, i);
      var processed := PreprocessText(text);
      var p := mm.PredictSentiment(s, rt, processed);
      if p.Failure? {
        assert one == Failure(PredictErrorMessage(p.error));
        return Failure(PredictErrorMessage(p.error));
      }
      var (sentiment, confidence) := p.value;
      var result := MakeSentimentResult(text, sentiment, formatConfidence(confidence));
      if result.Failure? {
        assert one == Failure(ValidationMessage(result.error));
        return Failure(ValidationMessage(result.error));
      }
      assert one == Success(result.value);
      assert texts[i..][1..] == texts[i + 1..];
      PrependPrepend(results, [result.value], BatchResults(st, s, rt, formatConfidence, texts[i + 1..]));
      results := results + [result.value];
      i := i + 1;
    }
    assert texts[..i] == texts;
    assert results + [] == results;
    res := Success(results);
  }

  /** Lines 119-162: `analyze_batch_sentiment`: the readiness gate, the loop, and the 500 on any failure. */
  method AnalyzeBatchSentiment(mm: ModelManager, s: Settings, rt: Runtime, formatConfidence: real -> real,
    input: BatchTextInput)
    returns (r: Response<BatchSentimentResult>)
    modifies mm`classified
    ensures r == AnalyzeBatch(mm.State(), s, rt, formatConfidence, input)
    ensures mm.classified == old(mm.classified) +
      (if mm.IsReady() then Normalised(input.texts[..Attempted(mm.State(), s, rt, formatConfidence, input.texts)]) else [])
  {
    if !mm.IsReady() {
      return HttpError(503, NotReadyDetail);
    }
    var res := BatchLoop(mm, s, rt, formatConfidence, input.texts);
    if res.Failure? {
      return HttpError(500, "Error analyzing batch sentiment: " + res.error);
    }
    r := Ok(BatchSentimentResult(res.value, |res.value|));
  }

  /**
   * Lines 59-80: `health_check`. 503 unless ready; otherwise healthy, on the device the
   * model information names, with the system information passed through.
   */
  function HealthCheck(mm: ModelManager, s: Settings, rt: Runtime, systemInfo: SystemInfo)
    : (r: Response<HealthResponse>)
    reads mm
    ensures r.Ok? <==> mm.IsReady()
    ensures !mm.IsReady() ==> r == HttpError(503, StartingUpDetail)
    ensures r.Ok? ==> r.body.status == "healthy" && r.body.modelLoaded && r.body.systemInfo == Some(systemInfo)
    ensures r.Ok? ==> r.body.device == (if mm.device.Some? then mm.device.value else "None")
  {
    if !mm.IsReady() then HttpError(503, StartingUpDetail)
    else
      var info := mm.GetModelInfo(s, rt);
      Ok(HealthResponse("healthy", info.device.GetOr("unknown"), true, Some(systemInfo)))
  }

  /** Lines 165-173: `/models/info` returns the manager's info unchanged and never answers with an error, ready or not. */
  function ModelsInfo(mm: ModelManager, s: Settings, rt: Runtime): (r: Response<ModelInfo>)
    reads mm
    ensures r.Ok? && r.body == mm.GetModelInfo(s, rt)
    ensures r.body.status == (if mm.model.Some? then "loaded" else "not_loaded")
    ensures mm.State().Valid() ==> (r.body.status == "loaded" <==> mm.IsReady())
  {
    Ok(mm.GetModelInfo(s, rt))
  }

  /**
   * A request to `POST /analyze` with a raw body: validation, which answers 422,
   * comes before the readiness gate.
   */
  method HandleAnalyze(mm: ModelManager, s: Settings, rt: Runtime, formatConfidence: real -> real, text: string)
    returns (r: Response<SentimentResult>)
    modifies mm`classified
    ensures ValidateTextInput(text).Failure? ==> r == Unprocessable(ValidateTextInput(text).error) && mm.classified == old(mm.classified)
    ensures ValidateTextInput(text).Success? ==> r == Analyze(mm.State(), s, rt, formatConfidence, ValidateTextInput(text).value)
  {
    var v := ValidateTextInput(text);
    if v.Failure? {
      return Unprocessable(v.error);
    }
    r := AnalyzeSentiment(mm, s, rt, formatConfidence, v.value);
  }

  /** A request to `POST /analyze/batch` with a raw list: validation first, then the route. */
  method HandleAnalyzeBatch(mm: ModelManager, s: Settings, rt: Runtime, formatConfidence: real -> real, texts: seq<string>)
    returns (r: Response<BatchSentimentResult>)
    modifies mm`classified
    ensures ValidateBatchTextInput(texts).Failure? ==>
      r == Unprocessable(ValidateBatchTextInput(texts).error) && mm.classified == old(mm.classified)
    ensures ValidateBatchTextInput(texts).Success? ==>
      r == AnalyzeBatch(mm.State(), s, rt, formatConfidence, ValidateBatchTextInput(texts).value)
  {
    var v := ValidateBatchTextInput(texts);
    if v.Failure? {
      return Unprocessable(v.error);
    }
    r := AnalyzeBatchSentiment(mm, s, rt, formatConfidence, v.value);
  }
}
