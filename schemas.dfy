/**
 * backend/app/schemas/sentiment.py: the request validators and the response records.
 * Field bounds are checked on the raw value first, then the custom validator runs.
 */
module Schemas {
  import opened Wrappers
  import opened Strings

  const TextMinLength: nat := 1
  const TextMaxLength: nat := 5000
  const BatchMinItems: nat := 1
  const BatchMaxItems: nat := 50

  datatype ValidationError =
    | StringTooShort(minLength: nat)   // Field(min_length=...)
    | StringTooLong(maxLength: nat)    // Field(max_length=...)
    | TextBlank                        // 'Text cannot be empty or whitespace only'
    | ListTooShort(minItems: nat)      // Field(min_items=...)
    | ListTooLong(maxItems: nat)       // Field(max_items=...)
    | TextsListEmpty                   // 'Texts list cannot be empty'
    | AllTextsEmpty                    // 'All texts are empty'
    | ConfidenceOutOfRange             // Field(ge=0.0, le=1.0)

  /** A validated single input; `text` is the stripped text. */
  datatype TextInput = TextInput(text: string)

  /** A validated batch; `texts` holds the stripped, non-blank items. */
  datatype BatchTextInput = BatchTextInput(texts: seq<string>)

  datatype SentimentResult = SentimentResult(text: string, sentiment: string, confidence: real)

  datatype BatchSentimentResult = BatchSentimentResult(results: seq<SentimentResult>, total: int)

  /** What `get_system_info` reports; its contents are not modelled. */
  type SystemInfo = map<string, string>

  datatype HealthResponse = HealthResponse(
    status: string, device: string, modelLoaded: bool, systemInfo: Option<SystemInfo>)

  datatype ModelInfo = ModelInfo(
    status: string,
    modelName: Option<string>,
    tokenizerName: Option<string>,
    device: Option<string>,
    maxSequenceLength: Option<int>,
    parameters: Option<int>)

  // ---------------------------------------------------------------- TextInput

  /** A non-empty text with no whitespace at either end. */
  predicate IsCleanText(s: string) {
    s != [] && IsStripped(s)
  }


  /** The `text_not_empty` validator: rejects blank text, otherwise returns it stripped. */
  function TextNotEmpty(v: string): (r: Result<string, ValidationError>)
    ensures r.Success? <==> !AllSpace(v)
    ensures r.Success? ==> IsCleanText(r.value) && r.value == Strip(v)
    ensures r.Failure? ==> r.error == TextBlank
  {
    if Strip(v) == [] then Failure(TextBlank) else Success(Strip(v))
  }

  /** Building a `TextInput` from the raw request field. */
  function ValidateTextInput(text: string): (r: Result<TextInput, ValidationError>)
    ensures r.Success? <==> TextMinLength <= |text| <= TextMaxLength && !AllSpace(text)
    ensures r.Success? ==> r.value.text == Strip(text)
    ensures |text| < TextMinLength ==> r == Failure(StringTooShort(TextMinLength))
    ensures |text| > TextMaxLength ==> r == Failure(StringTooLong(TextMaxLength))
    ensures TextMinLength <= |text| <= TextMaxLength && AllSpace(text) ==> r == Failure(TextBlank)
  {
    if |text| < TextMinLength then Failure(StringTooShort(TextMinLength))
    else if |text| > TextMaxLength then Failure(StringTooLong(TextMaxLength))
    else match TextNotEmpty(text)
      case Failure(e) => Failure(e)
      case Success(t) => Success(TextInput(t))
  }

  /** The stored text is stripped, non-empty and no longer than the raw text. */
  lemma ValidatedTextIsStripped(text: string)
    requires ValidateTextInput(text).Success?
    ensures var t := ValidateTextInput(text).value.text;
      IsCleanText(t) && |t| <= |text|
  {
    var _ := StripSlice(text);
  }

  // ---------------------------------------------------------------- BatchTextInput

  /** `[text.strip() for text in v if text.strip()]` */
  function CleanTexts(v: seq<string>): (cleaned: seq<string>)
    ensures |cleaned| <= |v|
    ensures forall i :: 0 <= i < |cleaned| ==> IsCleanText(cleaned[i])
  {
    if v == [] then []
    else (if Strip(v[0]) == [] then [] else [Strip(v[0])]) + CleanTexts(v[1..])
  }

  /** Number of items that are not blank. */
  function CountNonBlank(v: seq<string>): nat {
    if v == [] then 0 else (if AllSpace(v[0]) then 0 else 1) + CountNonBlank(v[1..])
  }

  /** Cleaning works item by item and keeps the order: it distributes over concatenation. */
  lemma {:induction false} CleanTextsAppend(a: seq<string>, b: seq<string>)
    ensures CleanTexts(a + b) == CleanTexts(a) + CleanTexts(b)
    decreases |a|
  {
    if a == [] {
      assert a + b == b;
    } else {
      assert (a + b)[1..] == a[1..] + b;
      CleanTextsAppend(a[1..], b);
    }
  }

  /** One item is kept, stripped, exactly when it is not blank. */
  lemma CleanTextsSingle(t: string)
    ensures CleanTexts([t]) == if AllSpace(t) then [] else [Strip(t)]
  {
    assert [t][1..] == [];
  }

  /** One output per non-blank input; none at all exactly when every item is blank. */
  lemma {:induction false} CleanTextsCount(v: seq<string>)
    ensures |CleanTexts(v)| == CountNonBlank(v)
    ensures CleanTexts(v) == [] <==> forall i :: 0 <= i < |v| ==> AllSpace(v[i])
  {
    if v != [] {
      CleanTextsCount(v[1..]);
      assert forall i :: 1 <= i < |v| ==> v[i] == v[1..][i - 1];
    }
  }

  /** Items that are already stripped and non-blank pass through unchanged. */
  lemma {:induction false} CleanTextsOfClean(v: seq<string>)
    requires forall i :: 0 <= i < |v| ==> IsCleanText(v[i])
    ensures CleanTexts(v) == v
  {
    if v != [] {
      StripOfStripped(v[0]);
      CleanTextsOfClean(v[1..]);
    }
  }

  /** The `texts_not_empty` validator. */
  function TextsNotEmpty(v: seq<string>): (r: Result<seq<string>, ValidationError>)
    ensures v == [] ==> r == Failure(TextsListEmpty)
    ensures v != [] && (forall i :: 0 <= i < |v| ==> AllSpace(v[i])) ==> r == Failure(AllTextsEmpty)
    ensures r.Success? <==> exists i :: 0 <= i < |v| && !AllSpace(v[i])
    ensures r.Success? ==> r.value == CleanTexts(v) && 0 < |r.value| <= |v|
  {
    CleanTextsCount(v);
    if v == [] then Failure(TextsListEmpty)
    else
      var cleaned := CleanTexts(v);
      if cleaned == [] then Failure(AllTextsEmpty) else Success(cleaned)
  }

  /** Building a `BatchTextInput`: bounds on the number of items only, then the validator. */
  function ValidateBatchTextInput(texts: seq<string>): (r: Result<BatchTextInput, ValidationError>)
    ensures r.Success? <==>
      BatchMinItems <= |texts| <= BatchMaxItems && exists i :: 0 <= i < |texts| && !AllSpace(texts[i])
    ensures r.Success? ==> r.value.texts == CleanTexts(texts)
    ensures |texts| < BatchMinItems ==> r == Failure(ListTooShort(BatchMinItems))
    ensures |texts| > BatchMaxItems ==> r == Failure(ListTooLong(BatchMaxItems))
    ensures r != Failure(TextsListEmpty)
  {
    if |texts| < BatchMinItems then Failure(ListTooShort(BatchMinItems))
    else if |texts| > BatchMaxItems then Failure(ListTooLong(BatchMaxItems))
    else match TextsNotEmpty(texts)
      case Failure(e) => Failure(e)
      case Success(cleaned) => Success(BatchTextInput(cleaned))
  }

  /** There is no bound on the length of a batch item: any single non-blank item is accepted. */
  lemma BatchItemLengthUnbounded(t: string)
    ensures ValidateBatchTextInput([t]).Success? <==> !AllSpace(t)
  {
  }

  // ---------------------------------------------------------------- SentimentResult

  /** Constructing a `SentimentResult`: `confidence` must lie in [0.0, 1.0]. */
  function MakeSentimentResult(text: string, sentiment: string, confidence: real)
    : (r: Result<SentimentResult, ValidationError>)
    ensures r.Success? <==> 0.0 <= confidence <= 1.0
    ensures r.Success? ==> r.value.text == text && r.value.sentiment == sentiment && r.value.confidence == confidence
    ensures r.Failure? ==> r.error == ConfidenceOutOfRange
  {
    if 0.0 <= confidence <= 1.0 then Success(SentimentResult(text, sentiment, confidence))
    else Failure(ConfidenceOutOfRange)
  }
}
