# Sentiment-analysis backend: a Dafny model of the request core

This project models the core of a small HTTP service that classifies text as
POSITIVE or NEGATIVE with a pretrained DistilBERT model, and proves properties of
that model. The neural network is a foreign call. What is modelled is the
sequential logic around it:

- the per-client sliding-window rate limiter (`RateLimiter`);
- the singleton model manager. It loads tokenizer and model one step at a time,
  derives readiness from its fields, and guards prediction (`ModelManager`);
- the routes `/analyze`, `/analyze/batch`, `/health` and `/models/info` (`Endpoints`);
- text normalisation before prediction (`Helpers`), over Python's `str.strip`,
  `str.split` and `str.join` (`Strings`);
- the request validators and the response records (`Schemas`);
- the settings the core reads and the CORS origin list (`Config`).

Layout: one module per source file, plus `Wrappers` (`Option`, `Result`, `Outcome`)
and `Strings`. State that the source changes in place is a class:
- `RateLimiter.RateLimiter` holds a `map<Client, seq<int>>`;
- `ModelManager.ModelManager` holds `tokenizer`, `model`, `device` and `initialized`;
- `ModelManager.ModelManagerClass` holds the singleton's `_instance`.

Each state-changing method is proved against a pure function of the old state:
- `Dispatch` against `Step`;
- `LoadModel` against `Load` and `Fetches`;
- `PredictSentiment` against `Predict`;
- the routes against `Analyze` and `AnalyzeBatch`.

The lemmas are stated about those functions.

Two ghost logs on the manager record what the foreign code was asked to do:
- `fetched` holds the artifact names given to `from_pretrained`. It shows "no reload".
- `classified` holds the texts handed to the classifier. It shows "once per item, in order".

Foreign calls and inputs from the environment are parameters:
- A `Runtime` value holds the torch/transformers calls as functions that may fail:
  - `cudaAvailable`, `deviceError` and `loadTokenizer`;
  - `loadModel`, `moveModel` and `evalError`;
  - `classify`, which stands for tokenising, the forward pass and softmax;
  - `parameterCount`.
- `Settings` carries the configuration.
- The limiter receives `now` in whole seconds in place of `time()`.
- The routes receive `formatConfidence`, standing for `format_confidence`, and
  `systemInfo`, standing for `get_system_info()`.

Whitespace is the fixed set space, `\t`, `\n`, `\r`, `\x0b`, `\x0c`.

## Model

| member | source | states |
|---|---|---|
| `Strings.Strip` | backend/app/utils/helpers.py:33 | `str.strip()`: the result has no whitespace at either end, and is empty exactly when the input is all whitespace |
| `Strings.StripSlice` | backend/app/utils/helpers.py:33 | the stripped text is a contiguous slice of the input with only whitespace before and after it |
| `Strings.StripOfStripped` | backend/app/schemas/sentiment.py:13 | stripping a text without whitespace at its ends returns it unchanged |
| `Strings.Words` | backend/app/utils/helpers.py:36 | `str.split()` yields only non-empty, whitespace-free words |
| `Strings.WordsEmptyIff` | backend/app/utils/helpers.py:36 | `split()` is empty exactly when the text is all whitespace |
| `Strings.WordsAppendSpaces` | backend/app/utils/helpers.py:36 | trailing whitespace does not change `split()` |
| `Strings.WordsStrip` | backend/app/utils/helpers.py:33-36 | `s.strip().split() == s.split()` |
| `Strings.WordsOfJoin` | backend/app/utils/helpers.py:36 | splitting a single-space join of words gives back the words |
| `Strings.NonSpaceWords` | backend/app/utils/helpers.py:36 | the words of a text hold exactly its non-whitespace characters, in order |
| `Strings.NonSpaceOfJoin` | backend/app/utils/helpers.py:36 | joining words with spaces adds only whitespace |
| `Strings.Join` | backend/app/utils/helpers.py:36 | `sep.join(ws)`; its properties are stated by `Strings.WordsOfJoin`, `Strings.NonSpaceOfJoin`, `Strings.JoinSplitOn` and `Helpers.JoinWordsNormalized` |
| `Strings.SplitOn` | backend/app/core/config.py:43 | `split(",")` gives one more piece than there are commas, and no piece contains a comma |
| `Strings.SplitOnWithoutSep` | backend/app/core/config.py:43 | a string without a comma splits into itself alone |
| `Strings.JoinSplitOn` | backend/app/core/config.py:43 | joining the pieces with commas gives back the string |
| `Strings.NatToString` | backend/app/middleware/rate_limiter.py:35 | `str(n)` is a non-empty run of decimal digits, longer than one digit exactly when `n >= 10` |
| `Strings.IntToString` | backend/app/middleware/rate_limiter.py:35 | `str(i)` is non-empty and starts with `-` exactly for negative numbers |
| `Strings.NatToStringValue` | backend/app/middleware/rate_limiter.py:35 | reading the digits of `str(n)` back gives `n` |
| `Helpers.PreprocessText` | backend/app/utils/helpers.py:30-38 | `preprocess_text`: strip, then re-join the words with single spaces; its properties are stated by the `Helpers.Preprocess…` and `Helpers.Normalized…` lemmas below |
| `Helpers.JoinWordsNormalized` | backend/app/utils/helpers.py:36 | a single-space join of words is normalised: stripped, only `' '` as whitespace, never two whitespace characters in a row; it is empty exactly when there are no words |
| `Helpers.PreprocessNormalized` | backend/app/utils/helpers.py:30-38 | the result of `preprocess_text` is normalised |
| `Helpers.StripRedundant` | backend/app/utils/helpers.py:33-36 | `preprocess_text(s) == ' '.join(s.split())`, so the strip on line 33 changes nothing |
| `Helpers.PreprocessEmptyIff` | backend/app/utils/helpers.py:33-36 | the result is `""` exactly when the input is empty or all whitespace |
| `Helpers.PreprocessKeepsNonSpace` | backend/app/utils/helpers.py:33-36 | the non-whitespace characters are kept in order, and no others are added |
| `Helpers.NormalizedIsJoinOfWords` | backend/app/utils/helpers.py:36 | a normalised text is the single-space join of its own words |
| `Helpers.NormalizedFixpoint` | backend/app/utils/helpers.py:30-38 | `preprocess_text` leaves a normalised text unchanged |
| `Helpers.PreprocessIdempotent` | backend/app/utils/helpers.py:30-38 | `preprocess_text(preprocess_text(s)) == preprocess_text(s)` |
| `Helpers.PreprocessKeepsWords` | backend/app/utils/helpers.py:30-38 | the output has exactly the words of the input |
| `Schemas.TextNotEmpty` | backend/app/schemas/sentiment.py:9-13 | `text_not_empty` rejects exactly the blank texts, with the blank-text error, and otherwise returns `v.strip()`, which is non-empty |
| `Schemas.ValidateTextInput` | backend/app/schemas/sentiment.py:7-13 | a text is accepted exactly when its raw length is in 1..5000 and it is not blank; the stored text is the stripped one; each rejection carries its own error |
| `Schemas.ValidatedTextIsStripped` | backend/app/schemas/sentiment.py:13 | the stored text is stripped, non-empty and no longer than the raw text |
| `Schemas.CleanTexts` | backend/app/schemas/sentiment.py:25 | the cleaned list is no longer than the input, and every item is stripped and non-empty |
| `Schemas.CleanTextsAppend` | backend/app/schemas/sentiment.py:25 | cleaning distributes over concatenation, so it works item by item in order |
| `Schemas.CleanTextsSingle` | backend/app/schemas/sentiment.py:25 | one item is kept, stripped, exactly when it is not blank |
| `Schemas.CleanTextsCount` | backend/app/schemas/sentiment.py:25-27 | one output per non-blank input; the output is empty exactly when every item is blank |
| `Schemas.CleanTextsOfClean` | backend/app/schemas/sentiment.py:25 | items that are already stripped and non-blank pass through unchanged |
| `Schemas.TextsNotEmpty` | backend/app/schemas/sentiment.py:20-28 | `texts_not_empty`: an empty list and an all-blank list are rejected with their own errors; otherwise the result is the cleaned list, non-empty and no longer than the input |
| `Schemas.ValidateBatchTextInput` | backend/app/schemas/sentiment.py:18-28 | a list is accepted exactly when it has 1..50 items and one of them is not blank; the stored list is the cleaned one; the "list cannot be empty" error never occurs |
| `Schemas.BatchItemLengthUnbounded` | backend/app/schemas/sentiment.py:18-28 | items have no length bound: any single non-blank item is accepted |
| `Schemas.MakeSentimentResult` | backend/app/schemas/sentiment.py:31-35 | a result record exists exactly when the confidence lies in [0.0, 1.0], and then holds the given fields |
| `Config.CorsOriginsList` | backend/app/core/config.py:39-43 | `"*"` gives exactly `["*"]`; anything else gives one origin per comma plus one, each with no whitespace at its ends |
| `Config.CorsOriginsArePieces` | backend/app/core/config.py:43 | the i-th origin is the i-th comma-separated piece, stripped; no origin contains a comma, and the pieces rejoin to the setting |
| `Config.CorsOriginsEmpty` | backend/app/core/config.py:43 | an empty setting gives `[""]` |
| `Config.CorsOriginsSingle` | backend/app/core/config.py:43 | a setting without a comma gives one origin, the stripped setting |
| `Config.CorsOriginsPaddedStar` | backend/app/core/config.py:41-43 | `" * "` is not the wildcard case, yet it still gives `["*"]` |
| `Config.CorsOriginsDefault` | backend/app/core/config.py:21-43 | with the declared default `CORS_ORIGINS = "*"` every origin is allowed |
| `RateLimiter.Purge` | backend/app/middleware/rate_limiter.py:25-28 | every kept timestamp is younger than the window and was stored before; the list does not grow |
| `RateLimiter.PurgeMembers` | backend/app/middleware/rate_limiter.py:25-28 | a timestamp survives exactly when it was stored and `now - t < window` |
| `RateLimiter.PurgeDropsExpired` | backend/app/middleware/rate_limiter.py:27 | a timestamp exactly `window` seconds old is dropped |
| `RateLimiter.PurgeAllFresh` | backend/app/middleware/rate_limiter.py:25-28 | when every timestamp is inside the window, nothing is dropped |
| `RateLimiter.PurgeSortedSuffix` | backend/app/middleware/rate_limiter.py:25-28 | on a sorted list the purge drops a prefix, the oldest timestamps |
| `RateLimiter.PurgeSorted` | backend/app/middleware/rate_limiter.py:25-28 | a sorted list stays sorted after the purge |
| `RateLimiter.RejectDetail` | backend/app/middleware/rate_limiter.py:33-36 | the 429 detail "Rate limit exceeded. Maximum {limit} requests per {window} seconds.", with the numbers printed by `Strings.IntToString` |
| `RateLimiter.Step` | backend/app/middleware/rate_limiter.py:24-39 | one call of `dispatch` on one client's history, giving the stored list and the decision; its properties are stated by `RateLimiter.StepOutcome` through `RateLimiter.LimitThenReject`, and `RateLimiter.RateLimiter.Dispatch` is proved equal to it |
| `RateLimiter.StepOutcome` | backend/app/middleware/rate_limiter.py:25-39 | a request is rejected with 429 exactly when the purged list holds `limit` entries; a rejected request stores the purged list without `now`; an admitted one stores `now` last, one entry more than the purged list |
| `RateLimiter.StepBounded` | backend/app/middleware/rate_limiter.py:31-39 | a history within the limit stays within it; a limit of 0 or less rejects every request |
| `RateLimiter.StepSorted` | backend/app/middleware/rate_limiter.py:24-39 | with `now` no earlier than the stored timestamps, a sorted history stays sorted |
| `RateLimiter.StepAfterQuietWindow` | backend/app/middleware/rate_limiter.py:24-39 | a client silent for a whole window is admitted again, whenever the limit is positive, and its history restarts at `now` |
| `RateLimiter.StepInsideWindow` | backend/app/middleware/rate_limiter.py:24-39 | inside one window nothing is purged; a request is admitted exactly when fewer than `limit` timestamps are held |
| `RateLimiter.ReplayInsideWindow` | backend/app/middleware/rate_limiter.py:24-39 | for ordered requests inside one window, request `i` is admitted exactly when fewer than `limit` timestamps precede it |
| `RateLimiter.LimitThenReject` | backend/app/middleware/rate_limiter.py:24-39 | from an empty history, `limit` requests inside one window are admitted and the next one is rejected |
| `RateLimiter.RateLimiter.constructor` | backend/app/middleware/rate_limiter.py:13-17 | the limiter starts with the given limit and window and an empty map |
| `RateLimiter.Install` | backend/app/__init__.py:64-69 | a limiter exists exactly when `RATE_LIMIT_ENABLED` is set; it is fresh, with the limit and window from the settings and an empty map |
| `RateLimiter.RateLimiter.Dispatch` | backend/app/middleware/rate_limiter.py:19-39 | only the caller's entry is written, with the list and decision of `Step`; every other client's entry is unchanged; the bound on every list by the limit is preserved |
| `ModelManager.ChooseDevice` | backend/app/core/model_manager.py:37-40 | `"auto"` gives `cuda` if available and `cpu` otherwise; any other setting is used verbatim, unless torch rejects it |
| `ModelManager.LoadError` | backend/app/core/model_manager.py:62 | the message "Failed to load model: " followed by the cause; `ModelManager.LoadFailureMessage` states that every failure carries it |
| `ModelManager.Load` | backend/app/core/model_manager.py:29-62 | `load_model` on the three fields: early return when ready, then device, tokenizer, model, `.to(device)` and `.eval()`, the first failure stopping the sequence; stated by `ModelManager.LoadWhenReady` through `ModelManager.LoadLateFailureLeavesReady`, and `ModelManager.ModelManager.LoadModel` is proved equal to it |
| `ModelManager.Fetches` | backend/app/core/model_manager.py:44-52 | the names given to `from_pretrained`, in order; stated by `ModelManager.LoadWhenReady` and `ModelManager.LoadSucceeds` |
| `ModelManager.LoadWhenReady` | backend/app/core/model_manager.py:31-33 | on a ready manager, `load_model` changes no field and fetches nothing |
| `ModelManager.LoadSucceeds` | backend/app/core/model_manager.py:29-58 | a successful load leaves the manager ready on the chosen device, after fetching tokenizer then model; a second load then changes nothing and fetches nothing |
| `ModelManager.LoadFailureMessage` | backend/app/core/model_manager.py:60-62 | a failure happens only on an unready manager and carries the message "Failed to load model: " and the cause |
| `ModelManager.LoadKeepsValid` | backend/app/core/model_manager.py:37-56 | the assignment order keeps "model implies tokenizer implies device", whether the load succeeds or fails |
| `ModelManager.LoadFetchFailure` | backend/app/core/model_manager.py:44-52 | a failed tokenizer or model fetch leaves the manager unready, with the device assigned and, after a failed model fetch, the tokenizer kept |
| `ModelManager.LoadLateFailureLeavesReady` | backend/app/core/model_manager.py:50-56 | a failure in `.to(device)` or `.eval()` raises, yet leaves the manager ready |
| `ModelManager.ArgMax` | backend/app/core/model_manager.py:96 | `torch.argmax` is the first index of a greatest score |
| `ModelManager.PredictErrorMessage` | backend/app/core/model_manager.py:74-98 | the message of each prediction failure: "Model not loaded. Call load_model() first." when unloaded, the library's message for a failed classifier call, and `IndexError`'s "list index out of range" for a class past the label table |
| `ModelManager.SelectLabel` | backend/app/core/model_manager.py:95-98 | the label at the argmax and the greatest score; stated by `ModelManager.SelectLabelDefined` and `ModelManager.SelectLabelTwoClasses` |
| `ModelManager.SelectLabelDefined` | backend/app/core/model_manager.py:95-98 | a label comes out exactly when one of the first two classes has a greatest score; it is NEGATIVE or POSITIVE, and the confidence is the greatest score |
| `ModelManager.SelectLabelTwoClasses` | backend/app/core/model_manager.py:95-98 | with two scores, POSITIVE exactly when the second is strictly greater; the confidence is the larger score, at least 0.5 when the scores sum to 1 |
| `ModelManager.Predict` | backend/app/core/model_manager.py:64-100 | `predict_sentiment` on the three fields: the guard, the classifier call and the label selection; stated by `ModelManager.PredictGuard`, and `ModelManager.ModelManager.PredictSentiment` is proved equal to it |
| `ModelManager.PredictGuard` | backend/app/core/model_manager.py:74-75 | "Model not loaded" exactly when model or tokenizer is unset; every prediction carries one of the two labels |
| `ModelManager.ReadyIffModel` | backend/app/core/model_manager.py:102-118 | in a valid state, ready is the same as having a model |
| `ModelManager.ModelManager.IsReady` | backend/app/core/model_manager.py:116-118 | ready exactly when both model and tokenizer are set |
| `ModelManager.ModelManager.Allocate` | backend/app/core/model_manager.py:17-20 | a fresh instance from `__new__`, not yet initialised |
| `ModelManager.ModelManager.Init` | backend/app/core/model_manager.py:22-27 | the first `__init__` clears the three fields; later calls change nothing |
| `ModelManager.ModelManager.LoadModel` | backend/app/core/model_manager.py:29-62 | new fields and outcome are those of `Load`; the fetched names are appended as `Fetches` says |
| `ModelManager.ModelManager.PredictSentiment` | backend/app/core/model_manager.py:64-100 | the result is `Predict` on the current fields; the classifier sees the text once, and only when the manager is ready |
| `ModelManager.ModelManager.GetModelInfo` | backend/app/core/model_manager.py:102-114 | `not_loaded` exactly when no model is set, whatever the tokenizer holds; otherwise `loaded` with the names and length from the settings, the printed device and the parameter count |
| `ModelManager.ModelManagerClass.Call` | backend/app/core/model_manager.py:17-27 | the first call creates the instance and every later call returns the same one; an initialised instance keeps its fields |
| `ModelManager.ConstructTwice` | backend/app/core/model_manager.py:17-27 | constructing, loading and constructing again gives the same object, still holding the loaded state |
| `Endpoints.AnalyzeOne` | backend/app/api/endpoints.py:98-109 | the `try` block for one text: normalise, predict, build the result record; stated by `Endpoints.AnalyzeOneResult` |
| `Endpoints.AnalyzeOneResult` | backend/app/api/endpoints.py:98-109 | an item succeeds exactly when the prediction of the normalised text succeeds with a formatted confidence in range; the result keeps the validated text, not the normalised one, and one of the two labels |
| `Endpoints.Analyze` | backend/app/api/endpoints.py:92-96 | an unready manager gives 503 "Model not loaded. Please try again in a moment." |
| `Endpoints.AnalyzeWhenReady` | backend/app/api/endpoints.py:98-116 | a ready manager gives 200 with the item's result, or 500 "Error analyzing sentiment: " and the cause |
| `Endpoints.BatchResults` | backend/app/api/endpoints.py:134-150 | the loop over the texts, stopping at the first failure; stated by `Endpoints.BatchResultsPointwise` and `Endpoints.BatchResultsFirstFailure`, and `Endpoints.BatchLoop` is proved equal to it |
| `Endpoints.BatchResultsPointwise` | backend/app/api/endpoints.py:137-150 | the batch succeeds exactly when every item does; then results are one per text, the i-th from the i-th text |
| `Endpoints.BatchResultsFirstFailure` | backend/app/api/endpoints.py:134-162 | a failed batch reports the error of its first failing item, after every earlier item succeeded, and the loop stopped there; a successful batch visited every item |
| `Endpoints.AnalyzeBatch` | backend/app/api/endpoints.py:128-155 | an unready manager gives 503; a 200 answer has `total == len(results) == len(texts)` |
| `Endpoints.AnalyzeBatchWhenReady` | backend/app/api/endpoints.py:134-162 | on a ready manager, 200 exactly when every item succeeds, with `results[i]` from `texts[i]`; otherwise 500 and no partial results |
| `Endpoints.AnalyzeSentiment` | backend/app/api/endpoints.py:92-116 | the response is `Analyze` on the manager's state; the predictor sees the normalised text once, and only when ready |
| `Endpoints.BatchLoop` | backend/app/api/endpoints.py:134-150 | the loop computes `BatchResults`; the predictor saw the normalised texts in order, the i-th text it saw being `preprocess_text` of the i-th input, up to and including the first failure |
| `Endpoints.AnalyzeBatchSentiment` | backend/app/api/endpoints.py:119-162 | the response is `AnalyzeBatch` on the manager's state; nothing is predicted when unready |
| `Endpoints.HealthCheck` | backend/app/api/endpoints.py:59-80 | 200 exactly when ready, otherwise 503 "Model not loaded. Service is starting up."; a healthy answer reports the manager's device as `str(self.device)`, `"None"` when unset |
| `Endpoints.ModelsInfo` | backend/app/api/endpoints.py:165-173 | always 200, ready or not, with the manager's `get_model_info()` as the body unchanged; status `loaded` exactly when a model is set, which on a valid state is exactly when ready |
| `Endpoints.HandleAnalyze` | backend/app/api/endpoints.py:83-84 | a body that fails `TextInput` validation gets 422 before the readiness gate, and nothing is predicted |
| `Endpoints.HandleAnalyzeBatch` | backend/app/api/endpoints.py:119-120 | a body that fails `BatchTextInput` validation gets 422 before the readiness gate, and nothing is predicted |

## Behaviour worth noting

The model follows the code in every case.

- `load_model` (backend/app/core/model_manager.py:50-56) assigns `self.model` before
  it moves the model to the device and calls `.eval()`. If either step raises,
  `load_model` raises `RuntimeError("Failed to load model: …")` (line 62), yet
  tokenizer and model are both set, so `is_ready()` (lines 116-118) is already true.
  `ModelManager.LoadLateFailureLeavesReady` states this. At startup the error still
  aborts the application (backend/app/__init__.py:25-31).
- The same method keeps partial assignments after an early failure. A failed
  model fetch leaves `device` and `tokenizer` set (`ModelManager.LoadFetchFailure`).
- The check `if not v` in `texts_not_empty` (backend/app/schemas/sentiment.py:22-23)
  can never fire, because `min_items=1` rejects the empty list first
  (`Schemas.ValidateBatchTextInput` ensures the error never occurs).
- The docstring of `/analyze/batch` (backend/app/api/endpoints.py:124) says each
  text has 1-5000 characters, but `BatchTextInput` (backend/app/schemas/sentiment.py:18-28)
  bounds only the number of items. `Schemas.BatchItemLengthUnbounded` proves that a
  single non-blank item of any length is accepted.
- The limiter's purge, check and append (backend/app/middleware/rate_limiter.py:25-39)
  and `load_model` run without any lock; the model treats each call as one
  sequential step.

## Left out

- Tokenisation, the forward pass, softmax and parameter counting are left out: they are torch/transformers calls. They are the `Runtime` functions `classify` and `parameterCount`. The scores they return are arbitrary reals.
- `format_confidence` is left out: it is Python float rounding. Endpoints take it as the parameter `formatConfidence`, and the `[0.0, 1.0]` check on its output is modelled.
- `get_system_info` is left out: it is psutil/platform I/O. The health route takes its result as the `systemInfo` parameter.
- Reading the client from `request.client.host` is left out: `Dispatch` takes the client address as a parameter, so the failure when the server supplies no client (backend/app/middleware/rate_limiter.py:21) is not modelled.
- Wall-clock `time()` is left out: the limiter takes `now` as an integer number of seconds. Fractional timestamps are not modelled.
- Concurrency is not modelled. The source is async, has no locks, and every operation is modelled as one sequential call.
- The middleware plumbing is left out: `call_next`, `BaseHTTPMiddleware` and the framework's conversion of a raised `HTTPException` into a response. `Dispatch` returns the decision; forwarding an admitted request is not modelled. `Decision.Rejected(429, …)` models the `HTTPException` that `dispatch` raises, not the response the client receives: the exception is raised inside a `BaseHTTPMiddleware`, outside the route's exception handling, so the answer on the wire may differ from 429.
- The rest of the startup wiring in `backend/app/__init__.py` is left out: the lifespan hook, registering the CORS and logging middleware, and including the router. Whether and how the limiter is installed is `RateLimiter.Install`.
- Logging and request timing are left out (`backend/app/core/logging.py`, `backend/app/middleware/request_logger.py`), as is the `/` route.
- The command-line and server startup are not part of this model (`backend/run.py`, `backend/main.py`).
- Loading `Settings` from the environment and `.env` is left out. `Config.Defaults` holds the declared defaults of the fields modelled here. HOST, PORT, RELOAD, LOG_LEVEL, APP_NAME, APP_VERSION and DEBUG are not modelled.
- Python's Unicode whitespace is not modelled. `str.strip` and `str.split` use the fixed six-character whitespace set above.
- The exact texts of pydantic's validation errors are not modelled. `ValidationError` names each failing rule. `Endpoints.ValidationMessage` and the `EmptyScores` message of `ModelManager.PredictErrorMessage` are stand-ins for library messages that are not reproduced.
- The objects returned by `from_pretrained` and by torch are opaque values. `Tokenizer` and `Device` carry only a name; `Model` carries its name and the device it was last moved to.
- `ModelManager.ModelManager.Allocate`: before `__init__` runs, a Python instance has no `tokenizer`, `model` or `device` attribute. The model gives the fields the value `None`.
