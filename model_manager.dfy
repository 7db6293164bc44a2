/**
 * backend/app/core/model_manager.py: the singleton that loads the classifier and
 * answers predictions. torch and transformers are reached only through the
 * functions of a `Runtime`, which may fail.
 */
module ModelManager {
  import opened Wrappers
  import opened Config
  import opened Schemas

  /** A `torch.device`, by its printed name. */
  type Device = string

  /** What `DistilBertTokenizer.from_pretrained` returns; its content is not modelled. */
  datatype Tokenizer = Tokenizer(source: string)

  /** What `DistilBertForSequenceClassification.from_pretrained` returns; its content is not modelled. */
  datatype Model = Model(source: string, placedOn: Option<Device>)

  /**
   * The foreign calls the manager makes. A `Failure` or a `Some` error stands for
   * the exception the library raises, with its message.
   */
  datatype Runtime = Runtime(
    cudaAvailable: bool,                                   // torch.cuda.is_available()
    deviceError: string -> Option<string>,                 // torch.device(name) rejecting a name
    loadTokenizer: string -> Result<Tokenizer, string>,    // DistilBertTokenizer.from_pretrained
    loadModel: string -> Result<Model, string>,            // DistilBertForSequenceClassification.from_pretrained
    moveModel: (Model, Device) -> Result<Model, string>,   // model.to(device)
    evalError: Model -> Option<string>,                    // model.eval()
    classify: (Tokenizer, Model, Option<Device>, string, int) -> Result<seq<real>, string>,
                                                           // tokenise, forward pass and softmax
    parameterCount: Model -> nat)                          // sum(p.numel() for p in model.parameters())

  /** The three fields `load_model` assigns. */
  datatype ManagerState = ManagerState(
    tokenizer: Option<Tokenizer>, model: Option<Model>, device: Option<Device>)
  {
    /** `is_ready`. */
    predicate Ready() {
      model.Some? && tokenizer.Some?
    }

    /** The order of assignment in `load_model`: a model implies a tokenizer, a tokenizer a device. */
    predicate Valid() {
      && (model.Some? ==> tokenizer.Some?)
      && (tokenizer.Some? ==> device.Some?)
    }
  }

  /** The state `__init__` sets up. */
  const Unloaded := ManagerState(None, None, None)

  // ---------------------------------------------------------------- load_model

  /** Lines 37-40: `"auto"` picks CUDA when available, anything else names the device itself. */
  function ChooseDevice(s: Settings, rt: Runtime): (r: Result<Device, string>)
    ensures s.device == "auto" ==> r == Success(if rt.cudaAvailable then "cuda" else "cpu")
    ensures s.device != "auto" ==> (r.Success? <==> rt.deviceError(s.device).None?)
    ensures s.device != "auto" && r.Success? ==> r.value == s.device
  {
    if s.device == "auto" then Success(if rt.cudaAvailable then "cuda" else "cpu")
    else
      match rt.deviceError(s.device)
      case Some(e) => Failure(e)
      case None => Success(s.device)
  }

  /** Line 62: every failure of `load_model` is re-raised as a `RuntimeError` with this message. */
  function LoadError(cause: string): string {
    "Failed to load model: " + cause
  }

  /**
   * `load_model` on a state: return at once when ready; otherwise assign the
   * device, the tokenizer and the model in turn, then move the model and switch
   * it to evaluation mode. The first failure stops the sequence and leaves the
   * assignments made so far in place.
   */
  function Load(st: ManagerState, s: Settings, rt: Runtime): (ManagerState, Outcome<string>) {
    if st.Ready() then (st, Pass)
    else
      match ChooseDevice(s, rt)
      case Failure(e) => (st, Fail(LoadError(e)))
      case Success(d) =>
        var st1 := st.(device := Some(d));
        match rt.loadTokenizer(s.tokenizerName)
        case Failure(e) => (st1, Fail(LoadError(e)))
        case Success(t) =>
          var st2 := st1.(tokenizer := Some(t));
          match rt.loadModel(s.modelName)
          case Failure(e) => (st2, Fail(LoadError(e)))
          case Success(m) =>
            var st3 := st2.(model := Some(m));
            match rt.moveModel(m, d)
            case Failure(e) => (st3, Fail(LoadError(e)))
            case Success(moved) =>
              var st4 := st3.(model := Some(moved));
              match rt.evalError(moved)
              case Some(e) => (st4, Fail(LoadError(e)))
              case None => (st4, Pass)
  }

  /** The names `load_model` asks the library to fetch, in order. */
  function Fetches(st: ManagerState, s: Settings, rt: Runtime): seq<string> {
    if st.Ready() || ChooseDevice(s, rt).Failure? then []
    else if rt.loadTokenizer(s.tokenizerName).Failure? then [s.tokenizerName]
    else [s.tokenizerName, s.modelName]
  }

  /** On a ready manager `load_model` changes nothing and fetches nothing. */
  lemma LoadWhenReady(st: ManagerState, s: Settings, rt: Runtime)
    requires st.Ready()
    ensures Load(st, s, rt) == (st, Pass) && Fetches(st, s, rt) == []
  {
  }

  /**
   * A load that succeeds leaves the manager ready, on the chosen device; loading
   * again then changes nothing and fetches nothing.
   */
  lemma LoadSucceeds(st: ManagerState, s: Settings, rt: Runtime)
    requires Load(st, s, rt).1.Pass?
    ensures var st' := Load(st, s, rt).0;
      && st'.Ready()
      && (!st.Ready() ==> st'.device == Some(ChooseDevice(s, rt).value) && Fetches(st, s, rt) == [s.tokenizerName, s.modelName])
      && Load(st', s, rt) == (st', Pass) && Fetches(st', s, rt) == []
  {
  }

  /** Each failure is reported with the `RuntimeError` message of line 62. */
  lemma LoadFailureMessage(st: ManagerState, s: Settings, rt: Runtime)
    requires Load(st, s, rt).1.Fail?
    ensures !st.Ready()
    ensures exists cause :: Load(st, s, rt).1.error == LoadError(cause)
  {
    assert !st.Ready();
  }

  /** A valid state stays valid through `load_model`, whether it succeeds or fails. */
  lemma LoadKeepsValid(st: ManagerState, s: Settings, rt: Runtime)
    requires st.Valid()
    ensures Load(st, s, rt).0.Valid()
  {
  }

  /**
   * A failed tokenizer or model fetch on a valid, unready manager leaves it unready; the
   * device stays assigned, and after a failed model fetch so does the tokenizer.
   */
  lemma LoadFetchFailure(st: ManagerState, s: Settings, rt: Runtime)
    requires st.Valid() && !st.Ready() && ChooseDevice(s, rt).Success?
    requires rt.loadTokenizer(s.tokenizerName).Failure? || rt.loadModel(s.modelName).Failure?
    ensures var (st', r) := Load(st, s, rt);
      && r.Fail? && !st'.Ready() && st'.model == st.model
      && st'.device == Some(ChooseDevice(s, rt).value)
      && (rt.loadTokenizer(s.tokenizerName).Success? ==> st'.tokenizer == Some(rt.loadTokenizer(s.tokenizerName).value))
  {
  }

  /**
   * A failure after the model is assigned (moving it to the device, or switching it to
   * evaluation mode) raises, yet the manager is ready afterwards.
   */
  lemma LoadLateFailureLeavesReady(st: ManagerState, s: Settings, rt: Runtime)
    requires !st.Ready() && ChooseDevice(s, rt).Success?
    requires rt.loadTokenizer(s.tokenizerName).Success? && rt.loadModel(s.modelName).Success?
    requires var m := rt.loadModel(s.modelName).value; var d := ChooseDevice(s, rt).value;
      rt.moveModel(m, d).Failure? || rt.evalError(rt.moveModel(m, d).value).Some?
    ensures var (st', r) := Load(st, s, rt); r.Fail? && st'.Ready()
  {
  }

  // ---------------------------------------------------------------- predict_sentiment

  /** The label table of line 95. */
  const Labels: seq<string> := ["NEGATIVE", "POSITIVE"]

  datatype PredictError =
    | NotLoaded                       // line 75
    | InferenceFailed(cause: string)  // an exception from tokenising or the forward pass
    | EmptyScores                     // argmax over no classes
    | LabelOutOfRange(index: nat)     // labels[predicted_class] with a class past the table

  /** The text of the exception each error stands for. */
  function PredictErrorMessage(e: PredictError): string {
    match e
    case NotLoaded => "Model not loaded. Call load_model() first."
    case InferenceFailed(cause) => cause
    case EmptyScores => "argmax(): expected a non-empty tensor"
    case LabelOutOfRange(_) => "list index out of range"
  }

  /** `torch.argmax`: the first index of a greatest score. */
  function ArgMax(p: seq<real>): (k: nat)
    requires p != []
    ensures k < |p|
    ensures forall i :: 0 <= i < |p| ==> p[i] <= p[k]
    ensures forall i :: 0 <= i < k ==> p[i] < p[k]
    decreases |p|
  {
    if |p| == 1 then 0
    else
      var k := ArgMax(p[..|p| - 1]);
      assert forall i :: 0 <= i < |p| - 1 ==> p[..|p| - 1][i] == p[i];
      if p[|p| - 1] > p[k] then |p| - 1 else k
  }

  /** Lines 95-98: the label of the argmax and the greatest score as confidence. */
  function SelectLabel(p: seq<real>): Result<(string, real), PredictError> {
    if p == [] then Failure(EmptyScores)
    else
      var k := ArgMax(p);
      if k < |Labels| then Success((Labels[k], p[k])) else Failure(LabelOutOfRange(k))
  }

  /**
   * A label is produced exactly when one of the first two classes has a greatest
   * score; it is then one of the two labels, and the confidence is the greatest score.
   */
  lemma SelectLabelDefined(p: seq<real>)
    ensures SelectLabel(p).Success? <==>
      exists i :: 0 <= i < |p| && i < 2 && forall j :: 0 <= j < |p| ==> p[j] <= p[i]
    ensures SelectLabel(p).Success? ==> (
      var (sentiment, confidence) := SelectLabel(p).value;
      && (sentiment == "NEGATIVE" || sentiment == "POSITIVE")
      && confidence in p && forall j :: 0 <= j < |p| ==> p[j] <= confidence)
  {
    if p != [] {
      var k := ArgMax(p);
      if k >= 2 {
        forall i | 0 <= i < |p| && i < 2 ensures exists j :: 0 <= j < |p| && p[j] > p[i] {
          assert p[k] > p[i];
        }
      }
    }
  }

  /**
   * With two classes a label always comes out: POSITIVE exactly when the second
   * score is strictly greater (a tie goes to NEGATIVE), and when the scores are
   * probabilities the confidence is at least one half.
   */
  lemma SelectLabelTwoClasses(p: seq<real>)
    requires |p| == 2
    ensures SelectLabel(p).Success?
    ensures SelectLabel(p).value.0 == "POSITIVE" <==> p[1] > p[0]
    ensures SelectLabel(p).value.1 == (if p[1] > p[0] then p[1] else p[0])
    ensures p[0] + p[1] == 1.0 ==> SelectLabel(p).value.1 >= 0.5
  {
  }

  /**
   * `predict_sentiment` on a state: refuse unless both model and tokenizer are set,
   * else classify the text and select the label.
   */
  function Predict(st: ManagerState, s: Settings, rt: Runtime, text: string): Result<(string, real), PredictError> {
    if st.model.None? || st.tokenizer.None? then Failure(NotLoaded)
    else
      match rt.classify(st.tokenizer.value, st.model.value, st.device, text, s.maxSequenceLength)
      case Failure(e) => Failure(InferenceFailed(e))
      case Success(p) => SelectLabel(p)
  }

  /**
   * The guard of lines 74-75: `NotLoaded` exactly when the manager is not ready;
   * a prediction is one of the two labels.
   */
  lemma PredictGuard(st: ManagerState, s: Settings, rt: Runtime, text: string)
    ensures Predict(st, s, rt, text) == Failure(NotLoaded) <==> !st.Ready()
    ensures Predict(st, s, rt, text).Success? ==> Predict(st, s, rt, text).value.0 in Labels
  {
    if st.Ready() {
      match rt.classify(st.tokenizer.value, st.model.value, st.device, text, s.maxSequenceLength)
      case Failure(e) =>
      case Success(p) => SelectLabelDefined(p);
    }
  }

  // ---------------------------------------------------------------- the manager object

  class ModelManager {
    var tokenizer: Option<Tokenizer>
    var model: Option<Model>
    var device: Option<Device>
    var initialized: bool
    /** The names fetched from the model hub, in order. */
    ghost var fetched: seq<string>
    /** The texts handed to the classifier, in order. */
    ghost var classified: seq<string>

    function State(): ManagerState
      reads this
    {
      ManagerState(tokenizer, model, device)
    }

    /** Lines 116-118: ready exactly when both model and tokenizer are set. */
    function IsReady(): (r: bool)
      reads this
      ensures r <==> State().Ready()
    {
      model.Some? && tokenizer.Some?
    }

    /**
     * The object `super().__new__` returns, before `__init__` runs; its fields
     * start out unset, which `__init__` then makes explicit.
     */
    constructor Allocate()
      ensures !initialized && State() == Unloaded
      ensures fetched == [] && classified == []
    {
      tokenizer, model, device := None, None, None;
      initialized := false;
      fetched, classified := [], [];
    }

    /** Lines 22-27: the fields are cleared on the first call only. */
    method Init()
      modifies this
      ensures initialized
      ensures old(initialized) ==> State() == old(State())
      ensures !old(initialized) ==> State() == Unloaded
      ensures fetched == old(fetched) && classified == old(classified)
    {
      if !initialized {
        tokenizer := None;
        model := None;
        device := None;
        initialized := true;
      }
    }

    /** Lines 29-62: `load_model`, step by step, against `Load` and `Fetches`. */
    method LoadModel(s: Settings, rt: Runtime) returns (r: Outcome<string>)
      modifies this
      ensures (State(), r) == Load(old(State()), s, rt)
      ensures fetched == old(fetched) + Fetches(old(State()), s, rt)
      ensures classified == old(classified) && initialized == old(initialized)
    {
      if model.Some? && tokenizer.Some? {
        return Pass;
      }
      var d := ChooseDevice(s, rt);
      if d.Failure? {
        return Fail(LoadError(d.error));
      }
      device := Some(d.value);
      fetched := fetched + [s.tokenizerName];
      var t := rt.loadTokenizer(s.tokenizerName);
      if t.Failure? {
        return Fail(LoadError(t.error));
      }
      tokenizer := Some(t.value);
      fetched := fetched + [s.modelName];
      var m := rt.loadModel(s.modelName);
      if m.Failure? {
        return Fail(LoadError(m.error));
      }
      model := Some(m.value);
      var moved := rt.moveModel(m.value, d.value);
      if moved.Failure? {
        return Fail(LoadError(moved.error));
      }
      model := Some(moved.value);
      var e := rt.evalError(moved.value);
      if e.Some? {
        return Fail(LoadError(e.value));
      }
      r := Pass;
    }

    /**
     * Lines 64-100: `predict_sentiment`. The classifier sees the text only when the
     * manager is ready; nothing but the record of classified texts changes.
     */
    method PredictSentiment(s: Settings, rt: Runtime, text: string)
      returns (r: Result<(string, real), PredictError>)
      modifies this`classified
      ensures r == Predict(State(), s, rt, text)
      ensures classified == old(classified) + (if State().Ready() then [text] else [])
    {
      if model.None? || tokenizer.None? {
        return Failure(NotLoaded);
      }
      classified := classified + [text];
      var p := rt.classify(tokenizer.value, model.value, device, text, s.maxSequenceLength);
      if p.Failure? {
        return Failure(InferenceFailed(p.error));
      }
      r := SelectLabel(p.value);
    }

    /**
     * Lines 102-114: `{"status": "not_loaded"}` exactly when no model is set,
     * whatever the tokenizer holds; otherwise the configured names and length,
     * the device as printed and the parameter count of the model.
     */
    function GetModelInfo(s: Settings, rt: Runtime): (info: ModelInfo)
      reads this
      ensures info.status == "not_loaded" <==> model.None?
      ensures model.None? ==> info == ModelInfo("not_loaded", None, None, None, None, None)
      ensures model.Some? ==>
        && info.status == "loaded"
        && info.modelName == Some(s.modelName) && info.tokenizerName == Some(s.tokenizerName)
        && info.maxSequenceLength == Some(s.maxSequenceLength)
        && info.device == Some(if device.Some? then device.value else "None")
        && info.parameters == Some(rt.parameterCount(model.value) as int)
    {
      if model.None? then ModelInfo("not_loaded", None, None, None, None, None)
      else
        ModelInfo("loaded", Some(s.modelName), Some(s.tokenizerName),
          Some(if device.Some? then device.value else "None"),
          Some(s.maxSequenceLength), Some(rt.parameterCount(model.value) as int))
    }
  }

  /** On a valid state, ready means exactly that a model is set, so the info reports "loaded" exactly when ready. */
  lemma ReadyIffModel(st: ManagerState)
    requires st.Valid()
    ensures st.Ready() <==> st.model.Some?
  {
  }

  // ---------------------------------------------------------------- the singleton

  /** The class object `ModelManager`, holding `_instance`. */
  class ModelManagerClass {
    var instance: ModelManager?

    constructor()
      ensures instance == null
    {
      instance := null;
    }

    /**
     * `ModelManager()`: `__new__` allocates on the first call and otherwise hands
     * back the same object; `__init__` then runs on it, and after the first time
     * it leaves the fields alone.
     */
    method Call() returns (m: ModelManager)
      modifies this, instance
      ensures instance == m && m.initialized
      ensures old(instance) == null ==> fresh(m) && m.State() == Unloaded
      ensures old(instance) != null ==> m == old(instance)
      ensures old(instance) != null && old(instance.initialized) ==> m.State() == old(instance.State())
    {
      if instance == null {
        instance := new ModelManager.Allocate();
      }
      m := instance;
      m.Init();
    }
  }

  /** Constructing twice yields one object whose loaded state survives the second `__init__`. */
  method ConstructTwice(cls: ModelManagerClass, s: Settings, rt: Runtime)
    returns (first: ModelManager, second: ModelManager)
    modifies cls, cls.instance
    ensures first == second
    ensures old(cls.instance) == null ==> second.State() == Load(Unloaded, s, rt).0
  {
    first := cls.Call();
    var _ := first.LoadModel(s, rt);
    ghost var loaded := first.State();
    second := cls.Call();
    assert second.State() == loaded;
  }
}
