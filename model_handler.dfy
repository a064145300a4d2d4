/**
 * The inference wrapper of model_handler.py: it loads a FastAI learner from a
 * file, swapping `pathlib.PosixPath` for `pathlib.WindowsPath` around the load
 * on Windows; it predicts with the learner; and it falls back to a random
 * "dummy" prediction when no learner is loaded or inference raises.
 *
 * The filesystem, `load_learner`, `Learner.predict` and `random` are inputs:
 * the set of existing paths, two oracle functions, and the random draws.
 */
module ModelHandling {
  import opened Wrappers
  import opened Ascii
  import opened Distribution
  import Utils

  /** The labels used when FastAI cannot be imported. */
  const LowerDefaults: seq<string> := ["cardboard", "glass", "metal", "paper", "plastic"]

  /** The labels used when the learner has no vocabulary, or the label list is empty. */
  const TitleDefaults: seq<string> := ["Cardboard", "Glass", "Metal", "Paper", "Plastic"]

  /** The class the global `pathlib.PosixPath` is bound to. */
  datatype PathClass = PosixPathClass | WindowsPathClass

  /** A deserialised learner: `dls.vocab` when it has one, and weights nobody here inspects. */
  datatype Learner = Learner(vocab: Option<seq<string>>, weights: seq<real>)

  /** What `Learner.predict` returns: the decoded label token, its index and one probability per class. */
  datatype RawPrediction = RawPrediction(token: string, index: int, probs: seq<real>)

  /** A decoded image handed to the classifier. */
  datatype Image = Image(width: nat, height: nat, mode: string)

  /** The top label and the label-to-probability dictionary `predict` returns. */
  datatype Prediction = Prediction(top: string, probabilities: map<string, real>)

  /** The exceptions `load_model` re-raises. */
  datatype LoadError =
    | FileNotFound(path: string)
    | LoaderMissing                // NameError: `load_learner` was never imported
    | LoadFailed(message: string)  // whatever `load_learner` raised

  /** The one exception that escapes `predict`: dividing by a zero sum of draws. */
  datatype PredictError = ZeroDivision

  /** `load_learner(path)`, given the class `pathlib.PosixPath` is bound to while it runs. */
  type Loader = (string, PathClass) -> Result<Learner, string>

  /** `learner.predict(image)`. */
  type Classifier = (Learner, Image) -> Result<RawPrediction, string>

  /** The process-wide state the wrapper reads or patches. */
  class Runtime {
    /** `FASTAI_AVAILABLE`: whether `from fastai.vision.all import ...` succeeded. */
    const fastaiAvailable: bool
    /** `platform.system()`. */
    const system: string
    /** The global `pathlib.PosixPath`. */
    var posixPath: PathClass

    constructor (fastaiImported: bool, system: string, posixPath: PathClass)
      ensures fastaiAvailable == fastaiImported
      ensures this.system == system && this.posixPath == posixPath
    {
      fastaiAvailable := fastaiImported;
      this.system := system;
      this.posixPath := posixPath;
    }
  }

  /** The class `pathlib.PosixPath` is bound to while `load_learner` runs. */
  function LoadingPathClass(system: string, current: PathClass): PathClass
  {
    if system == "Windows" then WindowsPathClass else current
  }

  /** Calling `load_learner`, which only exists when FastAI was imported. */
  function CallLoader(fastaiAvailable: bool, path: string, bound: PathClass, load: Loader): Result<Learner, LoadError>
  {
    if !fastaiAvailable then Err(LoaderMissing)
    else match load(path, bound)
      case Ok(learner) => Ok(learner)
      case Err(message) => Err(LoadFailed(message))
  }

  /** What `load_model` ends with, from the state it starts in. */
  function LoadOutcome(fastaiAvailable: bool, system: string, posixPath: PathClass,
                       fs: set<string>, path: string, load: Loader): (r: Result<Learner, LoadError>)
    ensures path !in fs ==> r == Err(FileNotFound(path))
    ensures path in fs && !fastaiAvailable ==> r == Err(LoaderMissing)
    ensures path in fs && fastaiAvailable ==>
              match load(path, LoadingPathClass(system, posixPath))
              case Ok(learner) => r == Ok(learner)
              case Err(message) => r == Err(LoadFailed(message))
    ensures path in fs && fastaiAvailable && system == "Windows" ==>
              (r.Ok? ==> Ok(r.value) == load(path, WindowsPathClass))
  {
    if path !in fs then Err(FileNotFound(path))
    else CallLoader(fastaiAvailable, path, LoadingPathClass(system, posixPath), load)
  }

  /** The labels a freshly loaded learner gives the handler, in vocabulary order. */
  function VocabLabels(learner: Learner): (labels: seq<string>)
    ensures learner.vocab.Some? ==> labels == learner.vocab.value
    ensures learner.vocab.None? ==> labels == TitleDefaults
  {
    match learner.vocab
    case Some(vocab) => vocab
    case None => TitleDefaults
  }

  /** The label list after `_dummy_prediction` fills an empty one. */
  function Filled(labels: seq<string>): (r: seq<string>)
    ensures r != []
    ensures labels != [] ==> r == labels
  {
    if labels == [] then TitleDefaults else labels
  }

  /**
   * The random inputs of a dummy prediction: the `random.choice` index, and one
   * `random.random()` draw in [0, 1) per label.
   */
  predicate DrawsFit(labels: seq<string>, pick: nat, draws: seq<real>)
  {
    pick < |labels| && |draws| == |labels| && forall i :: 0 <= i < |draws| ==> 0.0 <= draws[i] < 1.0
  }

  /** `_dummy_prediction` on the label list `labels`, before filling. */
  function DummyOutcome(labels: seq<string>, pick: nat, draws: seq<real>): (r: Result<Prediction, PredictError>)
    requires DrawsFit(Filled(labels), pick, draws)
    ensures r.Err? <==> Sum(draws) == 0.0
    ensures r.Ok? ==> r.value.top == Capitalize(Filled(labels)[pick])
    ensures r.Ok? ==> r.value.probabilities.Keys
                        == set i | 0 <= i < |Filled(labels)| :: Capitalize(Filled(labels)[i])
  {
    var names := Filled(labels);
    var total := Sum(draws);
    if total == 0.0 then Err(ZeroDivision)
    else Ok(Prediction(Capitalize(names[pick]), LabelMap(names, Normalise(draws, total))))
  }

  /** The prediction built from a successful `learner.predict`. */
  function FromRaw(labels: seq<string>, raw: RawPrediction): Prediction
  {
    Prediction(Capitalize(raw.token), LabelMap(labels, raw.probs))
  }

  /** Whether `predict` asks the learner at all. */
  predicate Serviceable(fastaiAvailable: bool, model: Option<Learner>)
  {
    model.Some? && fastaiAvailable
  }

  /** Whether `predict` ends on the dummy path. */
  predicate TakesDummyPath(fastaiAvailable: bool, model: Option<Learner>, image: Image, infer: Classifier)
  {
    !Serviceable(fastaiAvailable, model) || infer(model.value, image).Err?
  }

  /** What `predict` returns, from the handler's state before the call. */
  function PredictOutcome(fastaiAvailable: bool, model: Option<Learner>, labels: seq<string>,
                          image: Image, infer: Classifier, pick: nat, draws: seq<real>): (r: Result<Prediction, PredictError>)
    requires DrawsFit(Filled(labels), pick, draws)
    ensures TakesDummyPath(fastaiAvailable, model, image, infer) ==> r == DummyOutcome(labels, pick, draws)
    ensures !TakesDummyPath(fastaiAvailable, model, image, infer) ==>
              var raw := infer(model.value, image).value;
              && r.Ok? && r.value.top == Capitalize(raw.token)
              && r.value.probabilities.Keys == set i | 0 <= i < Min(|labels|, |raw.probs|) :: Capitalize(labels[i])
  {
    if TakesDummyPath(fastaiAvailable, model, image, infer) then DummyOutcome(labels, pick, draws)
    else Ok(FromRaw(labels, infer(model.value, image).value))
  }

  /** The label list after `predict`: only the dummy path fills an empty one. */
  function LabelsAfterPredict(fastaiAvailable: bool, model: Option<Learner>, labels: seq<string>,
                              image: Image, infer: Classifier): seq<string>
  {
    if TakesDummyPath(fastaiAvailable, model, image, infer) then Filled(labels) else labels
  }

  class ModelHandler {
    const rt: Runtime
    const modelPath: string
    /** The loaded learner, `None` until a load succeeds and after one fails. */
    var model: Option<Learner>
    /** The class labels, in the learner's order. */
    var wasteTypes: seq<string>

    /** The attribute assignments `__init__` opens with. */
    constructor (rt: Runtime, modelPath: string)
      ensures this.rt == rt && this.modelPath == modelPath
      ensures model.None? && wasteTypes == []
    {
      this.rt := rt;
      this.modelPath := modelPath;
      model := None;
      wasteTypes := [];
    }

    /** `is_model_loaded()`. */
    predicate IsModelLoaded()
      reads this
      ensures IsModelLoaded() <==> model.Some? && rt.fastaiAvailable
    {
      Serviceable(rt.fastaiAvailable, model)
    }

    /**
     * `ModelHandler(model_path)`, where Python's default argument is
     * "my_model.pkl": without FastAI, the degraded mode with the
     * lower-case labels and no load; with it, `load_model`, whose error (if any)
     * is the one the constructor raises.
     */
    static method Create(rt: Runtime, modelPath: string, fs: set<string>, load: Loader)
      returns (h: ModelHandler, err: Option<LoadError>)
      modifies rt
      ensures fresh(h) && h.rt == rt && h.modelPath == modelPath
      ensures rt.posixPath == old(rt.posixPath)
      ensures !rt.fastaiAvailable ==> err.None? && h.model.None? && h.wasteTypes == LowerDefaults
      ensures rt.fastaiAvailable ==>
                match LoadOutcome(true, rt.system, old(rt.posixPath), fs, modelPath, load)
                case Ok(learner) => err.None? && h.model == Some(learner) && h.wasteTypes == VocabLabels(learner)
                case Err(e) => err == Some(e) && h.model.None? && h.wasteTypes == []
      ensures h.IsModelLoaded() <==> rt.fastaiAvailable && err.None?
    {
      h := new ModelHandler(rt, modelPath);
      if rt.fastaiAvailable {
        err := h.LoadModel(fs, load);
      } else {
        h.wasteTypes := LowerDefaults;
        err := None;
      }
    }

    /**
     * `load_model()`: fails with `FileNotFound` when the path is missing;
     * otherwise calls `load_learner`, on Windows with `pathlib.PosixPath` bound
     * to `WindowsPath` and restored afterwards whatever the load did. Any
     * failure leaves `model` as `None` and the labels untouched.
     */
    method LoadModel(fs: set<string>, load: Loader) returns (err: Option<LoadError>)
      modifies this`model, this`wasteTypes, rt`posixPath
      ensures rt.posixPath == old(rt.posixPath)
      ensures match LoadOutcome(rt.fastaiAvailable, rt.system, old(rt.posixPath), fs, modelPath, load)
              case Ok(learner) => err.None? && model == Some(learner) && wasteTypes == VocabLabels(learner)
              case Err(e) => err == Some(e) && model.None? && wasteTypes == old(wasteTypes)
    {
      if modelPath !in fs {
        model := None;
        return Some(FileNotFound(modelPath));
      }
      var loaded: Result<Learner, LoadError>;
      if rt.system == "Windows" {
        var saved := rt.posixPath;
        rt.posixPath := WindowsPathClass;
        loaded := CallLoader(rt.fastaiAvailable, modelPath, rt.posixPath, load);
        rt.posixPath := saved;
      } else {
        loaded := CallLoader(rt.fastaiAvailable, modelPath, rt.posixPath, load);
      }
      match loaded
      case Ok(learner) =>
        model := Some(learner);
        wasteTypes := VocabLabels(learner);
        err := None;
      case Err(e) =>
        model := None;
        err := Some(e);
    }

    /**
     * `predict(image)`: the learner's answer when it is loaded and answers,
     * otherwise the dummy prediction.
     */
    method Predict(image: Image, infer: Classifier, pick: nat, draws: seq<real>)
      returns (r: Result<Prediction, PredictError>)
      requires DrawsFit(Filled(wasteTypes), pick, draws)
      modifies this`wasteTypes
      ensures r == PredictOutcome(rt.fastaiAvailable, model, old(wasteTypes), image, infer, pick, draws)
      ensures wasteTypes == LabelsAfterPredict(rt.fastaiAvailable, model, old(wasteTypes), image, infer)
    {
      if !IsModelLoaded() {
        r := DummyPrediction(pick, draws);
        return;
      }
      match infer(model.value, image)
      case Ok(raw) =>
        r := Ok(Prediction(Capitalize(raw.token), LabelMap(wasteTypes, raw.probs)));
      case Err(_) =>
        r := DummyPrediction(pick, draws);
    }

    /**
     * `_dummy_prediction()`: fills an empty label list with the title-case
     * defaults, then picks a label and normalises one draw per label.
     */
    method DummyPrediction(pick: nat, draws: seq<real>) returns (r: Result<Prediction, PredictError>)
      requires DrawsFit(Filled(wasteTypes), pick, draws)
      modifies this`wasteTypes
      ensures wasteTypes == Filled(old(wasteTypes))
      ensures r == DummyOutcome(old(wasteTypes), pick, draws)
    {
      if wasteTypes == [] {
        wasteTypes := TitleDefaults;
      }
      var prediction := Capitalize(wasteTypes[pick]);
      var total := Sum(draws);
      if total == 0.0 {
        return Err(ZeroDivision);
      }
      var probs := Normalise(draws, total);
      r := Ok(Prediction(prediction, LabelMap(wasteTypes, probs)));
    }
  }

  /** A dummy prediction fails only when every draw is zero. */
  lemma DummyFailsOnlyOnZeroDraws(labels: seq<string>, pick: nat, draws: seq<real>)
    requires DrawsFit(Filled(labels), pick, draws)
    ensures DummyOutcome(labels, pick, draws).Err? <==> forall i :: 0 <= i < |draws| ==> draws[i] == 0.0
  {
    SumZeroIffAllZero(draws);
  }

  /**
   * With one positive draw the dummy prediction succeeds: its top label is the
   * capitalised form of one of the labels, there is a key for each capitalised
   * label and for nothing else, and every probability lies in [0, 1].
   */
  lemma DummyWellFormed(labels: seq<string>, pick: nat, draws: seq<real>)
    requires DrawsFit(Filled(labels), pick, draws)
    requires exists i :: 0 <= i < |draws| && draws[i] > 0.0
    ensures DummyOutcome(labels, pick, draws).Ok?
    ensures var p := DummyOutcome(labels, pick, draws).value;
            var names := Filled(labels);
            && (exists i :: 0 <= i < |names| && p.top == Capitalize(names[i]))
            && p.probabilities.Keys == (set i | 0 <= i < |names| :: Capitalize(names[i]))
            && forall k :: k in p.probabilities ==> 0.0 <= p.probabilities[k] <= 1.0
  {
    var names := Filled(labels);
    SumZeroIffAllZero(draws);
    TermAtMostSum(draws);
    var total := Sum(draws);
    var probs := Normalise(draws, total);
    NormalisedInUnitInterval(draws);
    var m := LabelMap(names, probs);
    forall k | k in m ensures 0.0 <= m[k] <= 1.0 {
      LabelMapValuesFromProbs(names, probs, k);
    }
  }

  /** When every draw is positive, every probability lies in (0, 1]. */
  lemma DummyPositiveDraws(labels: seq<string>, pick: nat, draws: seq<real>)
    requires DrawsFit(Filled(labels), pick, draws)
    requires AllPositive(draws)
    ensures DummyOutcome(labels, pick, draws).Ok?
    ensures var m := DummyOutcome(labels, pick, draws).value.probabilities;
            forall k :: k in m ==> 0.0 < m[k] <= 1.0
  {
    var names := Filled(labels);
    assert AllNonNegative(draws);
    TermAtMostSum(draws);
    var total := Sum(draws);
    assert total > 0.0 by { assert 0.0 < draws[pick] <= total; }
    var probs := Normalise(draws, total);
    NormalisedInUnitInterval(draws);
    var m := LabelMap(names, probs);
    assert DummyOutcome(labels, pick, draws) == Ok(Prediction(Capitalize(names[pick]), m));
    forall k | k in m ensures 0.0 < m[k] <= 1.0 {
      LabelMapValuesFromProbs(names, probs, k);
    }
  }

  /**
   * With distinct capitalised labels the dummy dictionary has one entry per
   * label, and its values, read in label order, add up to exactly one.
   */
  lemma DummySumsToOne(labels: seq<string>, pick: nat, draws: seq<real>)
    requires DrawsFit(Filled(labels), pick, draws)
    requires DistinctKeys(Filled(labels))
    requires DummyOutcome(labels, pick, draws).Ok?
    ensures var names := Filled(labels);
            var m := DummyOutcome(labels, pick, draws).value.probabilities;
            && |m| == |names|
            && (forall i :: 0 <= i < |names| ==> Capitalize(names[i]) in m)
            && Sum(ValuesInOrder(m, names)) == 1.0
  {
    var names := Filled(labels);
    var probs := Normalise(draws, Sum(draws));
    var m := LabelMap(names, probs);
    assert DummyOutcome(labels, pick, draws).value.probabilities == m;
    LabelMapDistinct(names, probs);
    LabelMapInOrder(names, probs);
    NormalisedSumIsOne(draws);
  }

  /**
   * `predict` only raises when it falls back to the dummy prediction and every
   * draw is zero; a served prediction needs no draw at all.
   */
  lemma PredictNeverFails(fastaiAvailable: bool, model: Option<Learner>, labels: seq<string>,
                          image: Image, infer: Classifier, pick: nat, draws: seq<real>)
    requires DrawsFit(Filled(labels), pick, draws)
    requires !TakesDummyPath(fastaiAvailable, model, image, infer)
             || exists i :: 0 <= i < |draws| && draws[i] > 0.0
    ensures PredictOutcome(fastaiAvailable, model, labels, image, infer, pick, draws).Ok?
  {
    DummyFailsOnlyOnZeroDraws(labels, pick, draws);
  }

  /**
   * Without a loaded learner, or when the learner raises, `predict` answers
   * exactly as `_dummy_prediction` would.
   */
  lemma PredictFallsBack(fastaiAvailable: bool, model: Option<Learner>, labels: seq<string>,
                         image: Image, infer: Classifier, pick: nat, draws: seq<real>)
    requires DrawsFit(Filled(labels), pick, draws)
    requires !Serviceable(fastaiAvailable, model) || infer(model.value, image).Err?
    ensures PredictOutcome(fastaiAvailable, model, labels, image, infer, pick, draws) == DummyOutcome(labels, pick, draws)
    ensures LabelsAfterPredict(fastaiAvailable, model, labels, image, infer) == Filled(labels)
  {
  }

  /**
   * A served prediction: the capitalised token on top, one key per pair of
   * `zip(labels, probs)` at most, and with distinct labels the i-th label's
   * key holding the i-th probability.
   */
  lemma ServedPrediction(fastaiAvailable: bool, model: Option<Learner>, labels: seq<string>,
                         image: Image, infer: Classifier, pick: nat, draws: seq<real>)
    requires DrawsFit(Filled(labels), pick, draws)
    requires Serviceable(fastaiAvailable, model) && infer(model.value, image).Ok?
    ensures var raw := infer(model.value, image).value;
            var r := PredictOutcome(fastaiAvailable, model, labels, image, infer, pick, draws);
            var n := Min(|labels|, |raw.probs|);
            && r.Ok? && r.value.top == Capitalize(raw.token)
            && r.value.probabilities.Keys == (set i | 0 <= i < n :: Capitalize(labels[i]))
            && |r.value.probabilities| <= n
            && (DistinctKeys(labels) ==>
                  forall i :: 0 <= i < n ==> r.value.probabilities[Capitalize(labels[i])] == raw.probs[i])
    ensures LabelsAfterPredict(fastaiAvailable, model, labels, image, infer) == labels
  {
    var raw := infer(model.value, image).value;
    LabelMapSize(labels, raw.probs);
    if DistinctKeys(labels) {
      LabelMapDistinct(labels, raw.probs);
    }
  }

  /** Both default label lists capitalise to the title-case list. */
  lemma DefaultLabelCapitalize(i: nat)
    requires i < 5
    ensures |LowerDefaults| == |TitleDefaults| == 5
    ensures Capitalize(LowerDefaults[i]) == TitleDefaults[i] == Capitalize(TitleDefaults[i])
  {
    assert |LowerDefaults| == |TitleDefaults| == 5;
    var lower, title := LowerDefaults[i], TitleDefaults[i];
    if i == 0 { assert lower == "cardboard" && title == "Cardboard"; }
    else if i == 1 { assert lower == "glass" && title == "Glass"; }
    else if i == 2 { assert lower == "metal" && title == "Metal"; }
    else if i == 3 { assert lower == "paper" && title == "Paper"; }
    else { assert lower == "plastic" && title == "Plastic"; }
    CapitalizeWord(lower, title);
  }

  /** Neither default list has two labels with the same capitalised form. */
  lemma DefaultLabelsDistinct()
    ensures DistinctKeys(LowerDefaults) && DistinctKeys(TitleDefaults)
  {
    assert |LowerDefaults| == 5 && |TitleDefaults| == 5;
    forall i, j | 0 <= i < j < |LowerDefaults|
      ensures Capitalize(LowerDefaults[i]) != Capitalize(LowerDefaults[j])
    {
      DefaultPairDistinct(i, j);
    }
    forall i, j | 0 <= i < j < |TitleDefaults|
      ensures Capitalize(TitleDefaults[i]) != Capitalize(TitleDefaults[j])
    {
      DefaultPairDistinct(i, j);
    }
  }

  lemma DefaultPairDistinct(i: nat, j: nat)
    requires i < j < 5
    ensures Capitalize(LowerDefaults[i]) != Capitalize(LowerDefaults[j])
    ensures Capitalize(TitleDefaults[i]) != Capitalize(TitleDefaults[j])
  {
    DefaultLabelCapitalize(i);
    DefaultLabelCapitalize(j);
    TitleDefaultsDiffer(i, j);
  }

  lemma TitleDefaultsDiffer(i: nat, j: nat)
    requires i < j < 5
    ensures TitleDefaults[i] != TitleDefaults[j]
  {
  }

  /** A default label, once capitalised, names one of the categories the emoji and advice tables know. */
  lemma DefaultLabelsAreKnownCategories(i: nat)
    requires i < 5
    ensures Lower(Capitalize(TitleDefaults[i])) in Utils.KnownCategories
    ensures Lower(Capitalize(LowerDefaults[i])) == LowerDefaults[i]
  {
    DefaultLabelCapitalize(i);
    LowerOfCapitalize(TitleDefaults[i]);
    LowerOfCapitalize(LowerDefaults[i]);
    assert Lower(TitleDefaults[i]) == LowerDefaults[i];
    assert Lower(LowerDefaults[i]) == LowerDefaults[i];
  }

  /** Over the lower-case default vocabulary, the i-th title-case label holds the i-th probability. */
  lemma DefaultLabelMapAt(probs: seq<real>, i: nat)
    requires |probs| == 5 && i < 5
    ensures TitleDefaults[i] in LabelMap(LowerDefaults, probs)
    ensures LabelMap(LowerDefaults, probs)[TitleDefaults[i]] == probs[i]
  {
    assert |LowerDefaults| == 5;
    DefaultLabelsDistinct();
    LabelMapDistinct(LowerDefaults, probs);
    DefaultLabelCapitalize(i);
  }

  /** Over the lower-case default vocabulary, the keys are exactly the title-case labels. */
  lemma DefaultLabelMapKeys(probs: seq<real>)
    requires |probs| == 5
    ensures LabelMap(LowerDefaults, probs).Keys == set i | 0 <= i < 5 :: TitleDefaults[i]
  {
    assert |LowerDefaults| == 5;
    var keys := LabelMap(LowerDefaults, probs).Keys;
    forall k | k in keys ensures k in set i | 0 <= i < 5 :: TitleDefaults[i] {
      var i :| 0 <= i < 5 && k == Capitalize(LowerDefaults[i]);
      DefaultLabelCapitalize(i);
    }
    forall i | 0 <= i < 5 ensures TitleDefaults[i] in keys {
      DefaultLabelMapAt(probs, i);
    }
  }

  /**
   * A stub learner with the lower-case vocabulary, whose classifier answers
   * "metal" with [0.05, 0.05, 0.8, 0.05, 0.05], makes `predict` return "Metal"
   * and a dictionary from the five title-case labels to those probabilities.
   */
  lemma StubLearnerPrediction(image: Image, infer: Classifier, pick: nat, draws: seq<real>)
    requires DrawsFit(LowerDefaults, pick, draws)
    requires infer(Learner(Some(LowerDefaults), []), image)
               == Ok(RawPrediction("metal", 2, [0.05, 0.05, 0.8, 0.05, 0.05]))
    ensures var learner := Learner(Some(LowerDefaults), []);
            var r := PredictOutcome(true, Some(learner), VocabLabels(learner), image, infer, pick, draws);
            && r.Ok? && r.value.top == "Metal"
            && r.value.probabilities.Keys == (set i | 0 <= i < 5 :: TitleDefaults[i])
            && forall i :: 0 <= i < 5 ==> r.value.probabilities[TitleDefaults[i]] == [0.05, 0.05, 0.8, 0.05, 0.05][i]
  {
    var learner := Learner(Some(LowerDefaults), []);
    var probs := [0.05, 0.05, 0.8, 0.05, 0.05];
    var r := PredictOutcome(true, Some(learner), VocabLabels(learner), image, infer, pick, draws);
    assert r == Ok(FromRaw(LowerDefaults, RawPrediction("metal", 2, probs)));
    DefaultLabelMapKeys(probs);
    forall i | 0 <= i < 5 ensures LabelMap(LowerDefaults, probs)[TitleDefaults[i]] == probs[i] {
      DefaultLabelMapAt(probs, i);
    }
    DefaultLabelCapitalize(2);
  }
}
