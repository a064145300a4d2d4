# Waste classifier: inference wrapper and helpers, modelled in Dafny

The application classifies a photo of waste as cardboard, glass, metal, paper
or plastic, and shows a recommendation for disposing of it. This project
models the two parts of the application that make decisions:

- **`ModelHandler`** (model_handler.py). It loads a FastAI learner from a file.
  On Windows it binds the global `pathlib.PosixPath` to `WindowsPath` for the
  duration of the load and restores it afterwards. It predicts with the learner.
  When no learner is loaded, or inference raises, it falls back to a random
  "dummy" prediction. Without FastAI it runs in a degraded mode and never loads.
- **The helpers of utils.py**. Two lookups that ignore letter case (an emoji
  and an HTML disposal text per category), a three-band confidence colour, and
  the ordered checks an uploaded image must pass.

Files:

- `wrappers.dfy` (module `Wrappers`): `Option` and `Result`.
- `ascii.dfy` (module `Ascii`): `str.lower` and `str.capitalize` over ASCII
  letters, and the lemmas that relate the two.
- `distribution.dfy` (module `Distribution`): `sum`, the normalisation
  `p / total`, and the dictionary built from `zip(labels, probs)` with
  capitalised keys (`LabelMap`). Probabilities are exact `real`s.
- `utils.dfy` (module `Utils`): `WasteEmoji`, `DisposalRecommendations`,
  `ConfidenceColor` and `ValidateImage`.
- `model_handler.dfy` (module `ModelHandling`): the global state and the
  handler itself. `Runtime` is a class holding `FASTAI_AVAILABLE`,
  `platform.system()` and the mutable global `pathlib.PosixPath`.
  `ModelHandler` is a class whose `model` and `wasteTypes` fields the methods
  update. Pure functions (`LoadOutcome`, `DummyOutcome`, `PredictOutcome`)
  specify the methods, and lemmas state what the code promises about them.

Inputs that stand in for what the code cannot see:

- The filesystem is the set `fs` of existing paths (`os.path.exists`).
- `load_learner` is an oracle `Loader`. It receives the class `pathlib.PosixPath`
  is bound to while it runs, so the Windows patch is visible to it.
- `Learner.predict` is an oracle `Classifier` that returns a raw prediction or
  an error message.
- `random.choice` and `random.random()` are the parameters `pick` (an index)
  and `draws` (one value in [0, 1) per label). `DrawsFit` states those ranges.
  They are what Python's `random` module guarantees, not requirements the code
  puts on its callers.

Behaviour of the code worth knowing:

- `predict` can raise. When every `random.random()` draw is `0.0`, `total` is
  zero and `p / total` raises `ZeroDivisionError` (model_handler.py:110-112).
  The fallback is called outside the `try` (model_handler.py:89 and 99), so the
  error escapes `predict`. The model returns `Err(ZeroDivision)` there.
  `PredictNeverFails` shows that one positive draw, or a served prediction,
  is enough to succeed.
- Labels with the same capitalised form collapse into one dictionary key,
  which holds the last value written (model_handler.py:94 and 113).
  `LabelMapLastWins` models this overwrite. `DummySumsToOne` assumes distinct
  capitalised labels, which `DefaultLabelsDistinct` proves for both default
  lists.
- `_dummy_prediction` changes the handler: it fills an empty `waste_types`
  with the title-case defaults in place (model_handler.py:107-108), and
  `predict` reaches it on both of its fallback paths.
  `ModelHandler.Predict` models that change.
- Without FastAI, `load_learner` is never imported (model_handler.py:20), so a
  direct call of `load_model` raises `NameError` at model_handler.py:62 or 68,
  after the existence check. `__init__` avoids this by not calling `load_model`
  (model_handler.py:42-46). This is `LoadError.LoaderMissing`.
- The two default label lists use different capitalisation: lower case in
  `__init__` (model_handler.py:46) and title case in `load_model` and
  `_dummy_prediction` (model_handler.py:75 and 108). `DefaultLabelCapitalize`
  shows that this does not change the keys `predict` returns: `capitalize`
  maps both lists to the same title-case labels.

## Model

| member | source | states |
|---|---|---|
| `Ascii.Lower` | utils.py:424 | `lower()` keeps the length and lowers every character, leaving non-letters as they are |
| `Ascii.Capitalize` | model_handler.py:93 | `capitalize()` upper-cases the first character and lowers the rest, and keeps the length |
| `Ascii.LowerDecidesCase` | utils.py:424 | two strings have the same `lower()` exactly when they are equal ignoring letter case (both directions) |
| `Ascii.LowerOfCapitalize` | model_handler.py:93 | capitalising a label does not change it once case is ignored |
| `Ascii.CapitalizeIgnoresCase` | model_handler.py:94 | labels that differ only in case get the same dictionary key |
| `Ascii.CapitalizeIdempotent` | model_handler.py:93 | capitalising an already capitalised label changes nothing |
| `Utils.WasteEmoji` | utils.py:415-424 | each of the five categories, in any letter case, gets its fixed emoji; any other string gets the waste-bin emoji |
| `Utils.WasteEmojiIgnoresCase` | utils.py:424 | inputs equal ignoring case get the same emoji |
| `Utils.TrashEmojiExactlyForUnknown` | utils.py:417-424 | the waste-bin emoji is returned if and only if the lowered input names no category |
| `Utils.DisposalRecommendations` | utils.py:426-488 | each category, in any letter case, gets its own advice text; any other string gets the general text |
| `Utils.DisposalRecommendationsIgnoreCase` | utils.py:485 | inputs equal ignoring case get the same advice |
| `Utils.GeneralAdviceExactlyForUnknown` | utils.py:485-488 | the general text is returned if and only if the lowered input names no category |
| `Utils.ConfidenceColor` | utils.py:494-501 | green exactly at or above 0.8, orange exactly in [0.6, 0.8), red exactly below 0.6 |
| `Utils.ConfidenceColorMonotone` | utils.py:494-501 | a higher confidence never gets a lower colour band |
| `Utils.ValidateImage` | utils.py:511-528 | no upload gives (False, "No image uploaded"); a size above 10 MiB is rejected as too large; a decode error gives "Invalid image: " plus the message; a format other than JPEG, PNG or JPG is unsupported; the result is (True, "Valid image") exactly when every check passes |
| `Utils.ValidateImageMessageDecides` | utils.py:511-528 | the message alone tells acceptance from rejection |
| `Utils.SizeLimitInclusive` | utils.py:517 | a size of exactly 10 MiB passes the size check, as if no size were known |
| `Utils.SizeCheckedBeforeFormat` | utils.py:516-528 | an oversized upload gets the same answer whatever its contents: the size is checked before decoding |
| `Distribution.Sum` | model_handler.py:111 | the sum of non-negative draws is not negative |
| `Distribution.Normalise` | model_handler.py:112 | keeps the length and divides each draw by the total |
| `Distribution.SumNormalise` | model_handler.py:110-112 | dividing every draw by `t` divides their sum by `t` |
| `Distribution.NormalisedSumIsOne` | model_handler.py:111-112 | draws normalised by their non-zero sum add up to exactly 1 |
| `Distribution.SumZeroIffAllZero` | model_handler.py:111 | a sum of non-negative draws is zero exactly when every draw is zero |
| `Distribution.NormalisedInUnitInterval` | model_handler.py:112 | non-negative draws with a positive sum normalise into [0, 1], and positive draws into (0, 1] |
| `Distribution.LabelMap` | model_handler.py:94 | the dictionary's keys are exactly the capitalised labels of the pairs `zip` produces, which stops at the shorter list |
| `Distribution.LabelMapSize` | model_handler.py:94 | the dictionary has at most `min(len(labels), len(probs))` keys |
| `Distribution.LabelMapLastWins` | model_handler.py:94 | a key holds the probability of the last pair that produced it |
| `Distribution.LabelMapValuesFromProbs` | model_handler.py:113 | every value in the dictionary is one of the zipped probabilities |
| `Distribution.LabelMapDistinct` | model_handler.py:94 | with distinct capitalised labels there is one key per pair, and the i-th label's key holds the i-th probability |
| `Distribution.LabelMapInOrder` | model_handler.py:113 | with distinct labels and one probability each, reading the dictionary back in label order gives the probabilities |
| `ModelHandling.Runtime.constructor` | model_handler.py:19-23 | `FASTAI_AVAILABLE` is whether the import succeeded; the platform and the global `PosixPath` binding are as given |
| `ModelHandling.LoadOutcome` | model_handler.py:49-81 | a missing path fails with `FileNotFound`; without FastAI an existing path fails with `NameError`; otherwise the result is the learner `load_learner` returns, or `LoadFailed` with its error message; on Windows `load_learner` runs with `PosixPath` bound to `WindowsPath` |
| `ModelHandling.VocabLabels` | model_handler.py:71-75 | a learner with a vocabulary gives that vocabulary as the labels, in order; one without gives the five title-case defaults |
| `ModelHandling.ModelHandler.constructor` | model_handler.py:38-40 | a new handler has no model and no labels |
| `ModelHandling.ModelHandler.Create` | model_handler.py:36-47 | without FastAI: no load, no error, no model, the lower-case defaults; with FastAI: the outcome of `load_model`, raised to the caller on failure with no model; `is_model_loaded()` holds exactly when FastAI is available and no error was raised; `PosixPath` is unchanged |
| `ModelHandling.ModelHandler.LoadModel` | model_handler.py:49-81 | `PosixPath` holds its original value afterwards, whether the load succeeds or fails; on success `model` is the learner and the labels are its vocabulary in order, or the title-case defaults when it has none; on any failure `model` is `None`, the labels are unchanged and the error is returned |
| `ModelHandling.ModelHandler.Predict` | model_handler.py:83-99 | the result is the learner's answer when the handler is loaded and inference succeeds, and the dummy prediction otherwise; only the dummy path fills an empty label list |
| `ModelHandling.ModelHandler.IsModelLoaded` | model_handler.py:101-103 | holds exactly when a model is set and FastAI is available; `Create` ensures it holds after construction exactly when FastAI is available and no error was raised |
| `ModelHandling.Filled` | model_handler.py:107-108 | the label list used by the dummy prediction is never empty, and a non-empty list is kept as it is |
| `ModelHandling.DummyOutcome` | model_handler.py:105-114 | the dummy prediction fails exactly when the draws sum to zero; otherwise its label is the capitalised label at the random index and its keys are the capitalised filled labels |
| `ModelHandling.PredictOutcome` | model_handler.py:83-99 | not loaded, or inference raised: the result is the dummy outcome; otherwise it succeeds with the capitalised token and keys that are the capitalised labels of the zipped pairs |
| `ModelHandling.ModelHandler.DummyPrediction` | model_handler.py:105-114 | fills an empty label list with the title-case defaults and returns the normalised dummy prediction over the filled list |
| `ModelHandling.DummyFailsOnlyOnZeroDraws` | model_handler.py:110-112 | the dummy prediction raises if and only if every draw is zero |
| `ModelHandling.DummyWellFormed` | model_handler.py:105-114 | with one positive draw, the dummy prediction succeeds; its label is the capitalised form of one of the labels; its keys are the capitalised labels; every probability is in [0, 1] |
| `ModelHandling.DummyPositiveDraws` | model_handler.py:110-113 | when every draw is positive, every probability is in (0, 1] |
| `ModelHandling.DummySumsToOne` | model_handler.py:110-113 | with distinct capitalised labels, the dummy dictionary has one entry per label and its values add up to exactly 1 |
| `ModelHandling.PredictNeverFails` | model_handler.py:83-99 | `predict` returns a prediction whenever it serves the learner's answer or has one positive draw |
| `ModelHandling.PredictFallsBack` | model_handler.py:87-99 | not loaded, or inference raised: the result is exactly the dummy prediction and the label list is filled |
| `ModelHandling.ServedPrediction` | model_handler.py:91-95 | on successful inference the label is the capitalised token; the keys are the capitalised labels of the zipped pairs, at most `min(len(labels), len(probs))` of them; with distinct labels each key holds its probability; the labels are unchanged |
| `ModelHandling.DefaultLabelCapitalize` | model_handler.py:46 | capitalising a lower-case default label gives the matching title-case default, which capitalising leaves as it is |
| `ModelHandling.DefaultLabelsDistinct` | model_handler.py:75 | neither default list has two labels with the same capitalised form |
| `ModelHandling.DefaultLabelsAreKnownCategories` | utils.py:417-424 | a capitalised default label, once lowered, is one of the categories the emoji and advice tables know |
| `ModelHandling.DefaultLabelMapAt` | model_handler.py:94 | over the lower-case default vocabulary, the i-th title-case label holds the i-th probability |
| `ModelHandling.DefaultLabelMapKeys` | model_handler.py:94 | over the lower-case default vocabulary, the keys are exactly the five title-case labels |
| `ModelHandling.StubLearnerPrediction` | model_handler.py:91-95 | a learner with the lower-case vocabulary that answers "metal" with [0.05, 0.05, 0.8, 0.05, 0.05] gives "Metal" and "Cardboard", "Glass", "Metal", "Paper", "Plastic" mapped to those probabilities |

## Left out

- The user interface (streamlit_app.py) is not part of this model: page rendering, charts of fixed demo data, the session-state callback and the cached handler singleton.
- config.py is not part of this model. It holds only constants; creating directories and reading environment variables at import time are I/O.
- `load_css`, `format_probability`, `create_download_link` (base64 per section 4 of RFC 4648, done by the library), `resize_image` and `get_image_info` are left out: they are display formatting or thin wrappers over PIL.
- What `load_learner` and `Learner.predict` compute is left out: they are oracles that return a value or an error.
- The `print` logging and the `warnings` filters are left out, because they are I/O.
- Floating point is left out. Probabilities and confidences are exact reals, so float rounding, `float(p)` and NaN (which Python would colour red) are not modelled.
- `Ascii.Lower`: models `str.lower` on ASCII letters only; other Unicode case mappings are not modelled.
- `Ascii.Capitalize`: models `str.capitalize` on ASCII letters only, with upper case for the first character. Python uses title case, which agrees on ASCII.
- `ModelHandling.ModelHandler.Predict`: `str(pred)` is not modelled; the raw token is already a string. Exceptions from building the dictionary of a served prediction are not modelled, because they cannot arise over strings and reals.
- `ModelHandling.ModelHandler.Predict` and `ModelHandling.ModelHandler.DummyPrediction` require `DrawsFit`: the random index is in range and there is one draw in [0, 1) per label, as Python's `random` guarantees. Randomness itself is not modelled.
- `ModelHandling.DummySumsToOne`: states the sum only for distinct capitalised labels. With duplicates, the code's dictionary loses entries and its values do not sum to 1.
- `ModelHandling.ModelHandler.Create`: modelled as a static method that returns the handler and the raised error, because a Dafny constructor cannot return the error. In Python the caller receives only the exception.
- `model_path` is a constant field. The code never reassigns it.
- Locking around the `PosixPath` patch for concurrent loads is left out. The code has no lock and loads once, and the model only shows that one load restores the binding.
- The insertion order of Python's `dict` is not modelled: the probabilities are a Dafny `map`, which has no order. The application sorts the table by probability before showing it (streamlit_app.py:377). `Distribution.ValuesInOrder` reads the map back in label order where a statement needs the values as a sequence.
