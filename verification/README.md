# BDG round predictor: a Dafny model of its core

The system watches a colour/size/number lottery. It reads each new round off the
results page by OCR. It stores the round in a document store. It predicts the
next round with four online learners:

- red or not;
- violet or not;
- big or not;
- one learner over the ten digits.

The learners are fed a feature vector. That vector is built from the last
hundred stored rounds. A small web endpoint reads the newest rounds back and
tags each one with the colour and size the stored probabilities favoured.

This project models that core as pure functions and proves properties of them.
The modules follow the program's files.

- `Results` (results.dfy): `Option`, `Result`, and small sequence helpers (`Last`, `Reverse`, `CountTrue`).
- `Text` (text.dfy): the Python string operations the pipeline uses, on ASCII.
  - `isdigit` and `int`, as `IsDigits` and `DigitsToNat`.
  - `str`, as `NatToString` and `IntToString`.
  - `lower`, `isspace` and `strip`.
  - `split()` with no argument.
- `Rounds` (rounds.dfy, `utils.py` `get_last_n_rounds`): the stored round documents.
  - The store's "newest n by timestamp" query.
  - Normalisation into the chronological history window.
- `Features` (features.dfy, `utils.py` `extract_features`): the feature dictionary, section by section.
  - The sections are base, zig-zag flag, lags, long-horizon ratios, short counts and colour streak.
  - It can fail: the failure is the `TypeError` a lag difference raises on a non-int number.
- `Ensemble` (ensemble.dfy, `model_updater.py` `update_model`): the model update.
  - Each learner is opaque: a state plus `predict`/`learn` functions, passed in as `Learners`.
  - One update is a trace of predict and learn calls executed by `Run`. The predict-before-learn ordering is proved about that execution, not assumed.
  - Also here: the labels, the colour normalisation, the cold-start answer, and the two ways the update raises.
- `Ocr` (ocr.dfy, `bdg_ocr_pipeline.py` `fetch_result`):
  - the retry over the three OCR engine configurations;
  - the token parser;
  - the `\b20\d{11,}\b` period-id fallback on the page text.
- `FetchLoop` (fetchloop.dfy, `bdg_ocr_pipeline.py` `fetch_loop`): one pass of the loop and finite runs of passes.
  - A pass is gated: no result, no number, or a failed `int` means no update and nothing stored.
  - It stores the document with its probabilities.
  - It picks the console highlight of the predicted colour and size.
- `Accuracy` (accuracy.dfy, `main.py` `latest_data`): the predicted colour and size of a stored record, and the case-insensitive match flags.

The store is a sequence of documents in insertion order. The loop stamps every
document with the current time when it fetches it, so insertion order is
timestamp order. "Sort by timestamp descending, limit n" is therefore the last
n documents, newest first.

The violet label does not follow the obvious reading of "the round's digit is 0
or 5". `update_model` labels a round violet when its raw `"number"` value is one of
the strings `"0"` or `"5"` (`model_updater.py:64`). The loop hands the update an
int (`bdg_ocr_pipeline.py:202`), so on that path the violet label is always 0.
The model follows the code. `Ensemble.VioletLabelMeaning` states both halves:
- a violet label implies the digit is 0 or 5;
- an int number is never labelled violet.

## Model

| member | source | states |
|---|---|---|
| Rounds.QueryNewestFirst | utils.py:8 | the query returns min(n, store size) records; the i-th is the i-th newest stored record |
| Rounds.NormalizeWindow | utils.py:11-19 | the window has one normalised record per query record, in reverse order, so the newest record comes last |
| Rounds.LastRounds | utils.py:3-20 | the query followed by the reversal gives the normalised chronological suffix of the store: its length is min(n, store size), at most n, and position i holds the matching stored record, normalised |
| Rounds.NormalizeRound | utils.py:11-17 | a record's colour and size are its stored ones lowercased, or "n/a" when absent; a digit-only number string becomes the int it spells, and any other number stays as it was |
| Rounds.NormalizedRoundIsCanonical | utils.py:13-17 | window colours and sizes are already lowercase; a number stored as `str(d)` comes back as the int d |
| Text.NatToStringRoundTrip | utils.py:13-14 | `int` reads back exactly the number `str` printed |
| Text.StripKeepsInner | bdg_ocr_pipeline.py:103 | `strip` returns a contiguous slice of its input and drops only white space before and after it |
| Features.ColorStreak | utils.py:95-105 | the streak k is the longest run of newest rounds of the current colour: the newest k rounds match, and the round before them (if any) does not |
| Features.ExtractFeatures | utils.py:23-107 | extraction fails exactly when a lag difference would subtract a non-int number; on success the keys are the expected set (ratio keys only above ten rounds, lag keys only for the rounds present) |
| Features.BaseFeaturesOfCurrent | utils.py:29-35 | "number" is the current round's number; "is_big" is 1 exactly when its lowercased size is "big", else 0 |
| Features.AlternationFlagMeaning | utils.py:46-59 | the zig-zag flag is 1 iff at least three rounds exist and the newest three sizes alternate; otherwise it is 0 |
| Features.LagFeaturesNewestFirst | utils.py:63-72 | lag j describes the j-th newest round (red flag, big flag); its number difference is against the next older round, and 0 for the oldest lag |
| Features.RatiosInUnitInterval | utils.py:75-86 | the three long-horizon ratios are present iff more than ten rounds exist, and each lies in [0, 1]; then red_ratio_100 and big_ratio_100 are the number of red (big) rounds in the whole window divided by its length, and big_freq_50 the number of big rounds among the newest min(50, length) divided by that number |
| Features.ColorCountIsCard | utils.py:77-78 | counting the rounds of a colour is the size of the set of positions holding that colour (the same for sizes in `SizeCountIsCard`) |
| Results.CountTrueIsCard | utils.py:77-93 | counting true flags gives the number of positions where the flag holds |
| Features.ShortCountsBounded | utils.py:89-93 | red_freq_10, green_freq_10, big_freq_10 and small_freq_10 are the numbers of positions among the newest min(10, length) rounds holding that colour or size; each is between 0 and that number, and red+green and big+small do not exceed it either |
| Ensemble.Run | model_updater.py:70-80 | executing a trace produces one output per predict call |
| Ensemble.PredictBeforeLearn | model_updater.py:70-80 | when every predict precedes every learn, each prediction equals what that model predicts from the state before the update, whatever the learn calls do |
| Ensemble.LearnsTrainEachModel | model_updater.py:76-80 | after the update's eight calls every model has learned exactly its own label once, from its state before the update |
| Ensemble.Learned | model_updater.py:70-115 | the returned probabilities are assembled from predictions on the pre-update states; the new states are each model trained once on its label |
| Ensemble.DeriveLabels | model_updater.py:61-68 | the labels exist iff `int(number)` succeeds, and the digit label is that int; red, big and violet are 0/1 flags, 1 exactly for lowercased colour "red", lowercased size "big", and number "0"/"5" |
| Ensemble.VioletLabelMeaning | model_updater.py:63-67 | a violet label implies the digit is 0 or 5; a round whose number is an int is never labelled violet |
| Ensemble.NumberAsIntOfPrinted | model_updater.py:63 | `int` of a number printed by `str` gives that number back |
| Ensemble.StringKeyed | model_updater.py:105 | the digit map with string keys: its keys are exactly the printed classes, each with its class's probability (no two classes collide) |
| Ensemble.ProbOf | model_updater.py:71-73 | the positive-class probability when the model gives one, the default otherwise |
| Ensemble.Assemble | model_updater.py:85-105 | red, green and violet then sum to 1; red, green and violet are red's, its complement's and violet's shares of 1+violet when 1+violet is at least the floor 1e-6, and shares of the floor otherwise; big is the prediction and big+small is 1; digit keys and values are carried over |
| Ensemble.AssembledColorsBounded | model_updater.py:86-99 | with model outputs in [0, 1] every normalised colour lies in [0, 1] and violet is at most 1/2 |
| Ensemble.ColdStart | model_updater.py:49-54 | red = green = 0.5, violet 0, big = small = 0.5; colour and size groups each sum to 1; the digit map has exactly the keys "0".."9", each 0.1 |
| Ensemble.UpdateModel | model_updater.py:44-80 | fewer than five stored rounds gives the cold-start answer with the models untouched; otherwise it fails iff the window's lag numbers are not ints (a lag subtraction raises KeyError on an absent number, TypeError on a string), and with a conversion error iff they are but the round's number is not an int; on success past the cold start the answer is `Learned` on the window's features and the round's labels, i.e. predictions from the models as they were and each model trained once |
| Ensemble.UpdateNormalised | model_updater.py:49-115 | every successful update returns colours summing to 1 inside [0, 1] (violet at most 1/2) and big+small = 1, given learners that answer within [0, 1] |
| Ensemble.PredictionIndependentOfLearning | model_updater.py:70-80 | learners that predict alike but learn differently give identical probabilities from the same states |
| Ocr.SelectOcrText | bdg_ocr_pipeline.py:96-106 | the loop returns the reference choice: the first accepted stripped text, else the last configuration's; it stops right after the first accepted one, and all earlier texts were rejected |
| Ocr.OcrChoiceMeaning | bdg_ocr_pipeline.py:102-106 | the chosen text is the first accepted one, or the last one when none is accepted |
| Ocr.AcceptedHasTwoTokens | bdg_ocr_pipeline.py:103-111 | a stripped text the retry accepts always splits into at least two tokens |
| Ocr.ParseOcrText | bdg_ocr_pipeline.py:108-128 | number, colour and size are all present or all absent; a number is the last token and a single digit, with size Small iff it is at most 4 and colour Red iff it is even, never Violet; conversely two or more tokens whose last is a single digit always give that number, with size Small or Big and colour Red or Green as the digit decides; the period is the first of two or more tokens, or a single token longer than ten characters, else "Unknown" |
| Ocr.ParseOfPeriodAndDigit | bdg_ocr_pipeline.py:109-121 | the parser reads back a text made of a period token, a space and a digit: period, number, size and colour all come out as written |
| Ocr.SearchPeriod | bdg_ocr_pipeline.py:135-137 | no id is found iff no position matches; a found id is "20" followed by at least eleven more digits |
| Ocr.SearchPeriodLeftmost | bdg_ocr_pipeline.py:136 | the id found is the match at the leftmost matching position, its maximal digit run |
| Ocr.FetchResult | bdg_ocr_pipeline.py:80-149 | colour, size and number come from the parse (none when the OCR step raised); the page-text search replaces the period only when the parse left it "Unknown" |
| FetchLoop.NumberToInt | bdg_ocr_pipeline.py:200-206 | the conversion succeeds exactly on digit strings and then yields their decimal value |
| FetchLoop.NumberToIntOfPrinted | bdg_ocr_pipeline.py:200-206 | converting a printed natural gives that natural back |
| FetchLoop.StoredDoc | bdg_ocr_pipeline.py:212-223 | the stored document keeps the fetched period, colour, size and number string and carries the update's probabilities, "prob_big"/"prob_small" under the keys "prob_size_big"/"prob_size_small" |
| FetchLoop.FetchStep | bdg_ocr_pipeline.py:193-226 | a document is stored iff the fetch gave a number that converts and the update succeeded; then it holds the fetched fields and the update's probabilities, and the models are the updated ones; otherwise the models are untouched |
| FetchLoop.ParsedDigitInNextWindow | bdg_ocr_pipeline.py:115-121 | a digit the parser reads is stored and comes back as the newest round of the next window: colour "red" iff the digit is even, else "green"; size "big" iff it exceeds 4, else "small"; number the digit as an int |
| FetchLoop.StoredDocNormalises | utils.py:13-14 | a stored document's number string comes back in the window as the int of its digit |
| FetchLoop.WellFormedWindowIsNumeric | utils.py:63-72 | on a store only the loop wrote, every window number is an int, so the lag differences never raise |
| FetchLoop.ParsedDigitIsStored | bdg_ocr_pipeline.py:196-226 | on such a store every parsed result with a number is stored, keeps its number string, and the stored document is well formed |
| FetchLoop.PassKeepsLogWellFormed | bdg_ocr_pipeline.py:193-226 | on a store the loop wrote, a pass with a parser-shaped fetch stores a document exactly when the fetch carried a number, and the store stays well formed |
| FetchLoop.FetchRun | bdg_ocr_pipeline.py:186-277 | a run of passes only appends: the old store is a prefix of the new one, which grows by at most one document per pass |
| FetchLoop.FetchRunKeepsLogWellFormed | bdg_ocr_pipeline.py:186-277 | from a store the loop wrote, the store stays well formed and grows by exactly one document per fetch that carried a number |
| FetchLoop.HighlightColor | bdg_ocr_pipeline.py:237-248 | a colour is highlighted iff the largest probability exceeds 0.35; the highlighted one is maximal, and ties go to red, then green |
| FetchLoop.HighlightSize | bdg_ocr_pipeline.py:250-258 | big or small is highlighted iff it is strictly larger; a tie highlights neither |
| FetchLoop.ColdStartHighlight | bdg_ocr_pipeline.py:242-258 | the cold-start answer highlights red (its tie with green) and no size |
| Accuracy.ColorTop | main.py:46 | the top probability is at least each stored one (absent counting 0) and equals one of them |
| Accuracy.PredictColor | main.py:46-55 | red iff the red probability is present and equals the top; green iff red does not and green does; violet iff neither does and violet does; "Unknown" iff no present probability equals the top |
| Accuracy.PredictColorIsArgmax | main.py:46-55 | the predicted colour is a present maximal probability; green must beat a present red strictly, violet must beat both strictly |
| Accuracy.UnknownOnlyWhenMissing | main.py:46-55 | "Unknown" iff no present probability is at least the other two with absent ones counting 0; so it implies a missing probability, all three missing gives it, and a missing red loses to a present non-negative green that is at least violet |
| Accuracy.MissingRedPredictsGreen | main.py:46-55 | a record with no red probability, green 0.3 and violet 0.2 is predicted green |
| Accuracy.PredictSize | main.py:58 | Big exactly when a stored big probability exceeds 1/2; otherwise Small |
| Accuracy.TagRecord | main.py:44-65 | a record can be tagged iff it has a colour and a size; the match flags compare the predictions with them case-insensitively |
| Accuracy.MatchIgnoresCase | main.py:61-65 | re-casing a record's actual colour or size changes no match flag |
| Accuracy.TagAll | main.py:44-67 | the request succeeds iff every record can be tagged, and then tags each record in place |
| Accuracy.LatestData | main.py:36-67 | the answer exists iff each of the newest min(limit, store size) records has a colour-and-size tag; it then holds exactly those records, newest first, each with its own tags |
| Accuracy.LatestDataOfLoopStore | main.py:36-65 | on a store only the loop wrote, the endpoint never fails |
| Accuracy.StoredDocReadsBack | main.py:46-58 | a document the loop stores can be tagged iff it has a colour and a size; it is then tagged with the argmax of the stored colour probabilities and with Big iff the update's big probability, read back under "prob_size_big", exceeds 1/2 |
| Accuracy.PredictionMatchesHighlight | main.py:46-55 | whenever the top colour clears 0.35, the endpoint's predicted colour is the colour the console highlighted |

## Left out

- Browser automation, the screenshot and crop, and the OCR engine are not modelled. The engine is a function from configuration string to text, and the page text is a parameter. A failure anywhere in `fetch_result` becomes `None` (`bdg_ocr_pipeline.py:151-153`). An OCR step that raises before parsing becomes an absent OCR text.
- The learners' internals are not modelled: river's `StandardScaler`, `PAClassifier`, `OneVsRestClassifier` and `LogisticRegression`. They are opaque state-passing functions. Nothing is claimed about what they predict beyond what the update does with it.
- Floating point and `round(v, 3)` are not modelled: probabilities are exact reals and are not rounded. The sums to 1 are exact in the model, where the program's are approximate.
- Python objects are not modelled in full; the model keeps only what the core stores. Bool and float numbers, and keys present with value `None`, are left out. An absent key is `None`/`NoNumber`. A present `None` would make `.lower()` raise in `get_last_n_rounds`.
- Text handling is ASCII only. Unicode digits, case mapping and white space in `isdigit`, `int`, `lower`, `isspace`, `split` and the regex classes `\b`, `\d`, `\w` are not modelled.
- `Ensemble.NumberAsInt` does not accept a sign or surrounding white space, which Python's `int` does. The model only ever converts parser output, which is one digit.
- `FetchLoop.NumberToInt` has the same limitation, for the same reason.
- `Features.BaseFeatures` leaves out the "number" key when the round's number is not an int. `extract_features` then stores whatever value was there. The update only ever passes an int.
- The store's database is not modelled: MongoDB, the `timestamp` and `_id` fields, the stored projection, and the `raw_logs` endpoint. The store is a sequence in insertion order.
- Async scheduling is not modelled. This covers the start/stop flag, `input_listener` and the sleeps, including the ten-second sleep after a failed conversion. `fetch_loop` runs forever; the model covers every finite prefix of passes.
- Console output is not modelled: prints, ANSI colour codes and the timestamps in log lines. The highlight is modelled as the chosen colour and size marks.
- The page-scraping alternative in `bdg_scraper.py` is not part of this model.
- `Accuracy.LatestData` takes a non-negative limit. A limit of 0 or less means "no limit" or an error in the driver, and is not modelled.
