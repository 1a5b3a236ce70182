/** One model update: the cold-start guard, the training labels taken from the
    round just observed, the four online learners queried and then trained,
    and the assembly of their answers into the probabilities stored with the
    round. The learners themselves are opaque: a state type and the
    functions that predict from a state and learn into a new one. */
module Ensemble {
  import opened Results
  import opened Text
  import opened Rounds
  import opened Features

  /** The behaviour of the learners. The three yes/no models share one kind
      (a scaler followed by a passive-aggressive classifier), the digit model
      is another (one-vs-rest logistic regression). A prediction maps class
      labels to probabilities; a yes/no model's positive class is 1. */
  datatype Learners<!S> = Learners(
    predictBinary: (S, FeatureMap) -> map<int, real>,
    learnBinary: (S, FeatureMap, int) -> S,
    predictDigit: (S, FeatureMap) -> map<int, real>,
    learnDigit: (S, FeatureMap, int) -> S)

  /** The states of the four models: red vs. not red, violet vs. not violet,
      big vs. small, and the digit. */
  datatype Models<S> = Models(red: S, violet: S, big: S, digit: S)

  datatype ModelName = RedModel | VioletModel | BigModel | DigitModel

  /** One call on one model, with the features fixed for the whole update. */
  datatype Call = Predict(model: ModelName) | Learn(model: ModelName, target: int)

  function Select<S>(ms: Models<S>, name: ModelName): S {
    match name
    case RedModel => ms.red
    case VioletModel => ms.violet
    case BigModel => ms.big
    case DigitModel => ms.digit
  }

  function Replace<S>(ms: Models<S>, name: ModelName, s: S): Models<S> {
    match name
    case RedModel => ms.(red := s)
    case VioletModel => ms.(violet := s)
    case BigModel => ms.(big := s)
    case DigitModel => ms.(digit := s)
  }

  function PredictWith<S>(L: Learners<S>, name: ModelName, s: S, x: FeatureMap): map<int, real> {
    if name == DigitModel then L.predictDigit(s, x) else L.predictBinary(s, x)
  }

  function LearnWith<S>(L: Learners<S>, name: ModelName, s: S, x: FeatureMap, y: int): S {
    if name == DigitModel then L.learnDigit(s, x, y) else L.learnBinary(s, x, y)
  }

  /** The final states and, in call order, what every `Predict` returned. */
  datatype Trace<S> = Trace(final: Models<S>, outputs: seq<map<int, real>>)

  function PredictCount(calls: seq<Call>): (n: nat)
    ensures n <= |calls|
  {
    if |calls| == 0 then 0
    else PredictCount(calls[..|calls| - 1]) + (if calls[|calls| - 1].Predict? then 1 else 0)
  }

  /** Executing a sequence of calls in order; each learn replaces the state
      of its model and leaves the other three alone. */
  function Run<S>(L: Learners<S>, x: FeatureMap, ms: Models<S>, calls: seq<Call>): (t: Trace<S>)
    ensures |t.outputs| == PredictCount(calls)
  {
    if |calls| == 0 then Trace(ms, [])
    else
      var before := Run(L, x, ms, calls[..|calls| - 1]);
      match calls[|calls| - 1]
      case Predict(name) =>
        Trace(before.final, before.outputs + [PredictWith(L, name, Select(before.final, name), x)])
      case Learn(name, y) =>
        Trace(Replace(before.final, name, LearnWith(L, name, Select(before.final, name), x, y)),
              before.outputs)
  }

  predicate AllPredicts(calls: seq<Call>) {
    forall i :: 0 <= i < |calls| ==> calls[i].Predict?
  }

  predicate AllLearns(calls: seq<Call>) {
    forall i :: 0 <= i < |calls| ==> calls[i].Learn?
  }

  /** Predictions leave every model as it was, and each answers from the
      state the update started with. */
  lemma {:induction false} PredictsReadInitialState<S>(L: Learners<S>, x: FeatureMap, ms: Models<S>,
                                                       calls: seq<Call>)
    requires AllPredicts(calls)
    ensures PredictCount(calls) == |calls|
    ensures Run(L, x, ms, calls).final == ms
    ensures forall i :: 0 <= i < |calls| ==>
      Run(L, x, ms, calls).outputs[i] == PredictWith(L, calls[i].model, Select(ms, calls[i].model), x)
  {
    if |calls| > 0 {
      var init := calls[..|calls| - 1];
      assert AllPredicts(init) by {
        forall i | 0 <= i < |init| ensures init[i].Predict? {
          assert init[i] == calls[i];
        }
      }
      PredictsReadInitialState(L, x, ms, init);
      var outs := Run(L, x, ms, calls).outputs;
      forall i | 0 <= i < |calls|
        ensures outs[i] == PredictWith(L, calls[i].model, Select(ms, calls[i].model), x)
      {
        if i < |calls| - 1 {
          assert calls[i] == init[i];
        }
      }
    }
  }

  /** Learn steps produce no outputs. */
  lemma {:induction false} LearnsProduceNothing<S>(L: Learners<S>, x: FeatureMap, ms: Models<S>,
                                                   calls: seq<Call>)
    requires AllLearns(calls)
    ensures PredictCount(calls) == 0
  {
    if |calls| > 0 {
      var init := calls[..|calls| - 1];
      assert AllLearns(init) by {
        forall i | 0 <= i < |init| ensures init[i].Learn? {
          assert init[i] == calls[i];
        }
      }
      LearnsProduceNothing(L, x, ms, init);
    }
  }

  /** Running `a + b` is running `b` from where `a` left off. */
  lemma {:induction false} RunAppend<S>(L: Learners<S>, x: FeatureMap, ms: Models<S>,
                                        a: seq<Call>, b: seq<Call>)
    ensures Run(L, x, ms, a + b).final == Run(L, x, Run(L, x, ms, a).final, b).final
    ensures Run(L, x, ms, a + b).outputs
         == Run(L, x, ms, a).outputs + Run(L, x, Run(L, x, ms, a).final, b).outputs
    decreases |b|
  {
    if |b| > 0 {
      var b' := b[..|b| - 1];
      assert (a + b)[..|a + b| - 1] == a + b';
      RunAppend(L, x, ms, a, b');
    } else {
      assert a + b == a;
    }
  }

  /** When every prediction comes before every learn step, what each model
      predicts depends only on the states the update started with, whatever
      the learn steps then do. */
  lemma PredictBeforeLearn<S>(L: Learners<S>, x: FeatureMap, ms: Models<S>,
                              predicts: seq<Call>, learns: seq<Call>)
    requires AllPredicts(predicts) && AllLearns(learns)
    ensures |Run(L, x, ms, predicts + learns).outputs| == |predicts|
    ensures forall i :: 0 <= i < |predicts| ==>
      Run(L, x, ms, predicts + learns).outputs[i]
        == PredictWith(L, predicts[i].model, Select(ms, predicts[i].model), x)
  {
    RunAppend(L, x, ms, predicts, learns);
    PredictsReadInitialState(L, x, ms, predicts);
    LearnsProduceNothing(L, x, Run(L, x, ms, predicts).final, learns);
    assert Run(L, x, ms, predicts + learns).outputs == Run(L, x, ms, predicts).outputs;
  }

  /** The training targets for one round. */
  datatype Labels = Labels(red: int, violet: int, big: int, digit: int)

  datatype UpdateError =
    | FeatureTypeError      // a lag difference subtracted a non-int "number"
    | NumberConversionError // `int(number)` raised

  /** Python's `int(v)` on a record's number: an int stays, a string of
      decimal digits is read, anything else raises. */
  function NumberAsInt(v: Num): (r: Option<int>)
    ensures v.Int? ==> r == Some(v.i)
    ensures v.NoNumber? ==> r.None?
  {
    match v
    case Int(i) => Some(i)
    case Str(s) => if IsDigits(s) then Some(DigitsToNat(s)) else None
    case NoNumber => None
  }

  /** What `str` prints, `int` reads back. */
  lemma NumberAsIntOfPrinted(n: nat)
    ensures NumberAsInt(Str(NatToString(n))) == Some(n)
  {
    NatToStringRoundTrip(n);
  }

  /** The violet label looks at the raw "number" value: only the strings
      "0" and "5" count. */
  predicate IsVioletNumber(v: Num) {
    v == Str("0") || v == Str("5")
  }

  /** Labels from the round just observed; the color and size labels compare
      the lowercased fields, "" standing in for an absent key. */
  function DeriveLabels(cur: RoundDoc): (r: Result<Labels, UpdateError>)
    ensures r.Ok? <==> NumberAsInt(cur.number).Some?
    ensures r.Ok? ==>
      && r.value.digit == NumberAsInt(cur.number).value
      && (r.value.red == 1 <==> CurrentColor(cur) == "red")
      && (r.value.big == 1 <==> CurrentSize(cur) == "big")
      && (r.value.violet == 1 <==> IsVioletNumber(cur.number))
      && 0 <= r.value.red <= 1 && 0 <= r.value.violet <= 1 && 0 <= r.value.big <= 1
  {
    match NumberAsInt(cur.number)
    case None => Err(NumberConversionError)
    case Some(d) =>
      Ok(Labels(if CurrentColor(cur) == "red" then 1 else 0,
                if IsVioletNumber(cur.number) then 1 else 0,
                if CurrentSize(cur) == "big" then 1 else 0,
                d))
  }

  /** A violet label always comes with the digit 0 or 5, and a round whose
      number is already an int is never labelled violet. */
  lemma VioletLabelMeaning(cur: RoundDoc)
    requires DeriveLabels(cur).Ok?
    ensures DeriveLabels(cur).value.violet == 1 ==> DeriveLabels(cur).value.digit in {0, 5}
    ensures cur.number.Int? ==> DeriveLabels(cur).value.violet == 0
  {
    if IsVioletNumber(cur.number) {
      assert IsDigits(cur.number.s);
      assert DigitsToNat(cur.number.s[..0]) == 0;
    }
  }

  /** `proba.get(1, default)`: the positive-class probability, or the default
      when the model offers none. */
  function ProbOf(m: map<int, real>, default: real): (p: real)
    ensures 1 in m ==> p == m[1]
    ensures 1 !in m ==> p == default
  {
    if 1 in m then m[1] else default
  }

  /** The probabilities returned with (and stored beside) a round. */
  datatype Probabilities = Probabilities(red: real, green: real, violet: real, big: real, small: real,
                                         numbers: map<string, real>)

  /** Floor of the color normaliser. */
  const Eps: real := 0.000001

  /** The class-to-probability map of the digit model with the classes
      printed as strings. */
  function StringKeyed(raw: map<int, real>): (m: map<string, real>)
    ensures m.Keys == set k | k in raw :: IntToString(k)
    ensures forall k :: k in raw ==> m[IntToString(k)] == raw[k]
  {
    IntToStringInjectiveAll();
    map k | k in raw :: IntToString(k) := raw[k]
  }

  lemma IntToStringInjectiveAll()
    ensures forall a, b :: IntToString(a) == IntToString(b) ==> a == b
  {
    forall a, b | IntToString(a) == IntToString(b) ensures a == b {
      IntToStringInjective(a, b);
    }
  }

  /** Green is the complement of red; red, green and violet are then divided
      by their total (floored at `Eps`), and small is the complement of big. */
  function Assemble(pr: real, pv: real, pb: real, raw: map<int, real>): (p: Probabilities)
    ensures 1.0 + pv >= Eps ==> p.red + p.green + p.violet == 1.0
    ensures 1.0 + pv >= Eps ==>
      p.red == pr / (1.0 + pv) && p.green == (1.0 - pr) / (1.0 + pv) && p.violet == pv / (1.0 + pv)
    ensures 1.0 + pv < Eps ==>
      p.red == pr / Eps && p.green == (1.0 - pr) / Eps && p.violet == pv / Eps
    ensures p.big == pb && p.big + p.small == 1.0
    ensures p.numbers.Keys == set k | k in raw :: IntToString(k)
    ensures forall k :: k in raw ==> p.numbers[IntToString(k)] == raw[k]
  {
    var green := 1.0 - pr;
    var safe := Max(pr + green + pv, Eps);
    ColorShares(pr, pv);
    Probabilities(pr / safe, green / safe, pv / safe, pb, 1.0 - pb, StringKeyed(raw))
  }

  /** The normaliser is `1 + violet` unless the floor applies, and the three
      shares of a normaliser that is not floored add up to 1. */
  lemma ColorShares(pr: real, pv: real)
    ensures var t := Max(pr + (1.0 - pr) + pv, Eps);
      && t > 0.0
      && (1.0 + pv >= Eps ==> t == 1.0 + pv && pr / t + (1.0 - pr) / t + pv / t == 1.0)
  {
    var t := Max(pr + (1.0 - pr) + pv, Eps);
    assert pr + (1.0 - pr) + pv == 1.0 + pv;
    SumOfShares(pr, 1.0 - pr, pv, t);
    if 1.0 + pv >= Eps {
      assert t == 1.0 + pv;
      assert (1.0 + pv) / t == 1.0;
    }
  }

  lemma SumOfShares(a: real, b: real, c: real, t: real)
    requires t > 0.0
    ensures a / t + b / t + c / t == (a + b + c) / t
  {
  }

  /** With the two model outputs in [0, 1] the normalised colors lie in
      [0, 1] and violet takes at most half. */
  lemma AssembledColorsBounded(pr: real, pv: real, pb: real, raw: map<int, real>)
    requires 0.0 <= pr <= 1.0 && 0.0 <= pv <= 1.0
    ensures var p := Assemble(pr, pv, pb, raw);
      && 0.0 <= p.red <= 1.0 && 0.0 <= p.green <= 1.0 && 0.0 <= p.violet <= 0.5
  {
    var t := 1.0 + pv;
    ColorShares(pr, pv);
    DivAtMost(pr, t, 1.0);
    DivAtMost(1.0 - pr, t, 1.0);
    DivAtMost(pv, t, 0.5);
  }

  lemma DivAtMost(a: real, t: real, b: real)
    requires 0.0 <= a <= b * t && 0.0 < t
    ensures 0.0 <= a / t <= b
  {
  }

  /** The answer while fewer than `MinHistory` rounds are stored. */
  function ColdStart(): (p: Probabilities)
    ensures p == Probabilities(0.5, 0.5, 0.0, 0.5, 0.5, p.numbers)
    ensures p.red + p.green + p.violet == 1.0 && p.big + p.small == 1.0
    ensures forall k :: k in p.numbers <==> |k| == 1 && IsDigit(k[0])
    ensures forall k :: k in p.numbers ==> p.numbers[k] == 0.1
  {
    var p := Probabilities(0.5, 0.5, 0.0, 0.5, 0.5, map d | 0 <= d < 10 :: IntToString(d) := 0.1);
    forall k | |k| == 1 && IsDigit(k[0]) ensures k in p.numbers {
      var d := DigitValue(k[0]);
      assert IntToString(d) == [DigitChar(d)] == k;
    }
    p
  }

  const MinHistory: nat := 5

  /** The calls of one update, in the order `update_model` makes them: the four predictions, then
      the four learn steps with this round's labels. */
  function UpdatePredicts(): seq<Call> {
    [Predict(RedModel), Predict(VioletModel), Predict(BigModel), Predict(DigitModel)]
  }

  function UpdateLearns(y: Labels): seq<Call> {
    [Learn(RedModel, y.red), Learn(VioletModel, y.violet), Learn(BigModel, y.big), Learn(DigitModel, y.digit)]
  }

  /** The probabilities and the models after the update. */
  datatype Update<S> = Update(probs: Probabilities, models: Models<S>)

  /** Running the eight calls on features `x` and assembling the answers:
      the probabilities come from the states before this round, and every
      model learns this round's label once. */
  function Learned<S>(L: Learners<S>, ms: Models<S>, x: FeatureMap, y: Labels): (u: Update<S>)
    ensures u.probs == Assemble(ProbOf(L.predictBinary(ms.red, x), 0.5),
                                ProbOf(L.predictBinary(ms.violet, x), 0.0),
                                ProbOf(L.predictBinary(ms.big, x), 0.5),
                                L.predictDigit(ms.digit, x))
    ensures u.models == Models(L.learnBinary(ms.red, x, y.red), L.learnBinary(ms.violet, x, y.violet),
                               L.learnBinary(ms.big, x, y.big), L.learnDigit(ms.digit, x, y.digit))
  {
    var t := Run(L, x, ms, UpdatePredicts() + UpdateLearns(y));
    PredictBeforeLearn(L, x, ms, UpdatePredicts(), UpdateLearns(y));
    LearnsTrainEachModel(L, x, ms, y);
    Update(Assemble(ProbOf(t.outputs[0], 0.5), ProbOf(t.outputs[1], 0.0),
                    ProbOf(t.outputs[2], 0.5), t.outputs[3]),
           t.final)
  }

  /** After the predictions, the learn steps give every model its own label. */
  lemma LearnsTrainEachModel<S>(L: Learners<S>, x: FeatureMap, ms: Models<S>, y: Labels)
    ensures Run(L, x, ms, UpdatePredicts() + UpdateLearns(y)).final
         == Models(L.learnBinary(ms.red, x, y.red), L.learnBinary(ms.violet, x, y.violet),
                   L.learnBinary(ms.big, x, y.big), L.learnDigit(ms.digit, x, y.digit))
  {
    RunAppend(L, x, ms, UpdatePredicts(), UpdateLearns(y));
    PredictsReadInitialState(L, x, ms, UpdatePredicts());
    var ls := UpdateLearns(y);
    var red := L.learnBinary(ms.red, x, y.red);
    var violet := L.learnBinary(ms.violet, x, y.violet);
    var big := L.learnBinary(ms.big, x, y.big);
    assert ls[..1][..0] == [];
    assert Run(L, x, ms, ls[..1]).final == ms.(red := red);
    assert ls[..2][..1] == ls[..1];
    assert Run(L, x, ms, ls[..2]).final == ms.(red := red, violet := violet);
    assert ls[..3][..2] == ls[..2];
    assert Run(L, x, ms, ls[..3]).final == ms.(red := red, violet := violet, big := big);
    assert ls[..3] == ls[..|ls| - 1];
  }

  /** `update_model(current_round, collection)` on a store holding `log`
      (oldest first). */
  function UpdateModel<S>(L: Learners<S>, ms: Models<S>, log: seq<RoundDoc>, cur: RoundDoc)
    : (r: Result<Update<S>, UpdateError>)
    ensures |log| < MinHistory ==> r == Ok(Update(ColdStart(), ms))
    ensures r == Err(FeatureTypeError) <==>
      |log| >= MinHistory && !LagNumbersNumeric(LastRounds(log, WindowSize))
    ensures r == Err(NumberConversionError) <==>
      |log| >= MinHistory && LagNumbersNumeric(LastRounds(log, WindowSize)) && NumberAsInt(cur.number).None?
    ensures |log| >= MinHistory && r.Ok? ==>
      && ExtractFeatures(LastRounds(log, WindowSize), cur).Ok? && DeriveLabels(cur).Ok?
      && r.value == Learned(L, ms, ExtractFeatures(LastRounds(log, WindowSize), cur).value,
                            DeriveLabels(cur).value)
  {
    var w := LastRounds(log, WindowSize);
    if |w| < MinHistory then Ok(Update(ColdStart(), ms))
    else
      match ExtractFeatures(w, cur)
      case Err(_) => Err(FeatureTypeError)
      case Ok(x) =>
        match DeriveLabels(cur)
        case Err(_) => Err(NumberConversionError)
        case Ok(y) => Ok(Learned(L, ms, x, y))
  }

  /** The learners' outputs the update reads are the ones `ProbOf` extracts;
      a yes/no learner is well behaved when its positive-class probability,
      if any, lies in [0, 1]. */
  predicate BinaryInUnit<S>(L: Learners<S>, ms: Models<S>, x: FeatureMap) {
    && 0.0 <= ProbOf(L.predictBinary(ms.red, x), 0.5) <= 1.0
    && 0.0 <= ProbOf(L.predictBinary(ms.violet, x), 0.0) <= 1.0
  }

  /** The stored probabilities are normalised: the colors sum to 1 and lie in
      [0, 1] with violet at most half, and big and small sum to 1, both on
      the cold start and after a learning update whose yes/no learners
      answered within [0, 1]. */
  lemma UpdateNormalised<S>(L: Learners<S>, ms: Models<S>, log: seq<RoundDoc>, cur: RoundDoc)
    requires UpdateModel(L, ms, log, cur).Ok?
    requires |log| >= MinHistory ==>
      BinaryInUnit(L, ms, ExtractFeatures(LastRounds(log, WindowSize), cur).value)
    ensures var p := UpdateModel(L, ms, log, cur).value.probs;
      && p.red + p.green + p.violet == 1.0 && p.big + p.small == 1.0
      && 0.0 <= p.red <= 1.0 && 0.0 <= p.green <= 1.0 && 0.0 <= p.violet <= 0.5
  {
    var w := LastRounds(log, WindowSize);
    if |log| >= MinHistory {
      assert |w| >= MinHistory;
      var x := ExtractFeatures(w, cur).value;
      var y := DeriveLabels(cur).value;
      var u := Learned(L, ms, x, y);
      assert UpdateModel(L, ms, log, cur) == Ok(u);
      var pr := ProbOf(L.predictBinary(ms.red, x), 0.5);
      var pv := ProbOf(L.predictBinary(ms.violet, x), 0.0);
      var pb := ProbOf(L.predictBinary(ms.big, x), 0.5);
      assert u.probs == Assemble(pr, pv, pb, L.predictDigit(ms.digit, x));
      AssembledColorsBounded(pr, pv, pb, L.predictDigit(ms.digit, x));
    }
  }

  /** Learning cannot influence this round's probabilities: two sets of
      learners that predict alike but learn differently give the same
      probabilities from the same states. */
  lemma PredictionIndependentOfLearning<S>(L1: Learners<S>, L2: Learners<S>, ms: Models<S>,
                                           log: seq<RoundDoc>, cur: RoundDoc)
    requires L1.predictBinary == L2.predictBinary && L1.predictDigit == L2.predictDigit
    ensures UpdateModel(L1, ms, log, cur).Ok? <==> UpdateModel(L2, ms, log, cur).Ok?
    ensures UpdateModel(L1, ms, log, cur).Ok? ==>
      UpdateModel(L1, ms, log, cur).value.probs == UpdateModel(L2, ms, log, cur).value.probs
  {
  }
}
