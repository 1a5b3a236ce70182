/** One pass of the fetch loop: the gate that decides whether a fetched
    result reaches the models, the document stored with the predictions,
    and the console highlight of the predicted color and size. The store is
    a sequence of documents in insertion (timestamp) order. */
module FetchLoop {
  import opened Results
  import opened Text
  import opened Rounds
  import opened Features
  import opened Ensemble
  import opened Ocr

  /** `int(result["number"])` on the fetched number string; the parser only
      ever produces a single ASCII digit. */
  function NumberToInt(n: string): (r: Option<int>)
    ensures r.Some? <==> IsDigits(n)
    ensures r.Some? ==> r.value == DigitsToNat(n) && r.value >= 0
  {
    if IsDigits(n) then Some(DigitsToNat(n)) else None
  }

  /** Reading back a printed natural gives that natural. */
  lemma NumberToIntOfPrinted(v: nat)
    ensures NumberToInt(NatToString(v)) == Some(v)
  {
    NatToStringRoundTrip(v);
  }

  /** The copy handed to the model update: the same fields, with the number
      converted to an int. */
  function ModelRound(p: Parsed, n: int): RoundDoc {
    RoundDoc(Some(p.period), p.color, p.size, Int(n), None, None, None, None, None, None)
  }

  /** The document stored for a fetched result: the number stays a string,
      and the update's "prob_big"/"prob_small" are stored as
      "prob_size_big"/"prob_size_small". */
  function StoredDoc(p: Parsed, number: string, probs: Probabilities): (d: RoundDoc)
    ensures d.period == Some(p.period) && d.color == p.color && d.size == p.size && d.number == Str(number)
    ensures d.probRed == Some(probs.red) && d.probGreen == Some(probs.green) && d.probViolet == Some(probs.violet)
    ensures d.probSizeBig == Some(probs.big) && d.probSizeSmall == Some(probs.small)
    ensures d.probNumbers == Some(probs.numbers)
  {
    RoundDoc(Some(p.period), p.color, p.size, Str(number),
             Some(probs.red), Some(probs.green), Some(probs.violet),
             Some(probs.big), Some(probs.small), Some(probs.numbers))
  }

  /** What one pass leaves behind: the document inserted, if any, and the
      model states. */
  datatype Step<S> = Step(stored: Option<RoundDoc>, models: Models<S>)

  /** One pass on a store holding `log`. `fetched` is `fetch_result()`, `None`
      when it failed. A result without a number, a number `int` rejects, and
      an update that raises all skip the round; nothing is stored then and
      the models are untouched, because an update raises before it trains. */
  function FetchStep<S>(L: Learners<S>, ms: Models<S>, log: seq<RoundDoc>, fetched: Option<Parsed>)
    : (st: Step<S>)
    ensures st.stored.Some? <==>
      && fetched.Some? && fetched.value.number.Some?
      && NumberToInt(fetched.value.number.value).Some?
      && UpdateModel(L, ms, log, ModelRound(fetched.value, NumberToInt(fetched.value.number.value).value)).Ok?
    ensures st.stored.None? ==> st.models == ms
    ensures st.stored.Some? ==>
      var p := fetched.value;
      var u := UpdateModel(L, ms, log, ModelRound(p, NumberToInt(p.number.value).value)).value;
      && st.stored.value == StoredDoc(p, p.number.value, u.probs)
      && st.models == u.models
  {
    match fetched
    case None => Step(None, ms)
    case Some(p) =>
      match p.number
      case None => Step(None, ms)
      case Some(number) =>
        match NumberToInt(number)
        case None => Step(None, ms)
        case Some(n) =>
          match UpdateModel(L, ms, log, ModelRound(p, n))
          case Err(_) => Step(None, ms)
          case Ok(u) => Step(Some(StoredDoc(p, number, u.probs)), u.models)
  }

  /** The shape of every document the loop stores: a single-digit number
      string and a color and a size. */
  predicate WellFormedDoc(d: RoundDoc) {
    && d.number.Str? && |d.number.s| == 1 && IsDigit(d.number.s[0])
    && d.color.Some? && d.size.Some?
  }

  predicate WellFormedLog(log: seq<RoundDoc>) {
    forall i :: 0 <= i < |log| ==> WellFormedDoc(log[i])
  }

  /** The shape of what the OCR parser produces. */
  predicate ParserShaped(p: Parsed) {
    p.number.Some? ==> |p.number.value| == 1 && IsDigit(p.number.value[0]) && p.color.Some? && p.size.Some?
  }

  lemma FetchResultIsParserShaped(ocrText: Option<string>, page: string)
    ensures ParserShaped(FetchResult(ocrText, page))
  {
  }

  /** A stored document normalises to a window round whose number is the
      int of its digit. */
  lemma StoredDocNormalises(d: RoundDoc)
    requires WellFormedDoc(d)
    ensures NormalizeRound(d).number == Int(DigitValue(d.number.s[0]))
  {
    var s := d.number.s;
    assert IsDigits(s);
    assert DigitsToNat(s[..0]) == 0;
    assert DigitsToNat(s) == DigitValue(s[0]);
  }

  /** The parser's color and size names, lowercased as the window reads them. */
  lemma LowerParsedNames()
    ensures Lower("Red") == "red" && Lower("Green") == "green"
    ensures Lower("Big") == "big" && Lower("Small") == "small"
  {
    assert LowerChar('R') == 'r' && LowerChar('G') == 'g';
    assert LowerChar('B') == 'b' && LowerChar('S') == 's';
    assert forall c :: 'a' <= c <= 'z' ==> LowerChar(c) == c;
  }

  /** Across the OCR parser, the stored document and the next window: a
      digit the parser read from the result box comes back as the newest
      round of the following window, "red" exactly when the digit is even
      and "green" otherwise, "big" exactly when it exceeds 4 and "small"
      otherwise, with the digit as its int number. */
  lemma ParsedDigitInNextWindow(raw: string, probs: Probabilities, log: seq<RoundDoc>, n: nat)
    requires ParseOcrText(raw).number.Some?
    requires n > 0
    ensures var p := ParseOcrText(raw);
      var d := DigitValue(p.number.value[0]);
      var w := LastRounds(log + [StoredDoc(p, p.number.value, probs)], n);
      && |w| > 0 && d < 10
      && (w[|w| - 1].color == "red" <==> d % 2 == 0)
      && (w[|w| - 1].color == "green" <==> d % 2 == 1)
      && (w[|w| - 1].size == "big" <==> d > 4)
      && (w[|w| - 1].size == "small" <==> d <= 4)
      && w[|w| - 1].number == Int(d)
  {
    var p := ParseOcrText(raw);
    var doc := StoredDoc(p, p.number.value, probs);
    var log' := log + [doc];
    var w := LastRounds(log', n);
    assert w[|w| - 1] == NormalizeRound(log'[|log'| - 1]);
    assert log'[|log'| - 1] == doc;
    assert WellFormedDoc(doc);
    StoredDocNormalises(doc);
    LowerParsedNames();
  }

  /** In a store written only by the loop, every window round has an int
      number, so the lag differences never raise. */
  lemma WellFormedWindowIsNumeric(log: seq<RoundDoc>, n: nat)
    requires WellFormedLog(log)
    ensures forall i :: 0 <= i < |LastRounds(log, n)| ==> LastRounds(log, n)[i].number.Int?
    ensures LagNumbersNumeric(LastRounds(log, n))
  {
    forall i | 0 <= i < |LastRounds(log, n)| ensures LastRounds(log, n)[i].number.Int? {
      WindowRoundIsNumeric(log, n, i);
    }
  }

  lemma WindowRoundIsNumeric(log: seq<RoundDoc>, n: nat, i: nat)
    requires WellFormedLog(log)
    requires i < |LastRounds(log, n)|
    ensures LastRounds(log, n)[i].number.Int?
  {
    var k := |log| - |LastRounds(log, n)| + i;
    assert WellFormedDoc(log[k]);
    StoredDocNormalises(log[k]);
  }

  /** On a store written only by the loop, every result the parser gave a
      number is stored, with the same number string; the update cannot fail. */
  lemma ParsedDigitIsStored<S>(L: Learners<S>, ms: Models<S>, log: seq<RoundDoc>, p: Parsed)
    requires WellFormedLog(log) && ParserShaped(p) && p.number.Some?
    ensures FetchStep(L, ms, log, Some(p)).stored.Some?
    ensures WellFormedDoc(FetchStep(L, ms, log, Some(p)).stored.value)
    ensures FetchStep(L, ms, log, Some(p)).stored.value.number == Str(p.number.value)
  {
    var number := p.number.value;
    assert IsDigits(number);
    var cur := ModelRound(p, DigitsToNat(number));
    WellFormedWindowIsNumeric(log, WindowSize);
    assert NumberAsInt(cur.number).Some?;
  }

  /** The loop over a sequence of passes: the store and the models after them. */
  datatype LoopState<S> = LoopState(log: seq<RoundDoc>, models: Models<S>)

  function FetchRun<S>(L: Learners<S>, s: LoopState<S>, fetches: seq<Option<Parsed>>): (t: LoopState<S>)
    ensures |s.log| <= |t.log| <= |s.log| + |fetches|
    ensures s.log <= t.log
    decreases |fetches|
  {
    if |fetches| == 0 then s
    else
      var before := FetchRun(L, s, fetches[..|fetches| - 1]);
      var st := FetchStep(L, before.models, before.log, fetches[|fetches| - 1]);
      match st.stored
      case None => LoopState(before.log, st.models)
      case Some(d) => LoopState(before.log + [d], st.models)
  }

  /** Starting from a store the loop wrote, with parser-shaped fetches, the
      store stays one the loop wrote, and it grows by exactly one document
      per fetch that carried a number. */
  lemma {:induction false} FetchRunKeepsLogWellFormed<S>(L: Learners<S>, s: LoopState<S>,
                                                         fetches: seq<Option<Parsed>>)
    requires WellFormedLog(s.log)
    requires forall i :: 0 <= i < |fetches| && fetches[i].Some? ==> ParserShaped(fetches[i].value)
    ensures WellFormedLog(FetchRun(L, s, fetches).log)
    ensures |FetchRun(L, s, fetches).log| == |s.log| + CountTrue(HasNumber(fetches))
    decreases |fetches|
  {
    if |fetches| > 0 {
      var init := fetches[..|fetches| - 1];
      assert forall i :: 0 <= i < |init| && init[i].Some? ==> ParserShaped(init[i].value) by {
        forall i | 0 <= i < |init| && init[i].Some? ensures ParserShaped(init[i].value) {
          assert init[i] == fetches[i];
        }
      }
      FetchRunKeepsLogWellFormed(L, s, init);
      HasNumberOfLast(fetches);
      var before := FetchRun(L, s, init);
      PassKeepsLogWellFormed(L, before.models, before.log, fetches[|fetches| - 1]);
    }
  }

  /** The count of passes with a number, one pass at a time. */
  lemma HasNumberOfLast(fetches: seq<Option<Parsed>>)
    requires |fetches| > 0
    ensures var last := fetches[|fetches| - 1];
      CountTrue(HasNumber(fetches))
        == CountTrue(HasNumber(fetches[..|fetches| - 1])) + (if last.Some? && last.value.number.Some? then 1 else 0)
  {
    assert HasNumber(fetches)[..|fetches| - 1] == HasNumber(fetches[..|fetches| - 1]);
  }

  /** One pass on a store the loop wrote, with a parser-shaped fetch, stores
      a document exactly when the fetch carried a number, and that document
      keeps the store well formed. */
  lemma PassKeepsLogWellFormed<S>(L: Learners<S>, ms: Models<S>, log: seq<RoundDoc>, fetched: Option<Parsed>)
    requires WellFormedLog(log)
    requires fetched.Some? ==> ParserShaped(fetched.value)
    ensures var st := FetchStep(L, ms, log, fetched);
      && (st.stored.Some? <==> fetched.Some? && fetched.value.number.Some?)
      && (st.stored.Some? ==> WellFormedLog(log + [st.stored.value]))
  {
    if fetched.Some? && fetched.value.number.Some? {
      ParsedDigitIsStored(L, ms, log, fetched.value);
      AppendWellFormed(log, FetchStep(L, ms, log, fetched).stored.value);
    }
  }

  lemma AppendWellFormed(log: seq<RoundDoc>, d: RoundDoc)
    requires WellFormedLog(log) && WellFormedDoc(d)
    ensures WellFormedLog(log + [d])
  {
    assert forall i :: 0 <= i < |log| ==> (log + [d])[i] == log[i];
  }

  /** Per pass, whether the fetch succeeded with a number. */
  function HasNumber(fetches: seq<Option<Parsed>>): (bs: seq<bool>)
    ensures |bs| == |fetches|
  {
    seq(|fetches|, i requires 0 <= i < |fetches| => fetches[i].Some? && fetches[i].value.number.Some?)
  }

  /** The console highlight of the color line. */
  datatype ColorMark = MarkRed | MarkGreen | MarkViolet | NoColorMark

  /** Confidence a color needs before it is highlighted. */
  const HighlightThreshold: real := 0.35

  /** The largest of the three color probabilities is highlighted when it
      exceeds the threshold; on a tie red wins over green and green over
      violet. */
  function HighlightColor(pr: real, pg: real, pv: real): (m: ColorMark)
    ensures m != NoColorMark <==> Max(Max(pr, pg), pv) > HighlightThreshold
    ensures m == MarkRed ==> pr >= pg && pr >= pv
    ensures m == MarkGreen ==> pg > pr && pg >= pv
    ensures m == MarkViolet ==> pv > pr && pv > pg
  {
    var top := Max(Max(pr, pg), pv);
    if top > HighlightThreshold then
      if pr == top then MarkRed
      else if pg == top then MarkGreen
      else if pv == top then MarkViolet
      else NoColorMark
    else NoColorMark
  }

  datatype SizeMark = MarkBig | MarkSmall | NoSizeMark

  /** The size line is highlighted only for a strict winner. */
  function HighlightSize(pb: real, ps: real): (m: SizeMark)
    ensures m == MarkBig <==> pb > ps
    ensures m == MarkSmall <==> ps > pb
    ensures m == NoSizeMark <==> pb == ps
  {
    if pb > ps then MarkBig else if ps > pb then MarkSmall else NoSizeMark
  }

  /** The cold-start answer highlights red (the tie with green goes to red)
      and no size. */
  lemma ColdStartHighlight()
    ensures HighlightColor(ColdStart().red, ColdStart().green, ColdStart().violet) == MarkRed
    ensures HighlightSize(ColdStart().big, ColdStart().small) == NoSizeMark
  {
  }
}
