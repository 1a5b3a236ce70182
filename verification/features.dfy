/** The feature vector built for every round from the chronological history
    window (oldest first) and the round just observed. */
module Features {
  import opened Results
  import opened Text
  import opened Rounds

  /** The feature names; `Name` gives the dictionary key the models see. */
  datatype FeatureKey =
    | Number
    | IsBig
    | IsAlternating3
    | LagColor(lag: nat)
    | LagSize(lag: nat)
    | LagNumDiff(lag: nat)
    | RedRatio100
    | BigRatio100
    | BigFreq50
    | RedFreq10
    | GreenFreq10
    | BigFreq10
    | SmallFreq10
    | CurrentColorStreak
  {
    function Name(): string {
      match this
      case Number => "number"
      case IsBig => "is_big"
      case IsAlternating3 => "is_alternating_3"
      case LagColor(j) => "lag_color_" + NatToString(j)
      case LagSize(j) => "lag_size_" + NatToString(j)
      case LagNumDiff(j) => "lag_num_diff_" + NatToString(j)
      case RedRatio100 => "red_ratio_100"
      case BigRatio100 => "big_ratio_100"
      case BigFreq50 => "big_freq_50"
      case RedFreq10 => "red_freq_10"
      case GreenFreq10 => "green_freq_10"
      case BigFreq10 => "big_freq_10"
      case SmallFreq10 => "small_freq_10"
      case CurrentColorStreak => "current_color_streak"
    }
  }

  type FeatureMap = map<FeatureKey, real>

  /** Subtracting two "number" values that are not both ints raises. */
  datatype FeatureError = NonNumericLagNumber

  /** How many of the newest rounds get lag features. */
  const LagDepth: nat := 5
  /** History longer than this gets the long-horizon ratios. */
  const RatioThreshold: nat := 10
  const MediumHorizon: nat := 50
  const ShortHorizon: nat := 10

  /** Per round of `w`, whether its color is `c`. */
  function ColorIs(w: seq<Round>, c: string): (bs: seq<bool>)
    ensures |bs| == |w|
  {
    seq(|w|, i requires 0 <= i < |w| => w[i].color == c)
  }

  /** Per round of `w`, whether its size is `z`. */
  function SizeIs(w: seq<Round>, z: string): (bs: seq<bool>)
    ensures |bs| == |w|
  {
    seq(|w|, i requires 0 <= i < |w| => w[i].size == z)
  }

  /** A 0/1 feature. */
  function Flag(b: bool): (r: real)
    ensures r == 1.0 <==> b
    ensures r == 0.0 <==> !b
  {
    if b then 1.0 else 0.0
  }

  /** `count / length` for a non-empty window. */
  function Ratio(count: nat, length: nat): (r: real)
    requires length > 0
    ensures count <= length ==> 0.0 <= r <= 1.0
  {
    count as real / length as real
  }

  /** Whether `key` is a lag key of a lag in 1..k. */
  predicate IsLagKey(key: FeatureKey, k: nat) {
    match key
    case LagColor(j) => 1 <= j <= k
    case LagSize(j) => 1 <= j <= k
    case LagNumDiff(j) => 1 <= j <= k
    case _ => false
  }

  /** The lag keys for lags 1..k. */
  function LagKeys(k: nat): set<FeatureKey> {
    (set j | 1 <= j <= k :: LagColor(j))
    + (set j | 1 <= j <= k :: LagSize(j))
    + (set j | 1 <= j <= k :: LagNumDiff(j))
  }

  lemma LagKeysAreLags(k: nat)
    ensures forall key :: key in LagKeys(k) ==> IsLagKey(key, k)
  {
  }

  /** The three keys of lag `j`, for `j` in 1..k. */
  lemma LagKeysOfLag(k: nat, j: nat)
    requires 1 <= j <= k
    ensures LagColor(j) in LagKeys(k) && LagSize(j) in LagKeys(k) && LagNumDiff(j) in LagKeys(k)
  {
  }

  function BaseKeys(numberIsInt: bool): set<FeatureKey> {
    (if numberIsInt then {Number} else {}) + {IsBig}
  }

  function RatioKeys(n: nat): set<FeatureKey> {
    if n > RatioThreshold then {RedRatio100, BigRatio100, BigFreq50} else {}
  }

  const CountKeys: set<FeatureKey> := {RedFreq10, GreenFreq10, BigFreq10, SmallFreq10}

  /** The sections of the dictionary never share a key. */
  lemma SectionKeysDisjoint(n: nat, numberIsInt: bool)
    ensures BaseKeys(numberIsInt) !! LagKeys(Min(LagDepth, n))
    ensures BaseKeys(numberIsInt) !! RatioKeys(n) && BaseKeys(numberIsInt) !! CountKeys
    ensures LagKeys(Min(LagDepth, n)) !! RatioKeys(n) && LagKeys(Min(LagDepth, n)) !! CountKeys
    ensures RatioKeys(n) !! CountKeys
    ensures IsAlternating3 !in BaseKeys(numberIsInt) + LagKeys(Min(LagDepth, n)) + RatioKeys(n) + CountKeys
    ensures CurrentColorStreak !in BaseKeys(numberIsInt) + LagKeys(Min(LagDepth, n)) + RatioKeys(n) + CountKeys
  {
    LagKeysDisjoint(n, numberIsInt);
  }

  lemma LagKeysDisjoint(n: nat, numberIsInt: bool)
    ensures BaseKeys(numberIsInt) !! LagKeys(Min(LagDepth, n))
    ensures LagKeys(Min(LagDepth, n)) !! RatioKeys(n) && LagKeys(Min(LagDepth, n)) !! CountKeys
    ensures IsAlternating3 !in LagKeys(Min(LagDepth, n)) && CurrentColorStreak !in LagKeys(Min(LagDepth, n))
  {
    LagKeysAreLags(Min(LagDepth, n));
  }

  /** The keys an extraction produces: it depends only on the window length
      and on whether the current number is an int. */
  function ExpectedKeys(n: nat, numberIsInt: bool): set<FeatureKey> {
    (if numberIsInt then {Number} else {})
    + {IsBig, IsAlternating3}
    + LagKeys(Min(LagDepth, n))
    + (if n > RatioThreshold then {RedRatio100, BigRatio100, BigFreq50} else {})
    + {RedFreq10, GreenFreq10, BigFreq10, SmallFreq10, CurrentColorStreak}
  }

  /** The current round's color and size as the extractor reads them:
      lowercased, with "" for an absent key. */
  function CurrentColor(current: RoundDoc): string {
    Lower(current.color.OrDefault(""))
  }

  function CurrentSize(current: RoundDoc): string {
    Lower(current.size.OrDefault(""))
  }

  /** "number" and "is_big" from the current round. */
  function BaseFeatures(current: RoundDoc): (f: FeatureMap)
    ensures f.Keys == BaseKeys(current.number.Int?)
  {
    (if current.number.Int? then map[Number := current.number.i as real] else map[])
    + map[IsBig := Flag(CurrentSize(current) == "big")]
  }

  /** The zig-zag flag, read off the last five rounds as `extract_features` does. */
  function AlternationFlag(w: seq<Round>): real {
    var h5 := Last(w, LagDepth);
    if |h5| >= 3 && h5[|h5| - 1].size != h5[|h5| - 2].size && h5[|h5| - 2].size != h5[|h5| - 3].size
    then 1.0 else 0.0
  }

  /** Lag differences subtract "number" values of neighbouring rounds among
      the last five, so each of those must be an int once there are two. */
  predicate LagNumbersNumeric(w: seq<Round>) {
    |w| <= 1 || forall i :: |w| - Min(LagDepth, |w|) <= i < |w| ==> w[i].number.Int?
  }

  /** A round's number as an int; only read where it is one. */
  function NumberValue(r: Round): int {
    if r.number.Int? then r.number.i else 0
  }

  /** The feature of one lag key; position `i = k - lag` of the last `k`
      rounds, as the `enumerate` loop of `extract_features` indexes them. */
  function LagValue(h5: seq<Round>, key: FeatureKey): real
    requires IsLagKey(key, |h5|)
  {
    match key
    case LagColor(lag) => Flag(h5[|h5| - lag].color == "red")
    case LagSize(lag) => Flag(h5[|h5| - lag].size == "big")
    case LagNumDiff(lag) =>
      var i := |h5| - lag;
      if i > 0 then (NumberValue(h5[i]) - NumberValue(h5[i - 1])) as real else 0.0
  }

  function LagFeatures(w: seq<Round>): (f: FeatureMap)
    requires LagNumbersNumeric(w)
    ensures f.Keys == LagKeys(Min(LagDepth, |w|))
  {
    var h5 := Last(w, LagDepth);
    LagKeysAreLags(|h5|);
    map key | key in LagKeys(|h5|) :: LagValue(h5, key)
  }

  /** Positions of `w` whose round has color `c`: an independent reference
      for `sum(1 for r in rounds if r["color"] == c)`. */
  function ColorPositions(w: seq<Round>, c: string): set<int> {
    set i | 0 <= i < |w| && w[i].color == c
  }

  /** The same for sizes. */
  function SizePositions(w: seq<Round>, z: string): set<int> {
    set i | 0 <= i < |w| && w[i].size == z
  }

  lemma ColorCountIsCard(w: seq<Round>, c: string)
    ensures CountTrue(ColorIs(w, c)) == |ColorPositions(w, c)|
  {
    CountTrueIsCard(ColorIs(w, c));
    assert TruePositions(ColorIs(w, c)) == ColorPositions(w, c);
  }

  lemma SizeCountIsCard(w: seq<Round>, z: string)
    ensures CountTrue(SizeIs(w, z)) == |SizePositions(w, z)|
  {
    CountTrueIsCard(SizeIs(w, z));
    assert TruePositions(SizeIs(w, z)) == SizePositions(w, z);
  }

  /** Long-horizon ratios, present only when the window has more than ten rounds. */
  function RatioFeatures(w: seq<Round>): (f: FeatureMap)
    ensures f.Keys == RatioKeys(|w|)
  {
    if |w| > RatioThreshold then
      var medium := Last(w, MediumHorizon);
      map[RedRatio100 := Ratio(CountTrue(ColorIs(w, "red")), |w|),
          BigRatio100 := Ratio(CountTrue(SizeIs(w, "big")), |w|),
          BigFreq50 := Ratio(CountTrue(SizeIs(medium, "big")), |medium|)]
    else map[]
  }

  /** Plain counts over the last ten rounds. */
  function CountFeatures(w: seq<Round>): (f: FeatureMap)
    ensures f.Keys == CountKeys
  {
    var short := Last(w, ShortHorizon);
    map[RedFreq10 := CountTrue(ColorIs(short, "red")) as real,
        GreenFreq10 := CountTrue(ColorIs(short, "green")) as real,
        BigFreq10 := CountTrue(SizeIs(short, "big")) as real,
        SmallFreq10 := CountTrue(SizeIs(short, "small")) as real]
  }

  /** Scanning from the newest round backwards, the number of rounds whose
      color is `c` before the first that is not: the longest suffix of `w`
      all of color `c`. */
  function ColorStreak(w: seq<Round>, c: string): (k: nat)
    ensures k <= |w|
    ensures forall i :: |w| - k <= i < |w| ==> w[i].color == c
    ensures k < |w| ==> w[|w| - 1 - k].color != c
    ensures |w| > 0 && w[|w| - 1].color != c ==> k == 0
  {
    if |w| == 0 || w[|w| - 1].color != c then 0
    else ColorStreak(w[..|w| - 1], c) + 1
  }

  /** The dictionary `extract_features` builds, section by section; no section
      reuses a key of another. */
  function Combine(base: FeatureMap, alternation: real, lags: FeatureMap, ratios: FeatureMap,
                   counts: FeatureMap, streak: nat): (f: FeatureMap)
    requires base.Keys !! lags.Keys && base.Keys !! ratios.Keys && base.Keys !! counts.Keys
    requires lags.Keys !! ratios.Keys && lags.Keys !! counts.Keys && ratios.Keys !! counts.Keys
    requires IsAlternating3 !in base && IsAlternating3 !in lags && IsAlternating3 !in ratios && IsAlternating3 !in counts
    requires CurrentColorStreak !in base && CurrentColorStreak !in lags && CurrentColorStreak !in ratios
    requires CurrentColorStreak !in counts
    ensures f.Keys == base.Keys + {IsAlternating3} + lags.Keys + ratios.Keys + counts.Keys + {CurrentColorStreak}
    ensures f[IsAlternating3] == alternation && f[CurrentColorStreak] == streak as real
  {
    base + map[IsAlternating3 := alternation] + lags + ratios + counts
    + map[CurrentColorStreak := streak as real]
  }

  /** Every key of the base and lag sections keeps its value in the whole. */
  lemma CombineKeepsFront(base: FeatureMap, alternation: real, lags: FeatureMap, ratios: FeatureMap,
                   counts: FeatureMap, streak: nat)
    requires base.Keys !! lags.Keys && base.Keys !! ratios.Keys && base.Keys !! counts.Keys
    requires lags.Keys !! ratios.Keys && lags.Keys !! counts.Keys && ratios.Keys !! counts.Keys
    requires IsAlternating3 !in base && IsAlternating3 !in lags && IsAlternating3 !in ratios && IsAlternating3 !in counts
    requires CurrentColorStreak !in base && CurrentColorStreak !in lags && CurrentColorStreak !in ratios
    requires CurrentColorStreak !in counts
    ensures var f := Combine(base, alternation, lags, ratios, counts, streak);
      && (forall k :: k in base ==> f[k] == base[k])
      && (forall k :: k in lags ==> f[k] == lags[k])
  {
  }

  /** Every key of the ratio and count sections keeps its value in the whole. */
  lemma CombineKeepsBack(base: FeatureMap, alternation: real, lags: FeatureMap, ratios: FeatureMap,
                   counts: FeatureMap, streak: nat)
    requires base.Keys !! lags.Keys && base.Keys !! ratios.Keys && base.Keys !! counts.Keys
    requires lags.Keys !! ratios.Keys && lags.Keys !! counts.Keys && ratios.Keys !! counts.Keys
    requires IsAlternating3 !in base && IsAlternating3 !in lags && IsAlternating3 !in ratios && IsAlternating3 !in counts
    requires CurrentColorStreak !in base && CurrentColorStreak !in lags && CurrentColorStreak !in ratios
    requires CurrentColorStreak !in counts
    ensures var f := Combine(base, alternation, lags, ratios, counts, streak);
      && (forall k :: k in ratios ==> f[k] == ratios[k])
      && (forall k :: k in counts ==> f[k] == counts[k])
  {
  }

  lemma ExpectedKeysUnion(n: nat, numberIsInt: bool)
    ensures ExpectedKeys(n, numberIsInt)
      == BaseKeys(numberIsInt) + {IsAlternating3} + LagKeys(Min(LagDepth, n)) + RatioKeys(n) + CountKeys
         + {CurrentColorStreak}
  {
  }

  /** `extract_features(rounds, current_round)`. */
  function ExtractFeatures(w: seq<Round>, current: RoundDoc): (r: Result<FeatureMap, FeatureError>)
    ensures r.Ok? <==> LagNumbersNumeric(w)
    ensures r.Ok? ==> r.value.Keys == ExpectedKeys(|w|, current.number.Int?)
  {
    if !LagNumbersNumeric(w) then Err(NonNumericLagNumber)
    else
      ExpectedKeysUnion(|w|, current.number.Int?);
      SectionKeysDisjoint(|w|, current.number.Int?);
      Ok(Combine(BaseFeatures(current), AlternationFlag(w), LagFeatures(w), RatioFeatures(w),
                 CountFeatures(w), ColorStreak(w, CurrentColor(current))))
  }

  /** Every key of `section` is in `f` with the section's value. */
  predicate KeepsSection(f: FeatureMap, section: FeatureMap) {
    forall k :: k in section ==> k in f && f[k] == section[k]
  }

  /** The extracted dictionary holds the base, lag, ratio and count sections
      unchanged: merging them never overwrites one section's key with
      another's value. */
  lemma SectionLookups(w: seq<Round>, current: RoundDoc)
    requires LagNumbersNumeric(w)
    ensures KeepsSection(ExtractFeatures(w, current).value, BaseFeatures(current))
    ensures KeepsSection(ExtractFeatures(w, current).value, LagFeatures(w))
    ensures KeepsSection(ExtractFeatures(w, current).value, RatioFeatures(w))
    ensures KeepsSection(ExtractFeatures(w, current).value, CountFeatures(w))
  {
    SectionKeysDisjoint(|w|, current.number.Int?);
    var f := Combine(BaseFeatures(current), AlternationFlag(w), LagFeatures(w), RatioFeatures(w),
                     CountFeatures(w), ColorStreak(w, CurrentColor(current)));
    CombineKeepsFront(BaseFeatures(current), AlternationFlag(w), LagFeatures(w), RatioFeatures(w),
                     CountFeatures(w), ColorStreak(w, CurrentColor(current)));
    CombineKeepsBack(BaseFeatures(current), AlternationFlag(w), LagFeatures(w), RatioFeatures(w),
                     CountFeatures(w), ColorStreak(w, CurrentColor(current)));
    assert ExtractFeatures(w, current) == Ok(f);
  }

  /** The zig-zag flag and the streak are stored under their own keys. */
  lemma SingleLookups(w: seq<Round>, current: RoundDoc)
    requires LagNumbersNumeric(w)
    ensures var f := ExtractFeatures(w, current).value;
      && IsAlternating3 in f && f[IsAlternating3] == AlternationFlag(w)
      && CurrentColorStreak in f && f[CurrentColorStreak] == ColorStreak(w, CurrentColor(current)) as real
  {
    SectionKeysDisjoint(|w|, current.number.Int?);
    var f := Combine(BaseFeatures(current), AlternationFlag(w), LagFeatures(w), RatioFeatures(w),
                     CountFeatures(w), ColorStreak(w, CurrentColor(current)));
    assert ExtractFeatures(w, current) == Ok(f);
  }

  lemma BaseSectionValues(current: RoundDoc)
    ensures IsBig in BaseFeatures(current)
    ensures BaseFeatures(current)[IsBig] == Flag(CurrentSize(current) == "big")
    ensures current.number.Int? ==>
      Number in BaseFeatures(current) && BaseFeatures(current)[Number] == current.number.i as real
  {
  }

  /** "number" is the current round's number and "is_big" says whether its
      size, lowercased, is "big". */
  lemma BaseFeaturesOfCurrent(w: seq<Round>, current: RoundDoc)
    requires LagNumbersNumeric(w)
    ensures current.number.Int? ==> ExtractFeatures(w, current).value[Number] == current.number.i as real
    ensures ExtractFeatures(w, current).value[IsBig] == 1.0 <==> CurrentSize(current) == "big"
    ensures ExtractFeatures(w, current).value[IsBig] == 0.0 <==> CurrentSize(current) != "big"
  {
    SectionLookups(w, current);
    BaseSectionValues(current);
  }

  lemma AlternationFlagIff(w: seq<Round>)
    ensures AlternationFlag(w) == 1.0 <==>
      |w| >= 3 && w[|w| - 1].size != w[|w| - 2].size && w[|w| - 2].size != w[|w| - 3].size
    ensures AlternationFlag(w) == 0.0 || AlternationFlag(w) == 1.0
  {
    var h5 := Last(w, LagDepth);
    if |w| >= 3 {
      assert h5[|h5| - 1] == w[|w| - 1];
      assert h5[|h5| - 2] == w[|w| - 2];
      assert h5[|h5| - 3] == w[|w| - 3];
    }
  }

  /** The zig-zag flag is 1 exactly when there are three rounds and the
      newest three sizes alternate; otherwise it is 0. */
  lemma AlternationFlagMeaning(w: seq<Round>, current: RoundDoc)
    requires LagNumbersNumeric(w)
    ensures var f := ExtractFeatures(w, current).value[IsAlternating3];
      (f == 1.0 <==> |w| >= 3 && w[|w| - 1].size != w[|w| - 2].size && w[|w| - 2].size != w[|w| - 3].size)
      && (f == 0.0 || f == 1.0)
  {
    SingleLookups(w, current);
    AlternationFlagIff(w);
  }

  /** A lag key's entry is its `LagValue` over the last five rounds. */
  lemma LagEntry(w: seq<Round>, key: FeatureKey)
    requires LagNumbersNumeric(w)
    requires key in LagKeys(|Last(w, LagDepth)|)
    ensures key in LagFeatures(w)
    ensures IsLagKey(key, |Last(w, LagDepth)|)
    ensures LagFeatures(w)[key] == LagValue(Last(w, LagDepth), key)
  {
    LagKeysAreLags(|Last(w, LagDepth)|);
  }

  lemma LagSectionNewestFirst(w: seq<Round>, j: nat)
    requires LagNumbersNumeric(w)
    requires 1 <= j <= Min(LagDepth, |w|)
    ensures var f := LagFeatures(w);
      && LagColor(j) in f && LagSize(j) in f
      && f[LagColor(j)] == Flag(w[|w| - j].color == "red")
      && f[LagSize(j)] == Flag(w[|w| - j].size == "big")
  {
    var h5 := Last(w, LagDepth);
    var k := |h5|;
    LagKeysOfLag(k, j);
    LagEntry(w, LagColor(j));
    LagEntry(w, LagSize(j));
    assert h5[k - j] == w[|w| - j];
  }

  lemma LagSectionDifferences(w: seq<Round>, j: nat)
    requires LagNumbersNumeric(w)
    requires 1 <= j <= Min(LagDepth, |w|)
    ensures var f := LagFeatures(w);
      && LagNumDiff(j) in f
      && (j == Min(LagDepth, |w|) ==> f[LagNumDiff(j)] == 0.0)
      && (j < Min(LagDepth, |w|) ==>
            f[LagNumDiff(j)] == (w[|w| - j].number.i - w[|w| - j - 1].number.i) as real)
  {
    var k := |Last(w, LagDepth)|;
    LagKeysOfLag(k, j);
    LagEntry(w, LagNumDiff(j));
    if j < k {
      LagDifferenceInner(w, j);
    }
  }

  /** An inner lag's difference, read through the last five rounds. */
  lemma LagDifferenceInner(w: seq<Round>, j: nat)
    requires LagNumbersNumeric(w)
    requires 1 <= j < Min(LagDepth, |w|)
    ensures w[|w| - j].number.Int? && w[|w| - j - 1].number.Int?
    ensures LagValue(Last(w, LagDepth), LagNumDiff(j))
         == (w[|w| - j].number.i - w[|w| - j - 1].number.i) as real
  {
    var h5 := Last(w, LagDepth);
    var k := |h5|;
    assert h5[k - j] == w[|w| - j];
    assert h5[k - j - 1] == w[|w| - j - 1];
  }

  /** Lag `j` describes the `j`-th newest round: lag 1 is the newest; the
      number difference is against the next older round, and 0 for the
      oldest lag. */
  lemma LagFeaturesNewestFirst(w: seq<Round>, current: RoundDoc, j: nat)
    requires LagNumbersNumeric(w)
    requires 1 <= j <= Min(LagDepth, |w|)
    ensures var f := ExtractFeatures(w, current).value;
      && LagColor(j) in f && LagSize(j) in f && LagNumDiff(j) in f
      && f[LagColor(j)] == Flag(w[|w| - j].color == "red")
      && f[LagSize(j)] == Flag(w[|w| - j].size == "big")
      && (j == Min(LagDepth, |w|) ==> f[LagNumDiff(j)] == 0.0)
      && (j < Min(LagDepth, |w|) ==>
            f[LagNumDiff(j)] == (w[|w| - j].number.i - w[|w| - j - 1].number.i) as real)
  {
    SectionLookups(w, current);
    LagSectionNewestFirst(w, j);
    LagSectionDifferences(w, j);
  }

  lemma RatioSectionBounds(w: seq<Round>)
    ensures var f := RatioFeatures(w);
      |w| > RatioThreshold ==>
        && 0.0 <= f[RedRatio100] <= 1.0
        && 0.0 <= f[BigRatio100] <= 1.0
        && 0.0 <= f[BigFreq50] <= 1.0
  {
  }

  /** The ratio values: red and big rounds counted over the whole window
      and divided by its length, and big rounds among the newest fifty
      divided by their number. */
  lemma RatioSectionValues(w: seq<Round>)
    ensures var f := RatioFeatures(w);
      |w| > RatioThreshold ==>
        && f[RedRatio100] == |ColorPositions(w, "red")| as real / |w| as real
        && f[BigRatio100] == |SizePositions(w, "big")| as real / |w| as real
        && f[BigFreq50] == |SizePositions(Last(w, MediumHorizon), "big")| as real
                           / |Last(w, MediumHorizon)| as real
  {
    ColorCountIsCard(w, "red");
    SizeCountIsCard(w, "big");
    SizeCountIsCard(Last(w, MediumHorizon), "big");
  }

  /** The ten-round values: the plain number of red, green, big and small
      rounds among the newest ten. */
  lemma CountSectionValues(w: seq<Round>)
    ensures var f := CountFeatures(w);
      var short := Last(w, ShortHorizon);
      && f[RedFreq10] == |ColorPositions(short, "red")| as real
      && f[GreenFreq10] == |ColorPositions(short, "green")| as real
      && f[BigFreq10] == |SizePositions(short, "big")| as real
      && f[SmallFreq10] == |SizePositions(short, "small")| as real
  {
    var short := Last(w, ShortHorizon);
    ColorCountIsCard(short, "red");
    ColorCountIsCard(short, "green");
    SizeCountIsCard(short, "big");
    SizeCountIsCard(short, "small");
  }

  lemma RatioKeysPresence(n: nat, numberIsInt: bool)
    ensures RedRatio100 in ExpectedKeys(n, numberIsInt) <==> n > RatioThreshold
    ensures BigRatio100 in ExpectedKeys(n, numberIsInt) <==> n > RatioThreshold
    ensures BigFreq50 in ExpectedKeys(n, numberIsInt) <==> n > RatioThreshold
  {
  }

  /** The ratios are present exactly when more than ten rounds exist, and
      each lies in [0, 1]. */
  lemma RatiosInUnitInterval(w: seq<Round>, current: RoundDoc)
    requires LagNumbersNumeric(w)
    ensures var f := ExtractFeatures(w, current).value;
      && (RedRatio100 in f <==> |w| > RatioThreshold)
      && (BigRatio100 in f <==> |w| > RatioThreshold)
      && (BigFreq50 in f <==> |w| > RatioThreshold)
      && (|w| > RatioThreshold ==>
            && 0.0 <= f[RedRatio100] <= 1.0
            && 0.0 <= f[BigRatio100] <= 1.0
            && 0.0 <= f[BigFreq50] <= 1.0)
      && (|w| > RatioThreshold ==>
            && f[RedRatio100] == |ColorPositions(w, "red")| as real / |w| as real
            && f[BigRatio100] == |SizePositions(w, "big")| as real / |w| as real
            && f[BigFreq50] == |SizePositions(Last(w, MediumHorizon), "big")| as real
                               / |Last(w, MediumHorizon)| as real)
  {
    RatioKeysPresence(|w|, current.number.Int?);
    if |w| > RatioThreshold {
      SectionLookups(w, current);
      RatioSectionBounds(w);
      RatioSectionValues(w);
    }
  }

  lemma CountSectionBounds(w: seq<Round>)
    ensures var f := CountFeatures(w);
      var m := Min(ShortHorizon, |w|) as real;
      && 0.0 <= f[RedFreq10] <= m && 0.0 <= f[GreenFreq10] <= m
      && 0.0 <= f[BigFreq10] <= m && 0.0 <= f[SmallFreq10] <= m
      && f[RedFreq10] + f[GreenFreq10] <= m
      && f[BigFreq10] + f[SmallFreq10] <= m
  {
    var short := Last(w, ShortHorizon);
    CountDisjointBound(ColorIs(short, "red"), ColorIs(short, "green"));
    CountDisjointBound(SizeIs(short, "big"), SizeIs(short, "small"));
  }

  /** Each ten-round count is at most the number of rounds counted, and the
      two colors (and the two sizes) together do not exceed it either. */
  lemma ShortCountsBounded(w: seq<Round>, current: RoundDoc)
    requires LagNumbersNumeric(w)
    ensures var f := ExtractFeatures(w, current).value;
      var m := Min(ShortHorizon, |w|) as real;
      && 0.0 <= f[RedFreq10] <= m && 0.0 <= f[GreenFreq10] <= m
      && 0.0 <= f[BigFreq10] <= m && 0.0 <= f[SmallFreq10] <= m
      && f[RedFreq10] + f[GreenFreq10] <= m
      && f[BigFreq10] + f[SmallFreq10] <= m
    ensures var f := ExtractFeatures(w, current).value;
      var short := Last(w, ShortHorizon);
      && f[RedFreq10] == |ColorPositions(short, "red")| as real
      && f[GreenFreq10] == |ColorPositions(short, "green")| as real
      && f[BigFreq10] == |SizePositions(short, "big")| as real
      && f[SmallFreq10] == |SizePositions(short, "small")| as real
  {
    SectionLookups(w, current);
    CountSectionBounds(w);
    CountSectionValues(w);
  }
}
