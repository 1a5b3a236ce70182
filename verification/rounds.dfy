/** Round records and the history window: the documents the loop stores,
    the store's "newest n" query, and the normalisation that turns a query
    result into the chronological window the features are computed from. */
module Rounds {
  import opened Results
  import opened Text

  /** The value under a record's "number" key: the loop stores the digit as a
      string, the model update receives it as an int, and a key may be absent. */
  datatype Num = Int(i: int) | Str(s: string) | NoNumber

  /** A round record as a dictionary; `None` means the key is absent. The
      probability keys are the ones the loop adds before storing. */
  datatype RoundDoc = RoundDoc(
    period: Option<string>,
    color: Option<string>,
    size: Option<string>,
    number: Num,
    probRed: Option<real>,
    probGreen: Option<real>,
    probViolet: Option<real>,
    probSizeBig: Option<real>,
    probSizeSmall: Option<real>,
    probNumbers: Option<map<string, real>>)

  /** A record of the normalised history window. */
  datatype Round = Round(color: string, size: string, number: Num)

  /** Size of the history window the model update asks for. */
  const WindowSize: nat := 100

  /** `find().sort("timestamp", -1).limit(n)` on a store whose records are kept
      in timestamp order: the newest `n` records, newest first. */
  function QueryNewestFirst(log: seq<RoundDoc>, n: nat): (q: seq<RoundDoc>)
    ensures |q| == Min(n, |log|)
    ensures forall i :: 0 <= i < |q| ==> q[i] == log[|log| - 1 - i]
  {
    Reverse(Last(log, n))
  }

  /** Converts a digit-only string number to an int and leaves every other
      value as it is. */
  function NormalizeNumber(v: Num): Num {
    match v
    case Str(s) => if IsDigits(s) then Int(DigitsToNat(s)) else v
    case _ => v
  }

  /** The per-record pre-processing: number conversion, and color and size
      lowercased with "N/A" standing in for an absent key. */
  function NormalizeRound(d: RoundDoc): (r: Round)
    ensures d.color.Some? ==> r.color == Lower(d.color.value)
    ensures d.color.None? ==> r.color == "n/a"
    ensures d.size.Some? ==> r.size == Lower(d.size.value)
    ensures d.size.None? ==> r.size == "n/a"
    ensures d.number.Str? && IsDigits(d.number.s) ==> r.number == Int(DigitsToNat(d.number.s))
    ensures !(d.number.Str? && IsDigits(d.number.s)) ==> r.number == d.number
  {
    LowerOfMissing();
    Round(Lower(d.color.OrDefault("N/A")), Lower(d.size.OrDefault("N/A")), NormalizeNumber(d.number))
  }

  /** The stand-in for an absent color or size, once lowercased. */
  lemma LowerOfMissing()
    ensures Lower("N/A") == "n/a"
  {
    assert LowerChar('N') == 'n' && LowerChar('/') == '/' && LowerChar('A') == 'a';
  }

  function NormalizeAll(q: seq<RoundDoc>): (w: seq<Round>)
    ensures |w| == |q|
    ensures forall i :: 0 <= i < |q| ==> w[i] == NormalizeRound(q[i])
  {
    seq(|q|, i requires 0 <= i < |q| => NormalizeRound(q[i]))
  }

  /** What `get_last_n_rounds` does with the query result: normalise every
      record, then reverse the newest-first list into chronological order. */
  function NormalizeWindow(q: seq<RoundDoc>): (w: seq<Round>)
    ensures |w| == |q|
    ensures |q| > 0 ==> w[|w| - 1] == NormalizeRound(q[0])
    ensures forall i :: 0 <= i < |q| ==> w[i] == NormalizeRound(q[|q| - 1 - i])
  {
    Reverse(NormalizeAll(q))
  }

  /** `get_last_n_rounds(n)` as a whole. The two reversals cancel: the
      window is the normalised chronological suffix of the store, at most
      `n` long, with the newest round last. */
  function LastRounds(log: seq<RoundDoc>, n: nat): (w: seq<Round>)
    ensures |w| == Min(n, |log|) <= n
    ensures forall i :: 0 <= i < |w| ==> w[i] == NormalizeRound(log[|log| - |w| + i])
  {
    QueryWindow(log, n);
    NormalizeWindow(QueryNewestFirst(log, n))
  }

  lemma QueryWindow(log: seq<RoundDoc>, n: nat)
    ensures var w := NormalizeWindow(QueryNewestFirst(log, n));
      && |w| == Min(n, |log|)
      && forall i :: 0 <= i < |w| ==> w[i] == NormalizeRound(log[|log| - |w| + i])
  {
    var w := NormalizeWindow(QueryNewestFirst(log, n));
    forall i | 0 <= i < |w| ensures w[i] == NormalizeRound(log[|log| - |w| + i]) {
      QueryWindowAt(log, n, i);
    }
  }

  lemma QueryWindowAt(log: seq<RoundDoc>, n: nat, i: nat)
    requires i < Min(n, |log|)
    ensures NormalizeWindow(QueryNewestFirst(log, n))[i] == NormalizeRound(log[|log| - Min(n, |log|) + i])
  {
    var q := QueryNewestFirst(log, n);
    var j := |q| - 1 - i;
    assert NormalizeWindow(q)[i] == NormalizeRound(q[j]);
    assert q[j] == log[|log| - 1 - j];
  }

  /** Every window record has lowercase color and size, and a stored digit
      string `str(d)` comes back as the int `d`. */
  lemma NormalizedRoundIsCanonical(d: RoundDoc, v: nat)
    ensures Lower(NormalizeRound(d).color) == NormalizeRound(d).color
    ensures Lower(NormalizeRound(d).size) == NormalizeRound(d).size
    ensures d.number == Str(NatToString(v)) ==> NormalizeRound(d).number == Int(v)
  {
    LowerIdempotent(d.color.OrDefault("N/A"));
    LowerIdempotent(d.size.OrDefault("N/A"));
    NatToStringRoundTrip(v);
  }
}
