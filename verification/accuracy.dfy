/** The accuracy tags the dashboard endpoint adds to each stored round: the
    predicted color (the most probable of red, green and violet), the
    predicted size, and whether each matches what actually came up. */
module Accuracy {
  import opened Results
  import opened Text
  import opened Rounds
  import opened Ensemble
  import opened Ocr
  import opened FetchLoop

  /** `max(record.get("prob_red", 0), ...)`: absent probabilities count as 0. */
  function ColorTop(pr: Option<real>, pg: Option<real>, pv: Option<real>): (top: real)
    ensures top >= pr.OrDefault(0.0) && top >= pg.OrDefault(0.0) && top >= pv.OrDefault(0.0)
    ensures top == pr.OrDefault(0.0) || top == pg.OrDefault(0.0) || top == pv.OrDefault(0.0)
  {
    Max(Max(pr.OrDefault(0.0), pg.OrDefault(0.0)), pv.OrDefault(0.0))
  }

  /** The first of red, green and violet whose stored probability equals the
      maximum; an absent probability never equals it. */
  function PredictColor(pr: Option<real>, pg: Option<real>, pv: Option<real>): (c: string)
    ensures c == "Red" <==> pr.Some? && pr.value == ColorTop(pr, pg, pv)
    ensures c == "Green" <==>
      !(pr.Some? && pr.value == ColorTop(pr, pg, pv)) && pg.Some? && pg.value == ColorTop(pr, pg, pv)
    ensures c == "Violet" <==>
      && !(pr.Some? && pr.value == ColorTop(pr, pg, pv)) && !(pg.Some? && pg.value == ColorTop(pr, pg, pv))
      && pv.Some? && pv.value == ColorTop(pr, pg, pv)
    ensures c == "Unknown" <==>
      && !(pr.Some? && pr.value == ColorTop(pr, pg, pv)) && !(pg.Some? && pg.value == ColorTop(pr, pg, pv))
      && !(pv.Some? && pv.value == ColorTop(pr, pg, pv))
  {
    var top := ColorTop(pr, pg, pv);
    if pr == Some(top) then "Red"
    else if pg == Some(top) then "Green"
    else if pv == Some(top) then "Violet"
    else "Unknown"
  }

  /** The prediction is an argmax, and ties go to red, then green, then
      violet: green needs to beat a present red strictly, and violet to beat
      both strictly. */
  lemma PredictColorIsArgmax(pr: Option<real>, pg: Option<real>, pv: Option<real>)
    ensures var c := PredictColor(pr, pg, pv);
      && (c == "Red" ==> pr.Some? && pr.value >= pg.OrDefault(0.0) && pr.value >= pv.OrDefault(0.0))
      && (c == "Green" ==>
            pg.Some? && pg.value >= pr.OrDefault(0.0) && pg.value >= pv.OrDefault(0.0)
            && (pr.Some? ==> pg.value > pr.value))
      && (c == "Violet" ==>
            pv.Some? && pv.value >= pr.OrDefault(0.0) && pv.value >= pg.OrDefault(0.0)
            && (pr.Some? ==> pv.value > pr.value) && (pg.Some? ==> pv.value > pg.value))
      && (c == "Red" || c == "Green" || c == "Violet" || c == "Unknown")
  {
  }

  /** "Unknown" exactly when no present probability is at least the other
      two, a missing one counting as 0. So it needs a missing probability
      (with all three present one of them is the maximum), and a missing one
      loses to any present non-negative one. */
  lemma UnknownOnlyWhenMissing(pr: Option<real>, pg: Option<real>, pv: Option<real>)
    ensures PredictColor(pr, pg, pv) == "Unknown" <==>
      && !(pr.Some? && pr.value >= pg.OrDefault(0.0) && pr.value >= pv.OrDefault(0.0))
      && !(pg.Some? && pg.value >= pr.OrDefault(0.0) && pg.value >= pv.OrDefault(0.0))
      && !(pv.Some? && pv.value >= pr.OrDefault(0.0) && pv.value >= pg.OrDefault(0.0))
    ensures PredictColor(pr, pg, pv) == "Unknown" ==> pr.None? || pg.None? || pv.None?
    ensures pr.None? && pg.None? && pv.None? ==> PredictColor(pr, pg, pv) == "Unknown"
    ensures pr.None? && pg.Some? && 0.0 <= pg.value && pg.value >= pv.OrDefault(0.0)
      ==> PredictColor(pr, pg, pv) == "Green"
  {
  }

  /** A record without a red probability, green 0.3 and violet 0.2, is
      predicted green: the missing red counts as 0 in the maximum. */
  lemma MissingRedPredictsGreen()
    ensures PredictColor(None, Some(0.3), Some(0.2)) == "Green"
  {
    UnknownOnlyWhenMissing(None, Some(0.3), Some(0.2));
  }

  /** Big only for a stored big probability strictly above one half; a
      missing value counts as 0.5. */
  function PredictSize(pb: Option<real>): (z: string)
    ensures z == "Big" <==> pb.Some? && pb.value > 0.5
    ensures z == "Big" || z == "Small"
  {
    if pb.OrDefault(0.5) > 0.5 then "Big" else "Small"
  }

  /** A record with its accuracy tags. */
  datatype Tagged = Tagged(record: RoundDoc, predictedColor: string, colorMatch: bool,
                           predictedSize: string, sizeMatch: bool)

  /** Tags one record. Reading the actual color or size of a record without
      one raises, which the model reports as `None`. */
  function TagRecord(d: RoundDoc): (t: Option<Tagged>)
    ensures t.Some? <==> d.color.Some? && d.size.Some?
    ensures t.Some? ==>
      && t.value.record == d
      && t.value.predictedColor == PredictColor(d.probRed, d.probGreen, d.probViolet)
      && t.value.predictedSize == PredictSize(d.probSizeBig)
      && (t.value.colorMatch <==> Lower(t.value.predictedColor) == Lower(d.color.value))
      && (t.value.sizeMatch <==> Lower(t.value.predictedSize) == Lower(d.size.value))
  {
    if d.color.None? || d.size.None? then None
    else
      var c := PredictColor(d.probRed, d.probGreen, d.probViolet);
      var z := PredictSize(d.probSizeBig);
      Some(Tagged(d, c, Lower(c) == Lower(d.color.value), z, Lower(z) == Lower(d.size.value)))
  }

  /** The matches ignore case: re-casing the actual color or size of a record
      changes no tag. */
  lemma MatchIgnoresCase(d: RoundDoc, color: string, size: string)
    requires d.color.Some? && d.size.Some?
    requires Lower(color) == Lower(d.color.value) && Lower(size) == Lower(d.size.value)
    ensures TagRecord(d.(color := Some(color), size := Some(size))).value.colorMatch
         == TagRecord(d).value.colorMatch
    ensures TagRecord(d.(color := Some(color), size := Some(size))).value.sizeMatch
         == TagRecord(d).value.sizeMatch
  {
  }

  /** Tags every record; one record that cannot be tagged fails the request. */
  function TagAll(data: seq<RoundDoc>): (r: Option<seq<Tagged>>)
    ensures r.Some? <==> forall i :: 0 <= i < |data| ==> TagRecord(data[i]).Some?
    ensures r.Some? ==> |r.value| == |data|
    ensures r.Some? ==> forall i :: 0 <= i < |data| ==> r.value[i] == TagRecord(data[i]).value
  {
    if |data| == 0 then Some([])
    else
      match (TagRecord(data[0]), TagAll(data[1..]))
      case (Some(t), Some(ts)) => Some([t] + ts)
      case _ => None
  }

  /** `latest_data(limit)`: the newest `limit` records, newest first, tagged. */
  function LatestData(log: seq<RoundDoc>, limit: nat): (r: Option<seq<Tagged>>)
    ensures r.Some? <==> forall k :: |log| - Min(limit, |log|) <= k < |log| ==> TagRecord(log[k]).Some?
    ensures r.Some? ==> |r.value| == Min(limit, |log|)
    ensures r.Some? ==> forall i :: 0 <= i < |r.value| ==> r.value[i].record == log[|log| - 1 - i]
    ensures r.Some? ==> forall i :: 0 <= i < |r.value| ==> r.value[i] == TagRecord(log[|log| - 1 - i]).value
  {
    NewestFirstTags(log, limit);
    TagAll(QueryNewestFirst(log, limit))
  }

  lemma NewestFirstTags(log: seq<RoundDoc>, limit: nat)
    ensures var r := TagAll(QueryNewestFirst(log, limit));
      && (r.Some? <==> forall k :: |log| - Min(limit, |log|) <= k < |log| ==> TagRecord(log[k]).Some?)
      && (r.Some? ==> |r.value| == Min(limit, |log|))
      && (r.Some? ==> forall i :: 0 <= i < |r.value| ==> r.value[i] == TagRecord(log[|log| - 1 - i]).value)
  {
    var q := QueryNewestFirst(log, limit);
    if forall i :: 0 <= i < |q| ==> TagRecord(q[i]).Some? {
      forall k | |log| - |q| <= k < |log| ensures TagRecord(log[k]).Some? {
        assert q[|log| - 1 - k] == log[k];
      }
    }
  }

  /** On a store the fetch loop wrote, the endpoint never fails. */
  lemma LatestDataOfLoopStore(log: seq<RoundDoc>, limit: nat)
    requires WellFormedLog(log)
    ensures LatestData(log, limit).Some?
  {
    var q := QueryNewestFirst(log, limit);
    forall i | 0 <= i < |q| ensures TagRecord(q[i]).Some? {
      assert WellFormedDoc(log[|log| - 1 - i]);
    }
  }

  /** What the loop stores the endpoint reads back: a stored document is
      tagged with the argmax of the update's colors and, through the
      renamed "prob_size_big" key, with the update's big probability. */
  lemma StoredDocReadsBack(p: Parsed, number: string, probs: Probabilities)
    ensures TagRecord(StoredDoc(p, number, probs)).Some? <==> p.color.Some? && p.size.Some?
    ensures TagRecord(StoredDoc(p, number, probs)).Some? ==>
      var t := TagRecord(StoredDoc(p, number, probs)).value;
      && t.predictedColor == PredictColor(Some(probs.red), Some(probs.green), Some(probs.violet))
      && (t.predictedSize == "Big" <==> probs.big > 0.5)
  {
  }

  /** The endpoint's color prediction and the console highlight agree on
      every stored round whose top probability clears the highlight
      threshold: the same argmax with the same tie order. */
  lemma PredictionMatchesHighlight(pr: real, pg: real, pv: real)
    requires Max(Max(pr, pg), pv) > HighlightThreshold
    ensures PredictColor(Some(pr), Some(pg), Some(pv)) == "Red" <==> HighlightColor(pr, pg, pv) == MarkRed
    ensures PredictColor(Some(pr), Some(pg), Some(pv)) == "Green" <==> HighlightColor(pr, pg, pv) == MarkGreen
    ensures PredictColor(Some(pr), Some(pg), Some(pv)) == "Violet" <==> HighlightColor(pr, pg, pv) == MarkViolet
  {
  }
}
