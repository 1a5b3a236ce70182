/** Reading a round off the result box: the OCR retry over three engine
    configurations, the token parser that turns the chosen text into
    period, digit, size and color, and the period-id fallback that searches
    the page text for `\b20\d{11,}\b`. The OCR engine itself is a function
    from configuration to raw text. */
module Ocr {
  import opened Results
  import opened Text

  /** The engine configurations, tried in this order. */
  const OcrConfigs: seq<string> := [
    "--psm 7 -c tessedit_char_whitelist=0123456789 ",
    "--psm 6 -c tessedit_char_whitelist=0123456789 ",
    "--psm 8 -c tessedit_char_whitelist=0123456789 "]

  /** A stripped OCR text good enough to stop retrying: it has an inner space
      and more than five characters. */
  predicate Accepted(t: string) {
    |t| > 5 && exists k :: 0 <= k < |t| && t[k] == ' '
  }

  /** The stripped text every configuration would produce. */
  function Outputs(configs: seq<string>, ocr: string -> string): (outs: seq<string>)
    ensures |outs| == |configs|
    ensures forall i :: 0 <= i < |configs| ==> outs[i] == Strip(ocr(configs[i]))
  {
    seq(|configs|, i requires 0 <= i < |configs| => Strip(ocr(configs[i])))
  }

  /** Reference definition of the retry: from position `k` on, the first
      accepted text, or the last one when none is accepted. */
  function ChooseFrom(outs: seq<string>, k: nat): string
    requires k < |outs|
    decreases |outs| - k
  {
    if Accepted(outs[k]) || k == |outs| - 1 then outs[k] else ChooseFrom(outs, k + 1)
  }

  function OcrChoice(outs: seq<string>): string {
    if |outs| == 0 then "" else ChooseFrom(outs, 0)
  }

  lemma {:induction false} ChooseFromFirstAccepted(outs: seq<string>, k: nat, j: nat)
    requires k <= j < |outs|
    requires forall i :: k <= i < j ==> !Accepted(outs[i])
    requires Accepted(outs[j]) || j == |outs| - 1
    ensures ChooseFrom(outs, k) == outs[j]
    decreases j - k
  {
    if k < j {
      ChooseFromFirstAccepted(outs, k + 1, j);
    }
  }

  /** The retry keeps the first accepted text; when no configuration gives
      one, it keeps the last configuration's text. */
  lemma OcrChoiceMeaning(outs: seq<string>, j: nat)
    requires j < |outs|
    requires forall i :: 0 <= i < j ==> !Accepted(outs[i])
    requires Accepted(outs[j]) || j == |outs| - 1
    ensures OcrChoice(outs) == outs[j]
  {
    ChooseFromFirstAccepted(outs, 0, j);
  }

  /** The OCR loop: each configuration's text is stripped; the loop stops at
      the first accepted one. `tried` is the number of engine calls made. */
  method SelectOcrText(configs: seq<string>, ocr: string -> string) returns (text: string, tried: nat)
    ensures text == OcrChoice(Outputs(configs, ocr))
    ensures tried <= |configs|
    ensures |configs| == 0 ==> text == "" && tried == 0
    ensures |configs| > 0 ==> 1 <= tried && text == Strip(ocr(configs[tried - 1]))
    ensures forall i :: 0 <= i < tried - 1 ==> !Accepted(Strip(ocr(configs[i])))
    ensures tried < |configs| ==> Accepted(text)
  {
    ghost var outs := Outputs(configs, ocr);
    text := "";
    tried := 0;
    while tried < |configs|
      invariant tried <= |configs|
      invariant tried == 0 ==> text == ""
      invariant tried > 0 ==> text == outs[tried - 1]
      invariant forall i :: 0 <= i < tried ==> !Accepted(outs[i])
      invariant tried < |configs| ==> OcrChoice(outs) == ChooseFrom(outs, tried)
      invariant tried == |configs| > 0 ==> OcrChoice(outs) == text
    {
      text := Strip(ocr(configs[tried]));
      assert text == outs[tried];
      tried := tried + 1;
      if Accepted(text) {
        break;
      }
    }
  }

  /** An accepted text always splits into at least two tokens. */
  lemma AcceptedHasTwoTokens(raw: string)
    requires Accepted(Strip(raw))
    ensures |Words(Strip(raw))| >= 2
  {
    var t := Strip(raw);
    var p :| 0 <= p < |t| && t[p] == ' ';
    StrippedWithSpaceHasTwoWords(t, p);
  }

  /** The fields `fetch_result` fills in from the OCR text. */
  datatype Parsed = Parsed(period: string, color: Option<string>, size: Option<string>, number: Option<string>)

  const Unknown: string := "Unknown"

  const NothingParsed: Parsed := Parsed(Unknown, None, None, None)

  function SizeOfDigit(num: nat): (z: string)
    ensures z == "Small" <==> num <= 4
    ensures z == "Small" || z == "Big"
  {
    if num <= 4 then "Small" else "Big"
  }

  function ColorOfDigit(num: nat): (c: string)
    ensures c == "Red" <==> num % 2 == 0
    ensures c == "Red" || c == "Green"
  {
    if num % 2 == 0 then "Red" else "Green"
  }

  /** The token parser on the chosen (already stripped) text. */
  function ParseOcrText(raw: string): (p: Parsed)
    ensures p.number.Some? <==> p.color.Some?
    ensures p.number.Some? <==> p.size.Some?
    ensures p.number.Some? ==>
      var n := p.number.value;
      && |Words(raw)| >= 2 && n == Words(raw)[|Words(raw)| - 1]
      && |n| == 1 && IsDigit(n[0])
      && (p.size.value == "Small" <==> DigitValue(n[0]) <= 4)
      && (p.color.value == "Red" <==> DigitValue(n[0]) % 2 == 0)
    ensures var ws := Words(raw);
      |ws| >= 2 && |ws[|ws| - 1]| == 1 && IsDigit(ws[|ws| - 1][0]) ==>
        var d := DigitValue(ws[|ws| - 1][0]);
        && p.number == Some(ws[|ws| - 1])
        && p.size == Some(if d <= 4 then "Small" else "Big")
        && p.color == Some(if d % 2 == 0 then "Red" else "Green")
    ensures p.color.Some? ==> p.color.value != "Violet"
    ensures |Words(raw)| >= 2 ==> p.period == Words(raw)[0]
    ensures |Words(raw)| == 1 ==>
      p.number.None? && p.period == (if |Words(raw)[0]| > 10 then Words(raw)[0] else Unknown)
    ensures |Words(raw)| == 0 ==> p == NothingParsed
  {
    if raw == "" then NothingParsed
    else
      var parts := Words(raw);
      if |parts| >= 2 then
        var last := parts[|parts| - 1];
        if IsDigits(last) && |last| == 1 then
          var num := DigitValue(last[0]);
          if 0 <= num <= 9 then
            Parsed(parts[0], Some(ColorOfDigit(num)), Some(SizeOfDigit(num)), Some(last))
          else
            assert false; NothingParsed
        else Parsed(parts[0], None, None, None)
      else if |parts| == 1 && |parts[0]| > 10 then Parsed(parts[0], None, None, None)
      else NothingParsed
  }

  /** The parser reads back a text made of a period token, a space and a
      digit: the period is the token and the digit fixes size and color. */
  lemma ParseOfPeriodAndDigit(period: string, d: nat)
    requires |period| > 0 && forall i :: 0 <= i < |period| ==> !IsSpace(period[i])
    requires d < 10
    ensures var p := ParseOcrText(period + " " + [DigitChar(d)]);
      && p.period == period && p.number == Some([DigitChar(d)])
      && p.size == Some(SizeOfDigit(d)) && p.color == Some(ColorOfDigit(d))
  {
    WordsOfTwoTokens(period, [DigitChar(d)]);
  }

  lemma {:induction false} WordLengthOfToken(a: string, rest: string)
    requires |a| > 0 && forall i :: 0 <= i < |a| ==> !IsSpace(a[i])
    requires |rest| > 0 && IsSpace(rest[0])
    ensures WordLength(a + rest) == |a|
  {
    var s := a + rest;
    if |a| > 1 {
      assert s[1..] == a[1..] + rest;
      WordLengthOfToken(a[1..], rest);
    }
  }

  lemma WordsOfTwoTokens(a: string, b: string)
    requires |a| > 0 && forall i :: 0 <= i < |a| ==> !IsSpace(a[i])
    requires |b| == 1 && !IsSpace(b[0])
    ensures Words(a + " " + b) == [a, b]
  {
    var tail := " " + b;
    var s := a + tail;
    assert a + " " + b == s;
    assert b[..1] == b && b[1..] == [];
    assert Words(b) == [b];
    assert tail[1..] == b;
    assert Words(tail) == [b];
    WordLengthOfToken(a, tail);
    assert s[..|a|] == a && s[|a|..] == tail;
  }

  /** Python `\w` on ASCII: letters, digits and underscore. */
  predicate IsWordChar(c: char) {
    IsDigit(c) || ('a' <= c <= 'z') || ('A' <= c <= 'Z') || c == '_'
  }

  /** End of the run of digits that starts at `j`. */
  function DigitRunEnd(s: string, j: nat): (e: nat)
    requires j <= |s|
    ensures j <= e <= |s|
    ensures forall k :: j <= k < e ==> IsDigit(s[k])
    ensures e == |s| || !IsDigit(s[e])
    decreases |s| - j
  {
    if j < |s| && IsDigit(s[j]) then DigitRunEnd(s, j + 1) else j
  }

  /** Least digits after the leading "20" of a period id. */
  const PeriodTailDigits: nat := 11

  /** `\b20\d{11,}\b` matches at `i`: a word boundary, "20", at least eleven
      more digits, and a word boundary after them. Backtracking cannot help
      the greedy digit run, because a shorter run ends before a digit, so
      the only candidate end is the end of the maximal run. */
  predicate PeriodAt(s: string, i: nat) {
    && i + 2 <= |s| && s[i] == '2' && s[i + 1] == '0'
    && (i == 0 || !IsWordChar(s[i - 1]))
    && var e := DigitRunEnd(s, i + 2);
       e - (i + 2) >= PeriodTailDigits && (e == |s| || !IsWordChar(s[e]))
  }

  /** `re.search`: the leftmost match at or after `i`. */
  function SearchPeriod(s: string, i: nat): (r: Option<string>)
    requires i <= |s|
    ensures r.None? <==> forall k :: i <= k < |s| ==> !PeriodAt(s, k)
    ensures r.Some? ==> |r.value| >= 2 + PeriodTailDigits && r.value[0] == '2' && r.value[1] == '0'
    ensures r.Some? ==> forall k :: 0 <= k < |r.value| ==> IsDigit(r.value[k])
    decreases |s| - i
  {
    if i == |s| then None
    else if PeriodAt(s, i) then Some(s[i..DigitRunEnd(s, i + 2)])
    else SearchPeriod(s, i + 1)
  }

  /** The match is the leftmost one. */
  lemma {:induction false} SearchPeriodLeftmost(s: string, i: nat, j: nat)
    requires i <= j < |s| && PeriodAt(s, j)
    requires forall k :: i <= k < j ==> !PeriodAt(s, k)
    ensures SearchPeriod(s, i) == Some(s[j..DigitRunEnd(s, j + 2)])
    decreases j - i
  {
    if i < j {
      SearchPeriodLeftmost(s, i + 1, j);
    }
  }

  /** What `fetch_result` returns when the page was read: `ocrText` is the
      text the retry chose, or `None` when the OCR step raised before
      parsing. The page-text fallback runs only while the period is still
      "Unknown". */
  function FetchResult(ocrText: Option<string>, page: string): (f: Parsed)
    ensures var p := if ocrText.Some? then ParseOcrText(ocrText.value) else NothingParsed;
      && f.color == p.color && f.size == p.size && f.number == p.number
      && (p.period != Unknown ==> f.period == p.period)
      && (p.period == Unknown ==> f.period == SearchPeriod(page, 0).OrDefault(Unknown))
  {
    var p := if ocrText.Some? then ParseOcrText(ocrText.value) else NothingParsed;
    if p.period == Unknown then p.(period := SearchPeriod(page, 0).OrDefault(Unknown)) else p
  }
}
