/** Option and Result, the model's stand-ins for Python's `None` and for
    exceptions that abandon a computation. */
module Results {

  /** A dictionary lookup or a parse that may find nothing (Python `None`). */
  datatype Option<+T> = None | Some(value: T) {

    /** `d.get(key, default)`: the value when present, the default otherwise. */
    function OrDefault(default: T): T {
      match this
      case Some(v) => v
      case None => default
    }
  }

  /** A computation that either yields a value or raises (the error says why). */
  datatype Result<+T, +E> = Ok(value: T) | Err(error: E)

  function Min(a: int, b: int): int {
    if a <= b then a else b
  }

  function Max(a: real, b: real): real {
    if a >= b then a else b
  }

  /** Python's `s[-m:]`: the last `m` elements, or all of `s` when it is shorter. */
  function Last<T>(s: seq<T>, m: nat): (t: seq<T>)
    ensures |t| == Min(m, |s|)
    ensures forall i :: 0 <= i < |t| ==> t[i] == s[|s| - |t| + i]
  {
    seq(Min(m, |s|), i requires 0 <= i < Min(m, |s|) => s[|s| - Min(m, |s|) + i])
  }

  /** Python's `list.reverse()`, as a value. */
  function Reverse<T>(s: seq<T>): (r: seq<T>)
    ensures |r| == |s|
    ensures forall i :: 0 <= i < |s| ==> r[i] == s[|s| - 1 - i]
  {
    seq(|s|, i requires 0 <= i < |s| => s[|s| - 1 - i])
  }

  /** Number of `true` entries (`sum(1 for x in s if cond(x))` once the
      condition has been evaluated per element). */
  function CountTrue(bs: seq<bool>): (c: nat)
    ensures c <= |bs|
  {
    if |bs| == 0 then 0 else CountTrue(bs[..|bs| - 1]) + (if bs[|bs| - 1] then 1 else 0)
  }

  /** The positions where `bs` holds. */
  function TruePositions(bs: seq<bool>): set<int> {
    set i | 0 <= i < |bs| && bs[i]
  }

  /** `CountTrue` counts the positions where the sequence holds. */
  lemma {:induction false} CountTrueIsCard(bs: seq<bool>)
    ensures CountTrue(bs) == |TruePositions(bs)|
  {
    if |bs| > 0 {
      var n := |bs| - 1;
      var init := bs[..n];
      CountTrueIsCard(init);
      assert n !in TruePositions(init);
      if bs[n] {
        assert TruePositions(bs) == TruePositions(init) + {n};
      } else {
        assert TruePositions(bs) == TruePositions(init);
      }
    }
  }

  /** Two conditions that never hold at the same position count at most the
      length of the sequence together. */
  lemma {:induction false} CountDisjointBound(a: seq<bool>, b: seq<bool>)
    requires |a| == |b|
    requires forall i :: 0 <= i < |a| ==> !(a[i] && b[i])
    ensures CountTrue(a) + CountTrue(b) <= |a|
  {
    if |a| > 0 {
      CountDisjointBound(a[..|a| - 1], b[..|b| - 1]);
    }
  }
}
