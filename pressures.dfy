/**
 * Conversions between the flat interleaved pressure list
 * [ago1, antago1, ago2, antago2, ...] and the list of (agonist, antagonist) pairs.
 * The helpers mirror the Python building blocks the conversions are made of:
 * the slices `s[::2]` and `s[1::2]`, the truncating `zip`, and the flattening comprehension.
 */
module Pressures {

  function Min(a: int, b: int): (m: int)
    ensures m <= a && m <= b && (m == a || m == b)
  {
    if a <= b then a else b
  }

  /** The slice `s[::2]`: the items at even positions. */
  function EvenItems<T>(s: seq<T>): (r: seq<T>)
    ensures |r| == (|s| + 1) / 2
    ensures forall i :: 0 <= i < |r| ==> r[i] == s[2 * i]
    decreases |s|
  {
    if |s| <= 1 then s else [s[0]] + EvenItems(s[2..])
  }

  /** The slice `s[1::2]`: the items at odd positions. */
  function OddItems<T>(s: seq<T>): (r: seq<T>)
    ensures |r| == |s| / 2
    ensures forall i :: 0 <= i < |r| ==> r[i] == s[2 * i + 1]
  {
    if |s| == 0 then [] else EvenItems(s[1..])
  }

  /** Python's `zip` of two lists: pairs up items and stops at the end of the shorter list. */
  function Zip<A, B>(a: seq<A>, b: seq<B>): (r: seq<(A, B)>)
    ensures |r| == Min(|a|, |b|)
    ensures forall i :: 0 <= i < |r| ==> r[i] == (a[i], b[i])
  {
    if |a| == 0 || |b| == 0 then [] else [(a[0], b[0])] + Zip(a[1..], b[1..])
  }

  /** `[p for sublist in pairs for p in sublist]` on a list of pairs. */
  function Flatten<T>(pairs: seq<(T, T)>): (r: seq<T>)
    ensures |r| == 2 * |pairs|
    ensures forall i :: 0 <= i < |pairs| ==> r[2 * i] == pairs[i].0 && r[2 * i + 1] == pairs[i].1
  {
    if |pairs| == 0 then [] else [pairs[0].0, pairs[0].1] + Flatten(pairs[1..])
  }

  /** `_convert_pressures_in`: an odd final item has no partner and is dropped. */
  function ConvertPressuresIn<T>(pressures: seq<T>): (r: seq<(T, T)>)
    ensures |r| == |pressures| / 2
    ensures forall i :: 0 <= i < |r| ==> r[i] == (pressures[2 * i], pressures[2 * i + 1])
  {
    Zip(EvenItems(pressures), OddItems(pressures))
  }

  /** `_convert_pressures_out`: interleaves the two lists, truncated to the shorter one. */
  function ConvertPressuresOut<T>(ago: seq<T>, antago: seq<T>): (r: seq<T>)
    ensures |r| == 2 * Min(|ago|, |antago|)
    ensures forall i :: 0 <= i < Min(|ago|, |antago|) ==> r[2 * i] == ago[i] && r[2 * i + 1] == antago[i]
  {
    Flatten(Zip(ago, antago))
  }

  /** The agonist (first) component of every pair. */
  function Agonists<T>(pairs: seq<(T, T)>): (r: seq<T>)
    ensures |r| == |pairs|
    ensures forall i :: 0 <= i < |r| ==> r[i] == pairs[i].0
  {
    seq(|pairs|, i requires 0 <= i < |pairs| => pairs[i].0)
  }

  /** The antagonist (second) component of every pair. */
  function Antagonists<T>(pairs: seq<(T, T)>): (r: seq<T>)
    ensures |r| == |pairs|
    ensures forall i :: 0 <= i < |r| ==> r[i] == pairs[i].1
  {
    seq(|pairs|, i requires 0 <= i < |pairs| => pairs[i].1)
  }

  /**
   * Splitting the pairs made from a flat list and interleaving them again gives
   * back the flat list without its unpaired final item, if any.
   */
  lemma OutOfIn<T>(p: seq<T>)
    ensures var pairs := ConvertPressuresIn(p);
            ConvertPressuresOut(Agonists(pairs), Antagonists(pairs)) == p[..|p| - |p| % 2]
  {
    var pairs := ConvertPressuresIn(p);
    var q := ConvertPressuresOut(Agonists(pairs), Antagonists(pairs));
    var n := |p| / 2;
    assert |q| == 2 * n == |p| - |p| % 2;
    forall k | 0 <= k < |q|
      ensures q[k] == p[k]
    {
      var i := k / 2;
      assert i < n;
      if k % 2 == 0 {
        assert k == 2 * i;
      } else {
        assert k == 2 * i + 1;
      }
    }
  }

  /** The round trip is exact on even-length lists, the only well-formed actions. */
  lemma OutOfInEven<T>(p: seq<T>)
    requires |p| % 2 == 0
    ensures var pairs := ConvertPressuresIn(p);
            ConvertPressuresOut(Agonists(pairs), Antagonists(pairs)) == p
  {
    OutOfIn(p);
    assert p[..|p|] == p;
  }

  /** Interleaving two lists and pairing the result up again is `zip` of the two lists. */
  lemma InOfOut<T>(ago: seq<T>, antago: seq<T>)
    ensures ConvertPressuresIn(ConvertPressuresOut(ago, antago)) == Zip(ago, antago)
  {
  }
}
