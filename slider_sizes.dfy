/**
 * The slider range setup of main.js (`setShoeSizes`, `setBoardSizes`): a loop
 * pushes the integers min..max into an array, and the slider's min, value and
 * max attributes become the array's first, middle and last element.  The step
 * attribute is written to the slider as given and plays no part in the loop.
 */
module SliderSizes {
  import opened Wrappers

  /** What a setup function hands to the slider: `min`, `value` and `max` attributes and the step. */
  datatype SliderSetup = SliderSetup(first: Option<int>, middle: Option<int>, last: Option<int>, step: real)

  /** The integers lo, lo+1, ..., hi (empty when lo > hi). */
  ghost predicate IsRange(arr: seq<int>, lo: int, hi: int)
  {
    && |arr| == (if lo <= hi then hi - lo + 1 else 0)
    && forall i :: 0 <= i < |arr| ==> arr[i] == lo + i
  }

  /** `for (min; min <= max; min++) arr.push(min)`. */
  method BuildRange(lo: int, hi: int) returns (arr: seq<int>)
    ensures IsRange(arr, lo, hi)
  {
    arr := [];
    var n := lo;
    while n <= hi
      invariant lo <= n <= (if lo <= hi then hi + 1 else lo)
      invariant |arr| == n - lo
      invariant forall i :: 0 <= i < |arr| ==> arr[i] == lo + i
    {
      arr := arr + [n];
      n := n + 1;
    }
  }

  /** JavaScript's `Math.round`: the nearest integer, halves rounded up. */
  function MathRound(x: real): int
  {
    (x + 0.5).Floor
  }

  /** `arr[i]`, which is `undefined` outside the array. */
  function At(arr: seq<int>, i: int): Option<int>
  {
    if 0 <= i < |arr| then Some(arr[i]) else None
  }

  /** `arr.slice(-1).pop()`: the last element, or `undefined` for an empty array. */
  function SliceLastPop(arr: seq<int>): (r: Option<int>)
    ensures r.Some? <==> |arr| > 0
    ensures r.Some? ==> r.value == arr[|arr| - 1]
  {
    var tail := if |arr| == 0 then [] else arr[|arr| - 1..];
    if tail == [] then None else Some(tail[|tail| - 1])
  }

  /** `arr[Math.round((arr.length - 1) / 2)]`. */
  function Middle(arr: seq<int>): Option<int>
  {
    At(arr, MathRound((|arr| - 1) as real / 2.0))
  }

  /** The rounded midpoint index is the length halved (rounded down); for an empty array it is 0. */
  lemma MiddleIndexIsHalfLength(len: nat)
    ensures MathRound((len - 1) as real / 2.0) == len / 2
  {
    var k := len / 2;
    var x := (len - 1) as real / 2.0 + 0.5;
    if len % 2 == 0 {
      assert len == 2 * k;
      assert x == k as real;
    } else {
      assert len == 2 * k + 1;
      assert x == k as real + 0.5;
      assert k as real <= x < k as real + 1.0;
    }
  }

  /** The endpoints and midpoint of a range lo..hi, as `setShoeSizes` and `setBoardSizes` read them. */
  lemma RangeEndpoints(arr: seq<int>, lo: int, hi: int)
    requires IsRange(arr, lo, hi)
    ensures lo <= hi ==> At(arr, 0) == Some(lo) && SliceLastPop(arr) == Some(hi)
    ensures lo <= hi ==> Middle(arr) == Some(lo + (hi - lo + 1) / 2)
    ensures lo <= hi ==> lo <= Middle(arr).value <= hi
    ensures lo > hi ==> At(arr, 0) == None && Middle(arr) == None && SliceLastPop(arr) == None
  {
    MiddleIndexIsHalfLength(|arr|);
  }

  /** The range computation shared by both setup functions, with the step passed through untouched. */
  method SetSizes(lo: int, hi: int, step: real) returns (setup: SliderSetup)
    ensures setup.step == step
    ensures lo <= hi ==> setup.first == Some(lo) && setup.last == Some(hi)
    ensures lo <= hi ==> setup.middle == Some(lo + (hi - lo + 1) / 2)
    ensures lo > hi ==> setup.first == None && setup.middle == None && setup.last == None
  {
    var arr := BuildRange(lo, hi);
    RangeEndpoints(arr, lo, hi);
    setup := SliderSetup(At(arr, 0), Middle(arr), SliceLastPop(arr), step);
  }

  /** `setShoeSizes`: EU shoe sizes 35 to 45, step 0.5. */
  method SetShoeSizes() returns (setup: SliderSetup)
    ensures setup == SliderSetup(Some(35), Some(40), Some(45), 0.5)
  {
    setup := SetSizes(35, 45, 0.5);
  }

  /** `setBoardSizes`: board widths 7 to 9 inches, step 0.25. */
  method SetBoardSizes() returns (setup: SliderSetup)
    ensures setup == SliderSetup(Some(7), Some(8), Some(9), 0.25)
  {
    setup := SetSizes(7, 9, 0.25);
  }
}
