/**
 * The view carousel's index arithmetic: the fixed view order, JavaScript's `%`,
 * `Math.round`, the wrap used by `setViewByIndex` and the sector chosen when the
 * dial is released.
 */
module Views {

  /** The fixed view order. */
  const VIEWS: seq<string> := ["weather", "news", "todo", "ideas", "done"]

  /** `VIEWS.length` */
  const N: int := 5

  /** Degrees per view on the dial: `360 / VIEWS.length`. */
  const STEP: real := 72.0

  lemma ViewConstants()
    ensures |VIEWS| == N && STEP == 360.0 / (N as real)
  {
  }

  /** JavaScript's `a % N`: the remainder takes the sign of the dividend. */
  function JsMod(a: int): (r: int)
    ensures -N < r < N
    ensures 0 <= a ==> 0 <= r
    ensures a <= 0 ==> r <= 0
    ensures r % N == a % N
  {
    if 0 <= a then a % N else -((-a) % N)
  }

  /** setViewByIndex's `(idx + VIEWS.length) % VIEWS.length`. */
  function WrapIndex(idx: int): (r: int)
    ensures -N <= idx ==> 0 <= r < N && r == idx % N
  {
    JsMod(idx + N)
  }

  /** One wheel step in either direction wraps around the ends. */
  lemma WrapStep(i: int)
    requires 0 <= i < N
    ensures WrapIndex(i + 1) == if i == N - 1 then 0 else i + 1
    ensures WrapIndex(i - 1) == if i == 0 then N - 1 else i - 1
  {
  }

  /** Below `-N` the JavaScript formula leaves the range of view indexes. */
  lemma WrapBelowRange()
    ensures WrapIndex(-N - 1) == -1
  {
  }

  /** `Math.round`: the nearest integer, halves rounded up. */
  function Round(x: real): (r: int)
    ensures r as real - 0.5 <= x < r as real + 0.5
  {
    (x + 0.5).Floor
  }

  /** onPointerUp's `((Math.round(rot / STEP) % N) + N) % N`. */
  function FinalIndex(rotation: real): (r: int)
    ensures 0 <= r < N
    ensures r == Round(rotation / STEP) % N
  {
    var snapped := Round(rotation / STEP);
    JsMod(JsMod(snapped) + N)
  }

  /** The released dial commits the sector nearest to its rotation, counting whole
      turns: the snapped angle is at most half a step away from the release angle. */
  lemma {:induction false} FinalIndexNearest(rotation: real)
    ensures var turns := (Round(rotation / STEP) - FinalIndex(rotation)) / N;
      && Round(rotation / STEP) == FinalIndex(rotation) + turns * N
      && -STEP / 2.0 <= rotation - (FinalIndex(rotation) as real * STEP + 360.0 * turns as real) < STEP / 2.0
  {
    var snapped := Round(rotation / STEP);
    var turns := (snapped - FinalIndex(rotation)) / N;
    assert snapped == FinalIndex(rotation) + turns * N;
    assert snapped as real * STEP == FinalIndex(rotation) as real * STEP + 360.0 * turns as real;
    assert snapped as real - 0.5 <= rotation / STEP < snapped as real + 0.5;
  }

  /** Released at 127 degrees, the dial commits view 2 ("todo"); at -100 degrees
      it wraps to view 4; exactly half a step rounds up. */
  lemma FinalIndexExamples()
    ensures FinalIndex(127.0) == 2 && VIEWS[2] == "todo"
    ensures FinalIndex(-100.0) == 4
    ensures FinalIndex(36.0) == 1 && FinalIndex(-36.0) == 0
    ensures FinalIndex(400.0) == 1
  {
    assert Round(127.0 / STEP) == 2;
    assert Round(-100.0 / STEP) == -1;
    assert Round(36.0 / STEP) == 1;
    assert Round(-36.0 / STEP) == 0;
    assert Round(400.0 / STEP) == 6;
  }

  /** `VIEWS.indexOf(name)`: the first position holding `name`, or -1. */
  function IndexOf(views: seq<string>, name: string): (r: int)
    ensures -1 <= r < |views|
    ensures r == -1 <==> name !in views
    ensures r != -1 ==> views[r] == name && forall k :: 0 <= k < r ==> views[k] != name
  {
    if views == [] then -1
    else if views[0] == name then 0
    else
      var r := IndexOf(views[1..], name);
      assert name in views[1..] ==> name in views;
      if r == -1 then -1 else r + 1
  }

  /** The view names are distinct, so looking a view's name up finds that view. */
  lemma IndexOfViews(k: int)
    requires 0 <= k < N
    ensures IndexOf(VIEWS, VIEWS[k]) == k
  {
    assert forall i, j :: 0 <= i < j < |VIEWS| ==> VIEWS[i] != VIEWS[j];
  }
}
