/** The drawing's path list as a function of the traced contours: contours with
    fewer than two points are skipped, every other contour contributes one outline,
    in contour order. */
module Emission {
  import opened PathData

  /** A contour is drawn when it has at least two points. */
  predicate Drawable(c: seq<Point>) { |c| >= 2 }

  /** The path element emitted for a drawable contour. */
  function OutlineOf(c: seq<Point>): Path
    requires |c| >= 1
  {
    Path(OutlineStyle, PathOf(c))
  }

  /** The paths the emission loop has added after visiting all of `cs`, in order. */
  function Emitted(cs: seq<seq<Point>>): (r: seq<Path>)
    ensures |r| <= |cs|
    ensures forall k :: 0 <= k < |r| ==> r[k].style == OutlineStyle && |r[k].cmds| >= 3
  {
    if cs == [] then []
    else
      var last := cs[|cs| - 1];
      Emitted(cs[..|cs| - 1]) + (if Drawable(last) then [OutlineOf(last)] else [])
  }

  /** The number of drawable contours, counted from the front. */
  function CountDrawable(cs: seq<seq<Point>>): nat
  {
    if cs == [] then 0 else (if Drawable(cs[0]) then 1 else 0) + CountDrawable(cs[1..])
  }

  /** The positions of the drawable contours in `cs`, in increasing order. */
  function DrawableIndices(cs: seq<seq<Point>>): seq<nat>
  {
    if cs == [] then []
    else DrawableIndices(cs[..|cs| - 1]) + (if Drawable(cs[|cs| - 1]) then [|cs| - 1] else [])
  }

  /** Visiting more contours only appends: the paths of earlier contours stay as they were. */
  lemma {:induction false} EmittedAppend(a: seq<seq<Point>>, b: seq<seq<Point>>)
    ensures Emitted(a + b) == Emitted(a) + Emitted(b)
  {
    if b == [] {
      assert a + b == a;
    } else {
      var b' := b[..|b| - 1];
      EmittedAppend(a, b');
      assert (a + b)[..|a + b| - 1] == a + b';
    }
  }

  /** A contour of fewer than two points adds no path. */
  lemma ShortContourAddsNothing(cs: seq<seq<Point>>, c: seq<Point>)
    requires |c| < 2
    ensures Emitted(cs + [c]) == Emitted(cs)
  {
  }

  /** One path per drawable contour. */
  lemma {:induction false} EmittedCount(cs: seq<seq<Point>>)
    ensures |Emitted(cs)| == CountDrawable(cs)
  {
    if cs != [] {
      EmittedCount(cs[1..]);
      EmittedAppend([cs[0]], cs[1..]);
      assert [cs[0]] + cs[1..] == cs;
      assert [cs[0]][..0] == [];
    }
  }

  /** The k-th path is the outline of the k-th drawable contour: the paths are exactly
      the outlines of the drawable contours, each once, in contour order. */
  lemma {:induction false} EmittedTracesContours(cs: seq<seq<Point>>)
    ensures |DrawableIndices(cs)| == |Emitted(cs)|
    ensures forall k, l :: 0 <= k < l < |DrawableIndices(cs)| ==>
      DrawableIndices(cs)[k] < DrawableIndices(cs)[l]
    ensures forall j :: 0 <= j < |cs| && Drawable(cs[j]) ==> j in DrawableIndices(cs)
    ensures forall k :: 0 <= k < |DrawableIndices(cs)| ==>
      DrawableIndices(cs)[k] < |cs| && Drawable(cs[DrawableIndices(cs)[k]]) &&
      Emitted(cs)[k] == OutlineOf(cs[DrawableIndices(cs)[k]])
  {
    if cs != [] {
      var init := cs[..|cs| - 1];
      EmittedTracesContours(init);
      forall j | 0 <= j < |init| ensures init[j] == cs[j] { }
    }
  }
}
