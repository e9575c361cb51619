/** Path data of one outline: the drawing commands of SVG 1.1 (Second Edition),
    section 8.3 (moveto 8.3.2, closepath 8.3.3, lineto 8.3.4), the fixed paint style
    every outline carries, the reference command list for a traced contour, and a
    decoder that reads a command list back into the contour it outlines. */
module PathData {

  /** A contour point as the tracer reports it: (x, y) = (column, row). */
  type Point = (int, int)

  datatype Option<T> = None | Some(value: T)

  /** One path-data command: `M x y`, `L x y` or `Z`. */
  datatype Cmd = MoveTo(x: int, y: int) | LineTo(x: int, y: int) | ClosePath

  /** The paint attributes of a path element. */
  datatype Style = Style(fill: string, stroke: string, strokeWidth: int)

  /** The style given to every outline: no fill, black stroke of width 1. */
  const OutlineStyle: Style := Style("none", "black", 1)

  /** A path element: its style and its command list, in push order. */
  datatype Path = Path(style: Style, cmds: seq<Cmd>)

  /** One lineto per point, in the points' order. */
  function LinesOf(pts: seq<Point>): (r: seq<Cmd>)
    ensures |r| == |pts|
    ensures forall i :: 0 <= i < |pts| ==> r[i] == LineTo(pts[i].0, pts[i].1)
  {
    if pts == [] then [] else [LineTo(pts[0].0, pts[0].1)] + LinesOf(pts[1..])
  }

  /** The command list of the outline of `pts`: a moveto to the first point,
      a lineto to every later point in order, and one closepath at the end. */
  function PathOf(pts: seq<Point>): (r: seq<Cmd>)
    requires |pts| >= 1
    ensures |r| == |pts| + 1
    ensures r[0] == MoveTo(pts[0].0, pts[0].1)
    ensures forall i :: 1 <= i < |pts| ==> r[i] == LineTo(pts[i].0, pts[i].1)
    ensures r[|pts|] == ClosePath
    ensures forall i :: 0 <= i < |r| ==> (r[i].ClosePath? <==> i == |pts|)
    ensures forall i :: 0 <= i < |r| ==> (r[i].MoveTo? <==> i == 0)
  {
    [MoveTo(pts[0].0, pts[0].1)] + LinesOf(pts[1..]) + [ClosePath]
  }

  /** Reads a run of linetos back into their points; None at the first other command. */
  function ParseLines(cmds: seq<Cmd>): Option<seq<Point>>
  {
    if cmds == [] then Some([])
    else if !cmds[0].LineTo? then None
    else match ParseLines(cmds[1..])
      case None => None
      case Some(ps) => Some([(cmds[0].x, cmds[0].y)] + ps)
  }

  /** Reads an outline `M p0 (L p)* Z` back into its points; None for any other shape. */
  function ParsePath(cmds: seq<Cmd>): Option<seq<Point>>
  {
    if |cmds| < 2 || !cmds[0].MoveTo? || !cmds[|cmds| - 1].ClosePath? then None
    else match ParseLines(cmds[1..|cmds| - 1])
      case None => None
      case Some(ps) => Some([(cmds[0].x, cmds[0].y)] + ps)
  }

  lemma {:induction false} ParseLinesOf(pts: seq<Point>)
    ensures ParseLines(LinesOf(pts)) == Some(pts)
  {
    if pts != [] {
      ParseLinesOf(pts[1..]);
      assert LinesOf(pts)[1..] == LinesOf(pts[1..]);
      assert [(pts[0].0, pts[0].1)] + pts[1..] == pts;
    }
  }

  lemma {:induction false} LinesOfParsed(cmds: seq<Cmd>)
    requires ParseLines(cmds).Some?
    ensures LinesOf(ParseLines(cmds).value) == cmds
  {
    if cmds != [] {
      LinesOfParsed(cmds[1..]);
      var ps := ParseLines(cmds).value;
      assert ps[1..] == ParseLines(cmds[1..]).value;
    }
  }

  /** Decoding an outline gives back exactly the contour it was built from. */
  lemma ParsePathOf(pts: seq<Point>)
    requires |pts| >= 1
    ensures ParsePath(PathOf(pts)) == Some(pts)
  {
    var r := PathOf(pts);
    assert r[1..|r| - 1] == LinesOf(pts[1..]);
    ParseLinesOf(pts[1..]);
    assert [(pts[0].0, pts[0].1)] + pts[1..] == pts;
  }

  /** Every command list the decoder accepts is the outline of what it decodes to:
      the outline format has no other well-formed members. */
  lemma PathOfParsed(cmds: seq<Cmd>)
    requires ParsePath(cmds).Some?
    ensures |ParsePath(cmds).value| >= 1
    ensures PathOf(ParsePath(cmds).value) == cmds
  {
    var inner := cmds[1..|cmds| - 1];
    LinesOfParsed(inner);
    var pts := ParsePath(cmds).value;
    assert pts[1..] == ParseLines(inner).value;
    assert cmds == [cmds[0]] + inner + [cmds[|cmds| - 1]];
  }
}
