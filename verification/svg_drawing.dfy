/** The drawing that the emitter fills: a path element built command by command,
    a drawing that collects path elements, and the emission loop that sizes the
    drawing from the mask and adds one outline per drawable contour. */
module SvgDrawing {
  import opened PathData
  import opened Emission
  import opened Canvas

  /** A path element under construction: a fixed style and the commands pushed so far. */
  class PathElement {
    const style: Style
    var cmds: seq<Cmd>

    constructor (style: Style)
      ensures this.style == style && cmds == []
    {
      this.style := style;
      cmds := [];
    }

    /** The path element as a value. */
    function Value(): Path
      reads this
    {
      Path(style, cmds)
    }

    /** Appends one command at the end. */
    method Push(c: Cmd)
      modifies this
      ensures cmds == old(cmds) + [c]
    {
      cmds := cmds + [c];
    }
  }

  /** A drawing of a fixed canvas size holding path elements in the order they were added. */
  class Drawing {
    const width: nat
    const height: nat
    var paths: seq<Path>

    constructor (size: (nat, nat))
      ensures width == size.0 && height == size.1 && paths == []
    {
      width, height := size.0, size.1;
      paths := [];
    }

    /** Adds a path element after the ones already present. */
    method Add(p: PathElement)
      modifies this
      ensures paths == old(paths) + [p.Value()]
    {
      paths := paths + [p.Value()];
    }
  }

  /** Builds the path element of one contour: a moveto to its first point, a lineto per
      later point, a closepath, all in the outline style. */
  method BuildPath(points: seq<Point>) returns (path: PathElement)
    requires |points| >= 1
    ensures fresh(path)
    ensures path.Value() == OutlineOf(points)
  {
    path := new PathElement(OutlineStyle);
    var p := points[0];
    path.Push(MoveTo(p.0, p.1));
    for i := 1 to |points|
      invariant path.style == OutlineStyle
      invariant |path.cmds| == i
      invariant path.cmds[0] == MoveTo(points[0].0, points[0].1)
      invariant forall j :: 1 <= j < i ==> path.cmds[j] == LineTo(points[j].0, points[j].1)
    {
      p := points[i];
      path.Push(LineTo(p.0, p.1));
    }
    path.Push(ClosePath);
    ghost var want := PathOf(points);
    assert forall j :: 0 <= j < |want| ==> path.cmds[j] == want[j];
  }

  /** Sizes a drawing from the mask and adds one outline per drawable contour, in order. */
  method Convert(mask: Mask, contours: seq<seq<Point>>) returns (dwg: Drawing)
    requires Valid(mask)
    ensures fresh(dwg)
    ensures dwg.width == mask.cols && dwg.height == |mask.cells|
    ensures dwg.paths == Emitted(contours)
  {
    var (height, width) := Shape(mask);
    dwg := new Drawing((width, height));
    for i := 0 to |contours|
      invariant dwg.paths == Emitted(contours[..i])
    {
      var points := contours[i];
      assert contours[..i + 1][..i] == contours[..i];
      if |points| < 2 {
        continue;
      }
      var path := BuildPath(points);
      dwg.Add(path);
    }
    assert contours[..|contours|] == contours;
  }
}
