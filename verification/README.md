# JPEG to SVG converter: the contour-to-path emitter

The converter loads a raster image, turns it into an inverted bilevel mask, and traces
the boundary contours of that mask with a library routine. It then writes the contours
as an SVG drawing. This project models the part the program does itself. That part sizes
the drawing from the mask's shape and walks the traced contours in order. Every contour
with at least two points becomes one path element. The path is a moveto to the first
point, a lineto to each later point, and a closepath. Its style is fixed: `fill="none"`,
`stroke="black"`, `stroke-width=1`. The commands are those of SVG 1.1 (Second Edition),
section 8.3: moveto 8.3.2, closepath 8.3.3, lineto 8.3.4.

Layout:

- `path_data.dfy` (module `PathData`): commands, style, path values. `PathOf` is the
  reference command list of one contour. `ParsePath` decodes an outline back into its
  points, and two lemmas prove that the two are inverse.
- `emission.dfy` (module `Emission`): `Emitted`, the list of paths a sequence of contours
  produces. Lemmas cover its count, its order, its append behaviour and which contour
  each path comes from.
- `canvas.dfy` (module `Canvas`): the mask's (height, width) shape and the
  (width, height) canvas it gives.
- `svg_drawing.dfy` (module `SvgDrawing`): the mutable objects. `PathElement` is built
  by pushes and `Drawing` collects paths. `BuildPath` is the inner push loop and
  `Convert` is the contour loop. Both are proved against the functions above.

The traced contours are an input, `seq<seq<Point>>`, where a point is `(x, y)` =
(column, row).

## Model

| member | source | states |
|---|---|---|
| PathData.LinesOf | src/main.py:35-36 | one lineto per later point, with that point's coordinates, in the points' order |
| PathData.PathOf | src/main.py:33-37 | command count is points + 1; command 0 is a moveto to the first point `(p[0], p[1])`; command i is a lineto to point i; the last command is a closepath; no other closepath and no other moveto |
| PathData.ParseLinesOf | src/main.py:35-36 | decoding the lineto run of a point list gives the point list back |
| PathData.LinesOfParsed | src/main.py:35-36 | any run of linetos is the lineto run of the points it decodes to |
| PathData.ParsePathOf | src/main.py:33-37 | decoding an emitted outline gives back exactly the contour it was built from, so no point is lost, added or reordered |
| PathData.PathOfParsed | src/main.py:33-37 | every command list of the form `M (L)* Z` is the outline of the points it decodes to (the converse direction of the round trip) |
| Emission.Emitted | src/main.py:28-38 | at most one path per contour; every path carries the fixed style and at least three commands |
| Emission.EmittedAppend | src/main.py:28-38 | paths of later contours are appended after those of earlier ones; earlier paths never change |
| Emission.ShortContourAddsNothing | src/main.py:29-31 | a contour with fewer than two points adds no path |
| Emission.EmittedCount | src/main.py:28-31 | the number of paths equals the number of contours with at least two points |
| Emission.EmittedTracesContours | src/main.py:28-38 | path k is the outline, in the fixed style, of the k-th drawable contour; these contours appear in strictly increasing position and every drawable contour has one |
| Canvas.CanvasCoversMask | src/main.py:24-26 | the canvas width is the mask's column count and its height its row count; a point (x, y) is on the canvas exactly when it is a pixel of the mask |
| SvgDrawing.PathElement.constructor | src/main.py:32 | a new path element has the given style and no commands |
| SvgDrawing.PathElement.Push | src/main.py:34-37 | a push appends one command at the end and keeps the earlier ones |
| SvgDrawing.Drawing.constructor | src/main.py:26 | a new drawing has the given (width, height) and no paths |
| SvgDrawing.Drawing.Add | src/main.py:38 | adding a path appends it after the paths already present |
| SvgDrawing.BuildPath | src/main.py:32-37 | the push loop builds a fresh path element whose style is the fixed style and whose commands are `PathOf(points)` |
| SvgDrawing.Convert | src/main.py:24-38 | the drawing is fresh, sized (mask columns, mask rows), and holds exactly `Emitted(contours)` |

## Left out

- Argument handling, the usage and error messages and the exit status (src/main.py:7-11, 15-16, 41) are process plumbing with no data logic.
- Image decoding with `cv2.imread` (src/main.py:13-14) is file I/O in a foreign library.
- Grayscale conversion and thresholding at 127 with inverted polarity (src/main.py:18-20) are OpenCV calls whose per-pixel arithmetic is not part of this model. The mask is an input (`Canvas.Mask`).
- Contour tracing with `cv2.findContours` (src/main.py:22) is an OpenCV routine. Its contours are an arbitrary input sequence, and its unused nesting hierarchy is dropped.
- Reshaping a contour array to an N×2 point array (src/main.py:29) only drops a singleton axis. Contours are `seq<Point>` from the start.
- Writing the drawing as XML and saving it (src/main.py:26, 40) is done by svgwrite and file output. The model stops at the path values the drawing holds. The output file name is not modelled.
- Point coordinates are 32-bit integers in the source. They are unbounded integers here, because the emitter copies them without arithmetic.
- SvgDrawing.Drawing.Add: the drawing stores a copy of the path's value instead of a reference to the path object. The source never changes a path after adding it, so the two agree; aliasing is not modelled.
