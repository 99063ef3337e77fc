/**
 * The photo-redaction screen (src/components/ReportView.jsx): the canvas
 * raster, the pixelating `blurRegion`, the drag handlers that drive it,
 * the display-to-raster coordinate map, the width cap applied when an
 * image is shown, and the record handed over on save.
 */
module ReportView {
  import opened Wrappers
  import opened Text

  /** An RGBA pixel of the canvas. */
  datatype Pixel = Pixel(r: int, g: int, b: int, a: int)

  /** `fillStyle = rgb(r, g, b)`: the sampled colour, fully opaque. */
  function Opaque(p: Pixel): (q: Pixel)
    ensures q.r == p.r && q.g == p.g && q.b == p.b && q.a == 255
  {
    p.(a := 255)
  }

  function Max(a: int, b: int): int {
    if a < b then b else a
  }

  function Min(a: int, b: int): int {
    if a < b then a else b
  }

  /** `size`, its half and `sampleSize`. */
  const Size := 50
  const HalfSize := 25
  const SampleSize := 12

  /** A raster held as columns: `g[x][y]`, `w` columns of `h` pixels. */
  ghost predicate Rect(g: seq<seq<Pixel>>, w: nat, h: nat) {
    |g| == w && forall x :: 0 <= x < w ==> |g[x]| == h
  }

  /** The clamped square around the pointer: its start and its extents, which are not positive when it misses the raster. */
  datatype Window = Window(startX: int, startY: int, w: int, h: int)

  function WindowAt(width: nat, height: nat, x: int, y: int): (win: Window)
    ensures win.startX == Max(0, x - 25) && win.startY == Max(0, y - 25)
    ensures win.w == Min(width - win.startX, 50) && win.h == Min(height - win.startY, 50)
    ensures win.w <= 50 && win.h <= 50 && win.startX >= 0 && win.startY >= 0
  {
    var startX := Max(0, x - HalfSize);
    var startY := Max(0, y - HalfSize);
    Window(startX, startY, Min(width - startX, Size), Min(height - startY, Size))
  }

  /** The offset, within the window, of the 12-pixel block that holds offset `d`. */
  function Snap(d: nat): (o: nat)
    ensures o <= d < o + 12 && o % 12 == 0
  {
    d / 12 * 12
  }

  /** Offsets `i` with `i % 12 == 0` and `i <= d < i + 12` snap to `i`. */
  lemma SnapOf(d: nat, i: nat)
    requires i % 12 == 0 && i <= d < i + 12
    ensures Snap(d) == i
  {
  }

  /** Pixel (px, py) lies in a block the loops fill: its block starts at an offset below the extents. */
  predicate Covered(win: Window, px: int, py: int) {
    win.startX <= px && win.startY <= py && Snap(px - win.startX) < win.w && Snap(py - win.startY) < win.h
  }

  /** The pixel `getImageData` reads for the block holding (px, py): the block's origin plus (6, 6). */
  function SampleX(win: Window, px: int): int
    requires win.startX <= px
  {
    win.startX + Snap(px - win.startX) + SampleSize / 2
  }

  function SampleY(win: Window, py: int): int
    requires win.startY <= py
  {
    win.startY + Snap(py - win.startY) + SampleSize / 2
  }

  /**
   * The colour a block is filled with: the sampled pixel made opaque;
   * `offCanvas` is what `getImageData` returns for a point outside the raster.
   */
  ghost function BlockColour(g: seq<seq<Pixel>>, width: nat, height: nat, win: Window, offCanvas: Pixel, px: int, py: int): Pixel
    requires Rect(g, width, height) && 0 <= win.startX <= px && 0 <= win.startY <= py
  {
    var sx, sy := SampleX(win, px), SampleY(win, py);
    Opaque(if sx < width && sy < height then g[sx][sy] else offCanvas)
  }

  /** The colour of (px, py) after `blurRegion`. */
  ghost function BlurredAt(g: seq<seq<Pixel>>, width: nat, height: nat, win: Window, offCanvas: Pixel, px: nat, py: nat): Pixel
    requires Rect(g, width, height) && 0 <= win.startX && 0 <= win.startY && px < width && py < height
  {
    if Covered(win, px, py) then BlockColour(g, width, height, win, offCanvas, px, py) else g[px][py]
  }

  /** `blurRegion(x, y)` as a function of the raster before it. */
  ghost function Blur(g: seq<seq<Pixel>>, width: nat, height: nat, x: int, y: int, offCanvas: Pixel): (r: seq<seq<Pixel>>)
    requires Rect(g, width, height)
    ensures Rect(r, width, height)
  {
    var win := WindowAt(width, height, x, y);
    seq(width, px requires 0 <= px < width =>
      seq(height, py requires 0 <= py < height => BlurredAt(g, width, height, win, offCanvas, px, py)))
  }

  // ---------------------------------------------------------------------------
  // What blurRegion does to the raster.

  /** Pixels outside the filled blocks keep their colour; those inside take their block's sample colour. */
  lemma BlurPixels(g: seq<seq<Pixel>>, width: nat, height: nat, x: int, y: int, offCanvas: Pixel, px: nat, py: nat)
    requires Rect(g, width, height) && px < width && py < height
    ensures var win := WindowAt(width, height, x, y);
      && (!Covered(win, px, py) ==> Blur(g, width, height, x, y, offCanvas)[px][py] == g[px][py])
      && (Covered(win, px, py) ==> Blur(g, width, height, x, y, offCanvas)[px][py] == BlockColour(g, width, height, win, offCanvas, px, py))
  {
  }

  /** When the window misses the raster (an extent is not positive) no pixel changes. */
  lemma EmptyWindowChangesNothing(g: seq<seq<Pixel>>, width: nat, height: nat, x: int, y: int, offCanvas: Pixel)
    requires Rect(g, width, height)
    requires WindowAt(width, height, x, y).w <= 0 || WindowAt(width, height, x, y).h <= 0
    ensures Blur(g, width, height, x, y, offCanvas) == g
  {
    var r := Blur(g, width, height, x, y, offCanvas);
    forall px | 0 <= px < width ensures r[px] == g[px] {
    }
  }

  /** Every block is flat: two pixels with the same block get the same colour. */
  lemma BlocksAreFlat(g: seq<seq<Pixel>>, width: nat, height: nat, x: int, y: int, offCanvas: Pixel,
                      px: nat, py: nat, qx: nat, qy: nat)
    requires Rect(g, width, height) && px < width && py < height && qx < width && qy < height
    requires var win := WindowAt(width, height, x, y);
      Covered(win, px, py) && win.startX <= qx && win.startY <= qy
      && Snap(px - win.startX) == Snap(qx - win.startX) && Snap(py - win.startY) == Snap(qy - win.startY)
    ensures Blur(g, width, height, x, y, offCanvas)[px][py] == Blur(g, width, height, x, y, offCanvas)[qx][qy]
  {
  }

  /**
   * Fills are not clipped to the 50-pixel window: the last block starts at
   * offset 48 and is 12 wide, so a raster wide and tall enough gets pixels
   * changed up to 59 past the start.
   */
  lemma FillsReachSixty(width: nat, height: nat, x: int, y: int)
    requires var win := WindowAt(width, height, x, y); win.startX + 60 <= width && win.startY + 60 <= height
    ensures var win := WindowAt(width, height, x, y);
      Covered(win, win.startX + 59, win.startY + 59) && !Covered(win, win.startX + 60, win.startY)
  {
    SnapOf(59, 48);
    SnapOf(60, 60);
  }

  /** The sample pixel of a covered pixel lies in the same block. */
  lemma SampleInOwnBlock(win: Window, px: int, py: int)
    requires 0 <= win.startX && 0 <= win.startY && Covered(win, px, py)
    ensures Covered(win, SampleX(win, px), SampleY(win, py))
    ensures SampleX(win, SampleX(win, px)) == SampleX(win, px)
    ensures SampleY(win, SampleY(win, py)) == SampleY(win, py)
  {
    SnapOf(Snap(px - win.startX) + 6, Snap(px - win.startX));
    SnapOf(Snap(py - win.startY) + 6, Snap(py - win.startY));
  }

  /**
   * Blurring twice at the same point is blurring once: each block's sample
   * pixel lies inside its own block, which the first pass made flat and
   * opaque (a sample off the raster reads `offCanvas` both times).
   */
  lemma BlurIdempotent(g: seq<seq<Pixel>>, width: nat, height: nat, x: int, y: int, offCanvas: Pixel)
    requires Rect(g, width, height)
    ensures Blur(Blur(g, width, height, x, y, offCanvas), width, height, x, y, offCanvas) == Blur(g, width, height, x, y, offCanvas)
  {
    var win := WindowAt(width, height, x, y);
    var once := Blur(g, width, height, x, y, offCanvas);
    var twice := Blur(once, width, height, x, y, offCanvas);
    forall px | 0 <= px < width ensures twice[px] == once[px] {
      forall py | 0 <= py < height ensures twice[px][py] == once[px][py] {
        if Covered(win, px, py) {
          SampleInOwnBlock(win, px, py);
          var sx, sy := SampleX(win, px), SampleY(win, py);
          if sx < width && sy < height {
            assert once[sx][sy] == BlockColour(g, width, height, win, offCanvas, sx, sy);
          }
        }
      }
    }
  }

  // ---------------------------------------------------------------------------
  // The loops of blurRegion.

  /** Block (cx, cy) comes before block (i, j) in the loops' order (columns outer). */
  predicate Before(cx: int, cy: int, i: int, j: int) {
    cx < i || (cx == i && cy < j)
  }

  /** The raster after the loops have filled the blocks before (i, j). */
  ghost function Partial(g: seq<seq<Pixel>>, width: nat, height: nat, win: Window, offCanvas: Pixel, i: int, j: int, px: nat, py: nat): Pixel
    requires Rect(g, width, height) && 0 <= win.startX && 0 <= win.startY && px < width && py < height
  {
    if Covered(win, px, py) && Before(Snap(px - win.startX), Snap(py - win.startY), i, j)
    then BlockColour(g, width, height, win, offCanvas, px, py)
    else g[px][py]
  }

  /** The whole raster after the loops have filled the blocks before (i, j). */
  ghost function PartialGrid(g: seq<seq<Pixel>>, width: nat, height: nat, win: Window, offCanvas: Pixel, i: int, j: int): (r: seq<seq<Pixel>>)
    requires Rect(g, width, height) && 0 <= win.startX && 0 <= win.startY
    ensures Rect(r, width, height)
  {
    seq(width, px requires 0 <= px < width =>
      seq(height, py requires 0 <= py < height => Partial(g, width, height, win, offCanvas, i, j, px, py)))
  }

  /** `fillRect(x0, y0, 12, 12)` with colour `c`, clipped to the raster. */
  ghost function FillBlock(g: seq<seq<Pixel>>, width: nat, height: nat, x0: int, y0: int, c: Pixel): (r: seq<seq<Pixel>>)
    requires Rect(g, width, height)
    ensures Rect(r, width, height)
  {
    seq(width, px requires 0 <= px < width =>
      seq(height, py requires 0 <= py < height =>
        if x0 <= px < x0 + 12 && y0 <= py < y0 + 12 then c else g[px][py]))
  }

  /** The colour block (i, j) of the window gets, read from the raster before `blurRegion`. */
  ghost function SampleColour(g: seq<seq<Pixel>>, width: nat, height: nat, win: Window, offCanvas: Pixel, i: int, j: int): Pixel
    requires Rect(g, width, height) && 0 <= win.startX && 0 <= win.startY && 0 <= i && 0 <= j
  {
    Opaque(if win.startX + i + 6 < width && win.startY + j + 6 < height
           then g[win.startX + i + 6][win.startY + j + 6] else offCanvas)
  }

  /** One pixel of the step below. */
  lemma PartialStep(g: seq<seq<Pixel>>, width: nat, height: nat, win: Window, offCanvas: Pixel, i: nat, j: nat, px: nat, py: nat)
    requires Rect(g, width, height) && 0 <= win.startX && 0 <= win.startY && px < width && py < height
    requires i % 12 == 0 && j % 12 == 0 && i < win.w && j < win.h
    ensures var inBlock := win.startX + i <= px < win.startX + i + 12 && win.startY + j <= py < win.startY + j + 12;
      && (inBlock ==> Partial(g, width, height, win, offCanvas, i, j + 12, px, py)
                      == SampleColour(g, width, height, win, offCanvas, i, j))
      && (!inBlock ==> Partial(g, width, height, win, offCanvas, i, j + 12, px, py)
                       == Partial(g, width, height, win, offCanvas, i, j, px, py))
  {
    if win.startX + i <= px < win.startX + i + 12 && win.startY + j <= py < win.startY + j + 12 {
      SnapOf(px - win.startX, i);
      SnapOf(py - win.startY, j);
    }
  }

  /** Filling block (i, j) with its sample colour moves the loops on by one block. */
  lemma FillStep(g: seq<seq<Pixel>>, width: nat, height: nat, win: Window, offCanvas: Pixel, i: nat, j: nat)
    requires Rect(g, width, height) && 0 <= win.startX && 0 <= win.startY
    requires i % 12 == 0 && j % 12 == 0 && i < win.w && j < win.h
    ensures FillBlock(PartialGrid(g, width, height, win, offCanvas, i, j), width, height,
                      win.startX + i, win.startY + j, SampleColour(g, width, height, win, offCanvas, i, j))
            == PartialGrid(g, width, height, win, offCanvas, i, j + 12)
  {
    var before := PartialGrid(g, width, height, win, offCanvas, i, j);
    var filled := FillBlock(before, width, height, win.startX + i, win.startY + j, SampleColour(g, width, height, win, offCanvas, i, j));
    var after := PartialGrid(g, width, height, win, offCanvas, i, j + 12);
    forall px | 0 <= px < width ensures filled[px] == after[px] {
      forall py | 0 <= py < height ensures filled[px][py] == after[px][py] {
        PartialStep(g, width, height, win, offCanvas, i, j, px, py);
      }
    }
  }

  /** The sample pixel of block (i, j) has not been filled yet when the block is reached. */
  lemma SampleNotYetFilled(g: seq<seq<Pixel>>, width: nat, height: nat, win: Window, offCanvas: Pixel, i: nat, j: nat)
    requires Rect(g, width, height) && 0 <= win.startX && 0 <= win.startY
    requires i % 12 == 0 && j % 12 == 0
    requires win.startX + i + 6 < width && win.startY + j + 6 < height
    ensures PartialGrid(g, width, height, win, offCanvas, i, j)[win.startX + i + 6][win.startY + j + 6]
            == g[win.startX + i + 6][win.startY + j + 6]
  {
    SnapOf(i + 6, i);
    SnapOf(j + 6, j);
  }

  /** A finished column of blocks is the start of the next column. */
  lemma ColumnDone(g: seq<seq<Pixel>>, width: nat, height: nat, win: Window, offCanvas: Pixel, i: nat, j: nat)
    requires Rect(g, width, height) && 0 <= win.startX && 0 <= win.startY
    requires i % 12 == 0 && j >= win.h
    ensures PartialGrid(g, width, height, win, offCanvas, i, j) == PartialGrid(g, width, height, win, offCanvas, i + 12, 0)
  {
    var a, b := PartialGrid(g, width, height, win, offCanvas, i, j), PartialGrid(g, width, height, win, offCanvas, i + 12, 0);
    forall px | 0 <= px < width ensures a[px] == b[px] {
    }
  }

  /** Before the loops nothing is filled. */
  lemma NothingFilledYet(g: seq<seq<Pixel>>, width: nat, height: nat, win: Window, offCanvas: Pixel)
    requires Rect(g, width, height) && 0 <= win.startX && 0 <= win.startY
    ensures PartialGrid(g, width, height, win, offCanvas, 0, 0) == g
  {
    var a := PartialGrid(g, width, height, win, offCanvas, 0, 0);
    forall px | 0 <= px < width ensures a[px] == g[px] {
    }
  }

  /** After the last column the raster is the blurred one. */
  lemma AllFilled(g: seq<seq<Pixel>>, width: nat, height: nat, x: int, y: int, offCanvas: Pixel, i: int)
    requires Rect(g, width, height) && i >= WindowAt(width, height, x, y).w
    ensures PartialGrid(g, width, height, WindowAt(width, height, x, y), offCanvas, i, 0) == Blur(g, width, height, x, y, offCanvas)
  {
    var a, b := PartialGrid(g, width, height, WindowAt(width, height, x, y), offCanvas, i, 0), Blur(g, width, height, x, y, offCanvas);
    forall px | 0 <= px < width ensures a[px] == b[px] {
    }
  }

  // ---------------------------------------------------------------------------
  // The canvas and its handlers.

  /** A point on screen, and a mouse or touch event. */
  datatype Point = Point(x: real, y: real)
  datatype PointerEvent = PointerEvent(touches: seq<Point>, client: Point)

  /** `getBoundingClientRect()`. */
  datatype Box = Box(left: real, top: real, width: real, height: real)

  /** The first touch when there is one, else the mouse position. */
  function ClientPoint(e: PointerEvent): (p: Point)
    ensures |e.touches| > 0 ==> p == e.touches[0]
    ensures |e.touches| == 0 ==> p == e.client
  {
    if |e.touches| > 0 then e.touches[0] else e.client
  }

  /**
   * `getCoords`: the display position scaled into raster coordinates.
   * A box with no width or height makes the scale non-finite, shown as `None`.
   */
  function GetCoords(e: PointerEvent, rect: Box, canvasWidth: nat, canvasHeight: nat): (r: Option<Point>)
    ensures r.None? <==> rect.width == 0.0 || rect.height == 0.0
  {
    if rect.width == 0.0 || rect.height == 0.0 then None
    else
      var c := ClientPoint(e);
      Some(Point((c.x - rect.left) * (canvasWidth as real / rect.width),
                 (c.y - rect.top) * (canvasHeight as real / rect.height)))
  }

  /** The box's left and top edges map to 0, its right and bottom edges to the raster's width and height. */
  lemma EdgesMapToEdges(rect: Box, canvasWidth: nat, canvasHeight: nat)
    requires rect.width != 0.0 && rect.height != 0.0
    ensures GetCoords(PointerEvent([], Point(rect.left, rect.top)), rect, canvasWidth, canvasHeight)
            == Some(Point(0.0, 0.0))
    ensures GetCoords(PointerEvent([], Point(rect.left + rect.width, rect.top + rect.height)), rect, canvasWidth, canvasHeight)
            == Some(Point(canvasWidth as real, canvasHeight as real))
  {
    var sx, sy := canvasWidth as real / rect.width, canvasHeight as real / rect.height;
    var e0 := PointerEvent([], Point(rect.left, rect.top));
    var e1 := PointerEvent([], Point(rect.left + rect.width, rect.top + rect.height));
    assert ((rect.left + rect.width) - rect.left) * sx == canvasWidth as real;
    assert ((rect.top + rect.height) - rect.top) * sy == canvasHeight as real;
    assert GetCoords(e0, rect, canvasWidth, canvasHeight).value.x == 0.0;
    assert GetCoords(e0, rect, canvasWidth, canvasHeight).value.y == 0.0;
    assert GetCoords(e1, rect, canvasWidth, canvasHeight).value.x == canvasWidth as real;
    assert GetCoords(e1, rect, canvasWidth, canvasHeight).value.y == canvasHeight as real;
  }

  /** `maxWidth`. */
  const MaxWidth := 600

  /**
   * The size the raster gets when an image is shown: a wider image is
   * scaled to 600 columns, keeping its aspect ratio; the canvas keeps the
   * whole part of the scaled height.
   */
  function FitWidth(width: nat, height: nat): (r: (nat, nat))
    ensures r.0 == Min(width, 600)
    ensures width <= 600 ==> r.1 == height
    ensures width > 600 ==> r.1 * width <= height * 600 < (r.1 + 1) * width
  {
    if width > MaxWidth then
      var h := height * MaxWidth / width;
      assert height * 600 == h * width + height * 600 % width;
      (MaxWidth, h)
    else (width, height)
  }

  /** The canvas: its raster (`raster[x, y]`, `Length0` columns), whether an image is shown, and the drag flag. */
  class Canvas {
    var raster: array2<Pixel>
    var hasImage: bool
    var drawing: bool

    /** The raster's pixels as columns. */
    ghost function Grid(): (g: seq<seq<Pixel>>)
      reads this`raster, raster
      ensures Rect(g, raster.Length0, raster.Length1)
      ensures forall x, y :: 0 <= x < raster.Length0 && 0 <= y < raster.Length1 ==> g[x][y] == raster[x, y]
    {
      var a := raster;
      seq(a.Length0, x requires 0 <= x < a.Length0 reads a =>
        seq(a.Length1, y requires 0 <= x < a.Length0 && 0 <= y < a.Length1 reads a => a[x, y]))
    }

    /** A screen with no image loaded, not drawing. */
    constructor ()
      ensures !hasImage && !drawing && fresh(raster)
      ensures raster.Length0 == 0 && raster.Length1 == 0
    {
      raster := new Pixel[0, 0];
      hasImage := false;
      drawing := false;
    }

    /**
     * The `image` effect: the raster is resized to `FitWidth` of the image
     * and `drawn` (the browser's scaled rendering of the image) is drawn on it.
     */
    method ShowImage(width: nat, height: nat, drawn: (int, int) -> Pixel)
      modifies this
      ensures fresh(raster)
      ensures (raster.Length0, raster.Length1) == FitWidth(width, height)
      ensures forall x, y :: 0 <= x < raster.Length0 && 0 <= y < raster.Length1 ==> raster[x, y] == drawn(x, y)
      ensures hasImage && drawing == old(drawing)
    {
      var size := FitWidth(width, height);
      raster := new Pixel[size.0, size.1]((x, y) => drawn(x, y));
      hasImage := true;
    }

    /** `fillRect(x0, y0, 12, 12)`: the block's pixels inside the raster take colour `c`. */
    method FillRect(x0: int, y0: int, c: Pixel)
      modifies raster
      ensures Grid() == FillBlock(old(Grid()), raster.Length0, raster.Length1, x0, y0, c)
    {
      ghost var g := Grid();
      forall px, py | x0 <= px < Min(x0 + SampleSize, raster.Length0) && y0 <= py < Min(y0 + SampleSize, raster.Length1)
                      && 0 <= px && 0 <= py {
        raster[px, py] := c;
      }
      ghost var r := FillBlock(g, raster.Length0, raster.Length1, x0, y0, c);
      forall px | 0 <= px < raster.Length0 ensures Grid()[px] == r[px] {
      }
    }

    /** One pass of the inner loop: sample block (i, j) of the window and fill it. */
    method BlurBlock(ghost g: seq<seq<Pixel>>, ghost win: Window, startX: int, startY: int, i: int, j: int, offCanvas: Pixel)
      requires Rect(g, raster.Length0, raster.Length1) && 0 <= win.startX == startX && 0 <= win.startY == startY
      requires 0 <= i < win.w && 0 <= j < win.h && i % 12 == 0 && j % 12 == 0
      requires Grid() == PartialGrid(g, raster.Length0, raster.Length1, win, offCanvas, i, j)
      modifies raster
      ensures Grid() == PartialGrid(g, raster.Length0, raster.Length1, win, offCanvas, i, j + 12)
    {
      var width, height := raster.Length0, raster.Length1;
      var sampleX := startX + i;
      var sampleY := startY + j;
      var sample := offCanvas;
      if sampleX + SampleSize / 2 < width && sampleY + SampleSize / 2 < height {
        SampleNotYetFilled(g, width, height, win, offCanvas, i, j);
        sample := raster[sampleX + SampleSize / 2, sampleY + SampleSize / 2];
        assert sample == Grid()[sampleX + 6][sampleY + 6];
      }
      ghost var colour := SampleColour(g, width, height, win, offCanvas, i, j);
      assert Opaque(sample) == colour;
      FillRect(sampleX, sampleY, Opaque(sample));
      FillStep(g, width, height, win, offCanvas, i, j);
    }

    /**
     * `blurRegion(x, y)`: for each 12-pixel block of the clamped window,
     * column by column, read the pixel at the block's origin plus (6, 6)
     * and flat-fill the block (clipped to the raster) with it, opaque.
     */
    method BlurRegion(x: int, y: int, offCanvas: Pixel)
      modifies raster
      ensures Grid() == Blur(old(Grid()), raster.Length0, raster.Length1, x, y, offCanvas)
    {
      var width, height := raster.Length0, raster.Length1;
      ghost var g := Grid();
      var startX := Max(0, x - HalfSize);
      var startY := Max(0, y - HalfSize);
      var w := Min(width - startX, Size);
      var h := Min(height - startY, Size);
      ghost var win := WindowAt(width, height, x, y);
      if w <= 0 || h <= 0 {
        EmptyWindowChangesNothing(g, width, height, x, y, offCanvas);
        return;
      }
      NothingFilledYet(g, width, height, win, offCanvas);
      var i := 0;
      while i < w
        invariant 0 <= i && i % 12 == 0
        invariant Grid() == PartialGrid(g, width, height, win, offCanvas, i, 0)
      {
        var j := 0;
        while j < h
          invariant 0 <= j && j % 12 == 0
          invariant Grid() == PartialGrid(g, width, height, win, offCanvas, i, j)
        {
          BlurBlock(g, win, startX, startY, i, j, offCanvas);
          j := j + SampleSize;
        }
        ColumnDone(g, width, height, win, offCanvas, i, j);
        i := i + SampleSize;
      }
      AllFilled(g, width, height, x, y, offCanvas, i);
    }

    /** `handleStart`: with an image shown, start drawing and blur at the point; otherwise nothing. */
    method HandleStart(x: int, y: int, offCanvas: Pixel)
      modifies this, raster
      ensures raster == old(raster) && hasImage == old(hasImage)
      ensures drawing == (old(drawing) || hasImage)
      ensures hasImage ==> Grid() == Blur(old(Grid()), raster.Length0, raster.Length1, x, y, offCanvas)
      ensures !hasImage ==> Grid() == old(Grid())
    {
      if !hasImage {
        return;
      }
      drawing := true;
      BlurRegion(x, y, offCanvas);
    }

    /** `handleMove`: blur only while drawing over a shown image. */
    method HandleMove(x: int, y: int, offCanvas: Pixel)
      modifies raster
      ensures drawing && hasImage ==> Grid() == Blur(old(Grid()), raster.Length0, raster.Length1, x, y, offCanvas)
      ensures !(drawing && hasImage) ==> Grid() == old(Grid())
    {
      if !drawing || !hasImage {
        return;
      }
      BlurRegion(x, y, offCanvas);
    }

    /** `handleEnd`: stop drawing. */
    method HandleEnd()
      modifies this
      ensures !drawing && hasImage == old(hasImage) && raster == old(raster)
    {
      drawing := false;
    }
  }

  /**
   * A move before any start blurs nothing: on a fresh screen showing an
   * image, the pointer moving over it leaves the drawn image as it was.
   */
  method MoveWithoutStart(width: nat, height: nat, drawn: (int, int) -> Pixel,
                          x: int, y: int, offCanvas: Pixel) returns (c: Canvas)
    ensures fresh(c) && c.hasImage && !c.drawing
    ensures (c.raster.Length0, c.raster.Length1) == FitWidth(width, height)
    ensures forall px, py :: 0 <= px < c.raster.Length0 && 0 <= py < c.raster.Length1 ==> c.raster[px, py] == drawn(px, py)
  {
    c := new Canvas();
    c.ShowImage(width, height, drawn);
    c.HandleMove(x, y, offCanvas);
  }

  /** The report `handleSave` hands over. */
  datatype Draft = Draft(id: int, timestamp: string, image: string, sentiment: string)

  /**
   * `handleSave`: nothing without a canvas; otherwise the id is the clock,
   * the image the encoded canvas and the comment trimmed. The clock, the
   * formatted time and the JPEG encoding are inputs.
   */
  function SaveDraft(hasCanvas: bool, now: int, timestamp: string, imageData: string, sentiment: string): (d: Option<Draft>)
    ensures d.None? <==> !hasCanvas
    ensures d.Some? ==> d.value.id == now && d.value.timestamp == timestamp && d.value.image == imageData
    ensures d.Some? ==> d.value.sentiment == Trim(sentiment) && Trim(d.value.sentiment) == d.value.sentiment
  {
    TrimIdempotent(sentiment);
    if hasCanvas then Some(Draft(now, timestamp, imageData, Trim(sentiment))) else None
  }
}
