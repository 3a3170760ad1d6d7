/** The live virtual try-on page (src/pages/VirtualTryOnPage.tsx): the
    face-shape classifier, the frame-style recommendation table and the
    "recommended only" view, cyclic product navigation, the overlay
    placement arithmetic, and the page's session state with its
    "classify once, clear on Re-analyze" cache. */
module TryOn {
  import opened Models
  import opened Seqs

  /** A normalised landmark: both coordinates are fractions of the frame. */
  datatype Point = Point(x: real, y: real)

  /** One detected face: the detector always delivers the full index range. */
  type LandmarkSet = lm: seq<Point> | |lm| > 454 witness seq(455, i => Point(0.0, 0.0))

  // Landmark indices read by the classifier and the overlay.
  const LeftCheek := 234
  const RightCheek := 454
  const TopHead := 10
  const Chin := 152
  const LeftJaw := 172
  const RightJaw := 397
  const LeftForehead := 21
  const RightForehead := 251
  const LeftEyeOuter := 33
  const RightEyeOuter := 263

  function Abs(r: real): (a: real)
    ensures a >= 0.0 && (a == r || a == -r)
  {
    if r < 0.0 then -r else r
  }

  // ---------------------------------------------------------------------
  // Face-shape classifier
  // ---------------------------------------------------------------------

  datatype FaceShape = Oval | Round | Square | Heart

  /** The string the page stores and uses as the recommendation key. */
  function ShapeName(f: FaceShape): string
  {
    match f
    case Oval => "oval"
    case Round => "round"
    case Square => "square"
    case Heart => "heart"
  }

  function FaceWidth(lm: LandmarkSet): real { Abs(lm[RightCheek].x - lm[LeftCheek].x) }
  function FaceLength(lm: LandmarkSet): real { Abs(lm[Chin].y - lm[TopHead].y) }
  function JawWidth(lm: LandmarkSet): real { Abs(lm[RightJaw].x - lm[LeftJaw].x) }
  function ForeheadWidth(lm: LandmarkSet): real { Abs(lm[RightForehead].x - lm[LeftForehead].x) }

  /** The two divisors are non-zero, so every ratio is a finite real. */
  predicate Measurable(lm: LandmarkSet)
  {
    FaceWidth(lm) != 0.0 && ForeheadWidth(lm) != 0.0
  }

  /** The three-band decision over the ratios. Each category is characterised
      by the region of ratio space that yields it; the regions partition the
      space, so exactly one holds. */
  function Classify(lengthToWidth: real, jawToForehead: real, jawToCheek: real): (r: FaceShape)
    ensures r == Heart <==>
      (lengthToWidth >= 1.35 && jawToCheek < 0.9) ||
      (1.15 < lengthToWidth < 1.35 && jawToCheek < 0.85)
    ensures r == Square <==>
      lengthToWidth < 1.35 && jawToForehead >= 0.95 &&
      (lengthToWidth <= 1.15 || jawToCheek >= 0.85)
    ensures r == Round <==> lengthToWidth <= 1.15 && jawToForehead < 0.95
    ensures r == Oval <==>
      (lengthToWidth >= 1.35 && jawToCheek >= 0.9) ||
      (1.15 < lengthToWidth < 1.35 && jawToCheek >= 0.85 && jawToForehead < 0.95)
  {
    if lengthToWidth >= 1.35 then
      if jawToCheek < 0.9 then Heart else Oval
    else if lengthToWidth <= 1.15 then
      if jawToForehead >= 0.95 then Square else Round
    else
      if jawToCheek < 0.85 then Heart
      else if jawToForehead >= 0.95 then Square
      else Oval
  }

  /** `analyzeFaceShape`: measure the face and classify its ratios. */
  function AnalyzeFaceShape(lm: LandmarkSet): FaceShape
    requires Measurable(lm)
  {
    Classify(FaceLength(lm) / FaceWidth(lm),
             JawWidth(lm) / ForeheadWidth(lm),
             JawWidth(lm) / FaceWidth(lm))
  }

  /** Long faces: a ratio of exactly 1.35 is already in this band. */
  lemma LongBand(lm: LandmarkSet)
    requires Measurable(lm) && FaceLength(lm) / FaceWidth(lm) >= 1.35
    ensures AnalyzeFaceShape(lm) in {Heart, Oval}
    ensures AnalyzeFaceShape(lm) == Heart <==> JawWidth(lm) / FaceWidth(lm) < 0.9
  {
  }

  /** Wide faces: a ratio of exactly 1.15 is already in this band. */
  lemma WideBand(lm: LandmarkSet)
    requires Measurable(lm) && FaceLength(lm) / FaceWidth(lm) <= 1.15
    ensures AnalyzeFaceShape(lm) in {Square, Round}
    ensures AnalyzeFaceShape(lm) == Square <==> JawWidth(lm) / ForeheadWidth(lm) >= 0.95
  {
  }

  /** Balanced faces: the three rules are tried in order. */
  lemma MiddleBand(lm: LandmarkSet)
    requires Measurable(lm) && 1.15 < FaceLength(lm) / FaceWidth(lm) < 1.35
    ensures AnalyzeFaceShape(lm) != Round
    ensures AnalyzeFaceShape(lm) == Heart <==> JawWidth(lm) / FaceWidth(lm) < 0.85
    ensures AnalyzeFaceShape(lm) == Square <==>
      JawWidth(lm) / FaceWidth(lm) >= 0.85 && JawWidth(lm) / ForeheadWidth(lm) >= 0.95
  {
  }

  /** One worked ratio triple per branch of the decision. */
  lemma ClassifierExamples()
    ensures Classify(1.40, 1.0, 0.8) == Heart && Classify(1.40, 1.0, 0.95) == Oval
    ensures Classify(1.10, 0.97, 1.0) == Square && Classify(1.10, 0.80, 1.0) == Round
    ensures Classify(1.25, 1.0, 0.80) == Heart
    ensures Classify(1.25, 0.96, 0.90) == Square && Classify(1.25, 0.90, 0.90) == Oval
  {
  }

  /** Two landmark sets that agree on the eight measured points classify alike. */
  predicate SameMeasuredPoints(a: LandmarkSet, b: LandmarkSet)
  {
    a[LeftCheek] == b[LeftCheek] && a[RightCheek] == b[RightCheek] &&
    a[TopHead] == b[TopHead] && a[Chin] == b[Chin] &&
    a[LeftJaw] == b[LeftJaw] && a[RightJaw] == b[RightJaw] &&
    a[LeftForehead] == b[LeftForehead] && a[RightForehead] == b[RightForehead]
  }

  lemma ClassifierIsLocal(a: LandmarkSet, b: LandmarkSet)
    requires Measurable(a) && SameMeasuredPoints(a, b)
    ensures Measurable(b) && AnalyzeFaceShape(a) == AnalyzeFaceShape(b)
  {
  }

  /** The set with every left/right pair of measured points exchanged. */
  function SwapSides(lm: LandmarkSet): (s: LandmarkSet)
    ensures s[LeftCheek] == lm[RightCheek] && s[RightCheek] == lm[LeftCheek]
    ensures s[LeftJaw] == lm[RightJaw] && s[RightJaw] == lm[LeftJaw]
    ensures s[LeftForehead] == lm[RightForehead] && s[RightForehead] == lm[LeftForehead]
    ensures s[TopHead] == lm[TopHead] && s[Chin] == lm[Chin]
  {
    lm[LeftCheek := lm[RightCheek]][RightCheek := lm[LeftCheek]]
      [LeftJaw := lm[RightJaw]][RightJaw := lm[LeftJaw]]
      [LeftForehead := lm[RightForehead]][RightForehead := lm[LeftForehead]]
  }

  lemma AbsSwap(a: real, b: real)
    ensures Abs(a - b) == Abs(b - a)
  {
  }

  /** The widths are absolute differences, so exchanging sides changes nothing. */
  lemma ClassifierIgnoresSides(lm: LandmarkSet)
    requires Measurable(lm)
    ensures Measurable(SwapSides(lm)) && AnalyzeFaceShape(SwapSides(lm)) == AnalyzeFaceShape(lm)
  {
    var s := SwapSides(lm);
    AbsSwap(lm[RightCheek].x, lm[LeftCheek].x);
    AbsSwap(lm[RightJaw].x, lm[LeftJaw].x);
    AbsSwap(lm[RightForehead].x, lm[LeftForehead].x);
    assert FaceWidth(s) == FaceWidth(lm);
    assert JawWidth(s) == JawWidth(lm);
    assert ForeheadWidth(s) == ForeheadWidth(lm);
  }

  // ---------------------------------------------------------------------
  // Horizontal flip. The preview video and overlay are flipped by CSS
  // (`scale-x-[-1]`); the screenshot and the photo capture draw the video
  // through a canvas transform that applies the same flip.
  // ---------------------------------------------------------------------

  /** The flip of a row of `width` columns: column x goes to width - x. */
  function FlipX(x: real, width: real): real
  {
    width - x
  }

  lemma FlipXInvolution(x: real, width: real)
    ensures FlipX(FlipX(x, width), width) == x
  {
  }

  /** The map sends [0, width] into itself and every point of it is hit. */
  lemma FlipXOnto(width: real, y: real)
    requires 0.0 <= y <= width
    ensures 0.0 <= FlipX(y, width) <= width && FlipX(FlipX(y, width), width) == y
  {
  }

  /** Where the preview's CSS `scale-x-[-1]` shows column c of the camera frame. */
  function PreviewColumn(c: real, width: real): real
  {
    FlipX(c, width)
  }

  /** `ctx.scale(-1, 1)` then `ctx.drawImage(src, -width, ...)`: column c of the
      source is drawn at user x = c - width, which the scale sends to the
      device column -(c - width). */
  function CanvasFlipColumn(c: real, width: real): real
  {
    -(c - width)
  }

  /** The canvas transform is the same flip as the preview's CSS, so a
      screenshot or a captured photo shows the camera frame exactly as the
      preview does (mirrored), not the camera's own orientation. */
  lemma CanvasFlipIsPreviewFlip(c: real, width: real)
    ensures CanvasFlipColumn(c, width) == PreviewColumn(c, width)
    ensures 0.0 <= c <= width ==> 0.0 <= CanvasFlipColumn(c, width) <= width
  {
  }

  /** A landmark set flipped horizontally (normalised coordinates, width 1). */
  function MirrorSet(lm: LandmarkSet): (m: LandmarkSet)
    ensures |m| == |lm|
    ensures forall i :: 0 <= i < |lm| ==> m[i] == Point(FlipX(lm[i].x, 1.0), lm[i].y)
  {
    seq(|lm|, i requires 0 <= i < |lm| => Point(FlipX(lm[i].x, 1.0), lm[i].y))
  }

  /** The classifier gives the same answer on a face and on its horizontal
      flip, so it does not matter which orientation the detector sees. */
  lemma ClassifierMirrorInvariant(lm: LandmarkSet)
    requires Measurable(lm)
    ensures Measurable(MirrorSet(lm)) && AnalyzeFaceShape(MirrorSet(lm)) == AnalyzeFaceShape(lm)
  {
    var m := MirrorSet(lm);
    assert FaceWidth(m) == FaceWidth(lm);
    assert JawWidth(m) == JawWidth(lm);
    assert ForeheadWidth(m) == ForeheadWidth(lm);
    assert FaceLength(m) == FaceLength(lm);
  }

  // ---------------------------------------------------------------------
  // Recommendations
  // ---------------------------------------------------------------------

  const ShapeNames: set<string> := {"oval", "round", "square", "heart"}

  /** `getFrameRecommendations`: the fixed table; any other key gives []. */
  function FrameRecommendations(key: string): (r: seq<string>)
    ensures r != [] <==> key in ShapeNames
    ensures NoDup(r)
  {
    if key == "oval" then ["Rectangle", "Aviator", "Square", "Cat-Eye", "Wayfarer"]
    else if key == "round" then ["Rectangle", "Square", "Geometric", "Angular"]
    else if key == "square" then ["Round", "Oval", "Aviator", "Cat-Eye"]
    else if key == "heart" then ["Aviator", "Cat-Eye", "Round", "Oval", "Rimless"]
    else []
  }

  /** Every classifier outcome has recommendations: 5, 4, 4 and 5 of them. */
  lemma RecommendationsForEveryShape(f: FaceShape)
    ensures ShapeName(f) in ShapeNames
    ensures |FrameRecommendations(ShapeName(f))| == (if f == Oval || f == Heart then 5 else 4)
  {
  }

  /** The catalog's 'Cat Eye' spelling is never a recommended tag ('Cat-Eye' is). */
  lemma CatEyeSpellingNeverRecommended(key: string)
    ensures "Cat Eye" !in FrameRecommendations(key)
  {
  }

  predicate IsEyewear(p: Product)
  {
    p.category == "eyeglasses" || p.category == "sunglasses"
  }

  /** The page keeps only eyeglasses and sunglasses from the catalog. */
  function EyewearOnly(catalog: seq<Product>): (r: seq<Product>)
    ensures forall p :: p in r <==> p in catalog && IsEyewear(p)
    ensures IsSubseq(r, catalog)
    ensures r == Filter(catalog, IsEyewear)
  {
    FilterMember(catalog, IsEyewear, Product("", "", "", 0.0, "", "", "", 0.0, ""));
    FilterIsSubseq(catalog, IsEyewear);
    forall p ensures p in Filter(catalog, IsEyewear) <==> p in catalog && IsEyewear(p) {
      FilterMember(catalog, IsEyewear, p);
    }
    Filter(catalog, IsEyewear)
  }

  /** The filter `p => recommendedShapes.includes(p.shape)`. */
  function ShapeIn(recommended: seq<string>): Product -> bool
  {
    (p: Product) => p.shape in recommended
  }

  /** `getRecommendedProducts`: the whole list unless the toggle is on and
      there are recommendations; then the products whose shape tag is exactly
      one of them, in list order. */
  function RecommendedProducts(products: seq<Product>, show: bool, recommended: seq<string>): (r: seq<Product>)
    ensures !show || recommended == [] ==> r == products
    ensures show && recommended != [] ==>
      IsSubseq(r, products) &&
      (forall p :: p in r <==> p in products && p.shape in recommended) &&
      r == Filter(products, ShapeIn(recommended))
  {
    if !show || |recommended| == 0 then products
    else
      var keep := ShapeIn(recommended);
      FilterIsSubseq(products, keep);
      forall p ensures p in Filter(products, keep) <==> p in products && p.shape in recommended {
        FilterMember(products, keep, p);
      }
      Filter(products, keep)
  }

  // ---------------------------------------------------------------------
  // Cyclic navigation
  // ---------------------------------------------------------------------

  /** `products.findIndex(p => p.id === id)`. */
  function IndexOfId(products: seq<Product>, id: string): (k: int)
    ensures -1 <= k < |products|
    ensures k == -1 <==> forall i :: 0 <= i < |products| ==> products[i].id != id
    ensures k >= 0 ==> products[k].id == id && forall i :: 0 <= i < k ==> products[i].id != id
  {
    FindIndex(products, (p: Product) => p.id == id)
  }

  /** The index `handlePrevProduct` moves to. */
  function PrevIndex(current: int, n: nat): (k: int)
    requires -1 <= current < n
    ensures current == -1 || current == 0 ==> k == n - 1
    ensures 0 <= current < n ==> k == (current + n - 1) % n
  {
    if current > 0 then current - 1 else n - 1
  }

  /** The index `handleNextProduct` moves to. */
  function NextIndex(current: int, n: nat): (k: int)
    requires -1 <= current < n
    ensures current == n - 1 ==> k == 0
    ensures current == -1 ==> k == 0
    ensures 0 <= current < n ==> k == (current + 1) % n
  {
    if current < n - 1 then current + 1 else 0
  }

  /** `products[i]`, which is `undefined` outside the list. */
  function At(products: seq<Product>, i: int): (r: Option<Product>)
    ensures r.Some? <==> 0 <= i < |products|
    ensures r.Some? ==> r.value == products[i]
  {
    if 0 <= i < |products| then Some(products[i]) else None
  }

  function PrevProduct(products: seq<Product>, selected: Product): Option<Product>
  {
    At(products, PrevIndex(IndexOfId(products, selected.id), |products|))
  }

  function NextProduct(products: seq<Product>, selected: Product): Option<Product>
  {
    At(products, NextIndex(IndexOfId(products, selected.id), |products|))
  }

  /** On a non-empty list both moves land on a product of the list; the last
      product's successor is the first and the first one's predecessor the last;
      a selection that is not in the list moves to the first (next) or the
      last (prev). */
  lemma NavigationWraps(products: seq<Product>, selected: Product)
    requires products != []
    ensures NextProduct(products, selected).Some? && NextProduct(products, selected).value in products
    ensures PrevProduct(products, selected).Some? && PrevProduct(products, selected).value in products
    ensures IndexOfId(products, selected.id) == |products| - 1 ==> NextProduct(products, selected) == Some(products[0])
    ensures IndexOfId(products, selected.id) == 0 ==> PrevProduct(products, selected) == Some(products[|products| - 1])
    ensures IndexOfId(products, selected.id) == -1 ==>
      NextProduct(products, selected) == Some(products[0]) &&
      PrevProduct(products, selected) == Some(products[|products| - 1])
  {
  }

  predicate UniqueIds(products: seq<Product>)
  {
    forall i, j :: 0 <= i < j < |products| ==> products[i].id != products[j].id
  }

  lemma IndexOfUniqueId(products: seq<Product>, k: nat)
    requires UniqueIds(products) && k < |products|
    ensures IndexOfId(products, products[k].id) == k
  {
  }

  /** With unique ids, going back after going forward returns to the same
      product, and so does going forward after going back. */
  lemma PrevAfterNext(products: seq<Product>, selected: Product)
    requires UniqueIds(products) && selected in products
    ensures NextProduct(products, selected).Some?
    ensures PrevProduct(products, NextProduct(products, selected).value) == Some(selected)
    ensures PrevProduct(products, selected).Some?
    ensures NextProduct(products, PrevProduct(products, selected).value) == Some(selected)
  {
    var n := |products|;
    var k :| 0 <= k < n && products[k] == selected;
    IndexOfUniqueId(products, k);
    var nk := NextIndex(k, n);
    IndexOfUniqueId(products, nk);
    var pk := PrevIndex(k, n);
    IndexOfUniqueId(products, pk);
  }

  // ---------------------------------------------------------------------
  // Overlay placement
  // ---------------------------------------------------------------------

  /** Where the two-lens drawing goes: the canvas is translated to the centre,
      the lenses are drawn at -width/4 and +width/4 on the rotated axis. */
  datatype LiveOverlay = LiveOverlay(
    centerX: real, centerY: real,
    width: real, height: real,
    leftLensX: real, rightLensX: real,
    lensRadiusX: real, lensRadiusY: real)

  /** `eyeDistance` is the pixel distance between the eye corners: the
      non-negative root of the squared pixel offsets. */
  ghost predicate IsEyeDistance(lm: LandmarkSet, canvasW: real, canvasH: real, eyeDistance: real)
  {
    var dx := (lm[RightEyeOuter].x - lm[LeftEyeOuter].x) * canvasW;
    var dy := (lm[RightEyeOuter].y - lm[LeftEyeOuter].y) * canvasH;
    eyeDistance >= 0.0 && eyeDistance * eyeDistance == dx * dx + dy * dy
  }

  /** Sizing and centring in `onFaceDetected`. */
  function PlaceLiveOverlay(lm: LandmarkSet, canvasW: real, canvasH: real, eyeDistance: real): (o: LiveOverlay)
    requires IsEyeDistance(lm, canvasW, canvasH, eyeDistance)
    ensures o.width == 1.5 * eyeDistance && o.height == 0.4 * o.width
    ensures o.leftLensX == -o.rightLensX && o.rightLensX - o.leftLensX == o.width / 2.0
    ensures o.lensRadiusX == o.width / 3.0 && o.lensRadiusY == o.height / 2.0
    ensures o.centerX == (PixelX(lm[LeftEyeOuter], canvasW) + PixelX(lm[RightEyeOuter], canvasW)) / 2.0
    ensures o.centerY == (PixelY(lm[LeftEyeOuter], canvasH) + PixelY(lm[RightEyeOuter], canvasH)) / 2.0
  {
    var w := eyeDistance * 1.5;
    var h := w * 0.4;
    LiveOverlay(
      ((lm[LeftEyeOuter].x + lm[RightEyeOuter].x) / 2.0) * canvasW,
      ((lm[LeftEyeOuter].y + lm[RightEyeOuter].y) / 2.0) * canvasH,
      w, h, -w / 4.0, w / 4.0, w / 3.0, h / 2.0)
  }

  /** Pixel position of a landmark on the canvas. */
  function PixelX(p: Point, canvasW: real): real { p.x * canvasW }
  function PixelY(p: Point, canvasH: real): real { p.y * canvasH }

  /** The overlay centre lies half the eye distance from each eye corner, and
      the frame spans three quarters of the eye distance on each side of it. */
  lemma LiveOverlayCentred(lm: LandmarkSet, canvasW: real, canvasH: real, eyeDistance: real)
    requires IsEyeDistance(lm, canvasW, canvasH, eyeDistance)
    ensures var o := PlaceLiveOverlay(lm, canvasW, canvasH, eyeDistance);
      var lx := PixelX(lm[LeftEyeOuter], canvasW) - o.centerX;
      var ly := PixelY(lm[LeftEyeOuter], canvasH) - o.centerY;
      var rx := PixelX(lm[RightEyeOuter], canvasW) - o.centerX;
      var ry := PixelY(lm[RightEyeOuter], canvasH) - o.centerY;
      rx == -lx && ry == -ly &&
      4.0 * (lx * lx + ly * ly) == eyeDistance * eyeDistance &&
      o.width / 2.0 == 1.5 * (eyeDistance / 2.0)
  {
    var o := PlaceLiveOverlay(lm, canvasW, canvasH, eyeDistance);
    var a, b := lm[LeftEyeOuter], lm[RightEyeOuter];
    var lx := a.x * canvasW - o.centerX;
    var ly := a.y * canvasH - o.centerY;
    var dx := (b.x - a.x) * canvasW;
    var dy := (b.y - a.y) * canvasH;
    assert lx == -dx / 2.0;
    assert ly == -dy / 2.0;
    assert 4.0 * (lx * lx) == dx * dx;
    assert 4.0 * (ly * ly) == dy * dy;
  }

  /** Eye corners 0.2 apart horizontally on a 1000 x 1000 canvas are 200
      pixels apart, and the drawn frame is then 300 pixels wide. */
  lemma EyeDistanceExample(lm: LandmarkSet)
    requires lm[RightEyeOuter].x - lm[LeftEyeOuter].x == 0.2
    requires lm[RightEyeOuter].y == lm[LeftEyeOuter].y
    ensures IsEyeDistance(lm, 1000.0, 1000.0, 200.0)
    ensures PlaceLiveOverlay(lm, 1000.0, 1000.0, 200.0).width == 300.0
  {
  }

  // ---------------------------------------------------------------------
  // Screenshot
  // ---------------------------------------------------------------------

  /** Where a downloaded screenshot puts the face and the drawn frame, as
      columns of the output image: the eye midpoint of the face in the
      video layer, and the centre of the frame in the overlay layer. */
  datatype ScreenshotLayout = ScreenshotLayout(faceCenterX: real, frameCenterX: real)

  /** The screenshot as written: the video frame is drawn through the canvas
      flip, and the overlay canvas, whose drawing is in camera columns, is
      copied on top without it. The face lands where the preview shows it,
      the frame where the camera saw the face. */
  function ScreenshotAsWritten(o: LiveOverlay, width: real): (s: ScreenshotLayout)
    ensures s.faceCenterX == PreviewColumn(o.centerX, width)
    ensures s.frameCenterX == o.centerX
  {
    ScreenshotLayout(CanvasFlipColumn(o.centerX, width), o.centerX)
  }

  /** As written, the frame sits on the face only when the eyes are exactly
      in the middle of the image; otherwise it is drawn width - 2 * centerX
      columns away, at the mirror image of the face's position. */
  lemma ScreenshotMisplacesFrame(o: LiveOverlay, width: real)
    ensures var s := ScreenshotAsWritten(o, width);
      (s.frameCenterX == s.faceCenterX <==> 2.0 * o.centerX == width) &&
      s.faceCenterX - s.frameCenterX == width - 2.0 * o.centerX
  {
  }

  /** Eye corners at 0.2 and 0.3 of a 1280-pixel-wide frame: the face is at
      column 960 of the screenshot and the frame at column 320. */
  lemma ScreenshotMisplacementExample(lm: LandmarkSet, eyeDistance: real)
    requires lm[LeftEyeOuter].x == 0.2 && lm[RightEyeOuter].x == 0.3
    requires IsEyeDistance(lm, 1280.0, 720.0, eyeDistance)
    ensures ScreenshotAsWritten(PlaceLiveOverlay(lm, 1280.0, 720.0, eyeDistance), 1280.0) ==
            ScreenshotLayout(960.0, 320.0)
  {
  }

  /** The screenshot is documented as non-mirrored (the comments at lines
      342, 350 and 352 and the toast at line 368), yet as written its face
      sits at the preview's mirrored column, which is the camera's column
      only when the face is exactly in the middle. */
  lemma ScreenshotMirroredDespiteDocs(o: LiveOverlay, width: real)
    ensures var s := ScreenshotAsWritten(o, width);
      s.faceCenterX == FlipX(o.centerX, width) &&
      (s.faceCenterX == o.centerX <==> 2.0 * o.centerX == width)
  {
    CanvasFlipIsPreviewFlip(o.centerX, width);
  }

  /** The screenshot as documented: the video drawn without the flip, so the
      face and the frame both keep the camera's column and the frame lands on
      the face. */
  function ScreenshotCorrected(o: LiveOverlay, width: real): (s: ScreenshotLayout)
    ensures s.frameCenterX == s.faceCenterX == o.centerX
    ensures s.frameCenterX == ScreenshotAsWritten(o, width).frameCenterX
  {
    ScreenshotLayout(o.centerX, o.centerX)
  }

  /** The documented screenshot is the mirror image of the preview: the face
      sits at the flip of the column the preview shows it at. */
  lemma ScreenshotCorrectedUnmirrors(o: LiveOverlay, width: real)
    ensures FlipX(ScreenshotCorrected(o, width).faceCenterX, width) == PreviewColumn(o.centerX, width)
    ensures FlipX(ScreenshotCorrected(o, width).faceCenterX, width) == ScreenshotAsWritten(o, width).faceCenterX
  {
  }

  // ---------------------------------------------------------------------
  // The page's session state
  // ---------------------------------------------------------------------

  /** What one detector callback does to the overlay canvas. */
  datatype OverlayFrame =
    | Untouched                 // no canvas or no selected product: early return
    | Cleared                   // no face: the canvas is cleared and left empty
    | Drawn(overlay: LiveOverlay, caption: string)   // the frame and the product name in the corner

  /** The page's `useState` fields. */
  class TryOnSession {
    var cameraEnabled: bool
    var products: seq<Product>
    var selectedProduct: Option<Product>
    var isLoading: bool
    var faceDetected: bool
    var faceShape: string
    var recommendedShapes: seq<string>
    var showRecommendations: bool

    /** The cache invariant: recommendations exist exactly for a cached
        classifier outcome, and they are that outcome's table entry. */
    ghost predicate Valid()
      reads this
    {
      (faceShape == "" || faceShape in ShapeNames) &&
      recommendedShapes == FrameRecommendations(faceShape) &&
      forall p :: p in products ==> IsEyewear(p)
    }

    constructor ()
      ensures Valid()
      ensures !cameraEnabled && products == [] && selectedProduct == None && isLoading
      ensures !faceDetected && faceShape == "" && recommendedShapes == [] && !showRecommendations
    {
      cameraEnabled := false;
      products := [];
      selectedProduct := None;
      isLoading := true;
      faceDetected := false;
      faceShape := "";
      recommendedShapes := [];
      showRecommendations := false;
    }

    /** What the product grid shows. */
    function DisplayProducts(): (r: seq<Product>)
      reads this
    {
      RecommendedProducts(products, showRecommendations, recommendedShapes)
    }

    /** The mount-time load: `response` is the catalog on success, None when
        the call failed or threw. */
    method LoadProducts(response: Option<seq<Product>>)
      requires Valid()
      modifies this
      ensures Valid()
      ensures products == (if response.Some? then EyewearOnly(response.value) else old(products))
      ensures selectedProduct == (if products != [] && response.Some? then Some(products[0]) else old(selectedProduct))
      ensures !isLoading
      ensures cameraEnabled == old(cameraEnabled) && faceDetected == old(faceDetected)
      ensures faceShape == old(faceShape) && recommendedShapes == old(recommendedShapes)
      ensures showRecommendations == old(showRecommendations)
    {
      if response.Some? {
        var eyewear := EyewearOnly(response.value);
        products := eyewear;
        if |eyewear| > 0 {
          selectedProduct := Some(eyewear[0]);
        }
      }
      isLoading := false;
    }

    /** `initializeCamera`: the camera panel is left on only when the video
        elements were mounted and the device was acquired. */
    method InitializeCamera(elementsReady: bool, streamAcquired: bool)
      requires Valid()
      modifies this
      ensures Valid()
      ensures cameraEnabled == (elementsReady && streamAcquired)
      ensures !isLoading
      ensures products == old(products) && selectedProduct == old(selectedProduct)
      ensures faceDetected == old(faceDetected) && faceShape == old(faceShape)
      ensures recommendedShapes == old(recommendedShapes) && showRecommendations == old(showRecommendations)
    {
      isLoading := true;
      cameraEnabled := true;
      if !elementsReady {
        cameraEnabled := false;
        isLoading := false;
        return;
      }
      if !streamAcquired {
        cameraEnabled := false;
      }
      isLoading := false;
    }

    /** The body of `onFaceDetected` for one detector result, run against
        the `faceShape` and `selectedProduct` it sees (`seenShape`,
        `seenProduct`); `detection` is the first face's landmarks, or None
        when no face was found. `classified` says whether the shape was
        computed, stored and announced with a toast on this call. */
    method OnFaceDetectedSeeing(seenShape: string, seenProduct: Option<Product>,
                                canvasReady: bool, detection: Option<LandmarkSet>,
                                canvasW: real, canvasH: real, eyeDistance: real)
      returns (frame: OverlayFrame, classified: bool)
      requires Valid()
      requires detection.Some? ==> Measurable(detection.value)
      requires detection.Some? ==> IsEyeDistance(detection.value, canvasW, canvasH, eyeDistance)
      modifies this
      ensures Valid()
      ensures classified <==> canvasReady && seenProduct.Some? && detection.Some? && seenShape == ""
      ensures classified ==> faceShape == ShapeName(AnalyzeFaceShape(detection.value))
      ensures !classified ==> faceShape == old(faceShape) && recommendedShapes == old(recommendedShapes)
      ensures !canvasReady || seenProduct.None? ==>
        frame == Untouched && faceDetected == old(faceDetected)
      ensures canvasReady && seenProduct.Some? ==>
        faceDetected == detection.Some? &&
        frame == (if detection.Some?
                  then Drawn(PlaceLiveOverlay(detection.value, canvasW, canvasH, eyeDistance), seenProduct.value.name)
                  else Cleared)
      ensures cameraEnabled == old(cameraEnabled) && products == old(products)
      ensures selectedProduct == old(selectedProduct) && isLoading == old(isLoading)
      ensures showRecommendations == old(showRecommendations)
    {
      classified := false;
      if !canvasReady || seenProduct.None? {
        return Untouched, false;
      }
      if detection.None? {
        faceDetected := false;
        return Cleared, false;
      }
      faceDetected := true;
      var landmarks := detection.value;
      if seenShape == "" {
        var detected := AnalyzeFaceShape(landmarks);
        faceShape := ShapeName(detected);
        recommendedShapes := FrameRecommendations(faceShape);
        classified := true;
      }
      frame := Drawn(PlaceLiveOverlay(landmarks, canvasW, canvasH, eyeDistance), seenProduct.value.name);
    }

    /** `onFaceDetected` reading the page's current state: the shape is
        classified only while none is cached, and the label names the
        product selected now. */
    method OnFaceDetected(canvasReady: bool, detection: Option<LandmarkSet>,
                          canvasW: real, canvasH: real, eyeDistance: real)
      returns (frame: OverlayFrame)
      requires Valid()
      requires detection.Some? ==> Measurable(detection.value)
      requires detection.Some? ==> IsEyeDistance(detection.value, canvasW, canvasH, eyeDistance)
      modifies this
      ensures Valid()
      ensures !canvasReady || old(selectedProduct).None? ==>
        frame == Untouched && faceDetected == old(faceDetected) &&
        faceShape == old(faceShape) && recommendedShapes == old(recommendedShapes)
      ensures canvasReady && old(selectedProduct).Some? ==>
        faceDetected == detection.Some? &&
        frame == (if detection.Some?
                  then Drawn(PlaceLiveOverlay(detection.value, canvasW, canvasH, eyeDistance), old(selectedProduct).value.name)
                  else Cleared)
      ensures canvasReady && old(selectedProduct).Some? && detection.Some? && old(faceShape) == "" ==>
        faceShape == ShapeName(AnalyzeFaceShape(detection.value))
      ensures old(faceShape) != "" || detection.None? || !canvasReady || old(selectedProduct).None? ==>
        faceShape == old(faceShape) && recommendedShapes == old(recommendedShapes)
      ensures cameraEnabled == old(cameraEnabled) && products == old(products)
      ensures selectedProduct == old(selectedProduct) && isLoading == old(isLoading)
      ensures showRecommendations == old(showRecommendations)
    {
      var classified;
      frame, classified := OnFaceDetectedSeeing(faceShape, selectedProduct, canvasReady, detection,
                                                canvasW, canvasH, eyeDistance);
    }

    /** The "Show only recommended" checkbox. */
    method SetShowRecommendations(checked: bool)
      requires Valid()
      modifies this`showRecommendations
      ensures Valid() && showRecommendations == checked
    {
      showRecommendations := checked;
    }

    /** The Re-analyze button: forget the cached shape so that the next
        detection classifies again. */
    method ReAnalyze()
      requires Valid()
      modifies this`faceShape, this`recommendedShapes, this`showRecommendations
      ensures Valid()
      ensures faceShape == "" && recommendedShapes == [] && !showRecommendations
    {
      faceShape := "";
      recommendedShapes := [];
      showRecommendations := false;
    }

    method HandlePrevProduct()
      requires Valid()
      modifies this`selectedProduct
      ensures Valid()
      ensures selectedProduct ==
        if old(selectedProduct).None? then None else PrevProduct(products, old(selectedProduct).value)
    {
      if selectedProduct.None? {
        return;
      }
      var current := IndexOfId(products, selectedProduct.value.id);
      var prev := if current > 0 then current - 1 else |products| - 1;
      selectedProduct := At(products, prev);
    }

    method HandleNextProduct()
      requires Valid()
      modifies this`selectedProduct
      ensures Valid()
      ensures selectedProduct ==
        if old(selectedProduct).None? then None else NextProduct(products, old(selectedProduct).value)
    {
      if selectedProduct.None? {
        return;
      }
      var current := IndexOfId(products, selectedProduct.value.id);
      var next := if current < |products| - 1 then current + 1 else 0;
      selectedProduct := At(products, next);
    }

    /** Clicking a card of the product grid. */
    method SelectProduct(p: Product)
      requires Valid() && p in DisplayProducts()
      modifies this`selectedProduct
      ensures Valid() && selectedProduct == Some(p) && p in products
    {
      selectedProduct := Some(p);
    }
  }

  /** The intended behaviour: once a shape is cached, later detections keep
      it until Re-analyze, so two detections in a row classify only the
      first time. */
  method CachedAcrossDetections(s: TryOnSession, first: LandmarkSet, second: LandmarkSet,
                                canvasW: real, canvasH: real, e1: real, e2: real)
    requires s.Valid() && s.faceShape == "" && s.selectedProduct.Some?
    requires Measurable(first) && Measurable(second)
    requires IsEyeDistance(first, canvasW, canvasH, e1) && IsEyeDistance(second, canvasW, canvasH, e2)
    modifies s
    ensures s.faceShape == ShapeName(AnalyzeFaceShape(first))
    ensures s.recommendedShapes == FrameRecommendations(ShapeName(AnalyzeFaceShape(first)))
  {
    var f1 := s.OnFaceDetected(true, Some(first), canvasW, canvasH, e1);
    var f2 := s.OnFaceDetected(true, Some(second), canvasW, canvasH, e2);
  }

  /** The callback as registered: `initializeCamera` hands `onFaceDetected`
      to the detector once, so every later frame runs the closure of the
      render in which the camera was enabled, with the `faceShape` ('') and
      `selectedProduct` of that render. Two detections in a row both
      classify (and both toast), and a product chosen in between is not
      the one labelled. */
  method ClassifiesEveryDetection(s: TryOnSession, first: LandmarkSet, second: LandmarkSet,
                                  canvasW: real, canvasH: real, e1: real, e2: real)
    returns (classifiedFirst: bool, classifiedSecond: bool, caption: Option<string>)
    requires s.Valid() && s.faceShape == "" && s.selectedProduct.Some?
    requires Measurable(first) && Measurable(second)
    requires IsEyeDistance(first, canvasW, canvasH, e1) && IsEyeDistance(second, canvasW, canvasH, e2)
    modifies s
    ensures classifiedFirst && classifiedSecond
    ensures s.faceShape == ShapeName(AnalyzeFaceShape(second))
    ensures caption == Some(old(s.selectedProduct).value.name)
  {
    var seenShape, seenProduct := s.faceShape, s.selectedProduct;
    var f1, f2;
    f1, classifiedFirst := s.OnFaceDetectedSeeing(seenShape, seenProduct, true, Some(first), canvasW, canvasH, e1);
    s.HandleNextProduct();
    f2, classifiedSecond := s.OnFaceDetectedSeeing(seenShape, seenProduct, true, Some(second), canvasW, canvasH, e2);
    caption := Some(f2.caption);
  }
}
