/**
 * The decision logic of the image-processing backend: the corner ordering used
 * before the perspective warp, the choice of the contour taken as the book
 * cover, the width guard of the optimisation step, and the validation and JSON
 * envelopes of `POST /upload`.
 *
 * The image operations themselves (edge detection, contour extraction, polygon
 * approximation, warping, encoding) are library calls. A contour is reduced to
 * its approximated polygon and its area; the outcome of processing is a parameter.
 */
module Server {
  import opened JsValues

  const UploadFolder := "uploads"
  const ProcessedFolder := "processed"
  /** Widest image the optimisation step keeps; wider images are scaled down to it. */
  const MaxWidth := 1080

  // ---------------------------------------------------------------------------
  // order_points

  /** A pixel position: `x` grows to the right, `y` grows downwards. */
  datatype Point = Point(x: int, y: int)

  function Sum(p: Point): int {
    p.x + p.y
  }

  /** `np.diff` along the coordinate axis: the second coordinate minus the first. */
  function Diff(p: Point): int {
    p.y - p.x
  }

  function Sums(pts: seq<Point>): (s: seq<int>)
    ensures |s| == |pts| && forall i :: 0 <= i < |pts| ==> s[i] == Sum(pts[i])
  {
    seq(|pts|, i requires 0 <= i < |pts| => Sum(pts[i]))
  }

  function Diffs(pts: seq<Point>): (s: seq<int>)
    ensures |s| == |pts| && forall i :: 0 <= i < |pts| ==> s[i] == Diff(pts[i])
  {
    seq(|pts|, i requires 0 <= i < |pts| => Diff(pts[i]))
  }

  /** `i` is where `np.argmin` lands: a smallest key, and the earliest of equal smallest keys. */
  predicate FirstMin(keys: seq<int>, i: int) {
    && 0 <= i < |keys|
    && (forall j :: 0 <= j < |keys| ==> keys[i] <= keys[j])
    && (forall j :: 0 <= j < i ==> keys[i] < keys[j])
  }

  /** `i` is where `np.argmax` lands: a largest key, and the earliest of equal largest keys. */
  predicate FirstMax(keys: seq<int>, i: int) {
    && 0 <= i < |keys|
    && (forall j :: 0 <= j < |keys| ==> keys[j] <= keys[i])
    && (forall j :: 0 <= j < i ==> keys[j] < keys[i])
  }

  /** `np.argmin` on a non-empty vector. */
  function ArgMin(keys: seq<int>): (i: nat)
    requires |keys| > 0
    ensures FirstMin(keys, i)
  {
    if |keys| == 1 then 0
    else
      var k := ArgMin(keys[..|keys| - 1]);
      if keys[|keys| - 1] < keys[k] then |keys| - 1 else k
  }

  /** `np.argmax` on a non-empty vector. */
  function ArgMax(keys: seq<int>): (i: nat)
    requires |keys| > 0
    ensures FirstMax(keys, i)
  {
    if |keys| == 1 then 0
    else
      var k := ArgMax(keys[..|keys| - 1]);
      if keys[k] < keys[|keys| - 1] then |keys| - 1 else k
  }

  /**
   * `order_points`: corner 0 has the smallest x+y, corner 2 the largest; corner 1
   * has the smallest y-x, corner 3 the largest; ties go to the earliest input.
   */
  function OrderPoints(pts: seq<Point>): (rect: seq<Point>)
    requires |pts| == 4
    ensures |rect| == 4
    ensures forall k :: 0 <= k < 4 ==> rect[k] in pts
    ensures exists i :: FirstMin(Sums(pts), i) && rect[0] == pts[i]
    ensures exists i :: FirstMax(Sums(pts), i) && rect[2] == pts[i]
    ensures exists i :: FirstMin(Diffs(pts), i) && rect[1] == pts[i]
    ensures exists i :: FirstMax(Diffs(pts), i) && rect[3] == pts[i]
  {
    var s, d := Sums(pts), Diffs(pts);
    var tl, br, tr, bl := ArgMin(s), ArgMax(s), ArgMin(d), ArgMax(d);
    [pts[tl], pts[tr], pts[br], pts[bl]]
  }

  lemma FirstMinUnique(keys: seq<int>, i: int, j: int)
    requires FirstMin(keys, i) && FirstMin(keys, j)
    ensures i == j
  {
    assert keys[i] <= keys[j] && keys[j] <= keys[i];
  }

  lemma FirstMaxUnique(keys: seq<int>, i: int, j: int)
    requires FirstMax(keys, i) && FirstMax(keys, j)
    ensures i == j
  {
    assert keys[i] <= keys[j] && keys[j] <= keys[i];
  }

  /** The corners of the upright rectangle spanned by `left < right` and `top < bottom`, in the intended order. */
  function RectangleCorners(left: int, top: int, right: int, bottom: int): seq<Point> {
    [Point(left, top), Point(right, top), Point(right, bottom), Point(left, bottom)]
  }

  /** A list with the same elements as four given corners holds exactly those corners. */
  lemma CornersAsMembers(pts: seq<Point>, corners: seq<Point>)
    requires |corners| == 4 && multiset(pts) == multiset(corners)
    ensures |pts| == 4
    ensures forall p :: p in pts <==> p in corners
  {
    assert |pts| == |multiset(pts)| == |multiset(corners)| == 4;
    forall p ensures p in pts <==> p in corners {
      assert p in pts <==> p in multiset(pts);
      assert p in corners <==> p in multiset(corners);
    }
  }

  /** When the key at `a` is strictly below the key of every other point, the first minimum is that point. */
  lemma UniqueSmallest(pts: seq<Point>, keys: seq<int>, a: int, i: int)
    requires |keys| == |pts| && 0 <= a < |pts| && FirstMin(keys, i)
    requires forall j :: 0 <= j < |pts| && pts[j] != pts[a] ==> keys[a] < keys[j]
    ensures pts[i] == pts[a]
  {
    assert keys[i] <= keys[a];
  }

  /** When the key at `a` is strictly above the key of every other point, the first maximum is that point. */
  lemma UniqueLargest(pts: seq<Point>, keys: seq<int>, a: int, i: int)
    requires |keys| == |pts| && 0 <= a < |pts| && FirstMax(keys, i)
    requires forall j :: 0 <= j < |pts| && pts[j] != pts[a] ==> keys[j] < keys[a]
    ensures pts[i] == pts[a]
  {
    assert keys[a] <= keys[i];
  }

  /** `pts` holds each of the four `corners`, and nothing else. */
  predicate ListsCorners(pts: seq<Point>, corners: seq<Point>)
    requires |corners| == 4
  {
    && |pts| == 4
    && (forall j :: 0 <= j < 4 ==>
          pts[j] == corners[0] || pts[j] == corners[1] || pts[j] == corners[2] || pts[j] == corners[3])
    && (forall k :: 0 <= k < 4 ==> corners[k] in pts)
  }

  /** One corner of an upright rectangle lands in its intended place. */
  lemma RectangleCornerPlaced(pts: seq<Point>, left: int, top: int, right: int, bottom: int, k: int)
    requires left < right && top < bottom && 0 <= k < 4
    requires ListsCorners(pts, RectangleCorners(left, top, right, bottom))
    ensures OrderPoints(pts)[k] == RectangleCorners(left, top, right, bottom)[k]
  {
    var corners := RectangleCorners(left, top, right, bottom);
    var s, d := Sums(pts), Diffs(pts);
    var a :| 0 <= a < 4 && pts[a] == corners[k];
    if k == 0 {
      UniqueSmallest(pts, s, a, ArgMin(s));
    } else if k == 1 {
      UniqueSmallest(pts, d, a, ArgMin(d));
    } else if k == 2 {
      UniqueLargest(pts, s, a, ArgMax(s));
    } else {
      UniqueLargest(pts, d, a, ArgMax(d));
    }
  }

  /**
   * On the four corners of an upright rectangle, given in any order, the result
   * is top-left, top-right, bottom-right, bottom-left.
   */
  lemma OrderPointsOfRectangle(pts: seq<Point>, left: int, top: int, right: int, bottom: int)
    requires left < right && top < bottom
    requires multiset(pts) == multiset(RectangleCorners(left, top, right, bottom))
    ensures |pts| == 4
    ensures OrderPoints(pts) == RectangleCorners(left, top, right, bottom)
  {
    var corners := RectangleCorners(left, top, right, bottom);
    CornersAsMembers(pts, corners);
    forall j | 0 <= j < 4
      ensures pts[j] == corners[0] || pts[j] == corners[1] || pts[j] == corners[2] || pts[j] == corners[3]
    {
      assert pts[j] in corners;
    }
    assert ListsCorners(pts, corners);
    forall k | 0 <= k < 4 ensures OrderPoints(pts)[k] == corners[k] {
      RectangleCornerPlaced(pts, left, top, right, bottom, k);
    }
  }

  /**
   * A square turned by 45 degrees, listed top, left, right, bottom: the smallest
   * x+y and the smallest y-x both fall on the top vertex, so it is returned twice
   * and the bottom vertex not at all.
   */
  lemma OrderPointsRepeatsCornerOfDiamond(cx: int, cy: int, r: int)
    requires r > 0
    ensures var pts := [Point(cx, cy - r), Point(cx - r, cy), Point(cx + r, cy), Point(cx, cy + r)];
            OrderPoints(pts) == [pts[0], pts[0], pts[2], pts[1]] && pts[3] !in OrderPoints(pts)
  {
    var pts := [Point(cx, cy - r), Point(cx - r, cy), Point(cx + r, cy), Point(cx, cy + r)];
    var s, d := Sums(pts), Diffs(pts);
    assert FirstMin(s, 0) && FirstMax(s, 2) && FirstMin(d, 0) && FirstMax(d, 1);
    FirstMinUnique(s, ArgMin(s), 0);
    FirstMaxUnique(s, ArgMax(s), 2);
    FirstMinUnique(d, ArgMin(d), 0);
    FirstMaxUnique(d, ArgMax(d), 1);
  }

  // ---------------------------------------------------------------------------
  // The contour loop of crop_book_cover

  /** A contour, reduced to its approximated polygon and its area. */
  datatype Contour = Contour(approx: seq<Point>, area: real)

  /** Four vertices, and an area above a twentieth of the image. */
  predicate Qualifies(c: Contour, height: nat, width: nat) {
    |c.approx| == 4 && c.area > (height * width) as real / 20.0
  }

  /** The index of the first qualifying contour, if any. */
  function FirstQualifying(contours: seq<Contour>, height: nat, width: nat): (r: Option<nat>)
    ensures r.Some? ==>
              r.value < |contours| && Qualifies(contours[r.value], height, width) &&
              forall j :: 0 <= j < r.value ==> !Qualifies(contours[j], height, width)
    ensures r.None? ==> forall j :: 0 <= j < |contours| ==> !Qualifies(contours[j], height, width)
  {
    if contours == [] then None
    else if Qualifies(contours[0], height, width) then Some(0)
    else
      match FirstQualifying(contours[1..], height, width)
      case None => None
      case Some(k) => Some(k + 1)
  }

  /** What `crop_book_cover` returns: the warp of a quadrilateral with its ordered corners, or the original image. */
  datatype Cover = Warped(corners: seq<Point>) | Original

  predicate SortedByAreaDescending(contours: seq<Contour>) {
    forall i, j :: 0 <= i < j < |contours| ==> contours[i].area >= contours[j].area
  }

  /**
   * The loop over the contours, already sorted by area: the first qualifying
   * contour is warped and the loop stops there; `examined` counts the contours
   * looked at. With no qualifying contour the original image is kept.
   */
  method SelectCover(contours: seq<Contour>, height: nat, width: nat) returns (cover: Cover, examined: nat)
    ensures examined <= |contours|
    ensures FirstQualifying(contours, height, width).Some? ==>
              var k := FirstQualifying(contours, height, width).value;
              cover == Warped(OrderPoints(contours[k].approx)) && examined == k + 1
    ensures FirstQualifying(contours, height, width).None? ==>
              cover == Original && examined == |contours|
  {
    cover := Original;
    examined := 0;
    while examined < |contours|
      invariant examined <= |contours|
      invariant forall j :: 0 <= j < examined ==> !Qualifies(contours[j], height, width)
    {
      var contour := contours[examined];
      examined := examined + 1;
      if Qualifies(contour, height, width) {
        FirstQualifyingAt(contours, height, width, examined - 1);
        cover := Warped(OrderPoints(contour.approx));
        return;
      }
    }
  }

  /** A qualifying contour with none qualifying before it is the first qualifying one. */
  lemma FirstQualifyingAt(contours: seq<Contour>, height: nat, width: nat, k: nat)
    requires k < |contours| && Qualifies(contours[k], height, width)
    requires forall j :: 0 <= j < k ==> !Qualifies(contours[j], height, width)
    ensures FirstQualifying(contours, height, width) == Some(k)
  {
    var r := FirstQualifying(contours, height, width);
    assert r.Some? && !(r.value < k) && !(k < r.value);
  }

  /** In area order, the chosen contour is the largest qualifying one. */
  lemma ChosenIsLargestQualifying(contours: seq<Contour>, height: nat, width: nat, j: nat)
    requires SortedByAreaDescending(contours)
    requires FirstQualifying(contours, height, width).Some?
    requires j < |contours| && Qualifies(contours[j], height, width)
    ensures contours[j].area <= contours[FirstQualifying(contours, height, width).value].area
  {
  }

  // ---------------------------------------------------------------------------
  // The width guard of optimize_image

  /** The width after optimisation: scaled down to `maxWidth` only when wider. */
  function OptimizedWidth(width: nat, maxWidth: nat): (w: nat)
    ensures w <= width && w <= maxWidth
    ensures w == width || w == maxWidth
    ensures w != width <==> width > maxWidth
  {
    if width > maxWidth then maxWidth else width
  }

  /** The width guard as `upload_image` invokes it, with the default `max_width` of 1080. */
  function UploadOptimizedWidth(width: nat): (w: nat)
    ensures w <= MaxWidth
    ensures w == width <==> width <= MaxWidth
  {
    OptimizedWidth(width, MaxWidth)
  }

  /** Optimising an optimised image leaves its width alone. */
  lemma OptimizedWidthIdempotent(width: nat, maxWidth: nat)
    ensures OptimizedWidth(OptimizedWidth(width, maxWidth), maxWidth) == OptimizedWidth(width, maxWidth)
  {
  }

  // ---------------------------------------------------------------------------
  // upload_image

  /** The uploaded file part as the request presents it. */
  datatype Upload = Upload(filename: string)

  /** How crop, save and optimise went: fine, or an exception with its `str(e)`. */
  datatype Processing = ProcessingOk | ProcessingRaised(message: string)

  /** The reply, and the path the upload was saved under, if it was. */
  datatype ServerReply = ServerReply(status: HttpStatus, body: Json, savedUpload: Option<string>)

  const NoImageMessage := "No image file provided"
  const EmptyFilenameMessage := "Empty filename"
  const ProcessedMessage := "Book cover detected and processed successfully"
  const ProcessingFailedMessage := "Failed to process the image"

  /** Where a processed image is served: `/processed/<id>.jpg`. */
  function ProcessedUrl(optimizedId: string): string {
    "/" + ProcessedFolder + "/" + optimizedId + ".jpg"
  }

  /** `upload_image`, with the two generated names given as `uploadId` and `optimizedId`. */
  function UploadImage(files: map<string, Upload>, uploadId: string, optimizedId: string, processing: Processing): (r: ServerReply)
    // Missing field, then empty name: 400 with the reason, and nothing saved.
    ensures "image" !in files ==> r == ServerReply(400, JObj(map["error" := JStr(NoImageMessage)]), None)
    ensures "image" in files && files["image"].filename == "" ==>
              r == ServerReply(400, JObj(map["error" := JStr(EmptyFilenameMessage)]), None)
    // The upload is saved exactly when it passed both checks.
    ensures r.savedUpload.Some? <==> "image" in files && files["image"].filename != ""
    ensures r.savedUpload.Some? ==> r.savedUpload.value == UploadFolder + "/" + uploadId + ".png"
    // Success: 200 with the processed image's URL.
    ensures r.status == 200 <==> r.savedUpload.Some? && processing.ProcessingOk?
    ensures r.status == 200 ==>
              Field(r.body, "success") == Some(JBool(true)) &&
              Field(r.body, "url") == Some(JStr(ProcessedUrl(optimizedId))) &&
              Field(r.body, "message") == Some(JStr(ProcessedMessage))
    // A processing exception: 500 with its text.
    ensures r.savedUpload.Some? && processing.ProcessingRaised? ==>
              r.status == 500 &&
              Field(r.body, "success") == Some(JBool(false)) &&
              Field(r.body, "error") == Some(JStr(processing.message)) &&
              Field(r.body, "message") == Some(JStr(ProcessingFailedMessage))
  {
    if "image" !in files then
      ServerReply(400, JObj(map["error" := JStr(NoImageMessage)]), None)
    else if files["image"].filename == "" then
      ServerReply(400, JObj(map["error" := JStr(EmptyFilenameMessage)]), None)
    else
      var saved := Some(UploadFolder + "/" + uploadId + ".png");
      match processing
      case ProcessingOk =>
        ServerReply(200, JObj(map["success" := JBool(true), "url" := JStr(ProcessedUrl(optimizedId)),
                                  "message" := JStr(ProcessedMessage)]), saved)
      case ProcessingRaised(message) =>
        ServerReply(500, JObj(map["success" := JBool(false), "error" := JStr(message),
                                  "message" := JStr(ProcessingFailedMessage)]), saved)
  }
}
