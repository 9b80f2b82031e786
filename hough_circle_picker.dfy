/** `Pertemuan_7/hough_circle_picker.py`: each turn of the loop reads six trackbars, coerces them
    into legal `cv2.HoughCircles` arguments, detects circles in the pre-blurred grey image and draws
    every circle found on a fresh copy of the colour image before showing it. */
module HoughCirclePicker {
  import opened Sliders
  import opened Poll
  import opened Drawing

  /** Upper ends of the six trackbars ("dp x10", "minDist", "param1 (Canny)", "param2 (vote)",
      "minRadius", "maxRadius"). */
  const DpTenthsCount := 30
  const MinDistCount := 300
  const Param1Count := 300
  const Param2Count := 150
  const MinRadiusCount := 100
  const MaxRadiusCount := 300

  /** The raw trackbar positions read at the top of one turn; "dp x10" is in tenths. */
  datatype CircleSliders = CircleSliders(dpTenths: int, minDist: int, param1: int, param2: int,
                                         minRadius: int, maxRadius: int)

  predicate SlidersInRange(s: CircleSliders) {
    InTrackbar(s.dpTenths, DpTenthsCount) && InTrackbar(s.minDist, MinDistCount) &&
    InTrackbar(s.param1, Param1Count) && InTrackbar(s.param2, Param2Count) &&
    InTrackbar(s.minRadius, MinRadiusCount) && InTrackbar(s.maxRadius, MaxRadiusCount)
  }

  /** The arguments handed to `cv2.HoughCircles`: the accumulator resolution ratio `dp`, the least
      distance between centres, the Canny and vote thresholds and the radius search range
      (`maxRadius == 0` means no upper bound). */
  datatype CircleParams = CircleParams(dp: real, minDist: int, param1: int, param2: int,
                                       minRadius: int, maxRadius: int)

  /** The loop's variables right after the trackbars are read: `dp` is the position divided by 10. */
  function ReadSliders(s: CircleSliders): CircleParams {
    CircleParams(s.dpTenths as real / 10.0, s.minDist, s.param1, s.param2, s.minRadius, s.maxRadius)
  }

  /** The radius rule: an upper bound that is set (positive) but below the lower bound is raised
      to one past the lower bound; any other upper bound is kept. */
  function FixMaxRadius(minRadius: int, maxRadius: int): (r: int)
    ensures r == maxRadius || r == minRadius + 1
    ensures r != maxRadius <==> 0 < maxRadius < minRadius
    ensures maxRadius >= 0 ==> r == 0 || r >= minRadius
  {
    if maxRadius > 0 && maxRadius < minRadius then minRadius + 1 else maxRadius
  }

  /** The "Enforce minimums" block and the radius rule, applied to a read vector. */
  function EnforceMinimums(v: CircleParams): (w: CircleParams)
    ensures w.dp >= 1.0
    ensures v.dp >= 1.0 ==> w.dp == v.dp
    ensures v.dp < 1.0 ==> w.dp == 1.0
    ensures w.minDist == FloorAtOne(v.minDist) && w.param1 == FloorAtOne(v.param1) &&
            w.param2 == FloorAtOne(v.param2)
    ensures w.minDist >= 1 && w.param1 >= 1 && w.param2 >= 1
    ensures v.minDist >= 1 ==> w.minDist == v.minDist
    ensures v.param1 >= 1 ==> w.param1 == v.param1
    ensures v.param2 >= 1 ==> w.param2 == v.param2
    ensures w.minRadius == v.minRadius
    ensures w.maxRadius == FixMaxRadius(v.minRadius, v.maxRadius)
  {
    CircleParams(if v.dp < 1.0 then 1.0 else v.dp,
                 FloorAtOne(v.minDist), FloorAtOne(v.param1), FloorAtOne(v.param2),
                 v.minRadius, FixMaxRadius(v.minRadius, v.maxRadius))
  }

  /** What reaches the detector in one turn, as a function of that turn's trackbar positions. */
  function Sanitize(s: CircleSliders): (p: CircleParams)
    ensures p.dp >= 1.0
    ensures s.dpTenths <= 10 ==> p.dp == 1.0
    ensures s.dpTenths >= 10 ==> p.dp * 10.0 == s.dpTenths as real
    ensures p.minDist == FloorAtOne(s.minDist)
    ensures p.param1 == FloorAtOne(s.param1)
    ensures p.param2 == FloorAtOne(s.param2)
    ensures p.minRadius == s.minRadius
    ensures s.maxRadius >= 0 ==> p.maxRadius == 0 || p.maxRadius >= p.minRadius
    ensures 0 < s.maxRadius < s.minRadius ==> p.maxRadius == s.minRadius + 1
    ensures !(0 < s.maxRadius < s.minRadius) ==> p.maxRadius == s.maxRadius
  {
    EnforceMinimums(ReadSliders(s))
  }

  /** Re-applying the minimums and the radius rule to a sanitised vector changes nothing. */
  lemma EnforceMinimumsIdempotent(v: CircleParams)
    ensures EnforceMinimums(EnforceMinimums(v)) == EnforceMinimums(v)
  {
  }

  /** For positions inside the trackbar ranges every sanitised argument lies in a known range. */
  lemma SanitizedInRange(s: CircleSliders)
    requires SlidersInRange(s)
    ensures var p := Sanitize(s);
      1.0 <= p.dp <= 3.0 && 1 <= p.minDist <= MinDistCount && 1 <= p.param1 <= Param1Count &&
      1 <= p.param2 <= Param2Count && 0 <= p.minRadius <= MinRadiusCount &&
      0 <= p.maxRadius <= MaxRadiusCount && (p.maxRadius == 0 || p.maxRadius >= p.minRadius)
  {
  }

  /** A detected circle after `np.uint16(np.around(...))`: centre and radius in whole pixels. */
  datatype Circle = Circle(x: int, y: int, r: int)

  const OutlineColor := Bgr(255, 0, 0)
  const MarkerColor := Bgr(0, 0, 255)

  /** The outline of a detected circle: its own radius, blue, 2 pixels thick. */
  function Outline(c: Circle): DrawCmd {
    CircleCmd(Point(c.x, c.y), c.r, OutlineColor, 2)
  }

  /** The centre marker of a detected circle: radius 2, red, 3 pixels thick. */
  function Marker(c: Circle): DrawCmd {
    CircleCmd(Point(c.x, c.y), 2, MarkerColor, 3)
  }

  /** The draw calls issued for `cs`: each circle's outline then its centre marker, in detection order. */
  function CircleCommands(cs: seq<Circle>): (cmds: seq<DrawCmd>)
    ensures |cmds| == 2 * |cs|
    ensures forall i :: 0 <= i < |cs| ==> cmds[2 * i] == Outline(cs[i]) && cmds[2 * i + 1] == Marker(cs[i])
  {
    if cs == [] then []
    else CircleCommands(cs[..|cs| - 1]) + [Outline(cs[|cs| - 1]), Marker(cs[|cs| - 1])]
  }

  /** The draw calls of one turn: none when the detector returned `None`. */
  function FrameCommands(found: Detected<Circle>): (cmds: seq<DrawCmd>)
    ensures found.NotFound? ==> cmds == []
    ensures found.Found? ==> cmds == CircleCommands(found.items)
  {
    match found
    case NotFound => []
    case Found(cs) => CircleCommands(cs)
  }

  /** The "Draw circles" block: for each circle, its outline and then its marker, onto `img`. */
  method DrawCircles(img: array<Bgr>, paint: Raster, found: Detected<Circle>)
    requires SizePreserving(paint)
    modifies img
    ensures img[..] == Painted(paint, FrameCommands(found), old(img[..]))
  {
    if found.Found? {
      var cs := found.items;
      for i := 0 to |cs|
        invariant img[..] == Painted(paint, CircleCommands(cs[..i]), old(img[..]))
      {
        Draw(img, paint, Outline(cs[i]));
        Draw(img, paint, Marker(cs[i]));
        assert cs[..i + 1][..i] == cs[..i];
        PaintedConcat(paint, CircleCommands(cs[..i]), [Outline(cs[i]), Marker(cs[i])], old(img[..]));
        assert [Outline(cs[i]), Marker(cs[i])][..1] == [Outline(cs[i])];
      }
      assert cs[..|cs|] == cs;
    }
  }

  /** The frame shown in a turn whose trackbars read `s`: the circles found with the sanitised
      arguments, drawn on the original image. */
  function CircleFrame<G>(orig: seq<Bgr>, gray: G, detect: (G, CircleParams) -> Detected<Circle>,
                          paint: Raster, s: CircleSliders): seq<Bgr>
    requires SizePreserving(paint)
  {
    Painted(paint, FrameCommands(detect(gray, Sanitize(s))), orig)
  }

  /** The main loop over the turns `ticks`. `calls` are the arguments given to the detector and
      `shown` the frames displayed, one per turn. The loop stops after the first turn whose key is
      not -1; each frame depends on the original image and that turn's positions only, and the
      original image is never written (the method may modify nothing that existed before it). */
  method Run<G>(orig: array<Bgr>, gray: G, detect: (G, CircleParams) -> Detected<Circle>,
                paint: Raster, ticks: seq<Tick<CircleSliders>>)
    returns (calls: seq<CircleParams>, shown: seq<seq<Bgr>>, state: LoopState)
    requires SizePreserving(paint)
    ensures |calls| == |shown| == TicksRun(ticks)
    ensures state == Terminated <==> KeyPressed(ticks)
    ensures forall i :: 0 <= i < |calls| ==> calls[i] == Sanitize(ticks[i].sliders)
    ensures forall i :: 0 <= i < |shown| ==>
              shown[i] == CircleFrame(orig[..], gray, detect, paint, ticks[i].sliders)
  {
    calls, shown, state := [], [], Running;
    var i := 0;
    while i < |ticks| && state == Running
      invariant 0 <= i <= |ticks|
      invariant |calls| == |shown| == i
      invariant forall j :: 0 <= j < i - 1 ==> ticks[j].key == NoKey
      invariant state == Running ==> forall j :: 0 <= j < i ==> ticks[j].key == NoKey
      invariant state == Terminated ==> 0 < i && ticks[i - 1].key != NoKey
      invariant forall j :: 0 <= j < i ==> calls[j] == Sanitize(ticks[j].sliders)
      invariant forall j :: 0 <= j < i ==>
                  shown[j] == CircleFrame(orig[..], gray, detect, paint, ticks[j].sliders)
    {
      var img := CopyImage(orig);
      var p := Sanitize(ticks[i].sliders);
      var circles := detect(gray, p);
      DrawCircles(img, paint, circles);
      calls := calls + [p];
      shown := shown + [img[..]];
      if ticks[i].key != NoKey {
        state := Terminated;
      }
      i := i + 1;
    }
    TicksRunUnique(ticks, i);
  }
}
