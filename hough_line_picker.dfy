/** `Pertemuan_7/hough_line_picker.py`: each turn of the loop reads five trackbars, floors three
    of them at 1, runs `cv2.HoughLines` on the fixed edge map and draws one segment per detected
    line on a fresh copy of the colour image before showing it. */
module HoughLinePicker {
  import opened Sliders
  import opened Poll
  import opened Drawing

  /** Upper ends of the five trackbars ("rho", "theta (deg)", "threshold", "srn", "stn"). */
  const RhoCount := 10
  const ThetaDegCount := 180
  const ThresholdCount := 300
  const SrnCount := 10
  const StnCount := 10

  /** The raw trackbar positions read at the top of one turn. */
  datatype LineSliders = LineSliders(rho: int, thetaDeg: int, threshold: int, srn: int, stn: int)

  predicate SlidersInRange(s: LineSliders) {
    InTrackbar(s.rho, RhoCount) && InTrackbar(s.thetaDeg, ThetaDegCount) &&
    InTrackbar(s.threshold, ThresholdCount) && InTrackbar(s.srn, SrnCount) && InTrackbar(s.stn, StnCount)
  }

  /** The arguments handed to `cv2.HoughLines`: distance resolution in pixels, angle resolution
      in degrees (converted to radians on the way in), vote threshold and the two multi-scale
      divisors. */
  datatype LineParams = LineParams(rho: int, thetaDeg: int, threshold: int, srn: int, stn: int)

  /** The "Enforce minimums" block: `rho`, `theta_deg` and `threshold` are floored at 1, while
      `srn` and `stn` go to the detector exactly as read. */
  function Sanitize(s: LineSliders): (p: LineParams)
    ensures p.rho == FloorAtOne(s.rho) && p.thetaDeg == FloorAtOne(s.thetaDeg) &&
            p.threshold == FloorAtOne(s.threshold)
    ensures p.rho >= 1 && p.thetaDeg >= 1 && p.threshold >= 1
    ensures s.rho >= 1 ==> p.rho == s.rho
    ensures s.thetaDeg >= 1 ==> p.thetaDeg == s.thetaDeg
    ensures s.threshold >= 1 ==> p.threshold == s.threshold
    ensures p.srn == s.srn && p.stn == s.stn
  {
    LineParams(FloorAtOne(s.rho), FloorAtOne(s.thetaDeg), FloorAtOne(s.threshold), s.srn, s.stn)
  }

  /** The clamps are idempotent: a sanitised vector, read back as positions, sanitises to itself. */
  lemma SanitizeIdempotent(s: LineSliders)
    ensures var p := Sanitize(s);
      Sanitize(LineSliders(p.rho, p.thetaDeg, p.threshold, p.srn, p.stn)) == p
  {
    FloorAtOneIdempotent(s.rho);
    FloorAtOneIdempotent(s.thetaDeg);
    FloorAtOneIdempotent(s.threshold);
  }

  /** For positions inside the trackbar ranges the clamped arguments stay inside those ranges. */
  lemma SanitizedInRange(s: LineSliders)
    requires SlidersInRange(s)
    ensures var p := Sanitize(s);
      1 <= p.rho <= RhoCount && 1 <= p.thetaDeg <= ThetaDegCount && 1 <= p.threshold <= ThresholdCount &&
      0 <= p.srn <= SrnCount && 0 <= p.stn <= StnCount
  {
    FloorAtOneInRange(s.rho, RhoCount);
    FloorAtOneInRange(s.thetaDeg, ThetaDegCount);
    FloorAtOneInRange(s.threshold, ThresholdCount);
  }

  /** A detected line in normal form: distance from the origin and angle in radians. */
  datatype Line = Line(rho: real, theta: real)

  /** The end points of the drawn segment of a line, 1000 pixels either side of its foot point. */
  type Ends = Line -> (Point, Point)

  const SegmentColor := Bgr(255, 0, 0)

  /** The segment drawn for one line: blue, 1 pixel wide, anti-aliased. */
  function Segment(ends: Ends, l: Line): DrawCmd {
    LineCmd(ends(l).0, ends(l).1, SegmentColor, 1, AntiAliased)
  }

  /** The draw calls issued for `ls`: exactly one segment per line, in detection order. */
  function LineCommands(ends: Ends, ls: seq<Line>): (cmds: seq<DrawCmd>)
    ensures |cmds| == |ls|
    ensures forall i :: 0 <= i < |ls| ==> cmds[i] == Segment(ends, ls[i])
  {
    if ls == [] then []
    else LineCommands(ends, ls[..|ls| - 1]) + [Segment(ends, ls[|ls| - 1])]
  }

  /** The draw calls of one turn: none when the detector returned `None`. */
  function FrameCommands(ends: Ends, found: Detected<Line>): (cmds: seq<DrawCmd>)
    ensures found.NotFound? ==> cmds == []
    ensures found.Found? ==> cmds == LineCommands(ends, found.items)
  {
    match found
    case NotFound => []
    case Found(ls) => LineCommands(ends, ls)
  }

  /** The "Draw lines" block: one segment per line onto `img`, in detection order. The script
      unpacks each line into its loop-wide `rho` and `theta`; here the segment is built from the
      line directly, and `Run` recomputes the turn's arguments from the trackbars, as the script
      does at the top of the next turn. */
  method DrawLines(img: array<Bgr>, paint: Raster, ends: Ends, found: Detected<Line>)
    requires SizePreserving(paint)
    modifies img
    ensures img[..] == Painted(paint, FrameCommands(ends, found), old(img[..]))
  {
    if found.Found? {
      var ls := found.items;
      for i := 0 to |ls|
        invariant img[..] == Painted(paint, LineCommands(ends, ls[..i]), old(img[..]))
      {
        Draw(img, paint, Segment(ends, ls[i]));
        assert ls[..i + 1][..i] == ls[..i];
      }
      assert ls[..|ls|] == ls;
    }
  }

  /** The frame shown in a turn whose trackbars read `s`: the lines found with the sanitised
      arguments, drawn on the original image. */
  function LineFrame<G>(orig: seq<Bgr>, edges: G, detect: (G, LineParams) -> Detected<Line>,
                        ends: Ends, paint: Raster, s: LineSliders): seq<Bgr>
    requires SizePreserving(paint)
  {
    Painted(paint, FrameCommands(ends, detect(edges, Sanitize(s))), orig)
  }

  /** The main loop over the turns `ticks`, on the edge map computed once before it. `calls` are
      the arguments given to the detector and `shown` the frames displayed, one per turn. The loop
      stops after showing the frame of the first turn whose key is not -1; what a turn passes to
      the detector and shows depends on that turn's positions only, so the `rho` and `theta`
      rebound while drawing do not reach the next turn; the original image is never written. */
  method Run<G>(orig: array<Bgr>, edges: G, detect: (G, LineParams) -> Detected<Line>,
                ends: Ends, paint: Raster, ticks: seq<Tick<LineSliders>>)
    returns (calls: seq<LineParams>, shown: seq<seq<Bgr>>, state: LoopState)
    requires SizePreserving(paint)
    ensures |calls| == |shown| == TicksRun(ticks)
    ensures state == Terminated <==> KeyPressed(ticks)
    ensures forall i :: 0 <= i < |calls| ==> calls[i] == Sanitize(ticks[i].sliders)
    ensures forall i :: 0 <= i < |shown| ==>
              shown[i] == LineFrame(orig[..], edges, detect, ends, paint, ticks[i].sliders)
  {
    calls, shown, state := [], [], Running;
    var i := 0;
    while i < |ticks| && state == Running
      invariant 0 <= i <= |ticks|
      invariant |calls| == |shown| == i
      invariant forall j :: 0 <= j < i - 1 ==> ticks[j].key == NoKey
      invariant state == Running ==> forall j :: 0 <= j < i ==> ticks[j].key == NoKey
      invariant state == Terminated ==> 0 < i && ticks[i - 1].key != NoKey
      invariant forall j :: 0 <= j < i ==> calls[j] == Sanitize(ticks[j].sliders)
      invariant forall j :: 0 <= j < i ==>
                  shown[j] == LineFrame(orig[..], edges, detect, ends, paint, ticks[j].sliders)
    {
      var img := CopyImage(orig);
      var p := Sanitize(ticks[i].sliders);
      var lines := detect(edges, p);
      DrawLines(img, paint, ends, lines);
      calls := calls + [p];
      shown := shown + [img[..]];
      if ticks[i].key != NoKey {
        state := Terminated;
      }
      i := i + 1;
    }
    TicksRunUnique(ticks, i);
  }
}
