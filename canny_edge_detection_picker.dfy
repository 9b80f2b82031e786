/** `Pertemuan_6/canny_edge_detection_picker.py`: each turn of the loop reads two thresholds and a
    blur kernel size, makes the kernel size odd and at least 1, blurs the grey image, runs Canny
    and shows the edge map itself. */
module CannyEdgePicker {
  import opened Sliders
  import opened Poll

  /** Upper ends of the three trackbars ("Min Threshold", "Max Threshold", "Blur Kernel"). */
  const MinThresholdCount := 255
  const MaxThresholdCount := 255
  const BlurKernelCount := 31

  /** The raw trackbar positions read at the top of one turn. */
  datatype EdgeSliders = EdgeSliders(tmin: int, tmax: int, ksize: int)

  /** The side of the square `cv2.GaussianBlur` kernel and the two `cv2.Canny` thresholds. */
  datatype EdgeParams = EdgeParams(ksize: int, tmin: int, tmax: int)

  /** The kernel fix-up: an even size is raised by one, then anything below 1 becomes 1. The
      script's `ksize % 2 == 0` uses Python's floored `%`, which for the divisor 2 agrees with
      Dafny's. */
  function FixKernel(k: int): (r: int)
    ensures r % 2 == 1 && r >= 1
    ensures r == k <==> k % 2 == 1 && k >= 1
    ensures k >= 0 ==> r == k || r == k + 1
  {
    var odd := if k % 2 == 0 then k + 1 else k;
    if odd < 1 then 1 else odd
  }

  /** Fixing a fixed kernel size again changes nothing. */
  lemma FixKernelIdempotent(k: int)
    ensures FixKernel(FixKernel(k)) == FixKernel(k)
  {
  }

  /** A position of the "Blur Kernel" trackbar, in [0, 31], gives a kernel size in [1, 31]. */
  lemma FixKernelInRange(k: int)
    requires InTrackbar(k, BlurKernelCount)
    ensures 1 <= FixKernel(k) <= BlurKernelCount
  {
  }

  /** What one turn hands to the blur and to Canny: the kernel is fixed up, while the thresholds
      are passed exactly as read, neither clamped nor put in order. */
  function Sanitize(s: EdgeSliders): (p: EdgeParams)
    ensures p.ksize == FixKernel(s.ksize)
    ensures p.ksize % 2 == 1 && p.ksize >= 1
    ensures s.ksize % 2 == 1 && s.ksize >= 1 ==> p.ksize == s.ksize
    ensures p.tmin == s.tmin && p.tmax == s.tmax
  {
    EdgeParams(FixKernel(s.ksize), s.tmin, s.tmax)
  }

  /** The main loop over the turns `ticks`. `calls` are the arguments of each turn's blur and Canny
      calls and `shown` the frames displayed, one per turn: each is the edge map of that turn's
      blurred grey image, shown as it is, with no overlay. The loop stops after the first turn whose
      key is not -1. */
  method Run<G, E>(gray: G, blur: (G, int) -> G, canny: (G, int, int) -> E,
                   ticks: seq<Tick<EdgeSliders>>)
    returns (calls: seq<EdgeParams>, shown: seq<E>, state: LoopState)
    ensures |calls| == |shown| == TicksRun(ticks)
    ensures state == Terminated <==> KeyPressed(ticks)
    ensures forall i :: 0 <= i < |calls| ==> calls[i] == Sanitize(ticks[i].sliders)
    ensures forall i :: 0 <= i < |shown| ==>
              shown[i] == canny(blur(gray, calls[i].ksize), ticks[i].sliders.tmin, ticks[i].sliders.tmax)
  {
    calls, shown, state := [], [], Running;
    var i := 0;
    while i < |ticks| && state == Running
      invariant 0 <= i <= |ticks|
      invariant |calls| == |shown| == i
      invariant forall j :: 0 <= j < i - 1 ==> ticks[j].key == NoKey
      invariant state == Running ==> forall j :: 0 <= j < i ==> ticks[j].key == NoKey
      invariant state == Terminated ==> 0 < i && ticks[i - 1].key != NoKey
      invariant forall j :: 0 <= j < i ==> calls[j] == Sanitize(ticks[j].sliders)
      invariant forall j :: 0 <= j < i ==>
                  shown[j] == canny(blur(gray, calls[j].ksize), ticks[j].sliders.tmin, ticks[j].sliders.tmax)
    {
      var p := Sanitize(ticks[i].sliders);
      var blurred := blur(gray, p.ksize);
      var edged := canny(blurred, p.tmin, p.tmax);
      calls := calls + [p];
      shown := shown + [edged];
      if ticks[i].key != NoKey {
        state := Terminated;
      }
      i := i + 1;
    }
    TicksRunUnique(ticks, i);
  }
}
