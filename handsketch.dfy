/**
 * The hand-tracking sketch of a_folder_to_delete/script.js: draw requests a new
 * hand detection at most once per detectionInterval, and draws a fixed-size
 * ellipse when the first hand's middle fingertip is close to its thumb tip; the
 * hands and loading variables are overwritten by the library's callbacks.
 */
module HandSketch {
  import opened Wrappers

  datatype Point = Point(x: real, y: real)

  /** The keypoints of one detected hand that the sketch reads. */
  datatype Hand = Hand(middleFingerTip: Point, indexFingerTip: Point, thumbTip: Point)

  /** An ellipse drawn with equal width and height. */
  datatype Ellipse = Ellipse(centerX: real, centerY: real, diameter: real)

  /** detectionInterval, in milliseconds. */
  const DetectionInterval: real := 200.0

  /** The middle-to-thumb distance below which the ellipse is drawn. */
  const PinchDistance: real := 100.0

  /** The ellipse's fixed diameter (the variable named distance). */
  const EllipseDiameter: real := 100.0

  // ---------------------------------------------------------------------------
  // Detection throttle
  // ---------------------------------------------------------------------------

  /** A detection is requested when strictly more than detectionInterval has passed since the last one. */
  predicate DetectionDue(lastDetectionTime: real, currentTime: real) {
    currentTime - lastDetectionTime > DetectionInterval
  }

  /** lastDetectionTime after the frames at the given times, starting from last. */
  function LastDetection(last: real, times: seq<real>): real
    decreases |times|
  {
    if times == [] then last
    else
      var before := LastDetection(last, times[..|times| - 1]);
      var t := times[|times| - 1];
      if DetectionDue(before, t) then t else before
  }

  /** The times of the frames that requested a detection. */
  function Requests(last: real, times: seq<real>): seq<real>
    decreases |times|
  {
    if times == [] then []
    else
      var init, t := times[..|times| - 1], times[|times| - 1];
      Requests(last, init) + if DetectionDue(LastDetection(last, init), t) then [t] else []
  }

  /**
   * Any two consecutive detection requests are more than detectionInterval apart, the
   * first comes more than detectionInterval after the starting time, and
   * lastDetectionTime always holds the latest request.
   */
  lemma {:induction false} RequestsSpaced(last: real, times: seq<real>)
    ensures var r := Requests(last, times);
      && (|r| == 0 ==> LastDetection(last, times) == last)
      && (|r| > 0 ==> r[|r| - 1] == LastDetection(last, times))
      && (|r| > 0 ==> r[0] - last > DetectionInterval)
      && (forall i :: 0 < i < |r| ==> r[i] - r[i - 1] > DetectionInterval)
  {
    if times != [] {
      RequestsSpaced(last, times[..|times| - 1]);
    }
  }

  /** The indices of the frames that requested a detection. */
  function RequestFrames(last: real, times: seq<real>): seq<nat>
    decreases |times|
  {
    if times == [] then []
    else
      var init := times[..|times| - 1];
      RequestFrames(last, init) + if DetectionDue(LastDetection(last, init), times[|times| - 1]) then [|times| - 1] else []
  }

  /** Each request is the time of its frame, and the frame indices strictly increase. */
  lemma {:induction false} RequestFramesShape(last: real, times: seq<real>)
    ensures var r, ix := Requests(last, times), RequestFrames(last, times);
      && |ix| == |r|
      && (forall k :: 0 <= k < |ix| ==> ix[k] < |times| && r[k] == times[ix[k]])
      && (forall k, l :: 0 <= k < l < |ix| ==> ix[k] < ix[l])
  {
    if times != [] {
      var init := times[..|times| - 1];
      RequestFramesShape(last, init);
      var ix0 := RequestFrames(last, init);
      var r0 := Requests(last, init);
      forall k | 0 <= k < |ix0|
        ensures ix0[k] < |init| && r0[k] == times[ix0[k]]
      {
        assert init[ix0[k]] == times[ix0[k]];
      }
    }
  }

  /** Frame i's throttle test, against the lastDetectionTime left by frames 0..i-1. */
  predicate DueAt(last: real, times: seq<real>, i: nat)
    requires i < |times|
  {
    DetectionDue(LastDetection(last, times[..i]), times[i])
  }

  /** Frame i's test depends only on frames 0..i. */
  lemma DueAtPrefix(last: real, times: seq<real>, i: nat)
    requires i < |times| - 1
    ensures DueAt(last, times, i) == DueAt(last, times[..|times| - 1], i)
  {
    assert times[..i] == times[..|times| - 1][..i];
  }

  /** Frame i requests a detection exactly when its throttle test passes. */
  lemma {:induction false} RequestFramesDue(last: real, times: seq<real>)
    ensures forall i: nat :: i < |times| ==> (i in RequestFrames(last, times) <==> DueAt(last, times, i))
  {
    if times != [] {
      var init := times[..|times| - 1];
      var n := |init|;
      RequestFramesDue(last, init);
      RequestFramesShape(last, init);
      var ix0 := RequestFrames(last, init);
      assert n !in ix0;
      assert init == times[..n];
      var ix := RequestFrames(last, times);
      assert ix == ix0 + if DueAt(last, times, n) then [n] else [];
      forall i: nat | i < n
        ensures i in ix <==> DueAt(last, times, i)
      {
        DueAtPrefix(last, times, i);
      }
    }
  }

  /**
   * The requests are exactly the times of the frames whose throttle test passed, in frame
   * order: frame i requests iff more than detectionInterval has passed since the
   * lastDetectionTime left by frames 0..i-1, and no frame requests twice.
   */
  lemma RequestsAreDueFrames(last: real, times: seq<real>)
    ensures var r, ix := Requests(last, times), RequestFrames(last, times);
      && |ix| == |r|
      && (forall k :: 0 <= k < |ix| ==> ix[k] < |times| && r[k] == times[ix[k]])
      && (forall k, l :: 0 <= k < l < |ix| ==> ix[k] < ix[l])
      && (forall i: nat :: i < |times| ==> (i in ix <==> DueAt(last, times, i)))
  {
    RequestFramesShape(last, times);
    RequestFramesDue(last, times);
  }

  // ---------------------------------------------------------------------------
  // Pinch gate
  // ---------------------------------------------------------------------------

  function SquaredDistance(a: Point, b: Point): real {
    (a.x - b.x) * (a.x - b.x) + (a.y - b.y) * (a.y - b.y)
  }

  /**
   * dist(a, b) < d, for a positive d, decided without the square root: both sides
   * are non-negative, so comparing their squares is the same test.
   */
  predicate CloserThan(a: Point, b: Point, d: real)
    requires d > 0.0
  {
    SquaredDistance(a, b) < d * d
  }

  /** The ellipse draw paints, if any. */
  function PinchEllipse(hands: seq<Hand>): (r: Option<Ellipse>)
    ensures r.Some? <==> |hands| > 0 && CloserThan(hands[0].middleFingerTip, hands[0].thumbTip, PinchDistance)
    ensures r.Some? ==> r.value.diameter == EllipseDiameter
  {
    if |hands| > 0 && CloserThan(hands[0].middleFingerTip, hands[0].thumbTip, PinchDistance) then
      var index, thumb := hands[0].indexFingerTip, hands[0].thumbTip;
      Some(Ellipse((index.x + thumb.x) / 2.0, (index.y + thumb.y) / 2.0, EllipseDiameter))
    else None
  }

  lemma SquareBelow(a: real, d: real)
    requires d > 0.0 && a * a < d * d
    ensures -d < a < d
  {
  }

  /**
   * When the ellipse is drawn, the middle fingertip is within PinchDistance of the thumb
   * tip on each axis, and the ellipse sits halfway between the index fingertip and the thumb tip.
   */
  lemma PinchEllipseMeaning(hands: seq<Hand>)
    requires PinchEllipse(hands).Some?
    ensures var h, e := hands[0], PinchEllipse(hands).value;
      && -PinchDistance < h.middleFingerTip.x - h.thumbTip.x < PinchDistance
      && -PinchDistance < h.middleFingerTip.y - h.thumbTip.y < PinchDistance
      && e.centerX - h.indexFingerTip.x == h.thumbTip.x - e.centerX
      && e.centerY - h.indexFingerTip.y == h.thumbTip.y - e.centerY
  {
    var h := hands[0];
    var dx := h.middleFingerTip.x - h.thumbTip.x;
    var dy := h.middleFingerTip.y - h.thumbTip.y;
    assert dx * dx <= SquaredDistance(h.middleFingerTip, h.thumbTip);
    assert dy * dy <= SquaredDistance(h.middleFingerTip, h.thumbTip);
    SquareBelow(dx, PinchDistance);
    SquareBelow(dy, PinchDistance);
  }

  // ---------------------------------------------------------------------------
  // The sketch's module-level state
  // ---------------------------------------------------------------------------

  class Sketch {
    var hands: seq<Hand>
    var loading: bool
    var lastDetectionTime: real
    /** The times at which draw requested a detection. */
    ghost var requests: seq<real>

    /** Requests are spaced by more than detectionInterval, and lastDetectionTime is the latest one. */
    ghost predicate Valid()
      reads this
    {
      && (|requests| == 0 ==> lastDetectionTime == 0.0)
      && (|requests| > 0 ==> requests[|requests| - 1] == lastDetectionTime)
      && (|requests| > 0 ==> requests[0] > DetectionInterval)
      && (forall i :: 0 < i < |requests| ==> requests[i] - requests[i - 1] > DetectionInterval)
    }

    /** The module-level initialisers; loading starts undefined, which the sketch reads as false. */
    constructor ()
      ensures Valid()
      ensures hands == [] && !loading && lastDetectionTime == 0.0 && requests == []
    {
      hands := [];
      loading := false;
      lastDetectionTime := 0.0;
      requests := [];
    }

    /** preload: the hand model starts loading. */
    method Preload()
      modifies this`loading
      ensures loading
    {
      loading := true;
    }

    /** modelReady: the hand model has loaded. */
    method ModelReady()
      modifies this`loading
      ensures !loading
    {
      loading := false;
    }

    /** getHandsData: the detector's results replace hands wholesale. */
    method GetHandsData(results: seq<Hand>)
      modifies this`hands
      ensures hands == results
    {
      hands := results;
    }

    /**
     * One frame of draw at millis() == currentTime: whether a detection is requested,
     * and the ellipse painted, if any. The requested detection reports back through
     * GetHandsData later, so this frame's ellipse uses the hands already known.
     */
    method Draw(currentTime: real) returns (detect: bool, ellipse: Option<Ellipse>)
      requires Valid()
      modifies this`lastDetectionTime, this`requests
      ensures Valid()
      ensures detect == DetectionDue(old(lastDetectionTime), currentTime)
      ensures lastDetectionTime == if detect then currentTime else old(lastDetectionTime)
      ensures requests == if detect then old(requests) + [currentTime] else old(requests)
      ensures ellipse == PinchEllipse(hands)
    {
      detect := currentTime - lastDetectionTime > DetectionInterval;
      if detect {
        lastDetectionTime := currentTime;
        requests := requests + [currentTime];
      }
      ellipse := None;
      if |hands| > 0 {
        var middle, index, thumb := hands[0].middleFingerTip, hands[0].indexFingerTip, hands[0].thumbTip;
        if SquaredDistance(middle, thumb) < PinchDistance * PinchDistance {
          var centerX := (index.x + thumb.x) / 2.0;
          var centerY := (index.y + thumb.y) / 2.0;
          ellipse := Some(Ellipse(centerX, centerY, EllipseDiameter));
        }
      }
    }
  }

  /** One more frame extends the requests and lastDetectionTime by that frame's throttle decision. */
  lemma ThrottleStep(last: real, times: seq<real>, i: nat)
    requires i < |times|
    ensures var before, due := LastDetection(last, times[..i]), DueAt(last, times, i);
      && LastDetection(last, times[..i + 1]) == (if due then times[i] else before)
      && Requests(last, times[..i + 1]) == Requests(last, times[..i]) + (if due then [times[i]] else [])
  {
    assert times[..i + 1][..i] == times[..i];
  }

  /**
   * p5 calling draw once per frame, at the given millis() values, on a fresh sketch: the
   * requests Draw makes and the lastDetectionTime it leaves are the ones Requests and
   * LastDetection describe, so the properties proved of those hold for the sketch.
   */
  method RunFrames(times: seq<real>) returns (s: Sketch)
    ensures fresh(s) && s.Valid()
    ensures s.requests == Requests(0.0, times)
    ensures s.lastDetectionTime == LastDetection(0.0, times)
  {
    s := new Sketch();
    for i := 0 to |times|
      invariant s.Valid()
      invariant s.requests == Requests(0.0, times[..i])
      invariant s.lastDetectionTime == LastDetection(0.0, times[..i])
    {
      ThrottleStep(0.0, times, i);
      var detect, _ := s.Draw(times[i]);
    }
    assert times[..|times|] == times;
  }
}
