/**
 * Two buffers of src/App.js: smoothPosition, a sliding window of the last five
 * fingertip positions whose componentwise mean is the smoothed position, and
 * drawLine's append-only history of drawn segments.
 */
module Drawing {

  datatype Position = Position(x: real, y: real)

  /** smoothPosition's bufferSize. */
  const BufferSize: nat := 5

  /** Push p, then shift the oldest position out when the buffer is over BufferSize. */
  function Slide(buffer: seq<Position>, p: Position): (r: seq<Position>)
    requires |buffer| <= BufferSize
    ensures 0 < |r| <= BufferSize && r[|r| - 1] == p
    ensures |buffer| < BufferSize ==> r == buffer + [p]
    ensures |buffer| == BufferSize ==> r == buffer[1..] + [p]
  {
    var pushed := buffer + [p];
    if |pushed| > BufferSize then pushed[1..] else pushed
  }

  /** The buffer after sliding each position of ps in, in order, from an empty buffer. */
  function Window(ps: seq<Position>): (r: seq<Position>)
    ensures |r| <= BufferSize
    decreases |ps|
  {
    if ps == [] then [] else Slide(Window(ps[..|ps| - 1]), ps[|ps| - 1])
  }

  function Min(a: nat, b: nat): nat {
    if a <= b then a else b
  }

  /** A suffix of ps is the same suffix of its first |ps| - 1 elements, followed by the last element. */
  lemma SuffixSnoc(ps: seq<Position>, k: nat)
    requires k < |ps|
    ensures ps[..|ps| - 1][k..] + [ps[|ps| - 1]] == ps[k..]
  {
  }

  /** The window always holds the most recent positions, at most BufferSize of them, oldest first. */
  lemma {:induction false} WindowIsLatest(ps: seq<Position>)
    ensures Window(ps) == ps[|ps| - Min(|ps|, BufferSize)..]
  {
    if ps != [] {
      var init := ps[..|ps| - 1];
      WindowIsLatest(init);
      var w := Window(init);
      if |init| < BufferSize {
        SuffixSnoc(ps, 0);
      } else {
        var k := |init| - BufferSize;
        assert w[1..] == init[k + 1..];
        SuffixSnoc(ps, k + 1);
      }
    }
  }

  /**
   * The reduce of smoothPosition: starting from (0, 0), each position adds its
   * coordinates divided by n, from the first position to the last.
   */
  function Accumulate(buffer: seq<Position>, n: real): Position
    requires n > 0.0
    decreases |buffer|
  {
    if buffer == [] then Position(0.0, 0.0)
    else
      var acc := Accumulate(buffer[..|buffer| - 1], n);
      var pos := buffer[|buffer| - 1];
      Position(acc.x + pos.x / n, acc.y + pos.y / n)
  }

  /** The componentwise sum of the positions. */
  function Sum(buffer: seq<Position>): Position
    decreases |buffer|
  {
    if buffer == [] then Position(0.0, 0.0)
    else
      var rest := Sum(buffer[1..]);
      Position(buffer[0].x + rest.x, buffer[0].y + rest.y)
  }

  /** The arithmetic mean of a non-empty buffer. */
  function Mean(buffer: seq<Position>): Position
    requires |buffer| > 0
  {
    var s := Sum(buffer);
    Position(s.x / |buffer| as real, s.y / |buffer| as real)
  }

  lemma {:induction false} SumSnoc(buffer: seq<Position>, p: Position)
    ensures Sum(buffer + [p]) == Position(Sum(buffer).x + p.x, Sum(buffer).y + p.y)
  {
    if buffer != [] {
      assert (buffer + [p])[1..] == buffer[1..] + [p];
      SumSnoc(buffer[1..], p);
    } else {
      assert (buffer + [p])[1..] == [];
    }
  }

  /** Adding each position divided by n is dividing the sum by n. */
  lemma {:induction false} AccumulateIsScaledSum(buffer: seq<Position>, n: real)
    requires n > 0.0
    ensures Accumulate(buffer, n) == Position(Sum(buffer).x / n, Sum(buffer).y / n)
  {
    if buffer != [] {
      var init, pos := buffer[..|buffer| - 1], buffer[|buffer| - 1];
      AccumulateIsScaledSum(init, n);
      assert init + [pos] == buffer;
      SumSnoc(init, pos);
      var s := Sum(init);
      DivAdd(s.x, pos.x, n);
      DivAdd(s.y, pos.y, n);
    }
  }

  lemma DivAdd(a: real, b: real, n: real)
    requires n > 0.0
    ensures a / n + b / n == (a + b) / n
  {
  }

  /** The reduce over the whole buffer, dividing by its length, is the arithmetic mean. */
  lemma AverageIsMean(buffer: seq<Position>)
    requires |buffer| > 0
    ensures Accumulate(buffer, |buffer| as real) == Mean(buffer)
  {
    AccumulateIsScaledSum(buffer, |buffer| as real);
  }

  /** Every position of buffer lies in the box [xlo, xhi] x [ylo, yhi]. */
  predicate InBox(buffer: seq<Position>, xlo: real, xhi: real, ylo: real, yhi: real) {
    forall i :: 0 <= i < |buffer| ==> xlo <= buffer[i].x <= xhi && ylo <= buffer[i].y <= yhi
  }

  /** a added to itself k times. */
  function Scale(k: nat, a: real): real {
    if k == 0 then 0.0 else Scale(k - 1, a) + a
  }

  lemma {:induction false} ScaleIsProduct(k: nat, a: real)
    ensures Scale(k, a) == k as real * a
  {
    if k > 0 {
      ScaleIsProduct(k - 1, a);
      assert k as real * a == (k - 1) as real * a + a;
    }
  }

  /** The sum of positions in a box lies in the box scaled by their number. */
  lemma {:induction false} SumWithin(buffer: seq<Position>, xlo: real, xhi: real, ylo: real, yhi: real)
    requires InBox(buffer, xlo, xhi, ylo, yhi)
    ensures Scale(|buffer|, xlo) <= Sum(buffer).x <= Scale(|buffer|, xhi)
    ensures Scale(|buffer|, ylo) <= Sum(buffer).y <= Scale(|buffer|, yhi)
  {
    if buffer != [] {
      var tail := buffer[1..];
      assert InBox(tail, xlo, xhi, ylo, yhi) by {
        forall i | 0 <= i < |tail|
          ensures xlo <= tail[i].x <= xhi && ylo <= tail[i].y <= yhi
        {
          assert tail[i] == buffer[i + 1];
        }
      }
      SumWithin(tail, xlo, xhi, ylo, yhi);
    }
  }

  /** A sum within k copies of lo and k copies of hi, divided by k, lies in [lo, hi]. */
  lemma QuotientWithin(s: real, k: nat, lo: real, hi: real)
    requires k > 0 && Scale(k, lo) <= s <= Scale(k, hi)
    ensures lo <= s / k as real <= hi
  {
    ScaleIsProduct(k, lo);
    ScaleIsProduct(k, hi);
    var n := k as real;
    assert s / n * n == s;
  }

  /** Smoothing never leaves the bounding box of the positions it averages. */
  lemma MeanWithin(buffer: seq<Position>, xlo: real, xhi: real, ylo: real, yhi: real)
    requires |buffer| > 0
    requires InBox(buffer, xlo, xhi, ylo, yhi)
    ensures xlo <= Mean(buffer).x <= xhi && ylo <= Mean(buffer).y <= yhi
  {
    SumWithin(buffer, xlo, xhi, ylo, yhi);
    QuotientWithin(Sum(buffer).x, |buffer|, xlo, xhi);
    QuotientWithin(Sum(buffer).y, |buffer|, ylo, yhi);
  }

  /** Sliding one more position into the window of ps is the window of ps followed by it. */
  lemma WindowSnoc(ps: seq<Position>, p: Position)
    ensures Window(ps + [p]) == Slide(Window(ps), p)
  {
    assert (ps + [p])[..|ps|] == ps;
  }

  /** smoothPosition's buffer, positionBuffer.current. */
  class PositionSmoother {
    var positionBuffer: seq<Position>
    /** Every position passed to SmoothPosition so far, oldest first. */
    ghost var pushed: seq<Position>

    /** The buffer is the window of every position pushed so far. */
    ghost predicate Valid()
      reads this
    {
      positionBuffer == Window(pushed)
    }

    constructor ()
      ensures Valid() && positionBuffer == [] && pushed == []
    {
      positionBuffer := [];
      pushed := [];
    }

    /**
     * Slide newPos into the buffer and return the mean of the buffer: the mean of the
     * latest BufferSize positions pushed, or of all of them while there are fewer.
     */
    method SmoothPosition(newPos: Position) returns (avg: Position)
      requires Valid()
      modifies this
      ensures Valid() && pushed == old(pushed) + [newPos]
      ensures positionBuffer == Slide(old(positionBuffer), newPos)
      ensures positionBuffer == pushed[|pushed| - Min(|pushed|, BufferSize)..]
      ensures avg == Mean(positionBuffer)
    {
      WindowSnoc(pushed, newPos);
      pushed := pushed + [newPos];
      positionBuffer := positionBuffer + [newPos];
      if |positionBuffer| > BufferSize {
        positionBuffer := positionBuffer[1..];
      }
      WindowIsLatest(pushed);
      avg := Accumulate(positionBuffer, |positionBuffer| as real);
      AverageIsMean(positionBuffer);
    }
  }

  /** The canvas context's stroke settings that drawLine records. */
  datatype StrokeSettings = StrokeSettings(strokeStyle: string, lineWidth: real)

  /** One record of drawingHistory. */
  datatype Segment = Segment(x1: real, y1: real, x2: real, y2: real, style: string, width: real)

  /** drawingHistory.current. */
  class DrawingHistory {
    var records: seq<Segment>

    constructor ()
      ensures records == []
    {
      records := [];
    }

    /** Record one drawn segment with the context's current stroke style and width. */
    method DrawLine(ctx: StrokeSettings, x1: real, y1: real, x2: real, y2: real)
      modifies this
      ensures |records| == |old(records)| + 1
      ensures records[..|old(records)|] == old(records)
      ensures records[|records| - 1] == Segment(x1, y1, x2, y2, ctx.strokeStyle, ctx.lineWidth)
    {
      records := records + [Segment(x1, y1, x2, y2, ctx.strokeStyle, ctx.lineWidth)];
    }
  }
}
