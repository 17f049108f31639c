/**
 * The earlier level meter (_legacy_v2/src/components/TopAudioBar.jsx), drawn on a canvas:
 * every frame clears the canvas and draws pairs of bars outwards from the middle, the
 * right one of a pair at `center + 6i` and the left one at `center - 6(i + 1)`, both
 * reading sample `i` of the audio data cyclically.
 *
 * A frame is the sequence of drawing calls it makes; the canvas itself, the fill colour's
 * RGB part and the re-arming of the animation frame are not modelled. Lengths are exact
 * reals. A missing data buffer reads as an empty one.
 */
module CanvasAudioBar {

  const BarWidth: real := 4.0
  const Gap: real := 2.0

  /** `Math.floor(width / (barWidth + gap))` for a canvas width in whole pixels. */
  function TotalBars(width: nat): (n: nat)
    ensures 6 * n <= width < 6 * n + 6
  {
    width / 6
  }

  /** How many times `for (i = 0; i < totalBars / 2; i++)` runs: the real half, rounded up. */
  function BarsPerSide(width: nat): (r: nat)
    ensures r as real >= TotalBars(width) as real / 2.0 > r as real - 1.0
  {
    (TotalBars(width) + 1) / 2
  }

  /** `audioData[i % audioData.length] || 0`: the data repeats, and empty data reads as 0. */
  function Sample(audioData: seq<int>, i: nat): (v: int)
    ensures audioData == [] ==> v == 0
    ensures audioData != [] ==> v == audioData[i % |audioData|]
  {
    if audioData == [] then 0 else audioData[i % |audioData|]
  }

  /** The drawing calls of a frame. */
  datatype Call =
    | ClearRect(w: real, h: real)
    | FillRect(x: real, y: real, w: real, h: real, alpha: real)

  function BarHeight(value: int, height: nat): (h: real)
    ensures h >= 2.0
  {
    var percent := value as real / 255.0;
    if 2.0 >= percent * height as real then 2.0 else percent * height as real
  }

  /** The opacity: 0.2 for silence rising to 1 at full volume. */
  function Alpha(value: int): (a: real)
    ensures 0 <= value <= 255 ==> 0.2 <= a <= 1.0
    ensures value == 0 ==> a == 0.2
    ensures value == 255 ==> a == 1.0
  {
    0.2 + value as real / 255.0 * 0.8
  }

  /** The horizontal middle of the canvas. */
  function Center(width: nat): (c: real)
    ensures 0.0 <= c <= width as real && c + c == width as real
  {
    width as real / 2.0
  }

  /** The right bar of the i-th pair. */
  function RightFill(width: nat, height: nat, audioData: seq<int>, i: nat): (c: Call)
    ensures c.FillRect?
  {
    var v := Sample(audioData, i);
    var h := BarHeight(v, height);
    FillRect(Center(width) + i as real * (BarWidth + Gap), (height as real - h) / 2.0, BarWidth, h, Alpha(v))
  }

  /** The left bar of the i-th pair. */
  function LeftFill(width: nat, height: nat, audioData: seq<int>, i: nat): (c: Call)
    ensures c.FillRect?
  {
    var v := Sample(audioData, i);
    var h := BarHeight(v, height);
    FillRect(Center(width) - (i + 1) as real * (BarWidth + Gap), (height as real - h) / 2.0, BarWidth, h, Alpha(v))
  }

  /** Pair `i` shows sample `i`: its height and alpha are those of `Sample(audioData, i)`. */
  lemma PairShowsSample(width: nat, height: nat, audioData: seq<int>, i: nat)
    ensures var r := RightFill(width, height, audioData, i); var l := LeftFill(width, height, audioData, i);
      && r.h == l.h == BarHeight(Sample(audioData, i), height)
      && r.alpha == l.alpha == Alpha(Sample(audioData, i))
      && r.w == l.w == BarWidth
  {
  }

  /** A louder sample never gives its pair a shorter or fainter bar. */
  lemma LouderPairGrows(width: nat, height: nat, a: seq<int>, b: seq<int>, i: nat)
    requires Sample(a, i) <= Sample(b, i)
    ensures RightFill(width, height, a, i).h <= RightFill(width, height, b, i).h
    ensures RightFill(width, height, a, i).alpha <= RightFill(width, height, b, i).alpha
    ensures LeftFill(width, height, a, i).h <= LeftFill(width, height, b, i).h
  {
    LouderValueGrows(Sample(a, i), Sample(b, i), height);
  }

  /** Height and alpha never fall as the value rises. */
  lemma LouderValueGrows(u: int, v: int, height: nat)
    requires u <= v
    ensures BarHeight(u, height) <= BarHeight(v, height) && Alpha(u) <= Alpha(v)
  {
    var p, q := u as real / 255.0, v as real / 255.0;
    assert p <= q;
    assert (q - p) * height as real >= 0.0;
    assert p * height as real <= q * height as real;
  }

  /**
   * The bars step outwards from the centre one bar and one gap at a time: the right bars
   * start at the centre, the left bars end 2 pixels before it.
   */
  lemma BarsStepOutwards(width: nat, height: nat, audioData: seq<int>, i: nat)
    ensures RightFill(width, height, audioData, 0).x == Center(width)
    ensures LeftFill(width, height, audioData, 0).x == Center(width) - 6.0
    ensures RightFill(width, height, audioData, i + 1).x == RightFill(width, height, audioData, i).x + 6.0
    ensures LeftFill(width, height, audioData, i + 1).x == LeftFill(width, height, audioData, i).x - 6.0
  {
  }

  /** The fills of the first `n` pairs, right bar before left bar. */
  function FillsUpTo(width: nat, height: nat, audioData: seq<int>, n: nat): seq<Call> {
    if n == 0 then []
    else FillsUpTo(width, height, audioData, n - 1)
         + [RightFill(width, height, audioData, n - 1), LeftFill(width, height, audioData, n - 1)]
  }

  /** `draw`: one frame. */
  method Draw(width: nat, height: nat, audioData: seq<int>) returns (calls: seq<Call>)
    ensures calls == [ClearRect(width as real, height as real)] + FillsUpTo(width, height, audioData, BarsPerSide(width))
  {
    calls := [ClearRect(width as real, height as real)];
    var totalBars := width / 6;
    var i := 0;
    while (i as real) < totalBars as real / 2.0
      invariant i <= BarsPerSide(width)
      invariant calls == [ClearRect(width as real, height as real)] + FillsUpTo(width, height, audioData, i)
      decreases totalBars - i
    {
      calls := calls + [RightFill(width, height, audioData, i), LeftFill(width, height, audioData, i)];
      i := i + 1;
    }
  }

  /** A frame draws exactly the pairs, pair i at positions 2i and 2i + 1. */
  lemma {:induction false} FillsLayout(width: nat, height: nat, audioData: seq<int>, n: nat)
    ensures |FillsUpTo(width, height, audioData, n)| == 2 * n
    ensures forall i :: 0 <= i < n ==>
              && FillsUpTo(width, height, audioData, n)[2 * i] == RightFill(width, height, audioData, i)
              && FillsUpTo(width, height, audioData, n)[2 * i + 1] == LeftFill(width, height, audioData, i)
  {
    if n > 0 {
      FillsLayout(width, height, audioData, n - 1);
    }
  }

  /** Both bars of a pair have the same height and alpha and are centred vertically. */
  lemma PairIsLevel(width: nat, height: nat, audioData: seq<int>, i: nat)
    ensures var r := RightFill(width, height, audioData, i); var l := LeftFill(width, height, audioData, i);
      && r.y == l.y && r.h == l.h && r.alpha == l.alpha
      && r.y + r.h / 2.0 == height as real / 2.0
  {
  }

  /**
   * The left bar is the mirror image of the right one about `center - 1`, the middle of the
   * gap between the two innermost bars, not about `center` itself.
   */
  lemma PairIsMirrored(width: nat, height: nat, audioData: seq<int>, i: nat)
    ensures var r := RightFill(width, height, audioData, i); var l := LeftFill(width, height, audioData, i);
      l.x + l.w == 2.0 * (Center(width) - 1.0) - r.x
  {
  }

  /** For a byte sample and a canvas at least 2 high, a bar is between 2 and the canvas height, alpha between 0.2 and 1. */
  lemma BarBounds(value: int, height: nat)
    requires 0 <= value <= 255 && height >= 2
    ensures 2.0 <= BarHeight(value, height) <= height as real
    ensures 0.2 <= Alpha(value) <= 1.0
  {
    var h := height as real;
    var percent := value as real / 255.0;
    assert 0.0 <= percent <= 1.0;
    assert h - percent * h == (1.0 - percent) * h;
    assert (1.0 - percent) * h >= 0.0;
    assert Alpha(value) == 0.2 + percent * 0.8;
  }

  /** With an even number of bars (the 300-pixel canvas has 50), every bar lies on the canvas. */
  lemma EvenCountFits(width: nat, height: nat, audioData: seq<int>, i: nat)
    requires TotalBars(width) % 2 == 0 && i < BarsPerSide(width)
    ensures var r := RightFill(width, height, audioData, i); var l := LeftFill(width, height, audioData, i);
      0.0 <= l.x && r.x + r.w <= width as real
  {
    var t := TotalBars(width);
    assert 2 * BarsPerSide(width) == t;
  }

  /** With an odd number of bars, the outermost left bar starts left of the canvas edge. */
  lemma OddCountOverhangs(width: nat, height: nat, audioData: seq<int>)
    requires TotalBars(width) % 2 == 1
    ensures LeftFill(width, height, audioData, BarsPerSide(width) - 1).x < 0.0
  {
    var t := TotalBars(width);
    assert 2 * BarsPerSide(width) == t + 1;
  }
}
