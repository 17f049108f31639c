/**
 * The level meter above the chat (src/components/TopAudioBar.jsx): ten bars on each side,
 * the left side the mirror image of the right, each bar's height and opacity read off one
 * sample of the audio data. A sample the data does not have reads as 0.
 *
 * Lengths are in pixels and are exact reals.
 */
module TopAudioBar {

  const BarsPerSide: nat := 10

  /** `audioData[k] || 0`: the k-th sample, 0 past the end. */
  function Sample(audioData: seq<int>, k: nat): (v: int)
    ensures k < |audioData| ==> v == audioData[k]
    ensures k >= |audioData| ==> v == 0
  {
    if k < |audioData| then audioData[k] else 0
  }

  /** The style of one bar. */
  datatype Bar = Bar(height: real, opacity: real)

  function BarFor(value: int): (b: Bar)
    ensures b.height >= 4.0
  {
    var percent := value as real / 255.0;
    Bar(if 4.0 >= percent * 30.0 then 4.0 else percent * 30.0, 0.3 + percent * 0.7)
  }

  /** The twenty bars left to right: the left side reads samples 9 down to 0, the right side 0 up to 9. */
  function Bars(audioData: seq<int>): (bars: seq<Bar>)
    ensures |bars| == 2 * BarsPerSide
    ensures forall i :: 0 <= i < BarsPerSide ==> bars[i] == BarFor(Sample(audioData, BarsPerSide - 1 - i))
    ensures forall i :: 0 <= i < BarsPerSide ==> bars[BarsPerSide + i] == BarFor(Sample(audioData, i))
  {
    seq(BarsPerSide, i requires 0 <= i < BarsPerSide => BarFor(Sample(audioData, BarsPerSide - 1 - i)))
    + seq(BarsPerSide, i requires 0 <= i < BarsPerSide => BarFor(Sample(audioData, i)))
  }

  /** The meter is symmetric about its middle. */
  lemma BarsArePalindrome(audioData: seq<int>)
    ensures forall k :: 0 <= k < 2 * BarsPerSide ==> Bars(audioData)[k] == Bars(audioData)[2 * BarsPerSide - 1 - k]
  {
    var bars := Bars(audioData);
    forall k | 0 <= k < 2 * BarsPerSide
      ensures bars[k] == bars[2 * BarsPerSide - 1 - k]
    {
      if k < BarsPerSide {
        assert bars[2 * BarsPerSide - 1 - k] == bars[BarsPerSide + (BarsPerSide - 1 - k)];
      } else {
        assert bars[k] == bars[BarsPerSide + (k - BarsPerSide)];
      }
    }
  }

  /** A byte sample gives a bar between 4 and 30 pixels high and an opacity between 0.3 and 1. */
  lemma BarBounds(value: int)
    requires 0 <= value <= 255
    ensures 4.0 <= BarFor(value).height <= 30.0
    ensures 0.3 <= BarFor(value).opacity <= 1.0
  {
  }

  /** A louder sample never gives a shorter or fainter bar. */
  lemma BarMonotone(a: int, b: int)
    requires a <= b
    ensures BarFor(a).height <= BarFor(b).height && BarFor(a).opacity <= BarFor(b).opacity
  {
  }

  /** Silence, or no data at all, leaves every bar at the 4-pixel floor with opacity 0.3. */
  lemma SilenceIsFlat(audioData: seq<int>)
    requires forall k :: 0 <= k < |audioData| ==> audioData[k] == 0
    ensures forall k :: 0 <= k < |Bars(audioData)| ==> Bars(audioData)[k] == Bar(4.0, 0.3)
  {
    var bars := Bars(audioData);
    forall k | 0 <= k < |bars|
      ensures bars[k] == Bar(4.0, 0.3)
    {
      if k < BarsPerSide {
        assert Sample(audioData, BarsPerSide - 1 - k) == 0;
      } else {
        assert bars[k] == bars[BarsPerSide + (k - BarsPerSide)];
        assert Sample(audioData, k - BarsPerSide) == 0;
      }
    }
  }
}
