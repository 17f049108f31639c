/**
 * The earlier voice visualizer (_legacy_v2/src/components/Visualizer.jsx): every frame it
 * computes an intensity from the current audio buffer, grows a circle with it, and
 * strokes a faint glow ring inside the circle and the circle itself, breathing when not
 * listening.
 *
 * A frame is the sequence of drawing calls it makes and whether it asks for the next
 * frame; the breathing offset `sin(2t) * 5` depends on the clock and is a parameter.
 * The canvas size is whole pixels, as the canvas's integer `width` and `height` hold it;
 * other lengths are exact reals. `arc` throws on a negative radius, which ends the frame
 * and with it the animation loop.
 */
module CanvasVisualizer {
  import opened Wrappers
  import opened Text

  /** Every sample is a byte, as `getByteFrequencyData` fills them. */
  predicate Bytes(data: Option<seq<int>>) {
    data.Some? ==> forall k :: 0 <= k < |data.value| ==> 0 <= data.value[k] <= 255
  }

  /** `data.reduce((a, b) => a + b, 0)`: byte samples sum to at most 255 per sample. */
  function Sum(data: seq<int>): (s: int)
    ensures Bytes(Some(data)) ==> 0 <= s <= 255 * |data|
  {
    if data == [] then 0
    else
      assert Bytes(Some(data)) ==> Bytes(Some(data[..|data| - 1]));
      Sum(data[..|data| - 1]) + data[|data| - 1]
  }

  /** The loudness of a frame: the mean sample over 255, and 0 without data; for bytes, between 0 and 1. */
  function Intensity(data: Option<seq<int>>): (i: real)
    ensures data.None? || data.value == [] ==> i == 0.0
    ensures Bytes(data) ==> 0.0 <= i <= 1.0
  {
    if data.Some? && |data.value| > 0 then
      var n := |data.value| as real;
      assert Bytes(data) ==> Sum(data.value) as real / n <= 255.0 by {
        if Bytes(data) {
          assert Sum(data.value) as real <= 255.0 * n;
        }
      }
      Sum(data.value) as real / n / 255.0
    else 0.0
  }

  /** The circle grows from a quarter of the shorter side by at most 40 pixels. */
  function Radius(w: real, h: real, data: Option<seq<int>>): (r: real)
    ensures Bytes(data) ==> MinR(w, h) * 0.25 <= r <= MinR(w, h) * 0.25 + 40.0
    ensures Intensity(data) == 0.0 ==> r == MinR(w, h) * 0.25
  {
    MinR(w, h) * 0.25 + Intensity(data) * 40.0
  }

  /** The props; `intensity` defaults to 0, `width` to 600 and `height` to 400 (whole pixels). */
  datatype Props = Props(isListening: bool, intensity: Option<real>, width: Option<nat>, height: Option<nat>)

  function Width(p: Props): nat { if p.width.Some? then p.width.value else 600 }
  function Height(p: Props): nat { if p.height.Some? then p.height.value else 400 }

  /** The drawing calls of a frame. */
  datatype Call =
    | ClearRect(w: real, h: real)
    | Stroke(cx: real, cy: real, radius: real, alpha: real, lineWidth: real)

  /** The calls a frame made, and whether it reached `requestAnimationFrame` for the next one. */
  datatype FrameOutcome = FrameOutcome(calls: seq<Call>, rearmed: bool)

  /** The circle's radius: steady while listening, breathing otherwise. */
  function CircleRadius(p: Props, data: Option<seq<int>>, breath: real): real {
    var r := Radius(Width(p) as real, Height(p) as real, data);
    if p.isListening then r else r + breath
  }

  /**
   * `draw`: clear, the glow ring 10 inside the circle, then the circle: at `radius + breath`
   * with alpha 0.5 when not listening, at `radius` with alpha 0.8 when listening. An `arc`
   * with a negative radius throws: the frame stops there and no next frame is requested.
   */
  function Frame(p: Props, data: Option<seq<int>>, breath: real): (f: FrameOutcome)
    ensures var w, h := Width(p) as real, Height(p) as real; var r := Radius(w, h, data);
      && |f.calls| >= 1 && f.calls[0] == ClearRect(w, h)
      && (r - 10.0 < 0.0 <==> f == FrameOutcome([ClearRect(w, h)], false))
      && (r - 10.0 >= 0.0 ==> |f.calls| >= 2 && f.calls[1] == Stroke(w / 2.0, h / 2.0, r - 10.0, 0.1, 2.0))
      && (r - 10.0 >= 0.0 && CircleRadius(p, data, breath) < 0.0 ==> |f.calls| == 2 && !f.rearmed)
      && (f.rearmed <==> r - 10.0 >= 0.0 && CircleRadius(p, data, breath) >= 0.0)
      && (f.rearmed ==> (|f.calls| == 3 && f.calls[2] ==
                           Stroke(w / 2.0, h / 2.0, CircleRadius(p, data, breath), if p.isListening then 0.8 else 0.5, 4.0)))
  {
    var w := Width(p) as real;
    var h := Height(p) as real;
    var radius := Radius(w, h, data);
    var clear := ClearRect(w, h);
    if radius - 10.0 < 0.0 then FrameOutcome([clear], false)
    else
      var glow := Stroke(w / 2.0, h / 2.0, radius - 10.0, 0.1, 2.0);
      var circle := CircleRadius(p, data, breath);
      if circle < 0.0 then FrameOutcome([clear, glow], false)
      else FrameOutcome([clear, glow, Stroke(w / 2.0, h / 2.0, circle, if p.isListening then 0.8 else 0.5, 4.0)], true)
  }

  /**
   * On a canvas whose shorter side is under 40 pixels a silent frame throws at the glow
   * ring: only the clear happens, and the loop stops.
   */
  lemma SmallCanvasStops(p: Props, data: Option<seq<int>>, breath: real)
    requires Width(p) < 40 || Height(p) < 40
    requires data.None? || data.value == []
    ensures Frame(p, data, breath) == FrameOutcome([ClearRect(Width(p) as real, Height(p) as real)], false)
  {
  }

  /** From 40 pixels on, every frame with the breathing offset of at most 5 requests the next. */
  lemma LargeCanvasKeepsGoing(p: Props, data: Option<seq<int>>, breath: real)
    requires Width(p) >= 40 && Height(p) >= 40 && -5.0 <= breath <= 5.0
    requires Bytes(data)
    ensures Frame(p, data, breath).rearmed
  {
  }

  /** The `intensity` prop is kept in a ref but never read: a frame does not depend on it. */
  lemma IntensityPropUnused(p: Props, x: Option<real>, data: Option<seq<int>>, breath: real)
    ensures Frame(p.(intensity := x), data, breath) == Frame(p, data, breath)
  {
  }

  /** While listening the circle holds still: the clock does not change the frame. */
  lemma ListeningHoldsStill(p: Props, data: Option<seq<int>>, b1: real, b2: real)
    requires p.isListening
    ensures Frame(p, data, b1) == Frame(p, data, b2)
  {
  }

  /** Idle, the circle breathes at most 5 pixels either way, and the glow ring does not move. */
  lemma IdleBreathes(p: Props, data: Option<seq<int>>, breath: real)
    requires !p.isListening && -5.0 <= breath <= 5.0
    ensures var r := Radius(Width(p) as real, Height(p) as real, data);
      r - 5.0 <= CircleRadius(p, data, breath) <= r + 5.0
    ensures var idle, listening := Frame(p, data, breath).calls, Frame(p.(isListening := true), data, breath).calls;
      |idle| >= 2 ==> |listening| >= 2 && idle[1] == listening[1]
  {
  }
}
