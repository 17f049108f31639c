/**
 * The current voice visualizer (src/components/Visualizer.jsx): two rings whose size
 * follows the intensity prop and whose style follows whether the app is listening. Only
 * the sizes and the choice of classes are modelled; the class names stand for Tailwind
 * styles that are not.
 */
module CssVisualizer {
  import opened Wrappers
  import opened Text

  /** The props; `intensity` defaults to 0, `width` to 600 and `height` to 400. */
  datatype Props = Props(isListening: bool, intensity: Option<real>, width: Option<real>, height: Option<real>)

  function Intensity(p: Props): real { if p.intensity.Some? then p.intensity.value else 0.0 }
  function Width(p: Props): real { if p.width.Some? then p.width.value else 600.0 }
  function Height(p: Props): real { if p.height.Some? then p.height.value else 400.0 }

  /** Half the shorter side. */
  function BaseSize(p: Props): (b: real)
    ensures b * 2.0 <= Width(p) && b * 2.0 <= Height(p)
    ensures b * 2.0 == Width(p) || b * 2.0 == Height(p)
  {
    MinR(Width(p), Height(p)) * 0.5
  }

  /** The outer ring's size (used as its width and height): 40 pixels more per unit of intensity. */
  function Radius(p: Props): (r: real)
    ensures r - BaseSize(p) == 40.0 * Intensity(p)
  {
    BaseSize(p) + Intensity(p) * 40.0
  }

  /** The inner ring is 20 pixels smaller than the outer one. */
  function InnerSize(p: Props): (s: real)
    ensures s + 20.0 == Radius(p)
  {
    Radius(p) - 20.0
  }

  /** The outer ring glows solidly while listening and breathes otherwise. */
  function OuterClasses(p: Props): (c: seq<string>)
    ensures "animate-breathe" in c <==> !p.isListening
  {
    ["absolute", "rounded-full", "border-4", "transition-all", "duration-300"]
    + (if p.isListening then ["border-cyan-400/80", "shadow-[0_0_30px_rgba(34,211,238,0.6)]"]
       else ["border-cyan-400/50", "shadow-[0_0_20px_rgba(34,211,238,0.3)]", "animate-breathe"])
  }

  /** The "Lexi" label keeps its text style and pulses only while listening. */
  function LabelClasses(p: Props): (c: seq<string>)
    ensures "animate-pulse" in c <==> p.isListening
    ensures |c| >= 5 && c[..5] == LabelBase
  {
    LabelBase + (if p.isListening then ["animate-pulse"] else [])
  }

  const LabelBase: seq<string> :=
    ["text-cyan-100", "font-bold", "tracking-widest", "drop-shadow-[0_0_15px_rgba(34,211,238,0.8)]", "z-10"]

  /** The label's font size is a tenth of the shorter side, so a fifth of the base size. */
  function FontSize(p: Props): (f: real)
    ensures f * 5.0 == BaseSize(p)
  {
    MinR(Width(p), Height(p)) * 0.1
  }

  /** With every prop left out the outer ring is 200 pixels and the inner one 180. */
  lemma DefaultSizes()
    ensures Radius(Props(false, None, None, None)) == 200.0
    ensures InnerSize(Props(false, None, None, None)) == 180.0
  {
  }

  /** A louder voice never shrinks the rings, and listening does not change their size. */
  lemma RingsFollowIntensity(p: Props, a: real, b: real)
    requires a <= b
    ensures Radius(p.(intensity := Some(a))) <= Radius(p.(intensity := Some(b)))
    ensures InnerSize(p.(intensity := Some(a))) <= InnerSize(p.(intensity := Some(b)))
    ensures Radius(p.(isListening := !p.isListening)) == Radius(p)
  {
  }
}
