/**
 * The orb above the chat (frontend/src/components/BreathingOrb.jsx): five layered
 * animations. Only the core pulse and the bright source depend on the mode, and only on
 * whether it is "thinking"; the other layers are fixed. The animation library and the
 * styling are not modelled, only the parameters handed to them.
 */
module BreathingOrb {
  import opened Wrappers

  /**
   * One animation: keyframes for scale and opacity (empty when the layer does not animate
   * them), a rotation in degrees (0 for none), the duration of one cycle in seconds (of the
   * rotation, for a layer that turns) and the duration of one scale cycle, which differs
   * from it only for the ribbons.
   */
  datatype Animation = Animation(scale: seq<real>, opacity: seq<real>, rotate: real, duration: real, scaleDuration: real)

  /** The mode prop; a missing prop is 'idle'. */
  function ModeOf(prop: Option<string>): (mode: string)
    ensures prop.None? ==> mode == "idle"
    ensures prop.Some? ==> mode == prop.value
  {
    match prop
    case None => "idle"
    case Some(m) => m
  }

  predicate Thinking(mode: string) {
    mode == "thinking"
  }

  /** Layer 3, the core pulse. */
  function Core(mode: string): (a: Animation)
    ensures |a.scale| == |a.opacity| == 3 && a.rotate == 0.0 && a.duration == a.scaleDuration
    ensures a.scale[0] == a.scale[2] == 1.0 < a.scale[1] && a.opacity[0] == a.opacity[2] < a.opacity[1]
    ensures Thinking(mode) <==> a.duration < 1.0
  {
    if Thinking(mode) then Animation([1.0, 1.3, 1.0], [0.8, 1.0, 0.8], 0.0, 0.6, 0.6)
    else Animation([1.0, 1.2, 1.0], [0.5, 0.8, 0.5], 0.0, 3.0, 3.0)
  }

  /** Layer 4, the bright source (its glow while thinking is styling and not modelled). */
  function Source(mode: string): (a: Animation)
    ensures |a.scale| == 3 && a.opacity == [] && a.rotate == 0.0 && a.duration == a.scaleDuration
    ensures a.scale[0] == a.scale[2] == 1.0 < a.scale[1]
    ensures Thinking(mode) <==> a.duration < 1.0
  {
    if Thinking(mode) then Animation([1.0, 1.5, 1.0], [], 0.0, 0.3, 0.3)
    else Animation([1.0, 1.1, 1.0], [], 0.0, 3.0, 3.0)
  }

  /** Layer 1, the atmosphere. */
  const Atmosphere: Animation := Animation([1.0, 1.1, 1.0], [0.2, 0.4, 0.2], 0.0, 6.0, 6.0)
  /** Layer 2, the two ribbons turning opposite ways, each swelling on its own, faster cycle. */
  const OuterRibbon: Animation := Animation([1.0, 1.05, 1.0], [], 360.0, 15.0, 3.0)
  const InnerRibbon: Animation := Animation([1.0, 0.95, 1.0], [], -360.0, 10.0, 4.0)
  /** Layer 5, the dust. */
  const Dust: Animation := Animation([], [], 180.0, 40.0, 40.0)

  /** The layers, bottom to top (the ribbons are two). */
  function Layers(prop: Option<string>): (ls: seq<Animation>)
    ensures |ls| == 6
    ensures ls[0] == Atmosphere && ls[1] == OuterRibbon && ls[2] == InnerRibbon && ls[5] == Dust
  {
    var mode := ModeOf(prop);
    [Atmosphere, OuterRibbon, InnerRibbon, Core(mode), Source(mode), Dust]
  }

  /**
   * Thinking: the heart beats every 0.6 s, swelling to 1.3 with opacity 0.8 to 1, and the
   * source every 0.3 s, swelling to 1.5. Any other mode: 3 s, 1.2, 0.5 to 0.8; 3 s, 1.1.
   */
  lemma ParametersByMode(prop: Option<string>)
    ensures var ls := Layers(prop);
      && (ModeOf(prop) == "thinking" ==>
            && ls[3] == Animation([1.0, 1.3, 1.0], [0.8, 1.0, 0.8], 0.0, 0.6, 0.6)
            && ls[4] == Animation([1.0, 1.5, 1.0], [], 0.0, 0.3, 0.3))
      && (ModeOf(prop) != "thinking" ==>
            && ls[3] == Animation([1.0, 1.2, 1.0], [0.5, 0.8, 0.5], 0.0, 3.0, 3.0)
            && ls[4] == Animation([1.0, 1.1, 1.0], [], 0.0, 3.0, 3.0))
  {
  }

  /** Only the core and the source depend on the mode. */
  lemma FixedLayers(a: Option<string>, b: Option<string>)
    ensures forall k :: 0 <= k < 6 && k != 3 && k != 4 ==> Layers(a)[k] == Layers(b)[k]
  {
  }

  /** Every mode other than "thinking", the missing prop included, looks like 'idle'. */
  lemma RestingModesAgree(prop: Option<string>)
    requires ModeOf(prop) != "thinking"
    ensures Layers(prop) == Layers(Some("idle")) == Layers(None)
  {
  }

  /** Every keyframe cycle ends where it starts, so the repeated animation has no jump. */
  predicate Loops(a: Animation) {
    (|a.scale| == 0 || a.scale[0] == a.scale[|a.scale| - 1])
    && (|a.opacity| == 0 || a.opacity[0] == a.opacity[|a.opacity| - 1])
  }

  lemma EveryLayerLoops(prop: Option<string>)
    ensures forall k :: 0 <= k < |Layers(prop)| ==> Loops(Layers(prop)[k])
  {
  }

  /** Thinking makes the heart beat faster, swell more and glow brighter; so does the source. */
  lemma ThinkingIsLivelier(prop: Option<string>)
    requires ModeOf(prop) != "thinking"
    ensures var t := Layers(Some("thinking")); var r := Layers(prop);
      && t[3].duration < r[3].duration && t[3].scale[1] > r[3].scale[1]
      && (forall k :: 0 <= k < 3 ==> t[3].opacity[k] > r[3].opacity[k])
      && t[4].duration < r[4].duration && t[4].scale[1] > r[4].scale[1]
  {
  }

  /** The outer ribbon swells five times per turn and the inner one two and a half times. */
  lemma RibbonsSwellWhileTurning(prop: Option<string>)
    ensures Layers(prop)[1].duration == 5.0 * Layers(prop)[1].scaleDuration
    ensures Layers(prop)[2].duration == 2.5 * Layers(prop)[2].scaleDuration
    ensures Layers(prop)[1].rotate == -Layers(prop)[2].rotate
  {
  }
}
