/**
 * The story section's animation set-up: the scroll-trigger settings that
 * follow the pin flag, the four easing presets, and for every element
 * marked with an animation type the start and end property values, the
 * delay and the duration of its tween on the section's timeline. Text
 * marked for splitting is rewritten into one span per character instead.
 *
 * Only the values handed to the animation library are modelled; the
 * library itself is not part of this model.
 */
module ScrollySection {
  import opened Common

  /** A tween property value: a number or a CSS string. */
  datatype Value = Num(n: real) | Css(s: string)

  /** The tweened properties, named as the animation library names them. */
  datatype Prop = Opacity | X | Y | RotationX | Rotation | Scale | Filter | ClipPath

  type Vars = map<Prop, Value>

  /** The section's `animationConfig`, with the defaults filled in. */
  datatype AnimationConfig = AnimationConfig(triggerStart: string, triggerEnd: string, pin: bool,
                                             pinDuration: string, scrub: real, preset: string)

  const DefaultConfig := AnimationConfig("top 75%", "bottom 75%", false, "+=100%", 1.0, "default")

  /** Scrubbing is either off or smoothed over some seconds. */
  datatype Scrub = NoScrub | ScrubBy(seconds: real)

  datatype ScrollTrigger = ScrollTrigger(start: string, end: string, scrub: Scrub, pin: bool,
                                         pinSpacing: bool, toggleActions: string, smoothTouch: real)

  datatype Preset = Preset(ease: string, stagger: real, duration: Option<real>)

  /** An element carrying `data-animate`, with its text and its optional numeric delay and duration. */
  datatype AnimatedElement = AnimatedElement(animate: string, text: string,
                                             delay: Option<real>, duration: Option<real>)

  /** One character of split text and its transition delay in milliseconds. */
  datatype Span = Span(ch: char, delayMs: nat)

  /**
   * What one element contributes: a tween on the timeline (with the inline
   * style set before it starts), or split text with its own staggered tween
   * over the spans.
   */
  datatype ElementAnimation =
    | TimelineTween(style: Vars, from: Vars, to: Vars, duration: Option<real>, delay: real, ease: string)
    | SplitText(spans: seq<Span>, from: Vars, stagger: real, splitDuration: real, ease: string)

  /** What the effect does to the section. */
  datatype SectionSetup =
    | StaticSection(vars: Vars)
    | AnimatedSection(trigger: ScrollTrigger, animations: seq<ElementAnimation>)

  const NoBreakSpace: char := '\U{00A0}'
  const CharDelayMs := 30

  /** The tween every split-text span starts from, and its stagger, duration and ease. */
  const SplitFrom: Vars := map[Opacity := Num(0.0), Y := Num(50.0), RotationX := Num(-90.0)]
  const SplitStagger: real := 0.03
  const SplitDuration: real := 0.8
  const SplitEase := "back.out(1.7)"

  const DefaultPreset := Preset("power3.out", 0.15, None)

  /** `presets[preset] || presets.default`. */
  function PresetNamed(name: string): (p: Preset)
    ensures name !in {"default", "dramatic", "snappy", "elegant"} ==> p == DefaultPreset
    ensures p.stagger > 0.0
    ensures p.duration.Some? ==> p.duration.value > 0.0
  {
    match name
      case "dramatic" => Preset("expo.out", 0.2, Some(1.5))
      case "snappy" => Preset("power1.out", 0.08, Some(0.6))
      case "elegant" => Preset("power2.inOut", 0.12, Some(1.2))
      case _ => DefaultPreset
  }

  /** The timeline's scroll trigger: pinning switches the end, scrubbing and the spacing on together. */
  function TriggerFor(config: AnimationConfig): (t: ScrollTrigger)
    ensures t.start == config.triggerStart && t.pin == config.pin && t.pinSpacing == config.pin
    ensures config.pin ==> t.end == config.pinDuration && t.scrub == ScrubBy(config.scrub)
    ensures !config.pin ==> t.end == config.triggerEnd && t.scrub == NoScrub
  {
    ScrollTrigger(config.triggerStart,
                  if config.pin then config.pinDuration else config.triggerEnd,
                  if config.pin then ScrubBy(config.scrub) else NoScrub,
                  config.pin, config.pin, "play none none reverse", 0.1)
  }

  /** The start and end values for each animation type. */
  function VarsFor(animType: string): (fromTo: (Vars, Vars))
    ensures Opacity in fromTo.0 && fromTo.0[Opacity] == Num(0.0)
    ensures forall k :: k in fromTo.1 ==> fromTo.1[k] == RestValue(k)
  {
    match animType
      case "fade-up" => (map[Opacity := Num(0.0), Y := Num(80.0), RotationX := Num(-15.0)],
                         map[Opacity := Num(1.0), Y := Num(0.0), RotationX := Num(0.0)])
      case "fade-down" => (map[Opacity := Num(0.0), Y := Num(-80.0), RotationX := Num(15.0)],
                           map[Opacity := Num(1.0), Y := Num(0.0), RotationX := Num(0.0)])
      case "slide-left" => (map[Opacity := Num(0.0), X := Num(-100.0)],
                            map[Opacity := Num(1.0), X := Num(0.0)])
      case "slide-right" => (map[Opacity := Num(0.0), X := Num(100.0)],
                             map[Opacity := Num(1.0), X := Num(0.0)])
      case "scale-up" => (map[Opacity := Num(0.0), Scale := Num(0.8)],
                          map[Opacity := Num(1.0), Scale := Num(1.0)])
      case "scale-down" => (map[Opacity := Num(0.0), Scale := Num(1.2)],
                            map[Opacity := Num(1.0), Scale := Num(1.0)])
      case "rotate-in" => (map[Opacity := Num(0.0), Rotation := Num(-180.0), Scale := Num(0.0)],
                           map[Opacity := Num(1.0), Rotation := Num(0.0), Scale := Num(1.0)])
      case "blur-in" => (map[Opacity := Num(0.0), Filter := Css("blur(20px)")],
                         map[Opacity := Num(1.0), Filter := Css("blur(0px)")])
      case "clip-reveal" => (map[Opacity := Num(0.0)], map[ClipPath := Css("inset(0 0% 0 0)")])
      case _ => (map[Opacity := Num(0.0), Y := Num(60.0)], map[Opacity := Num(1.0), Y := Num(0.0)])
  }

  /** The inline style an element gets before its tween: only the mask reveal starts clipped. */
  function StartStyle(animType: string): (style: Vars)
    ensures ClipPath in style <==> animType == "clip-reveal"
    ensures style.Keys <= {ClipPath}
  {
    if animType == "clip-reveal" then map[ClipPath := Css("inset(0 100% 0 0)")] else map[]
  }

  /** The value each property has when the element sits in its final place. */
  function RestValue(p: Prop): Value
  {
    match p
      case Opacity => Num(1.0)
      case Scale => Num(1.0)
      case Filter => Css("blur(0px)")
      case ClipPath => Css("inset(0 0% 0 0)")
      case _ => Num(0.0)
  }

  /**
   * Every type starts invisible and animates the same properties it starts
   * from, except the mask reveal: it starts at opacity 0 but has no opacity
   * in its end values, only the clip path.
   */
  lemma StartsHiddenAndPairsUp(animType: string)
    ensures VarsFor(animType).0[Opacity] == Num(0.0)
    ensures animType != "clip-reveal" ==> VarsFor(animType).0.Keys == VarsFor(animType).1.Keys
    ensures animType != "clip-reveal" ==> VarsFor(animType).1[Opacity] == Num(1.0)
    ensures animType == "clip-reveal" ==> Opacity !in VarsFor(animType).1 && ClipPath !in VarsFor(animType).0
  {
  }

  /** An unrecognised type moves up 60 pixels while fading in. */
  lemma UnknownTypeFadesUp(animType: string)
    requires animType !in {"fade-up", "fade-down", "slide-left", "slide-right", "scale-up", "scale-down",
                           "rotate-in", "blur-in", "clip-reveal", "text-split"}
    ensures VarsFor(animType) == (map[Opacity := Num(0.0), Y := Num(60.0)], map[Opacity := Num(1.0), Y := Num(0.0)])
  {
  }

  /**
   * The switch over the animation type, building the start and end values
   * by assignment from `{opacity: 0}` and `{opacity: 1}`; the mask reveal
   * also sets the element's clip path and deletes the end opacity.
   */
  method BuildVars(animType: string) returns (style: Vars, fromVars: Vars, toVars: Vars)
    requires animType != "text-split"
    ensures (fromVars, toVars) == VarsFor(animType)
    ensures style == StartStyle(animType)
  {
    style := map[];
    fromVars := map[Opacity := Num(0.0)];
    toVars := map[Opacity := Num(1.0)];
    match animType {
      case "fade-up" =>
        fromVars := fromVars[Y := Num(80.0)];
        fromVars := fromVars[RotationX := Num(-15.0)];
        toVars := toVars[Y := Num(0.0)];
        toVars := toVars[RotationX := Num(0.0)];
      case "fade-down" =>
        fromVars := fromVars[Y := Num(-80.0)];
        fromVars := fromVars[RotationX := Num(15.0)];
        toVars := toVars[Y := Num(0.0)];
        toVars := toVars[RotationX := Num(0.0)];
      case "slide-left" =>
        fromVars := fromVars[X := Num(-100.0)];
        fromVars := fromVars[Opacity := Num(0.0)];
        toVars := toVars[X := Num(0.0)];
        toVars := toVars[Opacity := Num(1.0)];
        assert fromVars == map[Opacity := Num(0.0), X := Num(-100.0)];
        assert toVars == map[Opacity := Num(1.0), X := Num(0.0)];
      case "slide-right" =>
        fromVars := fromVars[X := Num(100.0)];
        fromVars := fromVars[Opacity := Num(0.0)];
        toVars := toVars[X := Num(0.0)];
        toVars := toVars[Opacity := Num(1.0)];
        assert fromVars == map[Opacity := Num(0.0), X := Num(100.0)];
        assert toVars == map[Opacity := Num(1.0), X := Num(0.0)];
      case "scale-up" =>
        fromVars := fromVars[Scale := Num(0.8)];
        fromVars := fromVars[Opacity := Num(0.0)];
        toVars := toVars[Scale := Num(1.0)];
        toVars := toVars[Opacity := Num(1.0)];
        assert fromVars == map[Opacity := Num(0.0), Scale := Num(0.8)];
        assert toVars == map[Opacity := Num(1.0), Scale := Num(1.0)];
      case "scale-down" =>
        fromVars := fromVars[Scale := Num(1.2)];
        fromVars := fromVars[Opacity := Num(0.0)];
        toVars := toVars[Scale := Num(1.0)];
        toVars := toVars[Opacity := Num(1.0)];
        assert fromVars == map[Opacity := Num(0.0), Scale := Num(1.2)];
        assert toVars == map[Opacity := Num(1.0), Scale := Num(1.0)];
      case "rotate-in" =>
        fromVars := fromVars[Rotation := Num(-180.0)];
        fromVars := fromVars[Scale := Num(0.0)];
        toVars := toVars[Rotation := Num(0.0)];
        toVars := toVars[Scale := Num(1.0)];
      case "blur-in" =>
        fromVars := fromVars[Filter := Css("blur(20px)")];
        fromVars := fromVars[Opacity := Num(0.0)];
        toVars := toVars[Filter := Css("blur(0px)")];
        toVars := toVars[Opacity := Num(1.0)];
        assert fromVars == map[Opacity := Num(0.0), Filter := Css("blur(20px)")];
        assert toVars == map[Opacity := Num(1.0), Filter := Css("blur(0px)")];
      case "clip-reveal" =>
        style := style[ClipPath := Css("inset(0 100% 0 0)")];
        toVars := toVars[ClipPath := Css("inset(0 0% 0 0)")];
        toVars := toVars - {Opacity};
        assert toVars == map[ClipPath := Css("inset(0 0% 0 0)")];
      case _ =>
        fromVars := fromVars[Y := Num(60.0)];
        toVars := toVars[Y := Num(0.0)];
    }
  }

  /** The delay: the element's own when given, else its position times the preset's stagger. */
  function DelayFor(customDelay: Option<real>, i: nat, preset: Preset): (d: real)
    ensures customDelay.Some? ==> d == customDelay.value
    ensures customDelay.None? ==> d == i as real * preset.stagger
  {
    if customDelay.Some? then customDelay.value else i as real * preset.stagger
  }

  /** The duration: the element's own unless missing or zero, else the preset's. */
  function DurationFor(custom: Option<real>, preset: Preset): (d: Option<real>)
    ensures custom.Some? && custom.value != 0.0 ==> d == custom
    ensures custom.None? || custom.value == 0.0 ==> d == preset.duration
  {
    if custom.Some? && custom.value != 0.0 then custom else preset.duration
  }

  /** Later elements without their own delay start later, by one stagger step each. */
  lemma StaggerOrders(i: nat, j: nat, preset: Preset)
    requires i < j && preset.stagger > 0.0
    ensures DelayFor(None, i, preset) < DelayFor(None, j, preset)
    ensures DelayFor(None, j, preset) - DelayFor(None, i, preset) == (j - i) as real * preset.stagger
  {
  }

  /** One span per character, spaces made non-breaking, each 30 ms after the one before. */
  function SplitChars(text: string): (spans: seq<Span>)
    ensures |spans| == |text|
    ensures forall i :: 0 <= i < |text| ==>
      spans[i].delayMs == CharDelayMs * i &&
      spans[i].ch == (if text[i] == ' ' then NoBreakSpace else text[i])
  {
    seq(|text|, i requires 0 <= i < |text| =>
      Span(if text[i] == ' ' then NoBreakSpace else text[i], CharDelayMs * i))
  }

  /** The text the spans show, with non-breaking spaces read back as spaces. */
  function SpanText(spans: seq<Span>): string
  {
    seq(|spans|, i requires 0 <= i < |spans| =>
      if spans[i].ch == NoBreakSpace then ' ' else spans[i].ch)
  }

  /** Splitting loses nothing of a text without non-breaking spaces of its own. */
  lemma SplitRoundTrip(text: string)
    requires NoBreakSpace !in text
    ensures SpanText(SplitChars(text)) == text
  {
    var spans := SplitChars(text);
    forall i | 0 <= i < |text| ensures SpanText(spans)[i] == text[i] {
      assert text[i] != NoBreakSpace;
    }
  }

  /**
   * `a` is what the element at position `i` gets under `preset`: split text
   * becomes spans with the fixed character tween; any other type its start
   * style, its start and end values, its delay and duration, and the
   * preset's ease.
   */
  ghost predicate Animates(el: AnimatedElement, i: nat, preset: Preset, a: ElementAnimation)
  {
    (el.animate == "text-split" <==> a.SplitText?) &&
    (a.SplitText? ==>
      a.spans == SplitChars(el.text) && a.from == SplitFrom && a.stagger == SplitStagger &&
      a.splitDuration == SplitDuration && a.ease == SplitEase) &&
    (a.TimelineTween? ==>
      a.style == StartStyle(el.animate) &&
      (a.from, a.to) == VarsFor(el.animate) &&
      a.delay == DelayFor(el.delay, i, preset) &&
      a.duration == DurationFor(el.duration, preset) &&
      a.ease == preset.ease)
  }

  /** The animation for the element at position `i`. */
  method AnimateElement(el: AnimatedElement, i: nat, preset: Preset) returns (a: ElementAnimation)
    ensures Animates(el, i, preset, a)
  {
    if el.animate == "text-split" {
      a := SplitText(SplitChars(el.text), SplitFrom, SplitStagger, SplitDuration, SplitEase);
      return;
    }
    var style, fromVars, toVars := BuildVars(el.animate);
    var delay := DelayFor(el.delay, i, preset);
    a := TimelineTween(style, fromVars, toVars, DurationFor(el.duration, preset), delay, preset.ease);
  }

  /** The number of elements that put a tween on the timeline. */
  function TweenCount(animations: seq<ElementAnimation>): nat
  {
    if animations == [] then 0
    else (if animations[0].TimelineTween? then 1 else 0) + TweenCount(animations[1..])
  }

  function NonSplitCount(elements: seq<AnimatedElement>): nat
  {
    if elements == [] then 0
    else (if elements[0].animate != "text-split" then 1 else 0) + NonSplitCount(elements[1..])
  }

  lemma {:induction false} CountsAgree(elements: seq<AnimatedElement>, animations: seq<ElementAnimation>)
    requires |elements| == |animations|
    requires forall k :: 0 <= k < |elements| ==> (elements[k].animate == "text-split" <==> animations[k].SplitText?)
    ensures TweenCount(animations) == NonSplitCount(elements)
    decreases |elements|
  {
    if elements != [] {
      CountsAgree(elements[1..], animations[1..]);
    }
  }

  /**
   * The effect: with reduced motion the section is shown at rest and
   * nothing is animated; otherwise each marked element, in document order,
   * gets its animation, and only the split-text ones stay off the timeline.
   */
  method SetupSection(reducedMotion: bool, config: AnimationConfig, elements: seq<AnimatedElement>)
    returns (setup: SectionSetup)
    ensures reducedMotion ==> setup == StaticSection(map[Opacity := Num(1.0), Y := Num(0.0), Scale := Num(1.0)])
    ensures !reducedMotion ==> setup.AnimatedSection? && setup.trigger == TriggerFor(config)
    ensures !reducedMotion ==> |setup.animations| == |elements|
    ensures !reducedMotion ==> TweenCount(setup.animations) == NonSplitCount(elements)
    ensures !reducedMotion ==> forall k :: 0 <= k < |elements| ==>
      Animates(elements[k], k, PresetNamed(config.preset), setup.animations[k])
  {
    if reducedMotion {
      setup := StaticSection(map[Opacity := Num(1.0), Y := Num(0.0), Scale := Num(1.0)]);
      return;
    }
    var trigger := TriggerFor(config);
    var preset := PresetNamed(config.preset);
    var animations: seq<ElementAnimation> := [];
    var i := 0;
    while i < |elements|
      invariant 0 <= i <= |elements| && |animations| == i
      invariant forall k :: 0 <= k < i ==> Animates(elements[k], k, preset, animations[k])
    {
      var a := AnimateElement(elements[i], i, preset);
      animations := animations + [a];
      i := i + 1;
    }
    CountsAgree(elements, animations);
    setup := AnimatedSection(trigger, animations);
  }
}
