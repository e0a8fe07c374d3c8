/**
 * The decision parts of the accessibility helpers: the reduced-motion
 * query, the focus trap's Tab rule, keyboard activation of custom
 * controls, and the viewport-visibility test. Listeners, focus calls and
 * `preventDefault` are modelled as the values these decisions return.
 */
module AccessibilityUtils {
  import opened Common

  /**
   * `prefersReducedMotion`: `mediaMatches` is None when there is no window,
   * otherwise whether `(prefers-reduced-motion: reduce)` matches.
   */
  function PrefersReducedMotion(mediaMatches: Option<bool>): (r: bool)
    ensures r <==> mediaMatches == Some(true)
    ensures mediaMatches.None? ==> !r
  {
    match mediaMatches
    case None => false
    case Some(m) => m
  }

  // ---- Focus trap

  /** A key press as the listener sees it. */
  datatype KeyPress = KeyPress(key: string, shiftKey: bool)

  /** What a keydown handler does: nothing, or prevent the default action and focus an element. */
  datatype FocusAction<E> = Ignore | PreventAndFocus(target: E)

  /**
   * The focus trap's keydown rule over the container's focusable elements,
   * in document order; `active` is the focused element, None when nothing
   * has focus. With no focusable elements first and last are undefined and
   * never equal the focused element.
   */
  function TrapKeyDown<E(==)>(focusable: seq<E>, active: Option<E>, e: KeyPress): (r: FocusAction<E>)
    ensures e.key != "Tab" ==> r == Ignore
    ensures r.PreventAndFocus? ==> r.target in focusable
  {
    if e.key != "Tab" || |focusable| == 0 then Ignore
    else if e.shiftKey then
      (if active == Some(focusable[0]) then PreventAndFocus(focusable[|focusable| - 1]) else Ignore)
    else
      (if active == Some(focusable[|focusable| - 1]) then PreventAndFocus(focusable[0]) else Ignore)
  }

  /** The element focused when the trap is set up: the first focusable one, if any. */
  function InitialFocus<E>(focusable: seq<E>): (r: Option<E>)
    ensures r.Some? <==> |focusable| > 0
    ensures r.Some? ==> r.value == focusable[0]
  {
    if |focusable| == 0 then None else Some(focusable[0])
  }

  /**
   * The trap acts exactly on Shift+Tab from the first element, moving to the
   * last, and on Tab from the last element, moving to the first.
   */
  lemma TrapWrapsExactly<E>(focusable: seq<E>, active: Option<E>, e: KeyPress)
    ensures TrapKeyDown(focusable, active, e).PreventAndFocus? <==>
      e.key == "Tab" && |focusable| > 0 &&
      active == Some(if e.shiftKey then focusable[0] else focusable[|focusable| - 1])
    ensures TrapKeyDown(focusable, active, e).PreventAndFocus? ==>
      TrapKeyDown(focusable, active, e).target ==
        (if e.shiftKey then focusable[|focusable| - 1] else focusable[0])
  {
  }

  /** Tab off the last element then Shift+Tab comes back to the last element. */
  lemma TabThenShiftTabReturns<E>(focusable: seq<E>)
    requires |focusable| > 0
    ensures
      var last := focusable[|focusable| - 1];
      var forward := TrapKeyDown(focusable, Some(last), KeyPress("Tab", false));
      forward == PreventAndFocus(focusable[0]) &&
      TrapKeyDown(focusable, Some(forward.target), KeyPress("Tab", true)) == PreventAndFocus(last)
  {
  }

  // ---- Keyboard activation

  /** What the activation listener does with a key: prevent the default action and activate, or nothing. */
  datatype Activation = Activation(preventDefault: bool, activate: bool)

  /** `handleKeyboardActivation`'s listener. */
  function KeyboardActivation(key: string): (r: Activation)
    ensures r.activate <==> key == "Enter" || key == " "
    ensures r.preventDefault == r.activate
  {
    if key == "Enter" || key == " " then Activation(true, true) else Activation(false, false)
  }

  // ---- Viewport visibility

  /** The part of the bounding rectangle `isElementInViewport` reads. */
  datatype Rect = Rect(top: real, bottom: real, height: real)

  function Min(a: real, b: real): real { if a <= b then a else b }
  function Max(a: real, b: real): real { if a >= b then a else b }

  /** The height of the part of the element between the top of the viewport and `innerHeight`. */
  function VisibleHeight(rect: Rect, innerHeight: real): (v: real)
    ensures v >= 0.0
    ensures v <= rect.bottom - rect.top || v == 0.0
    ensures innerHeight >= 0.0 ==> v <= innerHeight
  {
    Max(0.0, Min(rect.bottom, innerHeight) - Max(rect.top, 0.0))
  }

  /** The visible fraction of the element; an element with no height counts as not visible at all. */
  function VisibleRatio(rect: Rect, innerHeight: real): (r: real)
    ensures r >= 0.0
    ensures rect.height <= 0.0 ==> r == 0.0
    ensures rect.height > 0.0 ==> r * rect.height == VisibleHeight(rect, innerHeight)
  {
    if rect.height > 0.0 then VisibleHeight(rect, innerHeight) / rect.height else 0.0
  }

  /** `isElementInViewport`: at least `threshold` of the element is visible. */
  function InViewport(rect: Rect, innerHeight: real, threshold: real): (v: bool)
    ensures threshold <= 0.0 ==> v
    ensures rect.height <= 0.0 ==> (v <==> threshold <= 0.0)
  {
    VisibleRatio(rect, innerHeight) >= threshold
  }

  /**
   * For a rectangle whose height is its extent, the ratio is at most 1, is 1
   * exactly when the element lies wholly inside the viewport, and is 0 when
   * it lies wholly above or below it.
   */
  lemma RatioBounds(rect: Rect, innerHeight: real)
    requires rect.height == rect.bottom - rect.top && rect.height > 0.0
    ensures VisibleRatio(rect, innerHeight) <= 1.0
    ensures VisibleRatio(rect, innerHeight) == 1.0 <==> 0.0 <= rect.top && rect.bottom <= innerHeight
    ensures rect.bottom <= 0.0 || innerHeight <= rect.top ==> VisibleRatio(rect, innerHeight) == 0.0
  {
    var v := VisibleHeight(rect, innerHeight);
    assert v <= rect.height;
    assert v == rect.height <==> 0.0 <= rect.top && rect.bottom <= innerHeight;
    assert rect.bottom <= 0.0 || innerHeight <= rect.top ==> v == 0.0;
    RatioOfParts(v, rect.height);
  }

  /** For a part `v` of a positive whole `h`, `v / h` is at most 1, and is 1 or 0 exactly when `v` is `h` or 0. */
  lemma RatioOfParts(v: real, h: real)
    requires 0.0 <= v <= h && h > 0.0
    ensures v / h <= 1.0
    ensures v / h == 1.0 <==> v == h
    ensures v / h == 0.0 <==> v == 0.0
  {
    var r := v / h;
    assert r * h == v;
    assert (1.0 - r) * h == h - v;
    SignOfProduct(1.0 - r, h);
    SignOfProduct(r, h);
  }

  lemma SignOfProduct(a: real, h: real)
    requires h > 0.0
    ensures a * h >= 0.0 ==> a >= 0.0
    ensures a * h == 0.0 ==> a == 0.0
  {
  }

  /** Raising the threshold can only turn a visible verdict into an invisible one. */
  lemma ThresholdMonotone(rect: Rect, innerHeight: real, low: real, high: real)
    requires low <= high && InViewport(rect, innerHeight, high)
    ensures InViewport(rect, innerHeight, low)
  {
  }
}
