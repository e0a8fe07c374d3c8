/**
 * The accessibility settings panel: a reduced-motion override that is
 * unset (follow the system), on or off; a three-step font size; a
 * high-contrast switch; and reset. Each setting is reflected in the
 * document root's class list and persisted under its own storage key.
 */
module AccessibilityControls {
  import opened Common

  const MotionKey := "pref-reduced-motion"
  const FontSizeKey := "pref-font-size"
  const HighContrastKey := "pref-high-contrast"

  const ReducedMotionClass := "reduced-motion"
  const HighContrastClass := "high-contrast"
  const FontClasses := {"text-base", "text-lg", "text-xl"}

  /** `toString` of a boolean. */
  function BoolString(b: bool): string
  {
    if b then "true" else "false"
  }

  /** The stored string is read as true only when it is exactly "true". */
  function StoredFlag(storage: map<string, string>, key: string): (b: bool)
    ensures b <==> key in storage && storage[key] == "true"
  {
    key in storage && storage[key] == "true"
  }

  /** `userReducedMotion ?? systemReducedMotion`. */
  function Effective(user: Option<bool>, system: bool): (reduce: bool)
    ensures user.Some? ==> reduce == user.value
    ensures user.None? ==> reduce == system
  {
    match user
      case Some(b) => b
      case None => system
  }

  /** The switch: unset becomes on, otherwise the override flips. */
  function ToggleMotion(user: Option<bool>): (r: Option<bool>)
    ensures r.Some?
    ensures user.Some? ==> r.value == !user.value
    ensures user.None? ==> r.value
  {
    match user
      case None => Some(true)
      case Some(b) => Some(!b)
  }

  /** normal, large, xl, then back to normal; anything else goes to normal. */
  function NextFontSize(size: string): (r: string)
    ensures r in {"normal", "large", "xl"}
    ensures r == "large" <==> size == "normal"
    ensures r == "xl" <==> size == "large"
  {
    if size == "normal" then "large"
    else if size == "large" then "xl"
    else "normal"
  }

  /** The root font class for a size: large and xl get their own, every other size the base one. */
  function FontClass(size: string): (c: string)
    ensures c in FontClasses
    ensures c == "text-base" <==> size != "large" && size != "xl"
    ensures c == "text-lg" <==> size == "large"
    ensures c == "text-xl" <==> size == "xl"
  {
    match size
      case "large" => "text-lg"
      case "xl" => "text-xl"
      case _ => "text-base"
  }

  /** The caption under the reduced-motion switch: it names the override when set, else the system setting it follows. */
  function MotionCaption(user: Option<bool>, system: bool): (c: string)
    ensures c in {"Enabled", "System: On"} <==> Effective(user, system)
    ensures c in {"System: On", "System: Off"} <==> user.None?
    ensures c in {"Enabled", "Disabled", "System: On", "System: Off"}
    ensures user == Some(false) ==> c == "Disabled"
  {
    match user
      case None => if system then "System: On" else "System: Off"
      case Some(b) => if b then "Enabled" else "Disabled"
  }

  /** The initial override: unset only without a window, otherwise the stored flag. */
  function InitialUserReducedMotion(windowPresent: bool, storage: map<string, string>): (r: Option<bool>)
    ensures r.None? <==> !windowPresent
    ensures windowPresent ==> r.value == StoredFlag(storage, MotionKey)
  {
    if !windowPresent then None else Some(StoredFlag(storage, MotionKey))
  }

  /** The initial font size: the stored one unless missing or empty. */
  function InitialFontSize(windowPresent: bool, storage: map<string, string>): (r: string)
    ensures r != ""
    ensures windowPresent && FontSizeKey in storage && storage[FontSizeKey] != "" ==> r == storage[FontSizeKey]
    ensures !(windowPresent && FontSizeKey in storage && storage[FontSizeKey] != "") ==> r == "normal"
  {
    if !windowPresent then "normal"
    else if FontSizeKey in storage && storage[FontSizeKey] != "" then storage[FontSizeKey]
    else "normal"
  }

  /** The initial contrast flag: on only in a browser whose storage holds "true". */
  function InitialHighContrast(windowPresent: bool, storage: map<string, string>): (r: bool)
    ensures r <==> windowPresent && StoredFlag(storage, HighContrastKey)
  {
    windowPresent && StoredFlag(storage, HighContrastKey)
  }

  /** The root class list after the three effects have run. */
  function Applied(classes: set<string>, reduce: bool, size: string, highContrast: bool): (r: set<string>)
    ensures ReducedMotionClass in r <==> reduce
    ensures HighContrastClass in r <==> highContrast
    ensures FontClass(size) in r
  {
    var motion := if reduce then classes + {ReducedMotionClass} else classes - {ReducedMotionClass};
    var font := motion - FontClasses + {FontClass(size)};
    if highContrast then font + {HighContrastClass} else font - {HighContrastClass}
  }

  /** The storage after the three save effects have run. */
  function Saved(storage: map<string, string>, user: Option<bool>, size: string, highContrast: bool): (r: map<string, string>)
    ensures FontSizeKey in r && r[FontSizeKey] == size
    ensures HighContrastKey in r && r[HighContrastKey] == BoolString(highContrast)
    ensures user.Some? ==> MotionKey in r && r[MotionKey] == BoolString(user.value)
  {
    var motion := if user.Some? then storage[MotionKey := BoolString(user.value)] else storage;
    motion[FontSizeKey := size][HighContrastKey := BoolString(highContrast)]
  }

  /** The class list reflects the preferences: one font class, and the two flags. */
  ghost predicate Reflects(classes: set<string>, reduce: bool, size: string, highContrast: bool)
  {
    (ReducedMotionClass in classes <==> reduce) &&
    (HighContrastClass in classes <==> highContrast) &&
    classes * FontClasses == {FontClass(size)}
  }

  /** Every setting that is set is stored as the value it would be read back as. */
  ghost predicate Persists(storage: map<string, string>, user: Option<bool>, size: string, highContrast: bool)
  {
    (user.Some? ==> MotionKey in storage && storage[MotionKey] == BoolString(user.value)) &&
    FontSizeKey in storage && storage[FontSizeKey] == size &&
    HighContrastKey in storage && storage[HighContrastKey] == BoolString(highContrast)
  }

  /** The effects leave exactly one font class, and every class they do not own as it was. */
  lemma AppliedReflects(classes: set<string>, reduce: bool, size: string, highContrast: bool)
    ensures Reflects(Applied(classes, reduce, size, highContrast), reduce, size, highContrast)
    ensures Applied(classes, reduce, size, highContrast) - {ReducedMotionClass, HighContrastClass} - FontClasses
         == classes - {ReducedMotionClass, HighContrastClass} - FontClasses
  {
    var r := Applied(classes, reduce, size, highContrast);
    assert FontClass(size) in r;
    assert r * FontClasses == {FontClass(size)};
  }

  /** The save effects write only their own keys; an unset override leaves the stored one as it was. */
  lemma SavedPersists(storage: map<string, string>, user: Option<bool>, size: string, highContrast: bool)
    ensures Persists(Saved(storage, user, size, highContrast), user, size, highContrast)
    ensures forall k :: k in storage && k !in {MotionKey, FontSizeKey, HighContrastKey} ==>
      k in Saved(storage, user, size, highContrast) && Saved(storage, user, size, highContrast)[k] == storage[k]
    ensures forall k :: k in Saved(storage, user, size, highContrast) && k !in {MotionKey, FontSizeKey, HighContrastKey} ==>
      k in storage
    ensures user.None? ==> (MotionKey in Saved(storage, user, size, highContrast) <==> MotionKey in storage)
    ensures user.None? && MotionKey in storage ==> Saved(storage, user, size, highContrast)[MotionKey] == storage[MotionKey]
  {
  }

  /**
   * Reloading restores what was persisted: a set override, the font size
   * and the contrast flag read back as they were.
   */
  lemma ReloadRestores(storage: map<string, string>, user: Option<bool>, size: string, highContrast: bool)
    requires Persists(storage, user, size, highContrast) && size != ""
    ensures user.Some? ==> InitialUserReducedMotion(true, storage) == user
    ensures InitialFontSize(true, storage) == size
    ensures InitialHighContrast(true, storage) == highContrast
  {
  }

  /** An unset override is never written, so a reload brings back the last stored one. */
  lemma ResetOverrideNotPersisted(storage: map<string, string>, size: string, highContrast: bool)
    ensures InitialUserReducedMotion(true, Saved(storage, None, size, highContrast))
         == InitialUserReducedMotion(true, storage)
  {
  }

  /** Three steps bring every size in the cycle back to itself. */
  lemma FontSizeCycle(size: string)
    ensures size in {"normal", "large", "xl"} ==> NextFontSize(NextFontSize(NextFontSize(size))) == size
    ensures size !in {"normal", "large", "xl"} ==> NextFontSize(size) == "normal"
  {
  }

  /**
   * Toggling a set override flips the effective setting; toggling an unset
   * one turns reduced motion on, which changes nothing when the system
   * already asks for it.
   */
  lemma ToggleEffect(user: Option<bool>, system: bool)
    ensures user.Some? ==> Effective(ToggleMotion(user), system) == !Effective(user, system)
    ensures user.None? ==> Effective(ToggleMotion(user), system)
    ensures user.None? && system ==> Effective(ToggleMotion(user), system) == Effective(user, system)
    ensures ToggleMotion(ToggleMotion(user)) == (if user.None? then Some(false) else user)
  {
  }

  /**
   * The panel's state: whether it is open, the system flag, the three
   * preferences, the document root's class list and the storage.
   */
  class Panel {
    var isOpen: bool
    var system: bool
    var userReducedMotion: Option<bool>
    var fontSize: string
    var highContrast: bool
    var rootClasses: set<string>
    var storage: map<string, string>

    ghost predicate Valid()
      reads this
    {
      Reflects(rootClasses, Effective(userReducedMotion, system), fontSize, highContrast) &&
      Persists(storage, userReducedMotion, fontSize, highContrast)
    }

    /** The effects: the class list and the storage follow the current preferences. */
    method ApplyEffects()
      modifies this
      ensures Valid()
      ensures rootClasses == Applied(old(rootClasses), Effective(userReducedMotion, system), fontSize, highContrast)
      ensures storage == Saved(old(storage), userReducedMotion, fontSize, highContrast)
      ensures isOpen == old(isOpen) && system == old(system) && userReducedMotion == old(userReducedMotion)
      ensures fontSize == old(fontSize) && highContrast == old(highContrast)
    {
      AppliedReflects(rootClasses, Effective(userReducedMotion, system), fontSize, highContrast);
      SavedPersists(storage, userReducedMotion, fontSize, highContrast);
      if Effective(userReducedMotion, system) {
        rootClasses := rootClasses + {ReducedMotionClass};
      } else {
        rootClasses := rootClasses - {ReducedMotionClass};
      }
      rootClasses := rootClasses - FontClasses;
      rootClasses := rootClasses + {FontClass(fontSize)};
      if highContrast {
        rootClasses := rootClasses + {HighContrastClass};
      } else {
        rootClasses := rootClasses - {HighContrastClass};
      }
      if userReducedMotion.Some? {
        storage := storage[MotionKey := BoolString(userReducedMotion.value)];
      }
      storage := storage[FontSizeKey := fontSize];
      storage := storage[HighContrastKey := BoolString(highContrast)];
    }

    /** Mounting in a browser: preferences read from storage, then the effects run. */
    constructor (stored: map<string, string>, classes: set<string>, systemReducedMotion: bool)
      ensures Valid() && !isOpen && system == systemReducedMotion
      ensures userReducedMotion == InitialUserReducedMotion(true, stored)
      ensures fontSize == InitialFontSize(true, stored)
      ensures highContrast == InitialHighContrast(true, stored)
      ensures rootClasses == Applied(classes, Effective(userReducedMotion, system), fontSize, highContrast)
      ensures storage == Saved(stored, userReducedMotion, fontSize, highContrast)
    {
      isOpen := false;
      system := systemReducedMotion;
      userReducedMotion := InitialUserReducedMotion(true, stored);
      fontSize := InitialFontSize(true, stored);
      highContrast := InitialHighContrast(true, stored);
      rootClasses := classes;
      storage := stored;
      new;
      ApplyEffects();
    }

    method ToggleOpen()
      modifies this
      ensures isOpen == !old(isOpen)
      ensures system == old(system) && userReducedMotion == old(userReducedMotion)
      ensures fontSize == old(fontSize) && highContrast == old(highContrast)
      ensures rootClasses == old(rootClasses) && storage == old(storage)
    {
      isOpen := !isOpen;
    }

    /** `toggleReducedMotion`. */
    method ToggleReducedMotion()
      modifies this
      ensures Valid()
      ensures rootClasses == Applied(old(rootClasses), Effective(userReducedMotion, system), fontSize, highContrast)
      ensures storage == Saved(old(storage), userReducedMotion, fontSize, highContrast)
      ensures userReducedMotion == ToggleMotion(old(userReducedMotion))
      ensures fontSize == old(fontSize) && highContrast == old(highContrast) && system == old(system)
      ensures isOpen == old(isOpen)
    {
      userReducedMotion := ToggleMotion(userReducedMotion);
      ApplyEffects();
    }

    /** `cycleFontSize`. */
    method CycleFontSize()
      modifies this
      ensures Valid()
      ensures rootClasses == Applied(old(rootClasses), Effective(userReducedMotion, system), fontSize, highContrast)
      ensures storage == Saved(old(storage), userReducedMotion, fontSize, highContrast)
      ensures fontSize == NextFontSize(old(fontSize))
      ensures userReducedMotion == old(userReducedMotion) && highContrast == old(highContrast)
      ensures system == old(system) && isOpen == old(isOpen)
    {
      fontSize := NextFontSize(fontSize);
      ApplyEffects();
    }

    /** `toggleHighContrast`. */
    method ToggleHighContrast()
      modifies this
      ensures Valid()
      ensures rootClasses == Applied(old(rootClasses), Effective(userReducedMotion, system), fontSize, highContrast)
      ensures storage == Saved(old(storage), userReducedMotion, fontSize, highContrast)
      ensures highContrast == !old(highContrast)
      ensures userReducedMotion == old(userReducedMotion) && fontSize == old(fontSize)
      ensures system == old(system) && isOpen == old(isOpen)
    {
      highContrast := !highContrast;
      ApplyEffects();
    }

    /** Reset to defaults: the override is unset, so the stored one is left as it was. */
    method Reset()
      modifies this
      ensures Valid()
      ensures rootClasses == Applied(old(rootClasses), Effective(userReducedMotion, system), fontSize, highContrast)
      ensures storage == Saved(old(storage), userReducedMotion, fontSize, highContrast)
      ensures userReducedMotion.None? && fontSize == "normal" && !highContrast
      ensures (ReducedMotionClass in rootClasses) == system
      ensures MotionKey in storage <==> MotionKey in old(storage)
      ensures MotionKey in storage ==> storage[MotionKey] == old(storage)[MotionKey]
      ensures system == old(system) && isOpen == old(isOpen)
    {
      userReducedMotion := None;
      fontSize := "normal";
      highContrast := false;
      ApplyEffects();
    }

    /** The system setting changed (the media query fired). */
    method SetSystemReducedMotion(reduce: bool)
      requires Valid()
      modifies this
      ensures Valid()
      ensures rootClasses == Applied(old(rootClasses), Effective(userReducedMotion, system), fontSize, highContrast)
      ensures storage == Saved(old(storage), userReducedMotion, fontSize, highContrast)
      ensures system == reduce
      ensures userReducedMotion == old(userReducedMotion) && fontSize == old(fontSize)
      ensures highContrast == old(highContrast) && isOpen == old(isOpen)
      ensures userReducedMotion.Some? ==> (ReducedMotionClass in rootClasses) == (ReducedMotionClass in old(rootClasses))
    {
      system := reduce;
      ApplyEffects();
    }
  }
}
