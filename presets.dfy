/**
 * The caption presets: four named pairs of captions that a preset button
 * writes into the two caption inputs at once.
 */
module Presets {
  import opened Wrappers
  import opened Text

  datatype Preset = BeforeAfter | ExpectationReality | ThemUs | ThenNow

  /** The name a preset button carries in its `data-preset` attribute. */
  function Key(p: Preset): (k: string)
    ensures k !in ObjectPrototypeNames
  {
    match p
    case BeforeAfter => "before-after"
    case ExpectationReality => "expectation-reality"
    case ThemUs => "them-us"
    case ThenNow => "then-now"
  }

  /** The (caption 1, caption 2) pair a preset writes. */
  function Captions(p: Preset): (r: (string, string))
    ensures r.0 != [] && r.1 != []
    ensures IsTrimmed(r.0) && IsTrimmed(r.1)
  {
    match p
    case BeforeAfter => ("BEFORE", "AFTER")
    case ExpectationReality => ("EXPECTATION", "REALITY")
    case ThemUs => ("THEM", "US")
    case ThenNow => ("THEN", "NOW")
  }

  /**
   * Finds the preset a name denotes; `None` exactly when no preset has
   * that name, in which case applying it must change nothing.
   */
  function Lookup(name: string): (r: Option<Preset>)
    ensures r.Some? ==> Key(r.value) == name
    ensures r.None? <==> forall p: Preset :: Key(p) != name
  {
    if name == "before-after" then Some(BeforeAfter)
    else if name == "expectation-reality" then Some(ExpectationReality)
    else if name == "them-us" then Some(ThemUs)
    else if name == "then-now" then Some(ThenNow)
    else None
  }

  /** Distinct presets have distinct names, and each name looks up its own preset. */
  lemma KeyRoundTrip(p: Preset, q: Preset)
    ensures Lookup(Key(p)) == Some(p)
    ensures Key(p) == Key(q) ==> p == q
  {
  }

  /**
   * The properties every plain JavaScript object inherits from
   * `Object.prototype`; indexing the preset table with one of them yields a
   * truthy value (a function, or the prototype itself for `__proto__`).
   */
  const ObjectPrototypeNames: set<string> := {
    "constructor", "hasOwnProperty", "isPrototypeOf", "propertyIsEnumerable",
    "toLocaleString", "toString", "valueOf", "__proto__",
    "__defineGetter__", "__defineSetter__", "__lookupGetter__", "__lookupSetter__"
  }

  /**
   * The lookup as `presets[preset]` performs it: a preset name yields its
   * pair; an inherited property name passes the truthiness test, and
   * reading `.caption1`/`.caption2` of it gives `undefined`, which the
   * caption inputs store as the text "undefined"; any other name fails.
   */
  function LookupAsWritten(name: string): (r: Option<(string, string)>)
    ensures Lookup(name).Some? ==> r == Some(Captions(Lookup(name).value))
    ensures r.None? <==> Lookup(name).None? && name !in ObjectPrototypeNames
    ensures Lookup(name).None? && name in ObjectPrototypeNames ==> r == Some(("undefined", "undefined"))
  {
    match Lookup(name)
    case Some(p) => Some(Captions(p))
    case None => if name in ObjectPrototypeNames then Some(("undefined", "undefined")) else None
  }

  /**
   * A name that is no preset still overwrites both captions in the code as
   * written, while the corrected lookup leaves them alone.
   */
  lemma InheritedNameIsNotANoOp()
    ensures Lookup("toString").None?
    ensures LookupAsWritten("toString") == Some(("undefined", "undefined"))
  {
  }
}
