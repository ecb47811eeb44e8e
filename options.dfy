/** Option maps: the static defaults, the merge `Object.assign({}, defaults,
    options)` and the translation `updateOptions` performs on a map before it
    reaches the widget. */
module Options {
  import opened Values

  /** The two builds of the component differ only in the default theme. */
  datatype Build = Source | Distribution

  /** The static `AceEditor.options` a build starts with. */
  function Defaults(build: Build): (m: map<string, Value>)
    ensures m.Keys == {"showPrintMargin", "beautify", "mode", "theme"}
    ensures m["showPrintMargin"] == Bool(false) && m["beautify"] == Bool(true)
    ensures m["mode"] == Str("javascript")
    ensures m["theme"] == Str(if build == Source then "monokai" else "textmate")
  {
    map["showPrintMargin" := Bool(false), "beautify" := Bool(true), "mode" := Str("javascript"),
        "theme" := Str(if build == Source then "monokai" else "textmate")]
  }

  /** A JavaScript object used as a dictionary: shared by reference and changed
      in place. */
  class OptionMap {
    var entries: map<string, Value>

    constructor (entries: map<string, Value>)
      ensures this.entries == entries
    {
      this.entries := entries;
    }

    /** `Object.assign(this, src)`: src's keys are written over this map's. */
    method Assign(src: map<string, Value>)
      modifies this
      ensures entries == Merge(old(entries), src)
    {
      entries := entries + src;
    }
  }

  /** Reading `m.key`: undefined when the key is absent. */
  function Get(m: map<string, Value>, key: string): Value {
    if key in m then m[key] else Undefined
  }

  /** `Object.assign({}, base, over)`: every key of either map, with over's
      value wherever over has the key. */
  function Merge(base: map<string, Value>, over: map<string, Value>): (r: map<string, Value>)
    ensures r.Keys == base.Keys + over.Keys
    ensures forall k :: k in over ==> r[k] == over[k]
    ensures forall k :: k in base && k !in over ==> r[k] == base[k]
  {
    base + over
  }

  /** The keys the widget never sees. */
  const ComponentOnlyKeys: set<string> := {"beautify", "lint"}

  /** The worker flag `updateOptions` gives the widget's session: on exactly
      when the map has a truthy `lint`. */
  predicate WorkerFlag(m: map<string, Value>)
    ensures WorkerFlag(m) <==> "lint" in m && Truthy(m["lint"])
  {
    Truthy(Get(m, "lint"))
  }

  /** `if (m.key) m.key = prefix + m.key`, as a value. */
  function Prefixed(ext: Externals, m: map<string, Value>, key: string, prefix: string): map<string, Value> {
    if Truthy(Get(m, key)) then m[key := Str(prefix + ToText(ext, m[key]))] else m
  }

  /** The map `updateOptions` leaves behind and hands to the widget. */
  function Translate(ext: Externals, m: map<string, Value>): (r: map<string, Value>)
    ensures r.Keys == m.Keys - ComponentOnlyKeys
    ensures forall k :: k in r && k != "mode" && k != "theme" ==> r[k] == m[k]
    ensures "mode" in r ==> r["mode"] == if Truthy(m["mode"]) then Str("ace/mode/" + ToText(ext, m["mode"])) else m["mode"]
    ensures "theme" in r ==> r["theme"] == if Truthy(m["theme"]) then Str("ace/theme/" + ToText(ext, m["theme"])) else m["theme"]
  {
    Prefixed(ext, Prefixed(ext, m, "mode", "ace/mode/"), "theme", "ace/theme/") - ComponentOnlyKeys
  }

  /** Translating a map a second time prefixes mode and theme a second time. */
  lemma TranslateTwicePrefixesTwice(ext: Externals, m: map<string, Value>, mode: string, theme: string)
    requires "mode" in m && m["mode"] == Str(mode) && mode != []
    requires "theme" in m && m["theme"] == Str(theme) && theme != []
    ensures Translate(ext, Translate(ext, m))["mode"] == Str("ace/mode/ace/mode/" + mode)
    ensures Translate(ext, Translate(ext, m))["theme"] == Str("ace/theme/ace/theme/" + theme)
  {
  }

  /** Merging a partial map over a build's defaults and translating it, as the
      widget then sees it: mode and theme come from the partial map when it has
      them and from the defaults otherwise, both prefixed, and the two
      component-only keys are gone. */
  lemma MergedDefaultsTranslated(ext: Externals, build: Build, over: map<string, Value>, mode: string, theme: string)
    requires Get(Merge(Defaults(build), over), "mode") == Str(mode) && mode != []
    requires Get(Merge(Defaults(build), over), "theme") == Str(theme) && theme != []
    ensures Translate(ext, Merge(Defaults(build), over))["mode"] == Str("ace/mode/" + mode)
    ensures Translate(ext, Merge(Defaults(build), over))["theme"] == Str("ace/theme/" + theme)
    ensures "mode" !in over ==> mode == "javascript"
    ensures ComponentOnlyKeys !! Translate(ext, Merge(Defaults(build), over)).Keys
  {
  }
}
