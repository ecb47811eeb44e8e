/** The `AceEditor` custom element: its class-level state (default options and
    the id counter), its instance state (bound value, widget, options) and the
    lifecycle and synchronisation methods that update them. The widget is a
    record of the three things the component changes in it. */
module Editor {
  import opened Values
  import opened Text
  import opened Indentation
  import opened Formatting
  import opened Options

  /** What the component sets in the Ace widget: the text buffer (exactly the
      value last pushed), the session's worker flag, and the option map last
      handed to `editor.setOptions`. */
  datatype Widget = Widget(buffer: Value, useWorker: bool, lastOptions: map<string, Value>)

  /** The widget after `updateOptions` has applied the map m to it. */
  function Configured(ext: Externals, w: Widget, m: map<string, Value>): Widget {
    w.(useWorker := WorkerFlag(m), lastOptions := Translate(ext, m))
  }

  /** `"ace-editor-" + this._uid`: the fixed prefix followed by the uid's
      decimal digits. */
  function ElementId(uid: nat): (id: string)
    ensures |id| > 11 && id[..11] == "ace-editor-" && id[11..] == Decimal(uid)
  {
    "ace-editor-" + Decimal(uid)
  }

  /** Distinct uids give distinct element ids: the digits after the prefix
      read back as the uid. */
  lemma ElementIdInjective(a: nat, b: nat)
    requires ElementId(a) == ElementId(b)
    ensures a == b
  {
    DecimalInjective(a, b);
  }

  /** `_parseValue(obj)` run against the instance's options (None for null):
      objects are serialised, and the beautifier runs only when the options
      map has a truthy `beautify`. */
  function ParseValue(ext: Externals, options: Option<map<string, Value>>, obj: Value): (r: Result<Value>)
    ensures options.None? <==> r == Err(ReadOfNull("beautify"))
    ensures options.Some? && "beautify" !in options.value ==> r == Ok(SerializeObjects(ext, obj))
  {
    var serialized := SerializeObjects(ext, obj);
    match options
    case None => Err(ReadOfNull("beautify"))
    case Some(o) =>
      if Truthy(Get(o, "beautify")) then Beautify(ext, serialized, Get(o, "mode")) else Ok(serialized)
  }

  /** The class-level state shared by every instance: the static `options`
      object (never replaced, only changed in place) and the static `uid`. */
  class AceEditorStatics {
    const options: OptionMap
    var uid: nat

    constructor (build: Build)
      ensures fresh(options) && options.entries == Defaults(build)
      ensures uid == 1
    {
      options := new OptionMap(Defaults(build));
      uid := 1;
    }

    /** Static `setOptions(options)`: the given keys are written into the shared
        defaults in place. */
    method SetOptions(m: map<string, Value>)
      modifies options
      ensures options.entries == Merge(old(options.entries), m)
    {
      options.Assign(m);
    }
  }

  class AceEditor {
    const statics: AceEditorStatics
    const ext: Externals
    /** The host element's `innerHTML`. */
    var innerHTML: string
    /** `this._uid`. */
    var uid: nat
    /** `this.id`, also written to the element's id attribute; None until attached. */
    var id: Option<string>
    /** The bound `value`. */
    var value: Value
    /** `this.editor`; None stands for null. */
    var editor: Option<Widget>
    /** `this.options`. */
    var options: OptionMap?

    /** Facts every method keeps, even between the statements of attached. */
    ghost predicate Consistent()
      reads this
    {
      && (options != null ==> options != statics.options)
      && (editor.Some? ==> id == Some(ElementId(uid)))
    }

    /** The instance invariant: once a widget exists, the instance's own options
        map has lost its `beautify` key, so from then on `_parseValue` either
        reads `beautify` of null or returns the value with objects serialised,
        never beautified. */
    ghost predicate Valid()
      reads this, options
      ensures Valid() && editor.Some? ==> forall v ::
        ParseValue(ext, CurrentOptions(), v) == if options == null then Err(ReadOfNull("beautify")) else Ok(SerializeObjects(ext, v))
    {
      && Consistent()
      && (editor.Some? && options != null ==> "beautify" !in options.entries)
    }

    /** The options `_parseValue` reads: None when `this.options` is null. */
    function CurrentOptions(): Option<map<string, Value>>
      reads this, options
    {
      if options == null then None else Some(options.entries)
    }

    /** `new AceEditor(element)`: the field initialisers, then `++AceEditor.uid`. */
    constructor (statics: AceEditorStatics, ext: Externals, innerHTML: string)
      modifies statics
      ensures this.statics == statics && this.ext == ext && this.innerHTML == innerHTML
      ensures statics.uid == old(statics.uid) + 1 && uid == statics.uid
      ensures value == Str([]) && id == None && editor == None && options == null
      ensures Valid()
    {
      this.statics := statics;
      this.ext := ext;
      this.innerHTML := innerHTML;
      value := Str([]);
      id := None;
      editor := None;
      options := null;
      new;
      statics.uid := statics.uid + 1;
      uid := statics.uid;
    }

    /** `attached()`: set the element id, dedent and trim inline content when
        no value is bound, get the widget (`ace.edit` creates it from the
        element's text the first time and returns the same one on every later
        call), apply the options (this.options, or a copy of the defaults when
        it is null) and push a truthy value. */
    method Attached() returns (thrown: Option<JsError>)
      requires Valid()
      modifies this, options
      ensures Valid()
      ensures uid == old(uid) && options == old(options) && id == Some(ElementId(uid))
      ensures innerHTML ==
        if !Truthy(old(value)) && old(innerHTML) != [] then Trim(Dedent(old(innerHTML))) else old(innerHTML)
      ensures var applied := if old(options) == null then statics.options.entries else old(options.entries);
        && editor.Some?
        && editor.value.useWorker == WorkerFlag(applied)
        && editor.value.lastOptions == Translate(ext, applied)
        && (options != null ==> options.entries == Translate(ext, applied))
      ensures var kept := if old(editor).Some? then old(editor).value.buffer else Str(ext.textContent(innerHTML));
        && (!Truthy(old(value)) ==> thrown == None && value == old(value) && editor.value.buffer == kept)
        && (Truthy(old(value)) && old(options) == null ==>
              thrown == Some(ReadOfNull("beautify")) && value == old(value) && editor.value.buffer == kept)
      ensures Truthy(old(value)) && old(options) != null ==>
        thrown == None && value == SerializeObjects(ext, old(value)) && editor.value.buffer == value
    {
      id := Some(ElementId(uid));
      LoadInlineContent();
      if editor.None? {
        editor := Some(Widget(Str(ext.textContent(innerHTML)), false, map[]));
      }
      ApplyOptions();
      if Truthy(value) {
        thrown := ValueChanged(value);
      } else {
        thrown := None;
      }
    }

    /** `if (!this.value && this.element.innerHTML) this.element.innerHTML =
        dedent(this.element.innerHTML).trim()`. */
    method LoadInlineContent()
      modifies this`innerHTML
      ensures innerHTML ==
        if !Truthy(value) && old(innerHTML) != [] then Trim(Dedent(old(innerHTML))) else old(innerHTML)
    {
      if !Truthy(value) && innerHTML != [] {
        innerHTML := Trim(Dedent(innerHTML));
      }
    }

    /** `this.updateOptions(this.options || Object.assign({}, AceEditor.options))`:
        the instance's own map is translated in place, or else a copy of the
        defaults is, and the widget receives it. */
    method ApplyOptions()
      requires Consistent() && editor.Some?
      modifies this`editor, options
      ensures Valid()
      ensures var applied := if options == null then statics.options.entries else old(options.entries);
        && editor == Some(Configured(ext, old(editor).value, applied))
        && CurrentOptions() == if options == null then None else Some(Translate(ext, applied))
    {
      if options != null {
        UpdateOptions(options);
      } else {
        var copy := new OptionMap(statics.options.entries);  // Object.assign({}, AceEditor.options)
        UpdateOptions(copy);
      }
    }

    /** `setValue(v)`: store v, synchronise, return this. */
    method SetValue(v: Value) returns (r: Result<AceEditor>)
      requires Valid()
      modifies this`value, this`editor
      ensures Valid()
      ensures old(editor).None? ==> r == Ok(this) && value == v && editor == None
      ensures old(editor).Some? ==>
        match ParseValue(ext, CurrentOptions(), v)
        case Ok(p) => r == Ok(this) && value == p && editor == Some(old(editor).value.(buffer := p))
        case Err(e) => r == Err(e) && value == v && editor == old(editor)
    {
      value := v;
      var thrown := ValueChanged(v);
      r := if thrown.None? then Ok(this) else Err(thrown.value);
    }

    /** `getValue()`: the widget's buffer; throws while there is no widget. */
    method GetValue() returns (r: Result<Value>)
      ensures editor.None? ==> r == Err(ReadOfNull("getValue"))
      ensures editor.Some? ==> r == Ok(editor.value.buffer)
    {
      if editor.None? {
        r := Err(ReadOfNull("getValue"));
      } else {
        r := Ok(editor.value.buffer);
      }
    }

    /** `valueChanged(newValue)`: ignores its argument; with a widget, parses the
        stored value, stores the result and pushes it into the buffer. */
    method ValueChanged(newValue: Value) returns (thrown: Option<JsError>)
      requires Valid()
      modifies this`value, this`editor
      ensures Valid()
      ensures old(editor).None? ==> thrown == None && value == old(value) && editor == None
      ensures old(editor).Some? ==>
        match ParseValue(ext, CurrentOptions(), old(value))
        case Ok(v) => thrown == None && value == v && editor == Some(old(editor).value.(buffer := v))
        case Err(e) => thrown == Some(e) && value == old(value) && editor == old(editor)
    {
      if editor.Some? {
        var parsed := ParseValue(ext, CurrentOptions(), value);
        match parsed
        case Ok(v) =>
          value := v;
          editor := Some(editor.value.(buffer := v));
          thrown := None;
        case Err(e) =>
          thrown := Some(e);
      } else {
        thrown := None;
      }
    }

    /** Instance `setOptions(m)`: a fresh map with m's keys over the static
        defaults becomes this.options, is applied, and this is returned. */
    method SetOptions(m: map<string, Value>) returns (self: AceEditor)
      requires Valid()
      modifies this`options, this`editor
      ensures Valid()
      ensures self == this && options != null && fresh(options)
      ensures statics.options.entries == old(statics.options.entries)
      ensures var merged := Merge(statics.options.entries, m);
        if old(editor).Some?
        then options.entries == Translate(ext, merged) && editor == Some(Configured(ext, old(editor).value, merged))
        else options.entries == merged && editor == None
    {
      var merged := new OptionMap(Merge(statics.options.entries, m));
      options := merged;
      UpdateOptions(merged);
      self := this;
    }

    /** `updateOptions(m)`: nothing without a widget; otherwise set the worker
        flag from `lint`, prefix mode and theme, delete `beautify` and `lint`
        from m in place and hand m to the widget. The property writes and
        deletes are made on a copy of m's entries, which then replaces them:
        m stays the object every holder of it sees. */
    method UpdateOptions(m: OptionMap)
      requires Consistent()
      requires editor.Some? && options != null && options != m ==> "beautify" !in options.entries
      modifies this`editor, m
      ensures Valid()
      ensures old(editor).None? ==> editor == None && m.entries == old(m.entries)
      ensures old(editor).Some? ==>
        && editor == Some(Configured(ext, old(editor).value, old(m.entries)))
        && m.entries == Translate(ext, old(m.entries))
    {
      if editor.None? {
        return;
      }
      var w := editor.value.(useWorker := Truthy(Get(m.entries, "lint")));
      var entries := m.entries;
      if Truthy(Get(entries, "mode")) {
        entries := entries["mode" := Str("ace/mode/" + ToText(ext, entries["mode"]))];
      }
      if Truthy(Get(entries, "theme")) {
        entries := entries["theme" := Str("ace/theme/" + ToText(ext, entries["theme"]))];
      }
      entries := entries - {"beautify"};
      entries := entries - {"lint"};
      assert entries == Translate(ext, m.entries);
      m.entries := entries;
      editor := Some(w.(lastOptions := m.entries));
    }
  }

  /** Without a `setOptions` call before `attached`, a truthy bound value makes
      `attached` read `beautify` of null. */
  method AttachedWithoutOptionsThrows(build: Build, ext: Externals, innerHTML: string, v: Value)
    returns (thrown: Option<JsError>)
    requires Truthy(v)
    ensures thrown == Some(ReadOfNull("beautify"))
  {
    var statics := new AceEditorStatics(build);
    var e := new AceEditor(statics, ext, innerHTML);
    var stored := e.SetValue(v);
    thrown := e.Attached();
  }

  /** Options asking for beautification, set before `attached`: the value still
      reaches the widget unformatted. */
  method BeautifyOptionNeverApplies(build: Build, ext: Externals, innerHTML: string, code: string)
    returns (shown: Result<Value>)
    requires code != []
    ensures shown == Ok(Str(code))
  {
    var statics := new AceEditorStatics(build);
    var e := new AceEditor(statics, ext, innerHTML);
    var self := e.SetOptions(map["beautify" := Bool(true), "mode" := Str("javascript")]);
    var stored := e.SetValue(Str(code));
    var thrown := e.Attached();
    shown := e.GetValue();
  }

  /** Attaching a second time keeps the widget, and with it the buffer read
      from the element's text the first time. */
  method ReattachKeepsBuffer(build: Build, ext: Externals, innerHTML: string)
    returns (first: Value, second: Value)
    ensures first == Str(ext.textContent(if innerHTML == [] then [] else Trim(Dedent(innerHTML))))
    ensures second == first
  {
    var statics := new AceEditorStatics(build);
    var e := new AceEditor(statics, ext, innerHTML);
    var thrown := e.Attached();
    first := e.editor.value.buffer;
    thrown := e.Attached();
    second := e.editor.value.buffer;
  }

  /** Attaching an instance whose options are already translated translates
      them once more: a second `attached` prefixes mode a second time. */
  method ReattachTranslatesAgain(e: AceEditor, mode: string) returns (shown: Value)
    requires e.Valid() && e.editor.Some? && e.options != null
    requires "mode" in e.options.entries && e.options.entries["mode"] == Str("ace/mode/" + mode)
    modifies e, e.options
    ensures shown == Str("ace/mode/ace/mode/" + mode)
  {
    var thrown := e.Attached();
    shown := e.editor.value.lastOptions["mode"];
  }

  /** A new instance, attached at once: it takes the next uid as its id. */
  method NewAttached(statics: AceEditorStatics, ext: Externals) returns (id: string)
    modifies statics
    ensures statics.uid == old(statics.uid) + 1 && id == ElementId(statics.uid)
  {
    var e := new AceEditor(statics, ext, []);
    var thrown := e.Attached();
    id := e.id.value;
  }

  /** The counter starts at 1 and is incremented before use: the first two
      instances get the element ids ace-editor-2 and ace-editor-3. */
  method FirstElementIds(build: Build, ext: Externals) returns (first: string, second: string)
    ensures first == "ace-editor-2" && second == "ace-editor-3"
  {
    var statics := new AceEditorStatics(build);
    first := NewAttached(statics, ext);
    second := NewAttached(statics, ext);
    assert Decimal(2) == "2" && Decimal(3) == "3";
  }
}
