# AceEditor custom element — a Dafny model

The repository is one Aurelia custom element, `AceEditor` (`<ace>`). It embeds
the Ace code-editor widget and keeps the widget's text buffer in step with a
bound `value`. It also turns a small option map into Ace's option names. Three
files hold the same component: `src/ace.js`, where the default theme is
`monokai`, and the builds `dist/es6/ace.js` and `dist/system/ace.js`, where it
is `textmate`. One model serves all three. `Options.Build` selects the default
theme.

The model has six modules:

- `Values`: JavaScript values (`Value`), truthiness, the exceptions the
  component's own code can throw (`JsError`) and `Result`. The foreign functions it calls
  form `Externals`, a record of function-typed fields the model knows nothing
  about: js-beautify's `js_beautify` and `css_beautify`, `JSON.stringify`,
  `String(object)`, and the text the widget reads from the element.
- `Text`: `trim()` over the full ECMAScript whitespace set, and `split('\n')`
  with its inverse `join('\n')`.
- `Indentation`: the module-level helper `dedent`, as a pure function with
  lemmas.
- `Formatting`: `_beautify`, as a pure function with lemmas.
- `Options`: the default option map, the merge `Object.assign({}, defaults,
  options)`, and `Translate`, the map `updateOptions` leaves behind. A shared,
  mutable JavaScript object is the class `OptionMap`.
- `Editor`: the class-level state (`AceEditorStatics`: the static `options`
  object and the static `uid` counter) and the class `AceEditor`, with the
  fields `value`, `editor`, `options`, `_uid`, `id` and the element's
  `innerHTML`. The widget is the record `Widget(buffer, useWorker,
  lastOptions)`. `updateOptions` rewrites its argument map in place, and the
  model does the same. Each method is proved against the spec functions above.

The main invariant is `AceEditor.Valid()`. Once a widget exists, the
instance's own options map no longer has a `beautify` key. So `_parseValue`
either reads `beautify` of null (when `setOptions` was never called) or never
beautifies. The option's name suggests that a bound value is pretty-printed.
The code never does this: `updateOptions` deletes `beautify` from the very map
`_parseValue` reads later, and it also prefixes `mode` with `ace/mode/`, so no
language tag would match anyway. The model follows the code.
`BeautifyOptionNeverApplies` and `AttachedWithoutOptionsThrows` show both
outcomes.

## Model

| member | source | states |
|---|---|---|
| `Text.Trim` | src/ace.js:127 | `trim()` removes exactly the leading and trailing whitespace: the result is a contiguous piece of the input, everything cut off is whitespace, and the result neither starts nor ends with whitespace |
| `Text.Split` | src/ace.js:127 | `split('\n')` gives at least one piece, and no piece contains a newline |
| `Text.JoinSplit` | src/ace.js:127 | joining the pieces of `split('\n')` with newlines gives back the original string |
| `Text.SplitJoin` | dist/es6/ace.js:131 | splitting the newline-join of newline-free lines gives back the same lines |
| `Indentation.Dedent` | src/ace.js:148-158 | `dedent` never lengthens the text, and whenever it changes the text it shortens it; the lemmas below state what it does to each line |
| `Indentation.StripShortens` | src/ace.js:152-157 | removing the minimum indentation, when it is positive, makes the text strictly shorter |
| `Text.JoinShorter` | src/ace.js:156-157 | joining lines that are each no longer than their counterparts gives a text no longer than theirs, and a strictly shorter one when some line is strictly shorter |
| `Indentation.QualifiesIsMatch` | src/ace.js:149 | `Qualifies`, the test behind each match of `^[ \t]*(?=\S)`, holds exactly when some run of spaces and tabs at the line's start is followed by a non-whitespace character; that run is then the whole leading indentation |
| `Indentation.StripLine` | src/ace.js:156-157 | `^[ \t]{n}` on one line: the first n characters are removed exactly when the line has n characters and they are all spaces or tabs; otherwise the line is unchanged |
| `Indentation.StripLines` | src/ace.js:156-157 | the replace on every line: same number of lines, each line starting with at least n spaces and tabs loses exactly those n, every other line unchanged |
| `Indentation.LeadingIndent` | src/ace.js:149 | the `[ \t]*` run at the start of a line: all its characters are spaces or tabs, and the next character is neither |
| `Indentation.Matches` | src/ace.js:149-150 | the lengths of the matches of `^[ \t]*(?=\S)`: empty exactly when no line has a non-whitespace character after its indentation; every qualifying line's indentation is in it, and only those |
| `Indentation.Min` | src/ace.js:152-154 | `Math.min` over the matches is one of them and no larger than any |
| `Indentation.MinOfMatchesIsMinIndent` | dist/system/ace.js:13-18 | the `indent` dedent computes is the smallest indentation of any qualifying line, and some qualifying line has exactly that indentation |
| `Indentation.DedentByMinIndent` | src/ace.js:156-157 | with minimum indentation m, dedent returns the input when m is 0, and otherwise the lines with the `^[ \t]{m}` prefix removed |
| `Indentation.DedentUnchanged` | src/ace.js:149-157 | the input comes back unchanged when no line qualifies, or when some qualifying line is not indented |
| `Indentation.DedentUnchangedIff` | dist/es6/ace.js:153-161 | dedent changes its input if and only if some line qualifies and every qualifying line is indented |
| `Indentation.DedentLines` | src/ace.js:152-157 | with minimum indentation m: same number of lines; each line starting with at least m spaces and tabs loses exactly those m characters; every other line is unchanged; no other character is removed |
| `Indentation.DedentKeepsLineCount` | dist/es6/ace.js:152-162 | dedent never changes the number of lines |
| `Indentation.DedentIdempotent` | src/ace.js:148-158 | dedent is idempotent: after one application some qualifying line starts at column 0 |
| `Formatting.TrimLines` | src/ace.js:127 | code without a newline is trimmed as a whole; the general case is `TrimLinesPerLine` |
| `Formatting.TrimLinesPerLine` | src/ace.js:126-127 | the per-line trim keeps the number of lines, and line i of the result is line i of the input, trimmed |
| `Formatting.Beautify` | src/ace.js:124-144 | null exactly for falsy code; a truthy non-string has no `split` and throws; for a string, it fails exactly on the html/markup tags (`escapeHtml` is defined nowhere) and otherwise returns a string |
| `Formatting.BeautifyPassThrough` | dist/system/ace.js:162-183 | with any tag other than js, javascript, css, less, html and markup, the result is the input with every line trimmed: the same number of lines, each trimmed |
| `Formatting.BeautifyFormats` | dist/es6/ace.js:133-146 | js/javascript hand the line-trimmed code to the script formatter, css/less to the stylesheet formatter, and html/markup throw a ReferenceError for `escapeHtml` |
| `Values.Truthy` | src/ace.js:54-62 | `if (x)` takes the branch exactly when x is not one of undefined, null, false, 0 and "" (the tests at src/ace.js:54, 62, 78, 91, 93, 99-100, 112 and 125 all use it) |
| `Values.ToText` | src/ace.js:99-100 | `${x}` of a string is the string itself, and the text of a number reads back as that number (with a leading `-` when negative) |
| `Values.SerializeObjects` | src/ace.js:110 | a value whose `typeof` is "object" (including null) becomes a string; any other value is left alone |
| `Editor.ElementId` | src/ace.js:50 | the element id is the prefix `ace-editor-` followed by the uid's decimal digits |
| `Editor.ElementIdInjective` | src/ace.js:50 | distinct uids give distinct element ids `"ace-editor-" + uid` |
| `Options.Defaults` | dist/es6/ace.js:23-28 | the static defaults are exactly showPrintMargin false, beautify true, mode javascript, and theme monokai (source) or textmate (builds) |
| `Options.Merge` | src/ace.js:85 | `Object.assign({}, defaults, options)` has the keys of both, and the argument's value wins wherever it has the key |
| `Options.OptionMap.Assign` | dist/system/ace.js:53 | `Object.assign(target, src)` writes src's keys over the target in place |
| `Options.WorkerFlag` | src/ace.js:93-97 | the session's worker is turned on exactly when the map has a truthy `lint` |
| `Options.Translate` | src/ace.js:99-104 | the map handed to the widget keeps every key except beautify and lint; a truthy mode or theme gets the `ace/mode/` or `ace/theme/` prefix; a falsy one and every other key are forwarded unchanged |
| `Options.TranslateTwicePrefixesTwice` | src/ace.js:99-100 | translating the same map twice gives `ace/mode/ace/mode/…` and `ace/theme/ace/theme/…` |
| `Options.MergedDefaultsTranslated` | dist/es6/ace.js:89-108 | merging a partial map over the defaults and translating it takes mode and theme from the partial map or else from the defaults, prefixes both, and leaves out beautify and lint |
| `Editor.ParseValue` | src/ace.js:109-113 | `_parseValue` throws (reads beautify of null) exactly when `this.options` is null; with a map that has no beautify key, the result is the value with objects serialised and nothing beautified |
| `Editor.AceEditorStatics.constructor` | dist/system/ace.js:55-67 | the class starts with the build's defaults and the counter at 1 |
| `Editor.AceEditorStatics.SetOptions` | src/ace.js:26-28 | static `setOptions` merges the argument into the shared defaults in place, and the argument's keys win |
| `Editor.AceEditor.Valid` | src/ace.js:99-112 | once a widget exists, `this.options` is null or has no `beautify` key, so `_parseValue` either reads `beautify` of null or returns the value with objects serialised and nothing beautified |
| `Editor.AceEditor.constructor` | src/ace.js:30-43 | value "", editor null, options null; the shared counter goes up by one and the instance takes the new value, so each instance gets a larger uid |
| `Editor.AceEditor.Attached` | src/ace.js:49-65 | sets the id from the uid; dedents and trims innerHTML only when value is falsy and innerHTML non-empty; creates the widget from the element's text on the first call and keeps the same widget, buffer included, on every later call; applies this.options (translated in place) or a copy of the defaults; with a truthy value: throws when options is null, else stores and shows the serialised value, never beautified; keeps `Valid()` |
| `Editor.AceEditor.LoadInlineContent` | src/ace.js:54 | the element's content is replaced by its dedented, trimmed form exactly when no value is bound and the content is non-empty |
| `Editor.AceEditor.ApplyOptions` | src/ace.js:61 | with a widget, `this.options` is translated in place when it is set, and otherwise a fresh copy of the defaults is translated; the widget receives the translation and `Valid()` holds afterwards |
| `Editor.AceEditor.SetValue` | src/ace.js:67-71 | stores v; without a widget nothing else changes; with a widget, the parsed value is stored and becomes the buffer, or the exception is returned with v stored; returns this |
| `Editor.AceEditor.GetValue` | dist/es6/ace.js:77-79 | the widget's buffer, or a TypeError while there is no widget |
| `Editor.AceEditor.ValueChanged` | dist/system/ace.js:120-125 | ignores its argument; without a widget it changes nothing; with one, value becomes the parse of the stored value and the buffer equals it, or on an exception nothing changes |
| `Editor.AceEditor.SetOptions` | src/ace.js:84-88 | a fresh map with the argument over the static defaults becomes this.options, translated when a widget exists; the defaults are untouched; returns this |
| `Editor.AceEditor.UpdateOptions` | dist/system/ace.js:134-151 | without a widget, neither the widget nor the map changes; with one, the worker flag follows `lint`, the map is rewritten in place into its translation, the widget receives it, and `Valid()` holds afterwards |
| `Editor.AttachedWithoutOptionsThrows` | dist/es6/ace.js:65-68 | with no `setOptions` before `attached`, a truthy value makes `attached` throw a TypeError reading beautify of null |
| `Editor.BeautifyOptionNeverApplies` | dist/system/ace.js:127-158 | after `setOptions({beautify: true, mode: 'javascript'})`, `setValue(code)` and `attached`, the widget shows the code unformatted |
| `Editor.ReattachKeepsBuffer` | src/ace.js:49-64 | attaching a second time keeps the widget: the buffer is still the text read from the dedented, trimmed inline content the first time |
| `Editor.ReattachTranslatesAgain` | src/ace.js:61 | attaching again an instance whose options were already translated prefixes mode a second time (`ace/mode/ace/mode/…`) |
| `Editor.NewAttached` | src/ace.js:40-50 | a new instance attached at once takes the next uid, and its id is the element id for that uid |
| `Editor.FirstElementIds` | dist/es6/ace.js:39-55 | the counter starts at 1 and is incremented before use, so the first two instances get the ids ace-editor-2 and ace-editor-3 |

## Left out

- The Ace widget itself (`ace.edit`, `$blockScrolling`, `ace.config.set("basePath", …)`, the cursor argument of `setValue`, how `setOptions` merges into the widget's own settings). The widget is the record of buffer, worker flag and last option map. A new widget starts with its worker flag false and an empty option map; `attached` overwrites both right away. The basePath differs between the builds and is not modelled.
- The widget's buffer holds exactly the value pushed into it. This is a modelling assumption. The widget's conversion of non-string values is not modelled. Ace's document also splits the text into lines and joins them again with the newline it detects, so `getValue` can return different line endings from the string pushed in.
- The text the widget reads from the element (its `textContent`, which decodes the HTML of `innerHTML`) is an external function.
- The js-beautify formatters are external functions. The html/markup branch of `_beautify` calls `escapeHtml` and `unescapeHtml`, which no file defines or imports. The model therefore throws a ReferenceError there and never calls `html_beautify`.
- `JSON.stringify` of an object and `String(object)` are external functions. `JSON.stringify(null)` is `"null"`.
- `Obj` stands for an object that cannot be called. Functions, symbols and bigints are not modelled. A function bound as the value would have `typeof` "function" and would reach the widget unchanged rather than through `JSON.stringify`. `${symbol}` in `updateOptions` throws a TypeError. `JSON.stringify` is taken to return a string. It returns undefined for an object whose `toJSON` returns undefined.
- `ace.edit` is modelled only as far as the component relies on it. The first call creates the widget from the element's text, and every later call on the same element returns that widget. That the first call replaces the element's content with the markup Ace renders is not modelled: the `innerHTML` field keeps the dedented text. A later `attached` therefore dedents and trims that text again. The widget's buffer does not change. In the real element, `innerHTML` by then holds the markup Ace rendered, and src/ace.js:54 replaces those nodes with copies; the model does not capture this.
- The external functions always return normally. This is a modelling assumption. In JavaScript, `JSON.stringify` throws on a cyclic object, and `String(o)` throws for an object without `toString` or `valueOf` (such as `Object.create(null)`). So where `Attached`, `SetValue` and `ValueChanged` report no exception, that holds only when the external calls do not throw.
- `objectText` is one function for all three files. `src/ace.js` and `dist/es6/ace.js` build the mode and theme with template literals, which convert an object with `toString` first. `dist/system/ace.js` uses `"ace/mode/" + options.mode`, which calls `valueOf` first. The builds therefore differ for an object whose `valueOf` and `toString` give different text, and the model does not capture that difference.
- Numbers are integers. NaN, fractions, infinities and -0 are not modelled. The counter is an unbounded natural number, so loss of precision above 2^53 is not modelled.
- `Values.ToText` writes out every digit of a number. JavaScript switches to exponent form from 1e21 (`"1e+21"`), so a numeric mode or theme that large gets a different prefixed text in the source.
- Lines are split only at `\n`. With the `m` flag, `^` also matches after a lone `\r`, U+2028 and U+2029, and the model does not treat those as line starts. Text with CRLF endings behaves the same as in the source, because a line that starts between `\r` and `\n` never matches.
- `Math.min.apply` throws a RangeError when there are more matches than the engine accepts as arguments. This is not modelled.
- Option arguments are map values. For the static and instance `setOptions`, a missing argument is the empty map, because `Object.assign` skips `undefined`. `updateOptions` is modelled only for a map argument. With a widget, calling it without one throws a TypeError reading `lint` of undefined (src/ace.js:93). The component itself always passes a map (src/ace.js:61 and 86). Prototype properties, getters and non-enumerable keys are not modelled.
- Aurelia's property observer, which also calls `valueChanged` some time after `value` is assigned, is not modelled. The methods are modelled as they behave when called directly.
- The decorators (`@noView`, `@customElement`, `@bindable`, `@processContent`/`@skipContentProcessing`), `static inject`, the empty `bind()`, the DOM call `setAttribute` (the `id` field stands for it), and the loader and transpiler code of `dist/system/ace.js` are not modelled.
