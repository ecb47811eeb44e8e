/** `AceEditor._beautify(code, language)`: trim every line of the code, then
    hand it to the formatter the language tag names. */
module Formatting {
  import opened Values
  import opened Text

  /** `code.split('\n').map((l) => l.trim()).join('\n')`. Code of one line is
      trimmed as a whole; TrimLinesPerLine states the general case. */
  function TrimLines(code: string): (r: string)
    ensures '\n' !in code ==> r == Trim(code)
  {
    var lines := Split(code);
    assert '\n' !in code ==> lines == [code] by {
      if '\n' !in code { SplitJoin([code]); }
    }
    Join(seq(|lines|, i requires 0 <= i < |lines| => Trim(lines[i])))
  }

  /** Trimming keeps the lines apart and their number unchanged: line i of the
      result is line i of the code, trimmed. */
  lemma TrimLinesPerLine(code: string)
    ensures |Split(TrimLines(code))| == |Split(code)|
    ensures forall i :: 0 <= i < |Split(code)| ==> Split(TrimLines(code))[i] == Trim(Split(code)[i])
  {
    var lines := Split(code);
    var trimmed := seq(|lines|, i requires 0 <= i < |lines| => Trim(lines[i]));
    forall i | 0 <= i < |trimmed|
      ensures '\n' !in trimmed[i]
    {
      var k := LeadingWhitespace(lines[i]);
      assert forall c :: c in lines[i][k..k + |trimmed[i]|] ==> c in lines[i];
    }
    SplitJoin(trimmed);
  }

  predicate IsScriptTag(language: Value) {
    language == Str("js") || language == Str("javascript")
  }

  predicate IsStylesheetTag(language: Value) {
    language == Str("css") || language == Str("less")
  }

  predicate IsMarkupTag(language: Value) {
    language == Str("html") || language == Str("markup")
  }

  /** `_beautify(code, language)`. Falsy code gives null. Any other value that
      is not a string has no `split`. The markup branch calls `escapeHtml`,
      which no file defines, so it throws before any formatter runs. */
  function Beautify(ext: Externals, code: Value, language: Value): (r: Result<Value>)
    ensures r == Ok(Null) <==> !Truthy(code)
    ensures Truthy(code) && !code.Str? ==> r == Err(NotAFunction("split"))
    ensures code.Str? && Truthy(code) ==> (r.Err? <==> IsMarkupTag(language))
    ensures r.Ok? && Truthy(code) ==> r.value.Str?
  {
    if !Truthy(code) then Ok(Null)
    else if !code.Str? then Err(NotAFunction("split"))
    else
      var trimmed := TrimLines(code.s);
      if IsScriptTag(language) then Ok(Str(ext.jsBeautify(trimmed)))
      else if IsStylesheetTag(language) then Ok(Str(ext.cssBeautify(trimmed)))
      else if IsMarkupTag(language) then Err(NotDefined("escapeHtml"))
      else Ok(Str(trimmed))
  }

  /** An unrecognised language tag passes the code through with only its lines
      trimmed: the same number of lines, each one trimmed. */
  lemma BeautifyPassThrough(ext: Externals, code: string, language: Value)
    requires code != []
    requires !IsScriptTag(language) && !IsStylesheetTag(language) && !IsMarkupTag(language)
    ensures Beautify(ext, Str(code), language).Ok?
    ensures Beautify(ext, Str(code), language).value.Str?
    ensures |Split(Beautify(ext, Str(code), language).value.s)| == |Split(code)|
    ensures forall i :: 0 <= i < |Split(code)| ==>
      Split(Beautify(ext, Str(code), language).value.s)[i] == Trim(Split(code)[i])
  {
    TrimLinesPerLine(code);
  }

  /** The script and stylesheet formatters receive the line-trimmed code. */
  lemma BeautifyFormats(ext: Externals, code: string, language: Value)
    requires code != []
    ensures IsScriptTag(language) ==> Beautify(ext, Str(code), language) == Ok(Str(ext.jsBeautify(TrimLines(code))))
    ensures IsStylesheetTag(language) ==> Beautify(ext, Str(code), language) == Ok(Str(ext.cssBeautify(TrimLines(code))))
    ensures IsMarkupTag(language) ==> Beautify(ext, Str(code), language) == Err(NotDefined("escapeHtml"))
  {
  }
}
