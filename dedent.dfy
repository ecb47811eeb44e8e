/** The module-level helper `dedent(str)`: strip the indentation common to every
    line that has something other than whitespace on it. Lines are the pieces of
    the text between '\n' characters. */
module Indentation {
  import opened Text

  /** The indentation characters of the regular expressions: `[ \t]`. */
  predicate IsIndentChar(c: char) {
    c == ' ' || c == '\t'
  }

  /** Length of the run of spaces and tabs that starts the line. */
  function LeadingIndent(line: string): (n: nat)
    ensures n <= |line|
    ensures forall i :: 0 <= i < n ==> IsIndentChar(line[i])
    ensures n < |line| ==> !IsIndentChar(line[n])
  {
    if |line| > 0 && IsIndentChar(line[0]) then 1 + LeadingIndent(line[1..]) else 0
  }

  /** A line matched by `^[ \t]*(?=\S)`: its spaces and tabs are followed by a
      non-whitespace character. */
  predicate Qualifies(line: string) {
    var n := LeadingIndent(line);
    n < |line| && !IsWhitespace(line[n])
  }

  /** Qualifies is the regular expression's own reading: some run of spaces and
      tabs at the start of the line is followed by a non-whitespace character.
      The expression may backtrack to a shorter run, but only the whole run can
      be followed by a non-whitespace character, so the match is always the
      whole leading indentation. */
  lemma QualifiesIsMatch(line: string)
    ensures Qualifies(line) <==>
      exists n :: 0 <= n < |line| && (forall i :: 0 <= i < n ==> IsIndentChar(line[i])) && !IsWhitespace(line[n])
    ensures forall n :: 0 <= n < |line| && (forall i :: 0 <= i < n ==> IsIndentChar(line[i])) && !IsWhitespace(line[n]) ==>
      n == LeadingIndent(line)
  {
  }

  /** `str.match(/^[ \t]*(?=\S)/gm)` mapped to the lengths of the matches: one
      entry per qualifying line, in order; empty where the source gets `null`. */
  function Matches(lines: seq<string>): (ms: seq<nat>)
    ensures |ms| <= |lines|
    ensures |ms| == 0 <==> forall i :: 0 <= i < |lines| ==> !Qualifies(lines[i])
    ensures forall i :: 0 <= i < |lines| && Qualifies(lines[i]) ==> LeadingIndent(lines[i]) in ms
    ensures forall k :: k in ms ==> exists i :: 0 <= i < |lines| && Qualifies(lines[i]) && LeadingIndent(lines[i]) == k
  {
    if lines == [] then []
    else
      var rest := Matches(lines[1..]);
      assert forall i :: 1 <= i < |lines| ==> lines[i] == lines[1..][i - 1];
      if Qualifies(lines[0]) then [LeadingIndent(lines[0])] + rest else rest
  }

  /** `Math.min.apply(Math, xs)` on a non-empty array. */
  function Min(xs: seq<nat>): (m: nat)
    requires |xs| > 0
    ensures m in xs
    ensures forall x :: x in xs ==> m <= x
  {
    if |xs| == 1 then xs[0]
    else
      var t := Min(xs[1..]);
      assert forall x :: x in xs ==> x == xs[0] || x in xs[1..];
      if xs[0] <= t then xs[0] else t
  }

  /** One line of `str.replace(/^[ \t]{n}/gm, '')`: the first n characters go
      exactly when they are all spaces or tabs. */
  function StripLine(line: string, n: nat): (r: string)
    ensures n <= |line| && (forall i :: 0 <= i < n ==> IsIndentChar(line[i])) ==> r == line[n..]
    ensures !(n <= |line| && forall i :: 0 <= i < n ==> IsIndentChar(line[i])) ==> r == line
  {
    if LeadingIndent(line) >= n then line[n..] else line
  }

  /** The replace applied to every line. */
  function StripLines(lines: seq<string>, n: nat): (r: seq<string>)
    ensures StripsIndent(lines, r, n)
  {
    seq(|lines|, i requires 0 <= i < |lines| => StripLine(lines[i], n))
  }

  /** `dedent(str)`. It never lengthens the text, and it shortens it whenever
      it changes it; the lemmas below state what it does to each line. */
  function Dedent(s: string): (r: string)
    ensures |r| <= |s|
    ensures r != s ==> |r| < |s|
  {
    var lines := Split(s);
    var ms := Matches(lines);
    if |ms| == 0 then s
    else
      var indent := Min(ms);
      if indent > 0 then
        StripShortens(lines, indent);
        JoinSplit(s);
        Join(StripLines(lines, indent))
      else s
  }

  /** Stripping the minimum indentation m > 0 shortens the text: every line
      keeps or loses characters, and a line indented by exactly m loses m. */
  lemma StripShortens(lines: seq<string>, m: nat)
    requires m > 0 && !NoQualifyingLine(lines) && m == Min(Matches(lines))
    ensures |Join(StripLines(lines, m))| < |Join(lines)|
  {
    MinOfMatchesIsMinIndent(lines);
    var i :| 0 <= i < |lines| && Qualifies(lines[i]) && LeadingIndent(lines[i]) == m;
    JoinShorter(StripLines(lines, m), lines);
  }

  /** m is the smallest indentation among the qualifying lines, and one of them
      has exactly m. */
  ghost predicate IsMinIndent(lines: seq<string>, m: nat) {
    && (exists i :: 0 <= i < |lines| && Qualifies(lines[i]) && LeadingIndent(lines[i]) == m)
    && (forall i :: 0 <= i < |lines| && Qualifies(lines[i]) ==> m <= LeadingIndent(lines[i]))
  }

  ghost predicate NoQualifyingLine(lines: seq<string>) {
    forall i :: 0 <= i < |lines| ==> !Qualifies(lines[i])
  }

  /** The `indent` that dedent computes is the minimum indentation of the
      qualifying lines. */
  lemma MinOfMatchesIsMinIndent(lines: seq<string>)
    requires !NoQualifyingLine(lines)
    ensures |Matches(lines)| > 0 && IsMinIndent(lines, Min(Matches(lines)))
  {
  }

  /** Only the qualifying lines' minimum can be one. */
  lemma MinIndentUnique(lines: seq<string>, m: nat, m': nat)
    requires IsMinIndent(lines, m) && IsMinIndent(lines, m')
    ensures m == m'
  {
  }

  /** Stripped lines are suffixes of the original lines, so they hold no newline
      and split back into themselves. */
  lemma SplitStripped(lines: seq<string>, n: nat)
    requires |lines| >= 1
    requires forall i :: 0 <= i < |lines| ==> '\n' !in lines[i]
    ensures Split(Join(StripLines(lines, n))) == StripLines(lines, n)
  {
    var stripped := StripLines(lines, n);
    forall i | 0 <= i < |stripped|
      ensures '\n' !in stripped[i]
    {
      if LeadingIndent(lines[i]) >= n {
        assert forall c :: c in lines[i][n..] ==> c in lines[i];
      }
    }
    SplitJoin(stripped);
  }

  /** With no qualifying line, or with a qualifying line that is not indented,
      dedent returns its input unchanged. */
  lemma DedentUnchanged(s: string)
    requires NoQualifyingLine(Split(s)) || IsMinIndent(Split(s), 0)
    ensures Dedent(s) == s
  {
  }

  /** after is before with the first m characters cut from every line that
      starts with at least m spaces and tabs, and every other line untouched. */
  ghost predicate StripsIndent(before: seq<string>, after: seq<string>, m: nat) {
    && |after| == |before|
    && forall i :: 0 <= i < |before| ==>
         if LeadingIndent(before[i]) >= m
         then before[i] == before[i][..m] + after[i] && after[i] == before[i][m..]
         else after[i] == before[i]
  }

  /** What dedent computes once its indent is known to be m. */
  lemma DedentByMinIndent(s: string, m: nat)
    requires IsMinIndent(Split(s), m)
    ensures Dedent(s) == if m == 0 then s else Join(StripLines(Split(s), m))
  {
    var lines := Split(s);
    MinOfMatchesIsMinIndent(lines);
    MinIndentUnique(lines, m, Min(Matches(lines)));
  }

  /** Dedent strips exactly the minimum indentation m from every line that
      starts with at least m spaces and tabs (those m characters are spaces and
      tabs, by LeadingIndent), leaves every other line alone, and keeps the
      number of lines. */
  lemma DedentLines(s: string, m: nat)
    requires IsMinIndent(Split(s), m)
    ensures StripsIndent(Split(s), Split(Dedent(s)), m)
  {
    var lines := Split(s);
    DedentByMinIndent(s, m);
    if m == 0 {
      assert StripsIndent(lines, lines, 0) by {
        assert forall i :: 0 <= i < |lines| ==> lines[i] == lines[i][..0] + lines[i];
      }
    } else {
      var stripped := StripLines(lines, m);
      SplitStripped(lines, m);
      assert Split(Dedent(s)) == stripped;
    }
  }

  /** Every application of dedent keeps the number of lines. */
  lemma DedentKeepsLineCount(s: string)
    ensures |Split(Dedent(s))| == |Split(s)|
  {
    var lines := Split(s);
    if !NoQualifyingLine(lines) {
      MinOfMatchesIsMinIndent(lines);
      DedentLines(s, Min(Matches(lines)));
    }
  }

  /** Dedent changes its input exactly when some line qualifies and every
      qualifying line is indented. */
  lemma DedentUnchangedIff(s: string)
    ensures Dedent(s) == s <==> NoQualifyingLine(Split(s)) || IsMinIndent(Split(s), 0)
  {
    var lines := Split(s);
    if NoQualifyingLine(lines) || IsMinIndent(lines, 0) {
      DedentUnchanged(s);
    } else {
      MinOfMatchesIsMinIndent(lines);
      var m := Min(Matches(lines));
      var i :| 0 <= i < |lines| && Qualifies(lines[i]) && LeadingIndent(lines[i]) == m;
      assert m > 0;
      DedentLines(s, m);
      assert Split(Dedent(s))[i] != lines[i] by {
        assert |Split(Dedent(s))[i]| == |lines[i]| - m;
      }
    }
  }

  /** Dedent is idempotent: after one application some qualifying line starts
      at column 0, so a second application changes nothing. */
  lemma DedentIdempotent(s: string)
    ensures Dedent(Dedent(s)) == Dedent(s)
  {
    var lines := Split(s);
    if NoQualifyingLine(lines) || IsMinIndent(lines, 0) {
      DedentUnchanged(s);
    } else {
      MinOfMatchesIsMinIndent(lines);
      var m := Min(Matches(lines));
      var i :| 0 <= i < |lines| && Qualifies(lines[i]) && LeadingIndent(lines[i]) == m;
      DedentLines(s, m);
      var after := Split(Dedent(s));
      assert after[i] == lines[i][m..];
      assert LeadingIndent(after[i]) == 0 by {
        assert after[i][0] == lines[i][m];
      }
      assert Qualifies(after[i]);
      assert IsMinIndent(after, 0);
      DedentUnchanged(Dedent(s));
    }
  }
}
