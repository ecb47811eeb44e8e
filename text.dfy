/** Text operations the component uses from JavaScript's String: `trim()`, and
    `split('\n')` with its inverse `join('\n')`. */
module Text {

  /** ECMAScript WhiteSpace and LineTerminator code points: what `trim()`
      removes and what the regular-expression class `\s` matches. */
  predicate IsWhitespace(c: char) {
    || c == '\t' || c == '\n' || c == '\U{000B}' || c == '\U{000C}' || c == '\r'
    || c == ' ' || c == '\U{00A0}' || c == '\U{1680}'
    || ('\U{2000}' <= c <= '\U{200A}')
    || c == '\U{2028}' || c == '\U{2029}' || c == '\U{202F}' || c == '\U{205F}'
    || c == '\U{3000}' || c == '\U{FEFF}'
  }

  /** Number of whitespace characters at the start of s. */
  function LeadingWhitespace(s: string): (n: nat)
    ensures n <= |s|
    ensures forall i :: 0 <= i < n ==> IsWhitespace(s[i])
    ensures n < |s| ==> !IsWhitespace(s[n])
  {
    if |s| > 0 && IsWhitespace(s[0]) then 1 + LeadingWhitespace(s[1..]) else 0
  }

  /** Number of whitespace characters at the end of s. */
  function TrailingWhitespace(s: string): (n: nat)
    ensures n <= |s|
    ensures forall i :: |s| - n <= i < |s| ==> IsWhitespace(s[i])
    ensures n < |s| ==> !IsWhitespace(s[|s| - 1 - n])
  {
    if |s| > 0 && IsWhitespace(s[|s| - 1]) then 1 + TrailingWhitespace(s[..|s| - 1]) else 0
  }

  /** `s.trim()`: the longest piece of s that neither starts nor ends with
      whitespace, once only whitespace has been cut off either side. */
  function Trim(s: string): (r: string)
    ensures LeadingWhitespace(s) + |r| <= |s|
    ensures r == s[LeadingWhitespace(s)..LeadingWhitespace(s) + |r|]
    ensures forall i :: 0 <= i < |s| && !(LeadingWhitespace(s) <= i < LeadingWhitespace(s) + |r|) ==> IsWhitespace(s[i])
    ensures r != [] ==> !IsWhitespace(r[0]) && !IsWhitespace(r[|r| - 1])
  {
    var lead := LeadingWhitespace(s);
    if lead == |s| then []
    else
      var trail := TrailingWhitespace(s);
      s[lead..|s| - trail]
  }

  /** `s.split('\n')`: the pieces between newlines, always at least one. */
  function Split(s: string): (lines: seq<string>)
    ensures |lines| >= 1
    ensures forall i :: 0 <= i < |lines| ==> '\n' !in lines[i]
  {
    if s == [] then [[]]
    else
      var rest := Split(s[1..]);
      if s[0] == '\n' then [[]] + rest
      else [[s[0]] + rest[0]] + rest[1..]
  }

  /** `lines.join('\n')`. */
  function Join(lines: seq<string>): string {
    if |lines| == 0 then []
    else if |lines| == 1 then lines[0]
    else lines[0] + "\n" + Join(lines[1..])
  }

  lemma {:induction false} JoinSplit(s: string)
    ensures Join(Split(s)) == s
  {
    if s != [] {
      var rest := Split(s[1..]);
      JoinSplit(s[1..]);
      if s[0] == '\n' {
        assert ([[]] + rest)[1..] == rest;
      } else if |rest| == 1 {
        assert s == [s[0]] + s[1..];
      } else {
        var lines := [[s[0]] + rest[0]] + rest[1..];
        assert lines[1..] == rest[1..];
        assert Join(rest) == rest[0] + "\n" + Join(rest[1..]);
        assert s == [s[0]] + s[1..];
      }
    }
  }

  /** Splitting a newline-free piece followed by t puts the piece in front of
      t's first line. */
  lemma {:induction false} SplitPrefix(a: string, t: string)
    requires '\n' !in a
    ensures Split(a + t) == [a + Split(t)[0]] + Split(t)[1..]
  {
    if a != [] {
      SplitPrefix(a[1..], t);
      assert (a + t)[1..] == a[1..] + t;
      assert (a + t)[0] == a[0];
      assert [a[0]] + (a[1..] + Split(t)[0]) == a + Split(t)[0];
    } else {
      assert a + t == t;
      assert a + Split(t)[0] == Split(t)[0];
      assert Split(t) == [Split(t)[0]] + Split(t)[1..];
    }
  }

  lemma {:induction false} SplitJoin(lines: seq<string>)
    requires |lines| >= 1
    requires forall i :: 0 <= i < |lines| ==> '\n' !in lines[i]
    ensures Split(Join(lines)) == lines
  {
    if |lines| == 1 {
      SplitPrefix(lines[0], []);
      assert lines[0] + [] == lines[0];
    } else {
      var t := Join(lines[1..]);
      SplitJoin(lines[1..]);
      SplitPrefix(lines[0], "\n" + t);
      assert Split("\n" + t) == [[]] + Split(t) by {
        assert ("\n" + t)[1..] == t;
      }
      assert lines[0] + "\n" + t == lines[0] + ("\n" + t);
      assert lines[0] + [] == lines[0];
    }
  }

  /** Joining lines that are each no longer than their counterparts gives a
      text no longer than theirs, and a strictly shorter one when some line is
      strictly shorter. */
  lemma {:induction false} JoinShorter(a: seq<string>, b: seq<string>)
    requires |a| == |b|
    requires forall i :: 0 <= i < |a| ==> |a[i]| <= |b[i]|
    ensures |Join(a)| <= |Join(b)|
    ensures (exists i :: 0 <= i < |a| && |a[i]| < |b[i]|) ==> |Join(a)| < |Join(b)|
  {
    if |a| > 1 {
      JoinShorter(a[1..], b[1..]);
      assert forall i :: 1 <= i < |a| && |a[i]| < |b[i]| ==> |a[1..][i - 1]| < |b[1..][i - 1]|;
    }
  }
}
