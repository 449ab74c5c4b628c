/** String helpers the message builders and the save action rely on:
    the decimal form of a whole number (as a JavaScript template literal
    prints an integer of absolute value at most 2^53), joining lines with "\n" and splitting them back, and
    `String.prototype.trim`. */
module Text {

  // ---------------------------------------------------------------------
  // Decimal form of whole numbers
  // ---------------------------------------------------------------------

  function DigitChar(d: nat): (c: char)
    requires d < 10
    ensures '0' <= c <= '9'
  {
    "0123456789"[d]
  }

  function DigitValue(c: char): (d: nat)
    requires '0' <= c <= '9'
    ensures d < 10
  {
    (c as int - '0' as int) as nat
  }

  predicate IsDigits(s: string)
  {
    forall k :: 0 <= k < |s| ==> '0' <= s[k] <= '9'
  }

  /** Decimal digits of a natural number, most significant first, with no
      leading zero. */
  function NatToString(n: nat): (s: string)
    ensures |s| >= 1 && IsDigits(s)
    ensures |s| > 1 ==> s[0] != '0'
  {
    if n < 10 then [DigitChar(n)] else NatToString(n / 10) + [DigitChar(n % 10)]
  }

  /** Decimal form of an integer: a minus sign before the digits of a
      negative number. */
  function IntToString(n: int): (s: string)
    ensures |s| >= 1
    ensures n < 0 <==> s[0] == '-'
  {
    if n < 0 then "-" + NatToString(-n) else NatToString(n)
  }

  /** Reads a string of digits back as a number. */
  function ParseDigits(s: string): nat
    requires IsDigits(s)
  {
    if s == [] then 0 else ParseDigits(s[..|s| - 1]) * 10 + DigitValue(s[|s| - 1])
  }

  lemma DigitRoundTrip(d: nat)
    requires d < 10
    ensures DigitValue(DigitChar(d)) == d
  {
  }

  /** The decimal form loses nothing: reading it back gives the number. */
  lemma {:induction false} NatToStringRoundTrip(n: nat)
    ensures ParseDigits(NatToString(n)) == n
  {
    var s := NatToString(n);
    if n < 10 {
      assert s[..0] == [];
      DigitRoundTrip(n);
    } else {
      NatToStringRoundTrip(n / 10);
      assert s[..|s| - 1] == NatToString(n / 10);
      DigitRoundTrip(n % 10);
    }
  }

  /** Different integers print differently. */
  lemma IntToStringInjective(a: int, b: int)
    requires IntToString(a) == IntToString(b)
    ensures a == b
  {
    var s := IntToString(a);
    assert (a < 0) == (b < 0) by { assert (a < 0) == (s[0] == '-') == (b < 0); }
    var digits := if a < 0 then s[1..] else s;
    var na: nat := if a < 0 then -a else a;
    var nb: nat := if b < 0 then -b else b;
    assert digits == NatToString(na) == NatToString(nb);
    NatToStringRoundTrip(na);
    NatToStringRoundTrip(nb);
  }

  // ---------------------------------------------------------------------
  // Lines
  // ---------------------------------------------------------------------

  /** A template literal: its pieces one after the other. */
  function Concat(parts: seq<string>): (s: string)
    ensures parts != [] ==> |parts[0]| <= |s| && s[..|parts[0]|] == parts[0]
  {
    if parts == [] then []
    else
      assert |parts| > 1 ==> parts[..|parts| - 1][0] == parts[0];
      Concat(parts[..|parts| - 1]) + parts[|parts| - 1]
  }

  /** A template literal starts with the first character of its first piece. */
  lemma {:induction false} ConcatStartsWith(parts: seq<string>)
    requires |parts| > 0 && |parts[0]| > 0
    ensures |Concat(parts)| > 0 && Concat(parts)[0] == parts[0][0]
  {
    if |parts| > 1 {
      ConcatStartsWith(parts[..|parts| - 1]);
    } else {
      assert parts[..0] == [];
    }
  }

  /** The last piece of a template literal ends the text. */
  lemma ConcatEndsWith(parts: seq<string>, last: string)
    ensures Concat(parts + [last]) == Concat(parts) + last
  {
    assert (parts + [last])[..|parts|] == parts;
  }

  /** `lines.join("\n")`. */
  function JoinLines(lines: seq<string>): (text: string)
    ensures |lines| == 1 ==> text == lines[0]
  {
    if |lines| == 0 then ""
    else if |lines| == 1 then lines[0]
    else JoinLines(lines[..|lines| - 1]) + "\n" + lines[|lines| - 1]
  }

  /** Position of the last line break, or -1 when there is none. */
  function LastBreak(s: string): (k: int)
    ensures -1 <= k < |s|
    ensures k >= 0 ==> s[k] == '\n'
    ensures forall j :: k < j < |s| ==> s[j] != '\n'
  {
    if s == [] then -1
    else if s[|s| - 1] == '\n' then |s| - 1
    else LastBreak(s[..|s| - 1])
  }

  /** `text.split("\n")`: the pieces between line breaks, in order. */
  function SplitLines(text: string): (lines: seq<string>)
    ensures |lines| >= 1
    decreases |text|
  {
    var k := LastBreak(text);
    if k < 0 then [text] else SplitLines(text[..k]) + [text[k + 1..]]
  }

  predicate NoBreak(line: string)
  {
    forall j :: 0 <= j < |line| ==> line[j] != '\n'
  }

  lemma {:induction false} LastBreakAfter(a: string, b: string)
    requires NoBreak(b)
    ensures LastBreak(a + "\n" + b) == |a|
  {
    var s := a + "\n" + b;
    if b != [] {
      assert s[|s| - 1] == b[|b| - 1];
      assert s[..|s| - 1] == a + "\n" + b[..|b| - 1];
      LastBreakAfter(a, b[..|b| - 1]);
    }
  }

  /** Splitting a joined message gives back its lines, provided no line
      holds a line break itself. */
  lemma {:induction false} SplitJoin(lines: seq<string>)
    requires |lines| >= 1
    requires forall k :: 0 <= k < |lines| ==> NoBreak(lines[k])
    ensures SplitLines(JoinLines(lines)) == lines
  {
    if |lines| == 1 {
      assert LastBreak(lines[0]) == -1;
    } else {
      var init := lines[..|lines| - 1];
      var last := lines[|lines| - 1];
      var a := JoinLines(init);
      LastBreakAfter(a, last);
      var s := a + "\n" + last;
      assert s[..|a|] == a;
      assert s[|a| + 1..] == last;
      SplitJoin(init);
    }
  }

  /** `s.includes(t)`. */
  ghost predicate Includes(s: string, t: string): (b: bool)
    ensures b ==> |t| <= |s|
    ensures t == [] ==> b
    ensures |t| <= |s| && s[..|t|] == t ==> b
  {
    assert |t| <= |s| && s[..|t|] == t ==> IncludesAt(s, t, 0);
    exists k :: IncludesAt(s, t, k)
  }

  predicate IncludesAt(s: string, t: string, k: int)
  {
    0 <= k && k + |t| <= |s| && s[k..k + |t|] == t
  }

  lemma IncludesExtend(s: string, t: string, u: string)
    requires Includes(s, t)
    ensures Includes(s + u, t)
  {
    var k :| IncludesAt(s, t, k);
    assert (s + u)[k..k + |t|] == t;
    assert IncludesAt(s + u, t, k);
  }

  lemma IncludesSuffix(prefix: string, t: string)
    ensures Includes(prefix + t, t)
  {
    assert (prefix + t)[|prefix|..|prefix| + |t|] == t;
    assert IncludesAt(prefix + t, t, |prefix|);
  }

  /** Inclusion is transitive. */
  lemma IncludesTransitive(s: string, t: string, u: string)
    requires Includes(s, t) && Includes(t, u)
    ensures Includes(s, u)
  {
    var i :| IncludesAt(s, t, i);
    var j :| IncludesAt(t, u, j);
    var window := s[i..i + |t|];
    assert window == t;
    var found := s[i + j..i + j + |u|];
    var inner := window[j..j + |u|];
    forall m | 0 <= m < |u|
      ensures found[m] == inner[m]
    {
      assert found[m] == s[i + j + m] == window[j + m];
    }
    assert found == inner;
    assert IncludesAt(s, u, i + j);
  }

  /** The joined message includes every one of its lines. */
  lemma {:induction false} JoinLinesIncludes(lines: seq<string>, i: nat)
    requires i < |lines|
    ensures Includes(JoinLines(lines), lines[i])
  {
    var text := JoinLines(lines);
    if |lines| == 1 {
      assert IncludesAt(text, lines[i], 0);
    } else if i == |lines| - 1 {
      var a := JoinLines(lines[..|lines| - 1]) + "\n";
      assert text == a + lines[i];
      assert text[|a|..|a| + |lines[i]|] == lines[i];
      assert IncludesAt(text, lines[i], |a|);
    } else {
      JoinLinesIncludes(lines[..|lines| - 1], i);
      IncludesExtend(JoinLines(lines[..|lines| - 1]), lines[i], "\n" + lines[|lines| - 1]);
      assert text == JoinLines(lines[..|lines| - 1]) + ("\n" + lines[|lines| - 1]);
    }
  }

  // ---------------------------------------------------------------------
  // Trimming
  // ---------------------------------------------------------------------

  /** The characters JavaScript's `trim` removes: white space and line
      terminators. */
  predicate IsJsSpace(c: char)
  {
    c == '\t' || c == '\n' || c == '\U{B}' || c == '\U{C}' || c == '\r' || c == ' '
    || c == '\U{A0}' || c == '\U{1680}' || ('\U{2000}' <= c <= '\U{200A}')
    || c == '\U{2028}' || c == '\U{2029}' || c == '\U{202F}' || c == '\U{205F}'
    || c == '\U{3000}' || c == '\U{FEFF}'
  }

  /** Drops leading white space. */
  function TrimStart(s: string): (t: string)
    ensures |t| <= |s| && t == s[|s| - |t|..]
    ensures t == [] || !IsJsSpace(t[0])
    ensures forall k :: 0 <= k < |s| - |t| ==> IsJsSpace(s[k])
  {
    if s != [] && IsJsSpace(s[0]) then TrimStart(s[1..]) else s
  }

  /** Drops trailing white space. */
  function TrimEnd(s: string): (t: string)
    ensures |t| <= |s| && t == s[..|t|]
    ensures t == [] || !IsJsSpace(t[|t| - 1])
    ensures forall k :: |t| <= k < |s| ==> IsJsSpace(s[k])
  {
    if s != [] && IsJsSpace(s[|s| - 1]) then TrimEnd(s[..|s| - 1]) else s
  }

  /** `s.trim()`: the longest middle part that neither starts nor ends with
      white space. */
  function Trim(s: string): (t: string)
    ensures t == [] || (!IsJsSpace(t[0]) && !IsJsSpace(t[|t| - 1]))
  {
    TrimEnd(TrimStart(s))
  }

  /** Trimming a trimmed name changes nothing. */
  lemma TrimIdempotent(s: string)
    ensures Trim(Trim(s)) == Trim(s)
  {
    var t := Trim(s);
    assert TrimStart(t) == t;
  }
}
