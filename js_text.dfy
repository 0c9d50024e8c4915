/** The two string operations of the JavaScript runtime the components rely on:
    `String.prototype.trim` (blank-input checks) and `replace(/[0-9]/g, '')`
    (octave digits stripped from note names before comparison). */
module JsText {

  /** The code points ECMAScript's WhiteSpace and LineTerminator productions
      name; these are exactly what `trim` removes from both ends. */
  predicate IsWhitespace(c: char) {
    var n := c as int;
    n == 0x09 || n == 0x0A || n == 0x0B || n == 0x0C || n == 0x0D || n == 0x20
    || n == 0xA0 || n == 0x1680 || (0x2000 <= n <= 0x200A) || n == 0x2028
    || n == 0x2029 || n == 0x202F || n == 0x205F || n == 0x3000 || n == 0xFEFF
  }

  /** Leading whitespace removed: the result is a suffix of `s`, everything
      dropped is whitespace, and the result does not start with whitespace. */
  function TrimStart(s: string): (r: string)
    ensures |r| <= |s| && r == s[|s| - |r|..]
    ensures forall i :: 0 <= i < |s| - |r| ==> IsWhitespace(s[i])
    ensures r != [] ==> !IsWhitespace(r[0])
  {
    if s != [] && IsWhitespace(s[0]) then TrimStart(s[1..]) else s
  }

  /** Trailing whitespace removed: the result is a prefix of `s`, everything
      dropped is whitespace, and the result does not end with whitespace. */
  function TrimEnd(s: string): (r: string)
    ensures |r| <= |s| && r == s[..|r|]
    ensures forall i :: |r| <= i < |s| ==> IsWhitespace(s[i])
    ensures r != [] ==> !IsWhitespace(r[|r| - 1])
  {
    if s != [] && IsWhitespace(s[|s| - 1]) then TrimEnd(s[..|s| - 1]) else s
  }

  /** Every character is whitespace (the empty string included). The
      handlers' early return `if (!s.trim()) return;` is written `Blank(s)`,
      which `Trim`'s contract shows to be the same test. */
  predicate Blank(s: string) {
    forall i :: 0 <= i < |s| ==> IsWhitespace(s[i])
  }

  /** `s.trim()`. The handlers' guard `!s.trim()` holds exactly when every
      character of `s` is whitespace (the empty string included). */
  function Trim(s: string): (r: string)
    ensures r == [] <==> Blank(s)
    ensures r != [] ==> !IsWhitespace(r[0]) && !IsWhitespace(r[|r| - 1])
  {
    var t := TrimStart(s);
    var r := TrimEnd(t);
    assert r == s[|s| - |t|..|s| - |t| + |r|];
    r
  }

  predicate IsDigit(c: char) {
    '0' <= c <= '9'
  }

  /** `s.replace(/[0-9]/g, '')`: no digit is left in the result. */
  function StripDigits(s: string): (r: string)
    ensures |r| <= |s|
    ensures forall i :: 0 <= i < |r| ==> !IsDigit(r[i])
  {
    if s == [] then []
    else
      assert s == [s[0]] + s[1..];
      (if IsDigit(s[0]) then [] else [s[0]]) + StripDigits(s[1..])
  }

  /** Removing digits works piece by piece, so it keeps the order of the
      remaining characters. */
  lemma {:induction false} StripDigitsAppend(a: string, b: string)
    ensures StripDigits(a + b) == StripDigits(a) + StripDigits(b)
  {
    if a == [] {
      assert a + b == b;
    } else {
      var head := if IsDigit(a[0]) then [] else [a[0]];
      assert (a + b)[0] == a[0] && (a + b)[1..] == a[1..] + b;
      assert StripDigits(a + b) == head + StripDigits(a[1..] + b);
      StripDigitsAppend(a[1..], b);
      assert StripDigits(a) == head + StripDigits(a[1..]);
    }
  }

  /** Every character that is not a digit survives. */
  lemma {:induction false} StripDigitsKeeps(s: string, c: char)
    requires !IsDigit(c)
    ensures c in StripDigits(s) <==> c in s
  {
    if s != [] {
      assert s == [s[0]] + s[1..];
      StripDigitsKeeps(s[1..], c);
    }
  }

  /** A string without digits is left as it is. */
  lemma {:induction false} StripDigitsNoDigits(s: string)
    requires forall i :: 0 <= i < |s| ==> !IsDigit(s[i])
    ensures StripDigits(s) == s
  {
    if s != [] {
      StripDigitsNoDigits(s[1..]);
    }
  }

  /** A string of digits only disappears entirely. */
  lemma {:induction false} StripDigitsOnlyDigits(s: string)
    requires forall i :: 0 <= i < |s| ==> IsDigit(s[i])
    ensures StripDigits(s) == []
  {
    if s != [] {
      StripDigitsOnlyDigits(s[1..]);
    }
  }

  /** A note name with an octave number appended ("C#4") compares as the
      bare name ("C#"). */
  lemma StripOctave(name: string, octave: string)
    requires forall i :: 0 <= i < |name| ==> !IsDigit(name[i])
    requires forall i :: 0 <= i < |octave| ==> IsDigit(octave[i])
    ensures StripDigits(name + octave) == name
  {
    StripDigitsAppend(name, octave);
    StripDigitsNoDigits(name);
    StripDigitsOnlyDigits(octave);
  }
}
