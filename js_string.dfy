/**
 * The JavaScript built-ins the core relies on, stated on `seq<char>`:
 * `String.prototype.split` with a one-character separator, `Array.prototype.pop`
 * on the array it returns, `String.prototype.trim`, the decimal rendering of a
 * natural number in a template literal, and the falsiness of an optional string.
 */
module JsString {
  import opened Wrappers

  /** An optional string is falsy in JavaScript when it is `undefined` or `""`. */
  predicate Falsy(s: Option<string>) {
    s.None? || s.value == ""
  }

  /** Joins parts with a separator between each adjacent pair. */
  function Join(parts: seq<string>, sep: char): string
    decreases |parts|
  {
    if |parts| == 0 then ""
    else if |parts| == 1 then parts[0]
    else Join(parts[..|parts| - 1], sep) + [sep] + parts[|parts| - 1]
  }

  /**
   * `s.split(sep)`: the runs of characters between separators, in order. There is
   * always at least one part (`"".split("/")` is `[""]`), no part contains the
   * separator, and joining the parts back gives `s`.
   */
  function Split(s: string, sep: char): (parts: seq<string>)
    ensures |parts| >= 1
    ensures forall i :: 0 <= i < |parts| ==> sep !in parts[i]
    ensures Join(parts, sep) == s
  {
    if s == [] then [""]
    else
      var init := Split(s[..|s| - 1], sep);
      var c := s[|s| - 1];
      assert s == s[..|s| - 1] + [c];
      if c == sep then
        assert (init + [""])[..|init|] == init;
        init + [""]
      else
        var n := |init|;
        var parts := init[..n - 1] + [init[n - 1] + [c]];
        assert parts[..n - 1] == init[..n - 1];
        parts
  }

  /** `xs.pop()` on a non-empty array: its last element. */
  function Pop<T>(xs: seq<T>): T
    requires |xs| > 0
  {
    xs[|xs| - 1]
  }

  /**
   * The last part of `s.split(sep)` is the suffix of `s` after its last separator
   * (all of `s` when there is none): it holds no separator, and it is either the
   * whole of `s` or preceded by a separator.
   */
  lemma {:induction false} LastPartIsFinalRun(s: string, sep: char)
    ensures var seg := Pop(Split(s, sep));
      && |seg| <= |s| && s[|s| - |seg|..] == seg && sep !in seg
      && (|seg| == |s| || s[|s| - |seg| - 1] == sep)
  {
    if s != [] {
      var u := s[..|s| - 1];
      LastPartIsFinalRun(u, sep);
      var seg := Pop(Split(s, sep));
      if s[|s| - 1] != sep {
        var prev := Pop(Split(u, sep));
        assert seg == prev + [s[|s| - 1]];
        assert s[|s| - |seg|..] == u[|u| - |prev|..] + [s[|s| - 1]];
      }
    }
  }

  /** When `s` is `prefix + sep + last` and `last` holds no separator, `last` is what `pop` yields. */
  lemma {:induction false} LastPartAfterSeparator(prefix: string, sep: char, last: string)
    requires sep !in last
    ensures Pop(Split(prefix + [sep] + last, sep)) == last
    decreases |last|
  {
    var s := prefix + [sep] + last;
    if last != [] {
      var init := last[..|last| - 1];
      LastPartAfterSeparator(prefix, sep, init);
      assert s[..|s| - 1] == prefix + [sep] + init;
    }
  }

  /** A string without the separator splits into itself alone. */
  lemma {:induction false} LastPartWithoutSeparator(s: string, sep: char)
    requires sep !in s
    ensures Pop(Split(s, sep)) == s
  {
    if s != [] {
      var u := s[..|s| - 1];
      assert forall c :: c in u ==> c in s;
      LastPartWithoutSeparator(u, sep);
      assert s == u + [s[|s| - 1]];
    }
  }

  /** A string ending in the separator has an empty last part. */
  lemma LastPartAfterTrailingSeparator(s: string, sep: char)
    requires |s| > 0 && s[|s| - 1] == sep
    ensures Pop(Split(s, sep)) == ""
  {
  }

  /**
   * The characters `String.prototype.trim` removes: the ECMAScript WhiteSpace code
   * points (tab, vertical tab, form feed, space, no-break space, byte order mark
   * and the other Unicode space separators) and the LineTerminator code points.
   */
  predicate IsWhiteSpace(c: char) {
    var n := c as int;
    || n == 0x09 || n == 0x0B || n == 0x0C || n == 0x20 || n == 0xA0 || n == 0xFEFF
    || n == 0x1680 || 0x2000 <= n <= 0x200A || n == 0x202F || n == 0x205F || n == 0x3000
    || n == 0x0A || n == 0x0D || n == 0x2028 || n == 0x2029
  }

  /** Drops leading white space: what is dropped is all white space, and what is kept does not start with it. */
  function TrimStart(s: string): (r: string)
    ensures |r| <= |s| && r == s[|s| - |r|..]
    ensures forall i :: 0 <= i < |s| - |r| ==> IsWhiteSpace(s[i])
    ensures r == [] || !IsWhiteSpace(r[0])
  {
    if s != [] && IsWhiteSpace(s[0]) then TrimStart(s[1..]) else s
  }

  /** Drops trailing white space: what is dropped is all white space, and what is kept does not end with it. */
  function TrimEnd(s: string): (r: string)
    ensures |r| <= |s| && r == s[..|r|]
    ensures forall i :: |r| <= i < |s| ==> IsWhiteSpace(s[i])
    ensures r == [] || !IsWhiteSpace(r[|r| - 1])
  {
    if s != [] && IsWhiteSpace(s[|s| - 1]) then TrimEnd(s[..|s| - 1]) else s
  }

  /** `r` is `s[a..b]`, and everything of `s` outside that slice is white space. */
  predicate IsTrimmedSlice(s: string, r: string, a: int, b: int) {
    && 0 <= a <= b <= |s| && r == s[a..b]
    && (forall i :: 0 <= i < a ==> IsWhiteSpace(s[i]))
    && (forall i :: b <= i < |s| ==> IsWhiteSpace(s[i]))
  }

  /** Trimming the start and then the end leaves a slice with white space on both sides. */
  lemma TrimsLeaveSlice(s: string, t: string, r: string)
    requires |t| <= |s| && t == s[|s| - |t|..] && forall i :: 0 <= i < |s| - |t| ==> IsWhiteSpace(s[i])
    requires |r| <= |t| && r == t[..|r|] && forall i :: |r| <= i < |t| ==> IsWhiteSpace(t[i])
    ensures IsTrimmedSlice(s, r, |s| - |t|, |s| - |t| + |r|)
  {
    var a := |s| - |t|;
    var b := a + |r|;
    assert r == s[a..b];
    forall i | b <= i < |s|
      ensures IsWhiteSpace(s[i])
    {
      assert s[i] == t[i - a];
    }
  }

  /**
   * `s.trim()`: the slice of `s` left once its leading and trailing white space
   * is dropped. It is empty exactly when `s` is all white space, and otherwise
   * neither starts nor ends with white space.
   */
  function Trim(s: string): (r: string)
    ensures |r| <= |s|
    ensures exists a, b :: IsTrimmedSlice(s, r, a, b)
    ensures r == [] <==> forall i :: 0 <= i < |s| ==> IsWhiteSpace(s[i])
    ensures r != [] ==> !IsWhiteSpace(r[0]) && !IsWhiteSpace(r[|r| - 1])
  {
    var t := TrimStart(s);
    var r := TrimEnd(t);
    TrimsLeaveSlice(s, t, r);
    assert t != [] ==> t[0] == s[|s| - |t|];
    assert r != [] ==> r[0] == t[0];
    r
  }

  /** A decimal digit character. */
  predicate IsDigit(c: char) {
    '0' <= c <= '9'
  }

  /** The value of one decimal digit. */
  function DigitValue(c: char): nat
    requires IsDigit(c)
  {
    c as int - '0' as int
  }

  /** The number a string of decimal digits denotes. */
  function DecimalValue(s: string): nat
    requires forall i :: 0 <= i < |s| ==> IsDigit(s[i])
  {
    if s == [] then 0
    else DecimalValue(s[..|s| - 1]) * 10 + DigitValue(s[|s| - 1])
  }

  /**
   * `${n}` for a natural number `n`: one or more decimal digits, without a
   * leading zero, that denote `n`.
   */
  function DecimalString(n: nat): (r: string)
    ensures |r| >= 1
    ensures forall i :: 0 <= i < |r| ==> IsDigit(r[i])
    ensures |r| == 1 || r[0] != '0'
    ensures DecimalValue(r) == n
  {
    var last := [('0' as int + n % 10) as char];
    if n < 10 then last
    else
      var r := DecimalString(n / 10) + last;
      assert r[..|r| - 1] == DecimalString(n / 10);
      r
  }
}
