/** Shared vocabulary of the model: values that may be absent, operations that
    may throw, errors handed back by the hosted database client, and the few
    JavaScript string primitives the application relies on (`trim`, decimal
    rendering of numbers in template literals). */
module Common {

  /** A JavaScript value that is either present or `null`/`undefined`. */
  datatype Option<+T> = None | Some(value: T)

  /** An operation that either returns a value or throws an `Error`, of which
      only the `message` matters to the callers. */
  datatype Result<+T> = Ok(value: T) | Err(message: string)

  /** An `error` object returned (not thrown) by the database client. `json`
      stands for what `JSON.stringify(error)` renders. */
  datatype DbError = DbError(message: string, json: string)

  /** `error.message || JSON.stringify(error)`: an empty message is falsy. */
  function Describe(e: DbError): string
  {
    if e.message != "" then e.message else e.json
  }

  /** `a || fallback` on strings: the empty string is falsy. */
  function OrElse(a: string, fallback: string): string
  {
    if a != "" then a else fallback
  }

  predicate IsPrefix(p: string, s: string)
  {
    |p| <= |s| && s[..|p|] == p
  }

  predicate IsSuffix(t: string, s: string)
  {
    |t| <= |s| && s[|s| - |t|..] == t
  }

  predicate IsSubstring(t: string, s: string)
  {
    exists i, j :: 0 <= i <= j <= |s| && s[i..j] == t
  }

  lemma PrefixOfConcat(a: string, b: string)
    ensures IsPrefix(a, a + b)
  {
    assert (a + b)[..|a|] == a;
  }

  predicate IsDigit(c: char)
  {
    '0' <= c <= '9'
  }

  predicate AllDigits(s: string)
  {
    forall i :: 0 <= i < |s| ==> IsDigit(s[i])
  }

  /** The characters `String.prototype.trim` removes: the ECMAScript
      WhiteSpace (tab, vertical tab, form feed, space, no-break space, byte
      order mark and every space separator) and LineTerminator code points. */
  predicate IsJsSpace(c: char)
  {
    var n := c as int;
    n == 0x09 || n == 0x0A || n == 0x0B || n == 0x0C || n == 0x0D || n == 0x20
    || n == 0xA0 || n == 0x1680 || (0x2000 <= n <= 0x200A) || n == 0x2028
    || n == 0x2029 || n == 0x202F || n == 0x205F || n == 0x3000 || n == 0xFEFF
  }

  predicate IsBlank(s: string)
  {
    forall i :: 0 <= i < |s| ==> IsJsSpace(s[i])
  }

  /** Number of white-space characters at the start of `s`. */
  function LeadingSpaces(s: string): (n: nat)
    ensures n <= |s|
    ensures IsBlank(s[..n])
    ensures n < |s| ==> !IsJsSpace(s[n])
    decreases |s|
  {
    if |s| > 0 && IsJsSpace(s[0]) then
      var n := 1 + LeadingSpaces(s[1..]);
      assert s[..n] == [s[0]] + s[1..][..n - 1];
      n
    else 0
  }

  /** Number of white-space characters at the end of `s`. */
  function TrailingSpaces(s: string): (n: nat)
    ensures n <= |s|
    ensures forall i :: |s| - n <= i < |s| ==> IsJsSpace(s[i])
    ensures n < |s| ==> !IsJsSpace(s[|s| - n - 1])
    decreases |s|
  {
    if |s| > 0 && IsJsSpace(s[|s| - 1]) then
      var t := s[..|s| - 1];
      var m := TrailingSpaces(t);
      assert forall i :: |t| - m <= i < |t| ==> s[i] == t[i];
      1 + m
    else 0
  }

  /** `String.prototype.trim`: the infix of `s` that starts after its
      leading white space and stops before its trailing white space. */
  function Trim(s: string): (r: string)
    ensures var i := LeadingSpaces(s);
      && i + |r| <= |s| && r == s[i..i + |r|]
      && IsBlank(s[..i]) && IsBlank(s[i + |r|..])
    ensures |r| > 0 ==> !IsJsSpace(r[0]) && !IsJsSpace(r[|r| - 1])
  {
    var i := LeadingSpaces(s);
    var a := s[i..];
    var r := a[..|a| - TrailingSpaces(a)];
    var j := i + |r|;
    assert forall k :: j <= k < |s| ==> s[k] == a[k - i];
    r
  }

  /** `!s.trim()`: a string is rejected as empty exactly when it consists of
      white space only. */
  lemma TrimEmptyIffBlank(s: string)
    ensures Trim(s) == "" <==> IsBlank(s)
  {
    var i := LeadingSpaces(s);
    if IsBlank(s) {
      assert i == |s|;
    } else {
      assert i < |s|;
      var a := s[i..];
      assert !IsJsSpace(a[0]);
      assert TrailingSpaces(a) < |a|;
    }
  }

  /** A string without white space at either end is its own trim. */
  lemma TrimOfTrimmed(s: string)
    requires |s| > 0 ==> !IsJsSpace(s[0]) && !IsJsSpace(s[|s| - 1])
    ensures Trim(s) == s
  {
  }

  /** Trimming twice is trimming once. */
  lemma TrimIdempotent(s: string)
    ensures Trim(Trim(s)) == Trim(s)
  {
    TrimOfTrimmed(Trim(s));
  }

  function DigitChar(d: nat): (c: char)
    requires d < 10
    ensures IsDigit(c)
  {
    (48 + d) as char
  }

  /** The number a run of decimal digits denotes, most significant first. */
  function DecimalValue(s: string): nat
    requires AllDigits(s)
    decreases |s|
  {
    if |s| == 0 then 0
    else 10 * DecimalValue(s[..|s| - 1]) + (s[|s| - 1] as int - 48)
  }

  /** Decimal rendering of a non-negative integer, as `${n}` prints it: the
      digits denote `n`, and there is no leading zero. */
  function NatToString(n: nat): (r: string)
    ensures |r| > 0 && AllDigits(r)
    ensures DecimalValue(r) == n
    ensures r[0] == '0' ==> r == "0"
    ensures (|r| > 1) == (n >= 10)
    decreases n
  {
    if n < 10 then [DigitChar(n)]
    else
      var init := NatToString(n / 10);
      var r := init + [DigitChar(n % 10)];
      assert r[..|r| - 1] == init;
      r
  }

  /** Decimal rendering of an integer: the digits of its magnitude, after a
      `-` when it is negative. */
  function IntToString(n: int): (r: string)
    ensures |r| > 0
    ensures n >= 0 <==> AllDigits(r)
    ensures n >= 0 ==> DecimalValue(r) == n
    ensures n < 0 ==> r == "-" + NatToString(-n)
  {
    if n < 0 then
      var r := "-" + NatToString(-n);
      assert !IsDigit(r[0]);
      r
    else NatToString(n)
  }

  /** Different numbers never render alike. */
  lemma NatToStringInjective(m: nat, n: nat)
    requires NatToString(m) == NatToString(n)
    ensures m == n
  {
  }
}
