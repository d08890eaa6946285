/**
 * The few JavaScript built-ins the chat function relies on, over Dafny
 * strings: `String.prototype.trim`, `slice(0, n)`, `slice(-n)` and the
 * decimal rendering of a status code inside a template literal.
 */
module JsText {

  /** A code point that `String.prototype.trim` strips: ECMAScript's
      WhiteSpace (tab, vertical tab, form feed, space, no-break space,
      byte-order mark and every space separator) or LineTerminator
      (line feed, carriage return, line and paragraph separators). */
  predicate IsTrimmable(c: char)
  {
    || c == '\t' || c == '\n' || c == '\U{000B}' || c == '\U{000C}' || c == '\r'
    || c == ' ' || c == '\U{00A0}' || c == '\U{1680}'
    || ('\U{2000}' <= c <= '\U{200A}')
    || c == '\U{2028}' || c == '\U{2029}' || c == '\U{202F}' || c == '\U{205F}'
    || c == '\U{3000}' || c == '\U{FEFF}'
  }

  /** `s` with its leading trimmable characters removed. */
  function TrimStart(s: string): (r: string)
    ensures |r| <= |s|
  {
    if |s| > 0 && IsTrimmable(s[0]) then TrimStart(s[1..]) else s
  }

  /** `s` with its trailing trimmable characters removed. */
  function TrimEnd(s: string): (r: string)
    ensures |r| <= |s|
  {
    if |s| > 0 && IsTrimmable(s[|s| - 1]) then TrimEnd(s[..|s| - 1]) else s
  }

  /** `s.trim()`: `s` without its leading and trailing padding. */
  function Trim(s: string): (r: string)
    ensures |r| <= |s|
  {
    TrimEnd(TrimStart(s))
  }

  /** TrimStart keeps a suffix that does not start with padding and drops
      only padding before it. */
  lemma {:induction false} TrimStartDropsPadding(s: string)
    ensures var r := TrimStart(s);
            && |r| <= |s| && r == s[|s| - |r|..]
            && (r == [] || !IsTrimmable(r[0]))
            && forall i :: 0 <= i < |s| - |r| ==> IsTrimmable(s[i])
  {
    if |s| > 0 && IsTrimmable(s[0]) {
      var r := TrimStart(s[1..]);
      TrimStartDropsPadding(s[1..]);
      assert s[1..][|s| - 1 - |r|..] == s[|s| - |r|..];
      forall i | 1 <= i < |s| - |r| ensures IsTrimmable(s[i]) {
        assert s[i] == s[1..][i - 1];
      }
    }
  }

  /** TrimEnd keeps a prefix that does not end with padding and drops only
      padding after it. */
  lemma {:induction false} TrimEndDropsPadding(s: string)
    ensures var r := TrimEnd(s);
            && |r| <= |s| && r == s[..|r|]
            && (r == [] || !IsTrimmable(r[|r| - 1]))
            && forall i :: |r| <= i < |s| ==> IsTrimmable(s[i])
  {
    if |s| > 0 && IsTrimmable(s[|s| - 1]) {
      var r := TrimEnd(s[..|s| - 1]);
      TrimEndDropsPadding(s[..|s| - 1]);
      assert s[..|s| - 1][..|r|] == s[..|r|];
      forall i | |r| <= i < |s| - 1 ensures IsTrimmable(s[i]) {
        assert s[i] == s[..|s| - 1][i];
      }
    }
  }

  /** Trimming keeps one infix of `s` and drops only padding around it. */
  lemma TrimIsInfix(s: string)
    ensures var r, i := Trim(s), |s| - |TrimStart(s)|;
            && i + |r| <= |s| && r == s[i..i + |r|]
            && (forall k :: 0 <= k < i ==> IsTrimmable(s[k]))
            && (forall k :: i + |r| <= k < |s| ==> IsTrimmable(s[k]))
  {
    var t := TrimStart(s);
    var i := |s| - |t|;
    var r := TrimEnd(t);
    TrimStartDropsPadding(s);
    TrimEndDropsPadding(t);
    assert t == s[i..];
    assert r == s[i..i + |r|] by {
      assert r == t[..|r|];
    }
    PaddingShift(s, i, r);
  }

  lemma PaddingShift(s: string, i: nat, r: string)
    requires i <= |s| && |r| <= |s| - i
    requires forall k :: |r| <= k < |s| - i ==> IsTrimmable(s[i..][k])
    ensures forall k :: i + |r| <= k < |s| ==> IsTrimmable(s[k])
  {
    forall k | i + |r| <= k < |s| ensures IsTrimmable(s[k]) {
      assert s[k] == s[i..][k - i];
    }
  }

  /** What trimming leaves neither starts nor ends with padding. */
  lemma TrimEnds(s: string)
    ensures var r := Trim(s); r == [] || (!IsTrimmable(r[0]) && !IsTrimmable(r[|r| - 1]))
  {
    var t := TrimStart(s);
    var r := TrimEnd(t);
    TrimStartDropsPadding(s);
    TrimEndDropsPadding(t);
    assert r != [] ==> r[0] == t[0];
  }

  /** Trimming leaves nothing exactly when `s` is all padding: the test
      `!String(message).trim()` rejects blank messages and nothing else. */
  lemma TrimEmptyIffBlank(s: string)
    ensures Trim(s) == [] <==> forall k :: 0 <= k < |s| ==> IsTrimmable(s[k])
  {
    var t := TrimStart(s);
    TrimStartDropsPadding(s);
    TrimEndDropsPadding(t);
    if t != [] {
      assert !IsTrimmable(s[|s| - |t|]);
      assert Trim(s) != [] by { assert TrimEnd(t)[0] == t[0] || TrimEnd(t) == []; }
    }
  }

  /** `s.slice(0, n)` for a non-negative `n`: the first `n` elements, or
      all of `s` when it is shorter. */
  function Take<T>(s: seq<T>, n: nat): (r: seq<T>)
    ensures |r| == if |s| < n then |s| else n
    ensures r == s[..|r|]
  {
    if |s| < n then s else s[..n]
  }

  /** `s.slice(-n)`: the last `n` elements, or all of `s` when it is
      shorter. As in JavaScript, `-0` is `0`, so `n == 0` gives all of `s`. */
  function TakeLast<T>(s: seq<T>, n: nat): (r: seq<T>)
    ensures |r| == if n == 0 || |s| < n then |s| else n
    ensures r == s[|s| - |r|..]
  {
    if n == 0 || |s| < n then s else s[|s| - n..]
  }

  predicate IsDigit(c: char)
  {
    '0' <= c <= '9'
  }

  function DigitChar(d: nat): (c: char)
    requires d < 10
    ensures IsDigit(c) && c as int - '0' as int == d
  {
    ('0' as int + d) as char
  }

  /** The decimal rendering of `n`, as `${n}` gives it for a
      non-negative integer: digits only, no leading zero. */
  function Decimal(n: nat): (s: string)
    ensures |s| >= 1
    ensures forall i :: 0 <= i < |s| ==> IsDigit(s[i])
    ensures s[0] == '0' ==> n == 0
  {
    if n < 10 then [DigitChar(n)] else Decimal(n / 10) + [DigitChar(n % 10)]
  }

  function DigitValue(c: char): (d: nat)
    requires IsDigit(c)
    ensures d < 10
  {
    c as int - '0' as int
  }

  /** The number a string of decimal digits denotes. */
  function DecimalValue(s: string): (n: nat)
    requires forall i :: 0 <= i < |s| ==> IsDigit(s[i])
  {
    if s == [] then 0
    else 10 * DecimalValue(s[..|s| - 1]) + DigitValue(s[|s| - 1])
  }

  /** Reading back a rendered number gives the number. */
  lemma {:induction false} DecimalRoundTrip(n: nat)
    ensures DecimalValue(Decimal(n)) == n
  {
    var s := Decimal(n);
    if n >= 10 {
      DecimalRoundTrip(n / 10);
      assert s[..|s| - 1] == Decimal(n / 10);
    }
  }

  /** Two numbers render alike only if they are equal. */
  lemma DecimalInjective(m: nat, n: nat)
    requires Decimal(m) == Decimal(n)
    ensures m == n
  {
    DecimalRoundTrip(m);
    DecimalRoundTrip(n);
  }
}
