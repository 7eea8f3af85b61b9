/** Text helpers for the statement builders: the decimal rendering that `%d`
    gives a placeholder number, a scanner that reads the `$n` placeholders back
    out of a statement's text, and a character counter. */
module SqlText {

  predicate IsDigit(ch: char) {
    '0' <= ch <= '9'
  }

  predicate AllDigits(s: string) {
    forall i :: 0 <= i < |s| ==> IsDigit(s[i])
  }

  /** True when a string is empty or does not start with a digit, so that a
      digit run written just before it ends where it ends. */
  predicate StartsWithNonDigit(s: string) {
    s == [] || !IsDigit(s[0])
  }

  function DigitChar(d: nat): (ch: char)
    requires d < 10
    ensures IsDigit(ch) && DigitValue(ch) == d
  {
    ('0' as int + d) as char
  }

  function DigitValue(ch: char): nat
    requires IsDigit(ch)
  {
    ch as int - '0' as int
  }

  /** The text `fmt.Sprintf("%d", n)` produces for a non-negative `n`. */
  function Decimal(n: nat): (s: string)
    ensures |s| > 0 && AllDigits(s)
  {
    if n < 10 then [DigitChar(n)] else Decimal(n / 10) + [DigitChar(n % 10)]
  }

  /** The number a run of decimal digits denotes (the empty run denotes 0). */
  function DecimalValue(s: string): nat
    requires AllDigits(s)
  {
    if s == [] then 0 else DecimalValue(s[..|s| - 1]) * 10 + DigitValue(s[|s| - 1])
  }

  /** Reading a rendered number back gives the number. */
  lemma {:induction false} DecimalRoundTrip(n: nat)
    ensures DecimalValue(Decimal(n)) == n
  {
    if n >= 10 {
      var s := Decimal(n);
      assert s[..|s| - 1] == Decimal(n / 10);
      DecimalRoundTrip(n / 10);
    }
  }

  /** The longest prefix of `s` made of digits. */
  function DigitRun(s: string): (d: string)
    ensures |d| <= |s| && d == s[..|d|] && AllDigits(d)
    ensures |d| < |s| ==> !IsDigit(s[|d|])
  {
    if s != [] && IsDigit(s[0]) then [s[0]] + DigitRun(s[1..]) else []
  }

  /** The numbers written after each `$` of a statement, in order of
      appearance; a `$` followed by no digit reads as 0. */
  function Placeholders(s: string): seq<nat>
    decreases |s|
  {
    if s == [] then []
    else if s[0] == '$' then
      var d := DigitRun(s[1..]);
      [DecimalValue(d)] + Placeholders(s[1 + |d|..])
    else Placeholders(s[1..])
  }

  /** The sequence 1, 2, ..., n. */
  function Ordinals(n: nat): (r: seq<nat>)
    ensures |r| == n && forall j :: 0 <= j < n ==> r[j] == j + 1
  {
    if n == 0 then [] else Ordinals(n - 1) + [n]
  }

  lemma {:induction false} DigitRunAppend(x: string, y: string)
    requires StartsWithNonDigit(y)
    ensures DigitRun(x + y) == DigitRun(x)
  {
    if x != [] {
      assert (x + y)[0] == x[0] && (x + y)[1..] == x[1..] + y;
      DigitRunAppend(x[1..], y);
    }
  }

  /** Scanning a concatenation scans each part, provided the second part
      cannot lengthen a number the first part ends with. */
  lemma {:induction false} PlaceholdersAppend(a: string, b: string)
    requires StartsWithNonDigit(b)
    ensures Placeholders(a + b) == Placeholders(a) + Placeholders(b)
    decreases |a|
  {
    if a == [] {
      assert a + b == b;
    } else {
      var ab := a + b;
      assert ab[0] == a[0] && ab[1..] == a[1..] + b;
      if a[0] == '$' {
        DigitRunAppend(a[1..], b);
        var d := DigitRun(a[1..]);
        assert ab[1 + |d|..] == a[1 + |d|..] + b;
        PlaceholdersAppend(a[1 + |d|..], b);
      } else {
        PlaceholdersAppend(a[1..], b);
      }
    }
  }

  /** Text without a `$` contributes no placeholder. */
  lemma {:induction false} PlaceholdersSkip(a: string, b: string)
    requires '$' !in a
    ensures Placeholders(a + b) == Placeholders(b)
    decreases |a|
  {
    if a != [] {
      assert (a + b)[0] == a[0] && (a + b)[1..] == a[1..] + b;
      PlaceholdersSkip(a[1..], b);
    } else {
      assert a + b == b;
    }
  }

  /** `$` followed by a rendered number reads as that number. */
  lemma PlaceholderAt(n: nat, rest: string)
    requires StartsWithNonDigit(rest)
    ensures Placeholders("$" + Decimal(n) + rest) == [n] + Placeholders(rest)
  {
    var s := "$" + Decimal(n) + rest;
    assert s[1..] == Decimal(n) + rest;
    DigitRunAppend(Decimal(n), rest);
    AllDigitsRun(Decimal(n));
    DecimalRoundTrip(n);
    assert s[1 + |Decimal(n)|..] == rest;
  }

  lemma {:induction false} AllDigitsRun(s: string)
    requires AllDigits(s)
    ensures DigitRun(s) == s
  {
    if s != [] {
      AllDigitsRun(s[1..]);
    }
  }

  lemma AppendAssoc(a: string, b: string, c: string)
    ensures (a + b) + c == a + (b + c)
  {
  }

  /** Number of times `ch` occurs in `s`. */
  function Occurrences(s: string, ch: char): nat {
    if s == [] then 0 else Occurrences(s[..|s| - 1], ch) + (if s[|s| - 1] == ch then 1 else 0)
  }

  lemma {:induction false} OccurrencesAppend(a: string, b: string, ch: char)
    ensures Occurrences(a + b, ch) == Occurrences(a, ch) + Occurrences(b, ch)
    decreases |b|
  {
    if b == [] {
      assert a + b == a;
    } else {
      assert (a + b)[..|a + b| - 1] == a + b[..|b| - 1];
      OccurrencesAppend(a, b[..|b| - 1], ch);
    }
  }

  lemma {:induction false} OccurrencesAbsent(s: string, ch: char)
    requires ch !in s
    ensures Occurrences(s, ch) == 0
  {
    if s != [] {
      assert s[..|s| - 1] <= s;
      OccurrencesAbsent(s[..|s| - 1], ch);
    }
  }
}
