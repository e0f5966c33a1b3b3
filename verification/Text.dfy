/** The string operations of Rust's standard library that the models need. */
module Text {
  import opened Results

  /** Unicode White_Space, as `char::is_whitespace` */
  predicate IsWhitespace(c: char) {
    var n := c as int;
    || 0x9 <= n <= 0xD || n == 0x20 || n == 0x85 || n == 0xA0 || n == 0x1680
    || 0x2000 <= n <= 0x200A || n == 0x2028 || n == 0x2029 || n == 0x202F || n == 0x205F || n == 0x3000
  }

  /** The 25 code points with the property White_Space. */
  lemma {:induction false} WhitespaceIs(c: char)
    ensures IsWhitespace(c) <==> c as int in {
      0x9, 0xA, 0xB, 0xC, 0xD, 0x20, 0x85, 0xA0, 0x1680, 0x2000, 0x2001, 0x2002, 0x2003, 0x2004, 0x2005, 0x2006,
      0x2007, 0x2008, 0x2009, 0x200A, 0x2028, 0x2029, 0x202F, 0x205F, 0x3000}
  {
  }

  function TrimStart(s: string): string {
    if s != [] && IsWhitespace(s[0]) then TrimStart(s[1..]) else s
  }

  function TrimEnd(s: string): string {
    if s != [] && IsWhitespace(s[|s| - 1]) then TrimEnd(s[..|s| - 1]) else s
  }

  function Trim(s: string): string {
    TrimEnd(TrimStart(s))
  }

  lemma {:induction false} TrimStartTrims(s: string)
    ensures var r := TrimStart(s); |r| <= |s| && r == s[|s| - |r|..] && (r != [] ==> !IsWhitespace(r[0]))
  {
    if s != [] && IsWhitespace(s[0]) {
      TrimStartTrims(s[1..]);
    }
  }

  lemma {:induction false} TrimEndTrims(s: string)
    ensures var r := TrimEnd(s); |r| <= |s| && r == s[..|r|] && (r != [] ==> !IsWhitespace(r[|r| - 1]))
  {
    if s != [] && IsWhitespace(s[|s| - 1]) {
      TrimEndTrims(s[..|s| - 1]);
    }
  }

  /** What is left neither starts nor ends with white space. */
  lemma {:induction false} TrimTrims(s: string)
    ensures Trim(s) != [] ==> !IsWhitespace(Trim(s)[0]) && !IsWhitespace(Trim(s)[|Trim(s)| - 1])
  {
    TrimStartTrims(s);
    TrimEndTrims(TrimStart(s));
  }

  lemma {:induction false} TrimEmptyIffBlank(s: string)
    ensures Trim(s) == [] <==> forall i :: 0 <= i < |s| ==> IsWhitespace(s[i])
  {
    TrimStartTrims(s);
    StartBlank(s);
    EndBlank(TrimStart(s));
  }

  lemma {:induction false} StartBlank(s: string)
    ensures TrimStart(s) == [] <==> forall i :: 0 <= i < |s| ==> IsWhitespace(s[i])
  {
    if s != [] && IsWhitespace(s[0]) {
      StartBlank(s[1..]);
      assert forall i :: 0 < i < |s| ==> s[i] == s[1..][i - 1];
      assert forall i :: 0 <= i < |s[1..]| ==> s[1..][i] == s[i + 1];
    }
  }

  lemma {:induction false} EndBlank(s: string)
    ensures TrimEnd(s) == [] <==> forall i :: 0 <= i < |s| ==> IsWhitespace(s[i])
  {
    if s != [] && IsWhitespace(s[|s| - 1]) {
      EndBlank(s[..|s| - 1]);
    }
  }

  /** `trim_matches(c)` */
  function TrimMatches(s: string, c: char): (r: string)
    ensures r != [] ==> r[0] != c && r[|r| - 1] != c
    decreases |s|
  {
    if s != [] && s[0] == c then TrimMatches(s[1..], c)
    else if s != [] && s[|s| - 1] == c then TrimMatches(s[..|s| - 1], c)
    else s
  }

  function ReplaceChar(s: string, from: char, to: string): string {
    if s == [] then [] else (if s[0] == from then to else [s[0]]) + ReplaceChar(s[1..], from, to)
  }

  /** Replacing one character by another one changes just its places. */
  lemma {:induction false} ReplacedAt(s: string, from: char, to: char)
    ensures |ReplaceChar(s, from, [to])| == |s|
    ensures forall i :: 0 <= i < |s| ==> ReplaceChar(s, from, [to])[i] == if s[i] == from then to else s[i]
  {
    if s != [] {
      ReplacedAt(s[1..], from, to);
    }
  }

  /** `r` is `s` without its first `k` characters and those after them and `r`, all of which are `c`. */
  ghost predicate IsTrimmedBy(s: string, r: string, c: char, k: nat) {
    && k + |r| <= |s| && r == s[k..k + |r|]
    && (forall i :: 0 <= i < k ==> s[i] == c) && (forall i :: k + |r| <= i < |s| ==> s[i] == c)
  }

  /** Trimming a character cuts off only that character, at both ends. */
  lemma {:induction false} TrimMatchesCuts(s: string, c: char) returns (k: nat)
    ensures IsTrimmedBy(s, TrimMatches(s, c), c, k)
    decreases |s|
  {
    k := 0;
    if s != [] && s[0] == c {
      var rest := TrimMatchesCuts(s[1..], c);
      k := rest + 1;
      assert forall i :: 0 < i < |s| ==> s[i] == s[1..][i - 1];
    } else if s != [] && s[|s| - 1] == c {
      k := TrimMatchesCuts(s[..|s| - 1], c);
    }
  }

  /** Trimming a character leaves nothing exactly when there is nothing else, and invents nothing. */
  lemma {:induction false} TrimMatchesKeeps(s: string, c: char)
    ensures TrimMatches(s, c) == [] <==> forall i :: 0 <= i < |s| ==> s[i] == c
    ensures forall x :: x in TrimMatches(s, c) ==> x in s
    ensures s != [] && s[0] != c && s[|s| - 1] != c ==> TrimMatches(s, c) == s
    decreases |s|
  {
    if s != [] && s[0] == c {
      TrimMatchesKeeps(s[1..], c);
      assert s == [s[0]] + s[1..];
      assert forall i :: 0 < i < |s| ==> s[i] == s[1..][i - 1];
      assert forall i :: 0 <= i < |s[1..]| ==> s[1..][i] == s[i + 1];
    } else if s != [] && s[|s| - 1] == c {
      TrimMatchesKeeps(s[..|s| - 1], c);
    }
  }

  // ---------- Decimal numbers ----------

  predicate IsDigit(c: char) { '0' <= c <= '9' }

  function DigitValue(c: char): (d: nat)
    requires IsDigit(c)
    ensures d < 10
  {
    c as int - '0' as int
  }

  function Digit(d: nat): (c: char)
    requires d < 10
    ensures IsDigit(c) && DigitValue(c) == d
  {
    ('0' as int + d) as char
  }

  /** Shortest decimal form. */
  function Decimal(n: nat): (s: string)
    ensures s != [] && forall i :: 0 <= i < |s| ==> IsDigit(s[i])
  {
    if n < 10 then [Digit(n)] else Decimal(n / 10) + [Digit(n % 10)]
  }

  /** `{:04}` */
  function Padded4(n: nat): string {
    var s := Decimal(n);
    if |s| >= 4 then s else Zeros(4 - |s|) + s
  }

  function Zeros(n: nat): string { seq(n, _ => '0') }

  function DigitsValue(s: string): nat
    requires forall i :: 0 <= i < |s| ==> IsDigit(s[i])
  {
    if s == [] then 0 else 10 * DigitsValue(s[..|s| - 1]) + DigitValue(s[|s| - 1])
  }

  /** `str::parse` for an unsigned type with values below `limit`. */
  function ParseUnsigned(s: string, limit: nat): (n: Option<nat>)
    ensures n.Some? ==> n.value < limit
  {
    var digits := if s != [] && s[0] == '+' then s[1..] else s;
    if digits == [] || exists i :: 0 <= i < |digits| && !IsDigit(digits[i]) then None
    else if DigitsValue(digits) < limit then Some(DigitsValue(digits))
    else None
  }

  lemma {:induction false} DecimalValue(n: nat)
    ensures DigitsValue(Decimal(n)) == n
  {
    if n >= 10 {
      DecimalValue(n / 10);
      assert Decimal(n)[..|Decimal(n)| - 1] == Decimal(n / 10);
    }
  }

  lemma {:induction false} TrimNothing(s: string)
    requires s == [] || (!IsWhitespace(s[0]) && !IsWhitespace(s[|s| - 1]))
    ensures Trim(s) == s
  {
  }

  lemma {:induction false} TrimIsTrimmed(s: string)
    ensures Trim(Trim(s)) == Trim(s)
  {
    TrimTrims(s);
    TrimNothing(Trim(s));
  }

  lemma {:induction false} ParseDigits(s: string, limit: nat)
    requires s != [] && forall i :: 0 <= i < |s| ==> IsDigit(s[i])
    requires DigitsValue(s) < limit
    ensures ParseUnsigned(s, limit) == Some(DigitsValue(s))
  {
    assert IsDigit(s[0]) && s[0] != '+';
  }

  /** A number printed and read back, with or without blanks around it. */
  lemma {:induction false} ParsePrinted(n: nat, limit: nat)
    requires n < limit
    ensures ParseUnsigned(Trim(Decimal(n)), limit) == Some(n)
  {
    var s := Decimal(n);
    DigitIsNotBlank(s[0]);
    DigitIsNotBlank(s[|s| - 1]);
    TrimNothing(s);
    DecimalValue(n);
    ParseDigits(s, limit);
  }

  lemma {:induction false} DigitIsNotBlank(c: char)
    requires IsDigit(c)
    ensures !IsWhitespace(c)
  {
    assert 48 <= c as int <= 57;
  }

  lemma {:induction false} ZerosAreWorthless(n: nat, s: string)
    requires forall i :: 0 <= i < |s| ==> IsDigit(s[i])
    ensures DigitsValue(Zeros(n) + s) == DigitsValue(s)
    decreases n, |s|
  {
    if s != [] {
      ZerosAreWorthless(n, s[..|s| - 1]);
      assert (Zeros(n) + s)[..n + |s| - 1] == Zeros(n) + s[..|s| - 1];
    } else if n > 0 {
      ZerosAreWorthless(n - 1, []);
      assert Zeros(n) + [] == Zeros(n) && (Zeros(n - 1) + []) == Zeros(n - 1);
      assert Zeros(n)[..n - 1] == Zeros(n - 1);
    }
  }

  /** A padded number has at least four digits, no more than it needs beyond that, and still its value. */
  lemma {:induction false} PaddedValue(n: nat)
    ensures forall i :: 0 <= i < |Padded4(n)| ==> IsDigit(Padded4(n)[i])
    ensures DigitsValue(Padded4(n)) == n
    ensures |Padded4(n)| == if |Decimal(n)| >= 4 then |Decimal(n)| else 4
  {
    DecimalValue(n);
    if |Decimal(n)| < 4 {
      ZerosAreWorthless(4 - |Decimal(n)|, Decimal(n));
    }
  }

  /** Order of strings by their characters. */
  predicate LexLe(a: string, b: string) {
    a == [] || (b != [] && (a[0] < b[0] || (a[0] == b[0] && LexLe(a[1..], b[1..]))))
  }

  /** The order of strings: a prefix comes first, otherwise the first character that differs decides. */
  lemma {:induction false} LexLeIff(a: string, b: string)
    ensures LexLe(a, b) <==> a <= b || exists k: nat :: FirstDifference(a, b, k) && a[k] < b[k]
  {
    if a != [] && b != [] && a[0] == b[0] {
      LexLeIff(a[1..], b[1..]);
      assert a == [a[0]] + a[1..] && b == [b[0]] + b[1..];
      if k: nat :| FirstDifference(a[1..], b[1..], k) && a[1..][k] < b[1..][k] {
        assert a[..k + 1] == [a[0]] + a[1..][..k] && b[..k + 1] == [b[0]] + b[1..][..k];
        assert FirstDifference(a, b, k + 1);
      }
      if k: nat :| FirstDifference(a, b, k) && a[k] < b[k] {
        assert a[1..][..k - 1] == a[..k][1..] && b[1..][..k - 1] == b[..k][1..];
        assert FirstDifference(a[1..], b[1..], k - 1);
      }
    } else if a != [] && b != [] {
      assert FirstDifference(a, b, 0);
      if k: nat :| FirstDifference(a, b, k) {
        SameBefore(a, b, k);
      }
    }
  }

  lemma {:induction false} SameBefore(a: string, b: string, k: nat)
    requires FirstDifference(a, b, k)
    ensures forall i :: 0 <= i < k ==> a[i] == b[i]
  {
    assert forall i :: 0 <= i < k ==> a[..k][i] == b[..k][i];
  }

  ghost predicate FirstDifference(a: string, b: string, k: nat) {
    k < |a| && k < |b| && a[..k] == b[..k] && a[k] != b[k]
  }

  lemma {:induction false} LexTotal(a: string, b: string)
    ensures LexLe(a, b) || LexLe(b, a)
  {
    if a != [] && b != [] && a[0] == b[0] {
      LexTotal(a[1..], b[1..]);
    }
  }

  lemma {:induction false} LexTransitive(a: string, b: string, c: string)
    requires LexLe(a, b) && LexLe(b, c)
    ensures LexLe(a, c)
  {
    if a != [] && a[0] == b[0] == c[0] {
      LexTransitive(a[1..], b[1..], c[1..]);
    }
  }
}
