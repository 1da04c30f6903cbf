/** Strings as the source uses them: stripping, ordering and decimal numbers. */
module Text {
  import opened Common

  // ---- strip ------------------------------------------------------------------

  function StripLeft(isSpace: char -> bool, s: string): string {
    if s != "" && isSpace(s[0]) then StripLeft(isSpace, s[1..]) else s
  }

  function StripRight(isSpace: char -> bool, s: string): string {
    if s != "" && isSpace(s[|s| - 1]) then StripRight(isSpace, s[..|s| - 1]) else s
  }

  /** `str.strip()`, for a given notion of whitespace. */
  function Strip(isSpace: char -> bool, s: string): string {
    StripRight(isSpace, StripLeft(isSpace, s))
  }

  /** No whitespace at either end. */
  predicate Trimmed(isSpace: char -> bool, s: string) {
    s != "" ==> !isSpace(s[0]) && !isSpace(s[|s| - 1])
  }

  lemma {:induction false} StripTrimmed(isSpace: char -> bool, s: string)
    requires Trimmed(isSpace, s)
    ensures Strip(isSpace, s) == s
  {}

  lemma {:induction false} StripIsTrimmed(isSpace: char -> bool, s: string)
    ensures Trimmed(isSpace, Strip(isSpace, s))
  {
    StripLeftTrims(isSpace, s);
    StripRightTrims(isSpace, StripLeft(isSpace, s));
  }

  /** Only whitespace goes, from both ends. */
  lemma {:induction false} StripIsExact(isSpace: char -> bool, s: string) returns (left: string, right: string)
    ensures s == left + Strip(isSpace, s) + right
    ensures forall c :: c in left || c in right ==> isSpace(c)
  {
    left := LeftIsExact(isSpace, s);
    right := RightIsExact(isSpace, StripLeft(isSpace, s));
  }

  lemma {:induction false} LeftIsExact(isSpace: char -> bool, s: string) returns (left: string)
    ensures s == left + StripLeft(isSpace, s) && forall c :: c in left ==> isSpace(c)
  {
    left := "";
    if s != "" && isSpace(s[0]) {
      left := LeftIsExact(isSpace, s[1..]);
      left := [s[0]] + left;
    }
  }

  lemma {:induction false} RightIsExact(isSpace: char -> bool, s: string) returns (right: string)
    ensures s == StripRight(isSpace, s) + right && forall c :: c in right ==> isSpace(c)
  {
    right := "";
    if s != "" && isSpace(s[|s| - 1]) {
      right := RightIsExact(isSpace, s[..|s| - 1]);
      right := right + [s[|s| - 1]];
    }
  }

  lemma {:induction false} StripLeftTrims(isSpace: char -> bool, s: string)
    ensures StripLeft(isSpace, s) != "" ==> !isSpace(StripLeft(isSpace, s)[0])
  {
    if s != "" && isSpace(s[0]) { StripLeftTrims(isSpace, s[1..]); }
  }

  lemma {:induction false} StripRightTrims(isSpace: char -> bool, s: string)
    requires s != "" ==> !isSpace(s[0])
    ensures Trimmed(isSpace, StripRight(isSpace, s))
  {
    if s != "" && isSpace(s[|s| - 1]) { StripRightTrims(isSpace, s[..|s| - 1]); }
  }

  // ---- order ------------------------------------------------------------------

  /** Lexicographic order by code point. */
  predicate Less(a: string, b: string) {
    b != "" && (a == "" || a[0] < b[0] || (a[0] == b[0] && Less(a[1..], b[1..])))
  }

  /** The first `n` characters agree, and then `a` ends or has the smaller code point. */
  ghost predicate DiffersAt(a: string, b: string, n: nat) {
    n <= |a| && n < |b| && a[..n] == b[..n] && (n == |a| || a[n] as int < b[n] as int)
  }

  lemma {:induction false} LessExact(a: string, b: string)
    ensures Less(a, b) <==> exists n: nat :: DiffersAt(a, b, n)
  {
    if a == "" || b == "" || a[0] != b[0] {
      assert Less(a, b) ==> DiffersAt(a, b, 0);
    } else {
      LessExact(a[1..], b[1..]);
      if n: nat :| DiffersAt(a[1..], b[1..], n) {
        assert a[..n + 1] == [a[0]] + a[1..][..n] && b[..n + 1] == [b[0]] + b[1..][..n];
        assert DiffersAt(a, b, n + 1);
      }
      if n: nat :| DiffersAt(a, b, n) && n > 0 {
        assert a[1..][..n - 1] == a[..n][1..] && b[1..][..n - 1] == b[..n][1..];
        assert DiffersAt(a[1..], b[1..], n - 1);
      }
    }
  }

  lemma {:induction false} LessTotal(a: string, b: string)
    ensures Less(a, b) || a == b || Less(b, a)
    ensures !(Less(a, b) && Less(b, a))
    ensures Less(a, b) || Less(b, a) ==> a != b
  {
    if a != "" && b != "" {
      LessTotal(a[1..], b[1..]);
      assert a == [a[0]] + a[1..] && b == [b[0]] + b[1..];
    }
  }

  lemma {:induction false} LessTransitive(a: string, b: string, c: string)
    requires Less(a, b) && Less(b, c)
    ensures Less(a, c)
  {
    if a != "" && a[0] == b[0] == c[0] {
      LessTransitive(a[1..], b[1..], c[1..]);
    }
  }

  // ---- decimal numbers --------------------------------------------------------

  function Digit(d: nat): char
    requires d < 10
  {
    "0123456789"[d]
  }

  /** `str(n)`. */
  function Decimal(n: nat): (s: string)
    ensures s != ""
  {
    if n < 10 then [Digit(n)] else Decimal(n / 10) + [Digit(n % 10)]
  }

  predicate IsDigit(c: char) { '0' <= c <= '9' }

  /** `int(s)` on a string of digits. */
  function Value(s: string): nat {
    if s == "" then 0
    else Value(s[..|s| - 1]) * 10 + if IsDigit(s[|s| - 1]) then (s[|s| - 1] as int) - ('0' as int) else 0
  }

  lemma {:induction false} DigitValue(d: nat)
    requires d < 10
    ensures IsDigit(Digit(d)) && (Digit(d) as int) - ('0' as int) == d
  {}

  lemma {:induction false} DecimalValue(n: nat)
    ensures Value(Decimal(n)) == n
    ensures forall i :: 0 <= i < |Decimal(n)| ==> IsDigit(Decimal(n)[i])
  {
    if n < 10 {
      DigitValue(n);
      assert Decimal(n)[..0] == "";
    } else {
      DecimalValue(n / 10);
      DigitValue(n % 10);
      assert Decimal(n)[..|Decimal(n)| - 1] == Decimal(n / 10);
    }
  }

  lemma {:induction false} DecimalInjective(m: nat, n: nat)
    requires Decimal(m) == Decimal(n)
    ensures m == n
  {
    DecimalValue(m);
    DecimalValue(n);
  }
}
