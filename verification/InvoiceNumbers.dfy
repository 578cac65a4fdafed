/** Printed document numbers: allocateNumber and financialYear of internal/billing/billing.go. */
module InvoiceNumbers {
  import opened Sums

  // ----- Decimal ------------------------------------------------------------

  function Digit(d: nat): char
    requires d < 10
  {
    '0' + d as char
  }

  predicate IsDigit(c: char) {
    '0' <= c <= '9'
  }

  function DigitValue(c: char): int {
    c as int - '0' as int
  }

  function Decimal(n: nat): (s: string)
    ensures s != [] && forall c :: c in s ==> IsDigit(c)
  {
    if n < 10 then [Digit(n)] else Decimal(n / 10) + [Digit(n % 10)]
  }

  function Zeros(n: nat): (s: string)
    ensures |s| == n && forall c :: c in s ==> c == '0'
  {
    if n == 0 then "" else Zeros(n - 1) + "0"
  }

  /** fmt's %0*d for a non-negative number. */
  function Padded(n: nat, width: nat): (s: string)
    ensures forall c :: c in s ==> IsDigit(c)
    ensures |s| >= width
  {
    var digits := Decimal(n);
    if |digits| >= width then digits else Zeros(width - |digits|) + digits
  }

  function ValueOf(s: string): int {
    if s == [] then 0 else 10 * ValueOf(s[..|s| - 1]) + DigitValue(s[|s| - 1])
  }

  lemma {:induction false} ZerosThen(k: nat, s: string)
    ensures ValueOf(Zeros(k) + s) == ValueOf(s)
  {
    if s == [] {
      assert Zeros(k) + s == Zeros(k);
      if k > 0 {
        ZerosThen(k - 1, s);
        assert Zeros(k - 1) + s == Zeros(k - 1);
        assert Zeros(k)[..k - 1] == Zeros(k - 1);
      }
    } else {
      var n := |s| - 1;
      ZerosThen(k, s[..n]);
      assert (Zeros(k) + s)[..|Zeros(k) + s| - 1] == Zeros(k) + s[..n];
    }
  }

  lemma {:induction false} DecimalRoundTrip(n: nat)
    ensures ValueOf(Decimal(n)) == n
  {
    if n < 10 {
      assert Decimal(n)[..0] == [];
    } else {
      DecimalRoundTrip(n / 10);
      assert Decimal(n)[..|Decimal(n)| - 1] == Decimal(n / 10);
    }
  }

  lemma PaddedRoundTrip(n: nat, width: nat)
    ensures ValueOf(Padded(n, width)) == n
  {
    DecimalRoundTrip(n);
    if |Decimal(n)| < width {
      ZerosThen(width - |Decimal(n)|, Decimal(n));
    }
  }

  // ----- Financial years ----------------------------------------------------

  datatype Date = Date(year: nat, month: nat)

  /** April to March. */
  function FinancialYear(on: Date): nat
    requires on.year >= 1
  {
    if on.month < 4 then on.year - 1 else on.year
  }

  /** A financial year runs from the April of its own year to the March of the next. */
  lemma FinancialYearSpans(on: Date, year: nat)
    requires on.year >= 1
    ensures FinancialYear(on) == year <==> (on.year == year && on.month >= 4) || (on.year == year + 1 && on.month <= 3)
  {
  }

  /** "2026-27". */
  function ScopeOf(year: nat): string {
    Decimal(year) + "-" + Padded((year + 1) % 100, 2)
  }

  /** prefix/scope/number, as printed. */
  function Printed(prefix: string, year: nat, padding: nat, number: nat): string {
    prefix + "/" + ScopeOf(year) + "/" + Padded(number, padding)
  }

  // ----- Reading a printed number back --------------------------------------

  /** What precedes and follows the last occurrence of a character. */
  function SplitLast(s: string, c: char): Option<(string, string)> {
    if s == [] then None
    else
      var n := |s| - 1;
      if s[n] == c then Some((s[..n], ""))
      else
        match SplitLast(s[..n], c)
        case None => None
        case Some(parts) => Some((parts.0, parts.1 + [s[n]]))
  }

  lemma {:induction false} SplitsAtLast(a: string, c: char, b: string)
    requires c !in b
    ensures SplitLast(a + [c] + b, c) == Some((a, b))
  {
    var s := a + [c] + b;
    var n := |s| - 1;
    if b == [] {
      assert s[..n] == a;
    } else {
      SplitsAtLast(a, c, b[..|b| - 1]);
      assert s[..n] == a + [c] + b[..|b| - 1];
      assert b == b[..|b| - 1] + [s[n]];
    }
  }

  /** `ending` is the second year of the scope, as far as it is printed. */
  datatype Read = Read(prefix: string, year: int, ending: int, number: int)

  function ReadBack(s: string): Option<Read> {
    match SplitLast(s, '/')
    case None => None
    case Some(tail) =>
      match SplitLast(tail.0, '/')
      case None => None
      case Some(head) =>
        match SplitLast(head.1, '-')
        case None => None
        case Some(scope) => Some(Read(head.0, ValueOf(scope.0), ValueOf(scope.1), ValueOf(tail.1)))
  }

  /** The printed form determines prefix, year and number, whatever the padding. */
  lemma PrintRoundTrip(prefix: string, year: nat, padding: nat, number: nat)
    ensures ReadBack(Printed(prefix, year, padding, number)) == Some(Read(prefix, year, (year + 1) % 100, number))
  {
    var scope, digits := ScopeOf(year), Padded(number, padding);
    assert prefix + "/" + scope + "/" + digits == (prefix + "/" + scope) + ['/'] + digits;
    SplitsAtLast(prefix + "/" + scope, '/', digits);
    assert prefix + "/" + scope == prefix + ['/'] + scope;
    SplitsAtLast(prefix, '/', scope);
    SplitsAtLast(Decimal(year), '-', Padded((year + 1) % 100, 2));
    assert scope == Decimal(year) + ['-'] + Padded((year + 1) % 100, 2);
    DecimalRoundTrip(year);
    PaddedRoundTrip((year + 1) % 100, 2);
    PaddedRoundTrip(number, padding);
  }

  /** So two documents that print alike carry the same prefix, year and number. */
  lemma PrintInjective(p: string, y: nat, w: nat, n: nat, p': string, y': nat, w': nat, n': nat)
    requires Printed(p, y, w, n) == Printed(p', y', w', n')
    ensures p == p' && y == y' && n == n'
  {
    PrintRoundTrip(p, y, w, n);
    PrintRoundTrip(p', y', w', n');
  }
}
