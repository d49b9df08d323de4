/** The numbers passed to docker (formatDockerCPUs and formatDockerMemory in
    pkg/worker/docker_runner.go). */
module DockerFormat {

  const MIB: nat := 0x10_0000
  const UINT64: nat := 0x1_0000_0000_0000_0000
  const UINT32: nat := 0x1_0000_0000

  predicate IsDigit(c: char) {
    '0' <= c <= '9'
  }

  function Digit(d: nat): char
    requires d < 10
  {
    '0' + d as char
  }

  function Decimal(n: nat): string {
    if n < 10 then [Digit(n)] else Decimal(n / 10) + [Digit(n % 10)]
  }

  /** Trailing copies of c removed. */
  function TrimRight(s: string, c: char): string {
    if s != [] && s[|s| - 1] == c then TrimRight(s[..|s| - 1], c) else s
  }

  /** "%.3f": the nearest number of thousandths, with three digits after the point. */
  function FixedThree(x: real): string
    requires x >= 0.0
  {
    var t := (x * 1000.0 + 0.5).Floor;
    var r := t % 1000;
    Decimal(t / 1000) + "." + [Digit(r / 100), Digit(r / 10 % 10), Digit(r % 10)]
  }

  /** Trailing zeros and a bare point dropped. */
  function Shortened(fixed: string): string {
    var s := TrimRight(TrimRight(fixed, '0'), '.');
    if s == "" then "0" else s
  }

  /** The text for the float64 quotient of cpuMillis by 1000. */
  function FormatCPUs(cpus: real): string
    requires cpus >= 0.0
  {
    Shortened(FixedThree(cpus))
  }

  /** Multiples of 2^-30; below 2^23 every one of them is a float64. */
  function Grid(k: nat): real {
    k as real / 1073741824.0
  }

  function Distance(x: real, y: real): real {
    if x < y then y - x else x - y
  }

  /** What is known of the float64 quotient: being the representable number nearest to the exact
      one, it is at least as near as any multiple of 2^-30. */
  ghost predicate IsQuotient(cpus: real, cpuMillis: nat) {
    && cpus >= 0.0
    && forall k :: Distance(cpus, cpuMillis as real / 1000.0) <= Distance(Grid(k), cpuMillis as real / 1000.0)
  }

  /** uint64 arithmetic: the rounding sum wraps. */
  function MemoryUnits(bytes: nat): nat
    requires bytes < UINT64
  {
    var m := (bytes + MIB - 1) % UINT64 / MIB;
    if m == 0 then 1 else m
  }

  function FormatMemory(bytes: nat): string
    requires bytes < UINT64
  {
    Decimal(MemoryUnits(bytes)) + "m"
  }

  // ---------------------------------------------------------------------------------------
  // Reading numbers back
  // ---------------------------------------------------------------------------------------

  predicate AllDigits(s: string) {
    forall i | 0 <= i < |s| :: IsDigit(s[i])
  }

  function Number(s: string): nat
    requires AllDigits(s)
  {
    if s == [] then 0 else 10 * Number(s[..|s| - 1]) + (s[|s| - 1] - '0') as nat
  }

  function PointAt(s: string): (k: nat)
    ensures k <= |s| && (k < |s| ==> s[k] == '.')
    ensures forall j | 0 <= j < k :: s[j] != '.'
  {
    if s == [] || s[0] == '.' then 0 else 1 + PointAt(s[1..])
  }

  /** A decimal with at most three places, in thousandths. */
  predicate IsDecimal(s: string) {
    var k := PointAt(s);
    && k > 0 && AllDigits(s[..k])
    && (k < |s| ==> 1 <= |s| - k - 1 <= 3 && AllDigits(s[k + 1..]))
  }

  function Thousandths(s: string): nat
    requires IsDecimal(s)
  {
    var k := PointAt(s);
    Number(s[..k]) * 1000
    + if k == |s| then 0
      else if |s| - k - 1 == 1 then Number(s[k + 1..]) * 100
      else if |s| - k - 1 == 2 then Number(s[k + 1..]) * 10
      else Number(s[k + 1..])
  }

  /** No leading zero beside a lone 0, no bare point, no trailing zero after the point. */
  predicate Canonical(s: string) {
    var k := PointAt(s);
    && k > 0 && (s[0] == '0' ==> k == 1)
    && (k < |s| ==> k + 1 < |s| && s[|s| - 1] != '0')
  }

  lemma {:induction false} DecimalReadsBack(n: nat)
    ensures AllDigits(Decimal(n)) && |Decimal(n)| > 0 && Number(Decimal(n)) == n
    ensures Decimal(n)[0] == '0' ==> n == 0 && Decimal(n) == "0"
  {
    if n < 10 {
      assert Decimal(n)[..0] == [];
    } else {
      DecimalReadsBack(n / 10);
      var s := Decimal(n);
      assert s[..|s| - 1] == Decimal(n / 10);
    }
  }

  lemma {:induction false} PointAfterDigits(digits: string, rest: string)
    requires AllDigits(digits)
    ensures PointAt(digits + "." + rest) == |digits| && PointAt(digits) == |digits|
  {
    if digits == [] {
      assert digits + "." + rest == "." + rest;
    } else {
      PointAfterDigits(digits[1..], rest);
      assert (digits + "." + rest)[1..] == digits[1..] + "." + rest;
    }
  }

  lemma TrimOne(s: string, c: char)
    ensures TrimRight(s + [c], c) == TrimRight(s, c)
  {
    assert (s + [c])[..|s|] == s;
  }

  lemma TrimNone(s: string, last: char, c: char)
    requires last != c
    ensures TrimRight(s + [last], c) == s + [last]
  {
  }

  /** Which of the three places are left after trimming. */
  lemma ShortForm(q: string, a: char, b: char, c: char)
    requires q != "" && AllDigits(q) && IsDigit(a) && IsDigit(b) && IsDigit(c)
    ensures Shortened(q + "." + [a, b, c]) ==
              if c != '0' then q + "." + [a, b, c]
              else if b != '0' then q + "." + [a, b]
              else if a != '0' then q + "." + [a]
              else q
  {
    var one, two := q + "." + [a], q + "." + [a, b];
    assert q + "." + [a, b, c] == two + [c] && two == one + [b] && one == (q + ".") + [a];
    if c != '0' {
      TrimNone(two, c, '0');
      TrimNone(two, c, '.');
    } else {
      TrimOne(two, '0');
      if b != '0' {
        TrimNone(one, b, '0');
        TrimNone(one, b, '.');
      } else {
        TrimOne(one, '0');
        ShortestForm(q, a);
      }
    }
  }

  lemma ShortestForm(q: string, a: char)
    requires q != "" && AllDigits(q) && IsDigit(a)
    ensures TrimRight(TrimRight(q + "." + [a], '0'), '.') == if a != '0' then q + "." + [a] else q
  {
    assert q + "." + [a] == (q + ".") + [a];
    if a != '0' {
      TrimNone(q + ".", a, '0');
      TrimNone(q + ".", a, '.');
    } else {
      TrimOne(q + ".", '0');
      TrimNone(q, '.', '0');
      TrimOne(q, '.');
      assert q == q[..|q| - 1] + [q[|q| - 1]];
      TrimNone(q[..|q| - 1], q[|q| - 1], '.');
    }
  }

  lemma SmallNumbers(a: nat, b: nat, c: nat)
    requires a < 10 && b < 10 && c < 10
    ensures AllDigits([Digit(a), Digit(b), Digit(c)])
    ensures Number([Digit(a)]) == a
    ensures Number([Digit(a), Digit(b)]) == 10 * a + b
    ensures Number([Digit(a), Digit(b), Digit(c)]) == 100 * a + 10 * b + c
  {
    assert [Digit(a)][..0] == [];
    assert [Digit(a), Digit(b)][..1] == [Digit(a)];
    assert [Digit(a), Digit(b), Digit(c)][..2] == [Digit(a), Digit(b)];
  }

  lemma DigitsOf(r: nat)
    requires r < 1000
    ensures r == 100 * (r / 100) + 10 * (r / 10 % 10) + r % 10
  {
  }

  ghost predicate ReadsAs(s: string, thousandths: nat) {
    IsDecimal(s) && Canonical(s) && Thousandths(s) == thousandths
  }

  lemma WholeReadsBack(n: nat)
    ensures ReadsAs(Decimal(n), 1000 * n)
  {
    DecimalReadsBack(n);
    PointAfterDigits(Decimal(n), "");
    assert Decimal(n)[..|Decimal(n)|] == Decimal(n);
  }

  lemma FractionReadsBack(n: nat, f: string)
    requires AllDigits(f) && 1 <= |f| <= 3 && f[|f| - 1] != '0'
    ensures ReadsAs(Decimal(n) + "." + f, 1000 * n + Number(f) * (if |f| == 1 then 100 else if |f| == 2 then 10 else 1))
  {
    DecimalReadsBack(n);
    ReadParts(Decimal(n), f);
  }

  /** The float64 quotient is within 2^-31 of the exact one. */
  lemma QuotientIsClose(cpus: real, cpuMillis: nat)
    requires IsQuotient(cpus, cpuMillis)
    ensures Distance(cpus, cpuMillis as real / 1000.0) <= 1.0 / 2147483648.0
  {
    var exact := cpuMillis as real / 1000.0;
    var k := (exact * 1073741824.0 + 0.5).Floor;
    assert Distance(cpus, exact) <= Distance(Grid(k), exact);
  }

  /** So rounding it to thousandths loses nothing. */
  lemma QuotientRoundsBack(cpus: real, cpuMillis: nat)
    requires IsQuotient(cpus, cpuMillis)
    ensures (cpus * 1000.0 + 0.5).Floor == cpuMillis
  {
    QuotientIsClose(cpus, cpuMillis);
  }

  /** For every uint32 and whatever float64 its division by 1000 yields, the text is a canonical
      decimal and reads back as exactly cpuMillis / 1000. */
  lemma CPUsReadBack(cpuMillis: nat, cpus: real)
    requires cpuMillis < UINT32 && IsQuotient(cpus, cpuMillis)
    ensures ReadsAs(FormatCPUs(cpus), cpuMillis)
  {
    var r := cpuMillis % 1000;
    QuotientRoundsBack(cpus, cpuMillis);
    DigitsOf(r);
    PlacesReadBack(cpuMillis / 1000, r / 100, r / 10 % 10, r % 10);
  }

  lemma PlacesReadBack(n: nat, a: nat, b: nat, c: nat)
    requires a < 10 && b < 10 && c < 10
    ensures ReadsAs(Shortened(Decimal(n) + "." + [Digit(a), Digit(b), Digit(c)]), 1000 * n + 100 * a + 10 * b + c)
  {
    DecimalReadsBack(n);
    ShortForm(Decimal(n), Digit(a), Digit(b), Digit(c));
    SmallNumbers(a, b, c);
    if c != 0 {
      FractionReadsBack(n, [Digit(a), Digit(b), Digit(c)]);
    } else if b != 0 {
      FractionReadsBack(n, [Digit(a), Digit(b)]);
    } else if a != 0 {
      FractionReadsBack(n, [Digit(a)]);
    } else {
      WholeReadsBack(n);
    }
  }

  lemma ReadParts(q: string, f: string)
    requires AllDigits(q) && q != "" && AllDigits(f) && 1 <= |f| <= 3
    ensures var s := q + "." + f;
            && IsDecimal(s) && PointAt(s) == |q| && s[|s| - 1] == f[|f| - 1] && s[0] == q[0]
            && Thousandths(s) == Number(q) * 1000 + Number(f) * (if |f| == 1 then 100 else if |f| == 2 then 10 else 1)
  {
    var s := q + "." + f;
    PointAfterDigits(q, f);
    assert s[..|q|] == q && s[|q| + 1..] == f;
  }

  /** The MiB count covers the bytes exactly up to 2^64 - 2^20; above that the rounding sum
      wraps and the count is 1. */
  lemma MemoryCoversIff(bytes: nat)
    requires bytes < 0x1_0000_0000_0000_0000
    ensures MemoryUnits(bytes) * 0x10_0000 >= bytes <==> bytes <= 0x1_0000_0000_0000_0000 - 0x10_0000
    ensures bytes > 0x1_0000_0000_0000_0000 - 0x10_0000 ==> MemoryUnits(bytes) == 1
  {
  }

  /** Within that range it is the least positive count that covers them, and it reads back. */
  lemma MemoryIsLeast(bytes: nat, m: nat)
    requires 0 < bytes <= 0x1_0000_0000_0000_0000 - 0x10_0000 && m * 0x10_0000 >= bytes
    ensures MemoryUnits(bytes) <= m
    ensures var s := FormatMemory(bytes);
            && s[|s| - 1] == 'm' && AllDigits(s[..|s| - 1]) && Number(s[..|s| - 1]) == MemoryUnits(bytes)
  {
    var units := Decimal(MemoryUnits(bytes));
    DecimalReadsBack(MemoryUnits(bytes));
    assert (units + "m")[..|units|] == units;
  }
}
