/** Kubernetes resource quantities as the quota code uses them: an exact amount in nano-units and
    a format that decides how the amount is printed.  Printing and parsing are concrete, because
    TreatDecimalAsBinary decides by looking at the printed text. */
module Quantities {
  import opened Wrappers

  const NANO: int := 1_000_000_000

  const MAX_INT64: int := 0x7FFF_FFFF_FFFF_FFFF

  const TWO_TO_64: int := 0x1_0000_0000_0000_0000

  const MAX_NANO: int := MAX_INT64 * NANO

  datatype Format = Unset | DecimalSI | DecimalExponent | BinarySI

  datatype Quantity = Quantity(nano: int, format: Format)

  /** Scale of a printed quantity.  Decimal(k) stands for 1000^k nano-units, so Decimal(3) is the
      empty suffix, Decimal(4) is "k" and Decimal(5) is "M"; Binary(k) stands for 1024^k units. */
  datatype Unit = Decimal(thousands: nat) | Exponent(thousands: nat) | Binary(kibis: nat)

  /** A written quantity.  Malformed is any string that the parser rejects. */
  datatype Text = Text(mantissa: int, scale: Unit) | Malformed

  const ONE: Unit := Decimal(3)

  const ZERO: Quantity := Quantity(0, Unset)

  predicate FitsInt64(x: int) { -MAX_INT64 - 1 <= x <= MAX_INT64 }

  function WrapInt64(x: int): int
  {
    (x + MAX_INT64 + 1) % TWO_TO_64 - MAX_INT64 - 1
  }

  function Abs(x: int): nat { if x < 0 then -x else x }

  function Max(x: int, y: int): int { if x < y then y else x }

  // ----- arithmetic -----

  /** Quantity.Add: a zero receiver takes over the format of what is added. */
  function Plus(q: Quantity, r: Quantity): Quantity
  {
    Quantity(q.nano + r.nano, if q.nano == 0 then r.format else q.format)
  }

  /** Quantity.Sub, with the same rule for the format. */
  function Minus(q: Quantity, r: Quantity): Quantity
  {
    Quantity(q.nano - r.nano, if q.nano == 0 then r.format else q.format)
  }

  /** Setting a negative quantity to zero keeps its format. */
  function ClampAtZero(q: Quantity): Quantity
  {
    if q.nano < 0 then q.(nano := 0) else q
  }

  /** Quantity.Value: the whole units, fractions rounded away from zero. */
  function Value(q: Quantity): (units: int)
    ensures q.nano > 0 ==> (units - 1) * NANO < q.nano <= units * NANO
    ensures q.nano < 0 ==> units * NANO <= q.nano < (units + 1) * NANO
    ensures q.nano == 0 ==> units == 0
  {
    if q.nano >= 0 then (q.nano + NANO - 1) / NANO else -((-q.nano + NANO - 1) / NANO)
  }

  // ----- printing -----

  function Pow(base: int, exponent: nat): int
  {
    if exponent == 0 then 1 else base * Pow(base, exponent - 1)
  }

  lemma MulGrows(d: int, base: int)
    requires d > 0 && base >= 2
    ensures base * d > d
  {
  }

  lemma DivideOut(n: int, base: int)
    requires n != 0 && base >= 2 && n % base == 0
    ensures n / base != 0 && base * (n / base) == n && Abs(n / base) < Abs(n)
  {
    var d := n / base;
    assert n == base * d;
    if d > 0 { MulGrows(d, base); } else if d < 0 { MulGrows(-d, base); }
  }

  lemma RegroupProduct(a: int, b: int, c: int)
    ensures a * (b * c) == b * (a * c)
  {
  }

  /** Removes every factor `base` from n. */
  function Strip(n: int, base: int): (r: (int, nat))
    requires n != 0 && base >= 2
    ensures r.0 * Pow(base, r.1) == n && r.0 % base != 0
    decreases Abs(n)
  {
    if n % base != 0 then (n, 0)
    else
      DivideOut(n, base);
      var rest := Strip(n / base, base);
      RegroupProduct(rest.0, base, Pow(base, rest.1));
      (rest.0, rest.1 + 1)
  }

  /** The format that is really used for printing: binary only for whole amounts of at least 1024. */
  function PrintFormat(q: Quantity): Format
  {
    match q.format
    case BinarySI => if Abs(q.nano) < 1024 * NANO || q.nano % NANO != 0 then DecimalSI else BinarySI
    case DecimalSI => DecimalSI
    case _ => DecimalExponent
  }

  function Print(q: Quantity): Text
  {
    if q.nano == 0 then Text(0, ONE)
    else if PrintFormat(q) == BinarySI then
      var (m, k) := Strip(q.nano / NANO, 1024);
      Text(m, if k == 0 then ONE else Binary(k))
    else
      var (m, k) := Strip(q.nano, 1000);
      Text(m, if k != 3 && PrintFormat(q) == DecimalExponent then Exponent(k) else Decimal(k))
  }

  // ----- parsing -----

  predicate ValidUnit(u: Unit)
  {
    match u
    case Decimal(k) => k <= 9
    case Exponent(k) => true
    case Binary(k) => 1 <= k <= 6
  }

  function UnitNano(u: Unit): int
  {
    match u
    case Decimal(k) => Pow(1000, k)
    case Exponent(k) => Pow(1000, k)
    case Binary(k) => Pow(1024, k) * NANO
  }

  function UnitFormat(u: Unit): Format
  {
    match u
    case Decimal(k) => DecimalSI
    case Exponent(k) => DecimalExponent
    case Binary(k) => BinarySI
  }

  /** The parser caps what does not fit into an int64 number of units. */
  function Cap(nano: int): int
  {
    if nano > MAX_NANO then MAX_NANO else if nano < -MAX_NANO then -MAX_NANO else nano
  }

  function Parse(t: Text): Option<Quantity>
  {
    match t
    case Malformed => None
    case Text(m, u) => if ValidUnit(u) then Some(Quantity(Cap(m * UnitNano(u)), UnitFormat(u))) else None
  }

  lemma PowGrows(base: int, j: nat, k: nat)
    requires base >= 2 && j <= k
    ensures 1 <= Pow(base, j) <= Pow(base, k)
  {
    if j < k {
      PowGrows(base, j, k - 1);
    } else if k > 0 {
      PowGrows(base, j - 1, k - 1);
    }
  }

  lemma ProductAtLeast(m: int, p: int)
    requires m != 0 && p >= 1
    ensures Abs(m * p) >= p
  {
    if m >= 1 { assert m * p >= p; } else { assert -m * p >= p; assert m * p == -(-m * p); }
  }

  lemma StrippedUnitIsSmall(n: int, base: int, limit: nat)
    requires n != 0 && base >= 2 && Abs(n) < Pow(base, limit)
    ensures Strip(n, base).1 < limit
  {
    var (m, k) := Strip(n, base);
    if k >= limit {
      PowGrows(base, limit, k);
      ProductAtLeast(m, Pow(base, k));
    }
  }

  lemma MoveFactor(a: int, b: int, c: int)
    ensures a * (b * c) == (a * b) * c
  {
  }

  lemma PowersOfThousand()
    ensures Pow(1000, 3) == NANO
    ensures Pow(1000, 4) == 1_000_000_000_000
    ensures Pow(1000, 5) == 1_000_000_000_000_000
    ensures Pow(1000, 6) == 1_000_000_000_000_000_000
    ensures Pow(1000, 7) == 1_000_000_000_000_000_000_000
    ensures Pow(1000, 10) == 1_000_000_000_000_000_000_000_000_000_000
  {
  }

  lemma PowersOf1024()
    ensures Pow(1024, 1) == 1024
    ensures Pow(1024, 2) == 0x10_0000
    ensures Pow(1024, 3) == 0x4000_0000
    ensures Pow(1024, 4) == 0x100_0000_0000
    ensures Pow(1024, 7) == 0x40_0000_0000_0000_0000
  {
  }

  lemma BinaryPrintThenParse(q: Quantity)
    requires q.nano != 0 && PrintFormat(q) == BinarySI && Abs(q.nano) <= MAX_NANO
    ensures Print(q).Text? && Print(q).mantissa * UnitNano(Print(q).scale) == q.nano
    ensures Parse(Print(q)).Some? && Parse(Print(q)).value.nano == q.nano
  {
    var v := q.nano / NANO;
    var (m, k) := Strip(v, 1024);
    PowersOf1024();
    StrippedUnitIsSmall(v, 1024, 7);
    PowersOfThousand();
    MoveFactor(m, Pow(1024, k), NANO);
    assert v * NANO == q.nano;
    if k == 0 {
      assert m == v;
    }
  }

  /** Printing and parsing again keeps the amount, whatever the format. */
  lemma PrintThenParseKeepsAmount(q: Quantity)
    requires Abs(q.nano) <= MAX_NANO
    ensures Print(q).Text? && Print(q).mantissa * UnitNano(Print(q).scale) == q.nano
    ensures Parse(Print(q)).Some? && Parse(Print(q)).value.nano == q.nano
  {
    if q.nano == 0 {
    } else if PrintFormat(q) == BinarySI {
      BinaryPrintThenParse(q);
    } else {
      var (m, k) := Strip(q.nano, 1000);
      PowersOfThousand();
      StrippedUnitIsSmall(q.nano, 1000, 10);
      assert Parse(Print(q)) == Some(Quantity(Cap(m * Pow(1000, k)), UnitFormat(Print(q).scale)));
    }
  }

  lemma PowSplits(base: int, j: nat, k: nat)
    requires j <= k
    ensures Pow(base, k) == Pow(base, j) * Pow(base, k - j)
  {
    if j > 0 {
      PowSplits(base, j - 1, k - 1);
    }
  }

  lemma PowersOfTwo()
    ensures Pow(2, 23) == 0x80_0000
    ensures Pow(2, 33) == 0x2_0000_0000
    ensures Pow(2, 43) == 0x800_0000_0000
    ensures Pow(2, 63) == MAX_INT64 + 1
  {
    assert Pow(2, 10) == 1024;
    PowSplits(2, 10, 23);
    PowSplits(2, 10, 33);
    PowSplits(2, 10, 43);
    PowSplits(2, 10, 53);
    PowSplits(2, 10, 63);
  }

  /** Which texts the printer can give back, said without printing or parsing. */
  predicate Canonical(t: Text)
  {
    && t.Text?
    && ValidUnit(t.scale)
    && Abs(t.mantissa * UnitNano(t.scale)) <= MAX_NANO
    && if t.mantissa == 0 then t.scale == ONE
       else match t.scale
            case Decimal(k) => t.mantissa % 1000 != 0
            case Exponent(k) => k != 3 && t.mantissa % 1000 != 0
            case Binary(k) => t.mantissa % 1024 != 0
  }

  lemma ModUnique(n: int, d: int, quotient: int, rest: int)
    requires d > 0 && 0 <= rest < d && n == quotient * d + rest
    ensures n / d == quotient && n % d == rest
  {
    var e := n / d - quotient;
    assert e * d == rest - n % d;
    assert e > 0 ==> e * d >= d;
    assert e < 0 ==> e * d <= -d;
  }

  lemma MultipleDivides(x: int, base: int)
    requires base >= 2
    ensures (base * x) % base == 0 && (base * x) / base == x && (x != 0 ==> base * x != 0)
  {
    assert base * x == x * base + 0;
    ModUnique(base * x, base, x, 0);
  }

  lemma {:induction false} StripIsUnique(m: int, k: nat, base: int)
    requires base >= 2 && m % base != 0
    ensures m * Pow(base, k) != 0 && Strip(m * Pow(base, k), base) == (m, k)
  {
    if k == 0 {
      assert m * Pow(base, 0) == m;
    } else {
      StripIsUnique(m, k - 1, base);
      var smaller := m * Pow(base, k - 1);
      RegroupProduct(m, base, Pow(base, k - 1));
      assert m * Pow(base, k) == base * smaller;
      MultipleDivides(smaller, base);
    }
  }

  lemma WholeBinaryPrint(v: int)
    requires Abs(v) >= 1024
    ensures (v * NANO) / NANO == v && PrintFormat(Quantity(v * NANO, BinarySI)) == BinarySI
  {
  }

  lemma BinaryTextPrintsAsItself(m: int, k: nat)
    requires 1 <= k <= 6 && m % 1024 != 0
    ensures Print(Quantity(m * (Pow(1024, k) * NANO), BinarySI)) == Text(m, Binary(k))
  {
    StripIsUnique(m, k, 1024);
    var v := m * Pow(1024, k);
    MoveFactor(m, Pow(1024, k), NANO);
    PowGrows(1024, 1, k);
    PowersOf1024();
    ProductAtLeast(m, Pow(1024, k));
    WholeBinaryPrint(v);
  }

  /** A parsed text prints as itself if and only if it is canonical. */
  lemma CanonicalTextsAreFixed(t: Text)
    requires Parse(t).Some?
    ensures Print(Parse(t).value) == t <==> Canonical(t)
  {
    var q := Parse(t).value;
    PrintThenParseKeepsAmount(q);
    if Canonical(t) && t.mantissa != 0 {
      match t.scale {
        case Decimal(k) => StripIsUnique(t.mantissa, k, 1000);
        case Exponent(k) => StripIsUnique(t.mantissa, k, 1000);
        case Binary(k) => BinaryTextPrintsAsItself(t.mantissa, k);
      }
    }
  }

  // ----- one amount in two formats -----

  /** Printed in this way the amount is a bare number, without a suffix. */
  predicate Plain(nano: int, used: Format)
  {
    nano % NANO == 0 && (nano / NANO) % (if used == BinarySI then 1024 else 1000) != 0
  }

  /** An amount has one text in both formats: it is zero, or both print in the same way, or both print a
      bare number. */
  predicate OneText(nano: int, f: Format, g: Format)
  {
    var used, other := PrintFormat(Quantity(nano, f)), PrintFormat(Quantity(nano, g));
    nano == 0 || used == other || (Plain(nano, used) && Plain(nano, other))
  }

  /** An amount is printed in units exactly when it is a whole number that 1000 does not divide. */
  lemma UnitScaleIff(nano: int)
    requires nano != 0
    ensures Plain(nano, DecimalSI) <==> Strip(nano, 1000).1 == 3
    ensures Plain(nano, DecimalSI) ==> Strip(nano, 1000).0 == nano / NANO
  {
    var (m, k) := Strip(nano, 1000);
    PowersOfThousand();
    if k == 3 {
      assert nano == m * NANO + 0;
      ModUnique(nano, NANO, m, 0);
    }
    if Plain(nano, DecimalSI) {
      StripIsUnique(nano / NANO, 3, 1000);
      assert (nano / NANO) * Pow(1000, 3) == nano;
    }
  }

  /** A printed amount is the bare number or has a suffix of the kind it is printed with. */
  lemma PlainPrint(q: Quantity)
    requires q.nano != 0
    ensures Plain(q.nano, PrintFormat(q)) ==> Print(q) == Text(q.nano / NANO, ONE)
    ensures !Plain(q.nano, PrintFormat(q)) ==>
              && Print(q).Text? && Print(q).scale != ONE
              && (PrintFormat(q) == DecimalSI <==> Print(q).scale.Decimal?)
              && (PrintFormat(q) == BinarySI <==> Print(q).scale.Binary?)
  {
    if PrintFormat(q) != BinarySI {
      UnitScaleIff(q.nano);
    }
  }

  lemma OneTextIff(nano: int, f: Format, g: Format)
    ensures Print(Quantity(nano, f)) == Print(Quantity(nano, g)) <==> OneText(nano, f, g)
  {
    if nano != 0 {
      PlainPrint(Quantity(nano, f));
      PlainPrint(Quantity(nano, g));
    }
  }

  // ----- TreatDecimalAsBinary -----

  /** The suffix string of a scale.  An exponent suffix only matters in being none of K, M, G, T. */
  function Suffix(u: Unit): string
  {
    match u
    case Decimal(k) =>
      if k <= 9 then ["n", "u", "m", "", "k", "M", "G", "T", "P", "E"][k] else ""
    case Exponent(k) => "e"
    case Binary(k) => if 1 <= k <= 6 then ["Ki", "Mi", "Gi", "Ti", "Pi", "Ei"][k - 1] else ""
  }

  /** The power of 1024 that a printed quantity is moved to; 0 when it is left alone. */
  function BinaryExponent(t: Text): nat
  {
    if t.Text? && FitsInt64(t.mantissa) && t.scale.Decimal? && 5 <= t.scale.thousands <= 7
    then t.scale.thousands - 3 else 0
  }

  /** The int64 product with the power of 1024 does not overflow. */
  predicate ProductFits(q: Quantity)
  {
    var e := BinaryExponent(Print(q));
    e > 0 ==> -Pow(2, 63 - 10 * e) <= Print(q).mantissa < Pow(2, 63 - 10 * e)
  }

  function Normalised(q: Quantity): Quantity
  {
    var e := BinaryExponent(Print(q));
    if e == 0 then q
    else Quantity(WrapInt64(Print(q).mantissa * Pow(1024, e)) * NANO, BinarySI)
  }

  lemma SuffixTable(u: Unit)
    ensures Suffix(u) != "K"
    ensures Suffix(u) == "M" <==> u == Decimal(5)
    ensures Suffix(u) == "G" <==> u == Decimal(6)
    ensures Suffix(u) == "T" <==> u == Decimal(7)
  {
    match u
    case Decimal(k) =>
      if k <= 9 { assert k in {0, 1, 2, 3, 4, 5, 6, 7, 8, 9}; }
    case Exponent(k) =>
    case Binary(k) =>
      if 1 <= k <= 6 { assert |Suffix(u)| == 2; }
  }

  /** The source's function: scan a number and a suffix, look the suffix up in a table. */
  method TreatDecimalAsBinary(q: Quantity) returns (r: Quantity)
    ensures r == Normalised(q)
  {
    var s := Print(q);
    if s.Malformed? || !FitsInt64(s.mantissa) || Suffix(s.scale) == "" {
      return q;
    }
    var units := ["K", "M", "G", "T"];
    var exponent := 0;
    var i := 0;
    while i < |units|
      invariant 0 <= i <= 4
      invariant exponent == 0
      invariant forall j :: 0 <= j < i ==> units[j] != Suffix(s.scale)
    {
      if units[i] == Suffix(s.scale) {
        exponent := i + 1;
        break;
      }
      i := i + 1;
    }
    SuffixTable(s.scale);
    if exponent == 0 {
      assert forall j :: 0 <= j < 4 ==> units[j] != Suffix(s.scale);
      assert units[1] == "M" && units[2] == "G" && units[3] == "T";
      return q;
    }
    return Quantity(WrapInt64(s.mantissa * Pow(1024, exponent)) * NANO, BinarySI);
  }

  lemma WrapIsExactIff(x: int)
    ensures WrapInt64(x) == x <==> FitsInt64(x)
  {
  }

  /** When m * 1024^e does not overflow. */
  lemma NormalisedIsExactIff(q: Quantity, m: int, e: nat)
    requires e == BinaryExponent(Print(q)) && e > 0 && m == Print(q).mantissa
    ensures Normalised(q).nano == m * Pow(1024, e) * NANO
            <==> -Pow(2, 63 - 10 * e) <= m < Pow(2, 63 - 10 * e)
  {
    PowersOf1024();
    PowersOfTwo();
    assert e == 2 || e == 3 || e == 4;
    WrapIsExactIff(m * Pow(1024, e));
    if e == 2 {
      assert m * Pow(1024, e) == m * 0x10_0000;
    } else if e == 3 {
      assert m * Pow(1024, e) == m * 0x4000_0000;
    } else {
      assert m * Pow(1024, e) == m * 0x100_0000_0000;
    }
  }

  lemma ScaleBounds(m: int, e: nat)
    requires m > 0 && 2 <= e <= 4
    ensures m * Pow(1000, e + 3) <= m * Pow(1024, e) * NANO
    ensures m * Pow(1024, e) * NANO * Pow(1000, 4) <= m * Pow(1000, e + 3) * Pow(1024, 4)
  {
    PowersOf1024();
    PowersOfThousand();
    if e == 2 {
      assert m * Pow(1000, 5) == m * 1_000_000_000_000_000;
      assert m * Pow(1024, 2) * NANO == m * 0x10_0000 * 1_000_000_000;
    } else if e == 3 {
      assert m * Pow(1000, 6) == m * 1_000_000_000_000_000_000;
      assert m * Pow(1024, 3) * NANO == m * 0x4000_0000 * 1_000_000_000;
    } else {
      assert m * Pow(1000, 7) == m * 1_000_000_000_000_000_000_000;
      assert m * Pow(1024, 4) * NANO == m * 0x100_0000_0000 * 1_000_000_000;
    }
  }

  lemma SignOfProduct(m: int, p: int)
    requires p >= 1
    ensures (m > 0 <==> m * p > 0) && (m < 0 <==> m * p < 0)
  {
    if m > 0 { assert m * p > 0; } else if m < 0 { assert -m * p > 0; assert m * p == -(-m * p); }
  }

  lemma SmallOrFractionalHasSmallScale(q: Quantity)
    requires q.nano != 0 && (Abs(q.nano) < 1024 * NANO || q.nano % NANO != 0)
    ensures Strip(q.nano, 1000).1 < 5
  {
    var (m, k) := Strip(q.nano, 1000);
    if k >= 5 {
      PowGrows(1000, 5, k);
      assert Pow(1000, 5) == 1_000_000_000_000_000;
      ProductAtLeast(m, Pow(1000, k));
      assert q.nano % NANO != 0;
      PowSplits(1000, 3, k);
      assert Pow(1000, 3) == NANO;
      RegroupProduct(m, NANO, Pow(1000, k - 3));
      MultipleDivides(m * Pow(1000, k - 3), NANO);
    }
  }

  /** Only decimal quantities are ever moved. */
  lemma DecimalPrint(q: Quantity)
    requires BinaryExponent(Print(q)) > 0
    ensures q.nano != 0 && q.format == DecimalSI
    ensures Print(q) == Text(Strip(q.nano, 1000).0, Decimal(BinaryExponent(Print(q)) + 3))
  {
    if q.format == BinarySI {
      if PrintFormat(q) == BinarySI {
        assert false;
      } else {
        SmallOrFractionalHasSmallScale(q);
      }
    }
  }

  /** The number printed before M, G or T. */
  lemma DecimalMantissa(q: Quantity) returns (m: int)
    requires BinaryExponent(Print(q)) > 0
    ensures m == Print(q).mantissa && m != 0
    ensures q.nano == m * Pow(1000, BinaryExponent(Print(q)) + 3)
  {
    DecimalPrint(q);
    m := Strip(q.nano, 1000).0;
  }

  lemma PositiveMantissa(q: Quantity) returns (m: int)
    requires q.nano >= 0 && BinaryExponent(Print(q)) > 0
    ensures m == Print(q).mantissa && m > 0
    ensures q.nano == m * Pow(1000, BinaryExponent(Print(q)) + 3)
  {
    m := DecimalMantissa(q);
    PowGrows(1000, 0, BinaryExponent(Print(q)) + 3);
    SignOfProduct(m, Pow(1000, BinaryExponent(Print(q)) + 3));
  }

  /** A quantity moved to binary grows, by at most the factor (1024/1000)^4. */
  lemma NormalisedGrowsBoundedly(q: Quantity)
    requires q.nano >= 0 && ProductFits(q)
    ensures q.nano <= Normalised(q).nano
    ensures Normalised(q).nano * Pow(1000, 4) <= q.nano * Pow(1024, 4)
  {
    var e := BinaryExponent(Print(q));
    PowersOf1024();
    PowersOfThousand();
    if e > 0 {
      var m := PositiveMantissa(q);
      NormalisedIsExactIff(q, m, e);
      ScaleBounds(m, e);
    }
  }

  lemma WrapLosesWhatOverflows(binary: int, decimal: int)
    requires decimal > 0 <==> binary > 0
    requires 0 < Abs(decimal) < Abs(binary)
    requires Abs(binary) * 1_000_000_000_000 <= Abs(decimal) * 0x100_0000_0000
    ensures WrapInt64(binary) > decimal <==> (binary > 0) == FitsInt64(binary)
    ensures WrapInt64(binary) != decimal
  {
    if MAX_INT64 < binary < TWO_TO_64 {
      assert WrapInt64(binary) == binary - TWO_TO_64;
    } else if -TWO_TO_64 < binary < -MAX_INT64 - 1 {
      assert WrapInt64(binary) == binary + TWO_TO_64;
    }
  }

  lemma MovedAmount(m: int, e: nat, nano: int, moved: int)
    requires m != 0 && 2 <= e <= 4
    requires nano == m * Pow(1000, e + 3) && moved == WrapInt64(m * Pow(1024, e)) * NANO
    ensures moved != nano
    ensures moved > nano <==> (nano > 0) == (-Pow(2, 63 - 10 * e) <= m < Pow(2, 63 - 10 * e))
  {
    PowersOf1024();
    PowersOfThousand();
    PowersOfTwo();
    var decimal := if e == 2 then m * 1_000_000 else if e == 3 then m * 1_000_000_000 else m * 1_000_000_000_000;
    var binary := if e == 2 then m * 0x10_0000 else if e == 3 then m * 0x4000_0000 else m * 0x100_0000_0000;
    assert m * Pow(1024, e) == binary;
    assert nano == decimal * NANO;
    assert (m > 0 <==> decimal > 0) && (m > 0 <==> binary > 0);
    assert Abs(decimal) < Abs(binary) && Abs(binary) * 1_000_000_000_000 <= Abs(decimal) * 0x100_0000_0000;
    assert (-Pow(2, 63 - 10 * e) <= m < Pow(2, 63 - 10 * e)) <==> FitsInt64(binary);
    WrapLosesWhatOverflows(binary, decimal);
  }

  /** Which amounts normalising changes, and in which direction: exactly those printed with M, G or T,
      and of these exactly the ones whose product fits move away from zero. */
  lemma MovedIff(q: Quantity)
    ensures Normalised(q).nano == q.nano <==> BinaryExponent(Print(q)) == 0
    ensures Normalised(q).nano > q.nano <==> BinaryExponent(Print(q)) > 0 && (q.nano > 0) == ProductFits(q)
  {
    var e := BinaryExponent(Print(q));
    if e > 0 {
      var m := DecimalMantissa(q);
      var moved := Normalised(q).nano;
      assert moved == WrapInt64(m * Pow(1024, e)) * NANO;
      assert ProductFits(q) <==> -Pow(2, 63 - 10 * e) <= m < Pow(2, 63 - 10 * e);
      MovedAmount(m, e, q.nano, moved);
    }
  }

  lemma NormalisedIsIdempotent(q: Quantity)
    ensures Normalised(Normalised(q)) == Normalised(q)
  {
    if BinaryExponent(Print(q)) > 0 && BinaryExponent(Print(Normalised(q))) > 0 {
      DecimalPrint(Normalised(q));
    }
  }

  lemma Rescaled(m: int, binary: int, decimal: int)
    ensures (m * binary * NANO) * decimal == (m * (NANO * decimal)) * binary
  {
    RegroupProduct(m, NANO, decimal);
    assert (m * binary) * decimal == (m * decimal) * binary;
  }

  /** Normalising multiplies by (1024/1000)^e, where e belongs to the printed suffix. */
  lemma NormalisedScales(q: Quantity)
    requires ProductFits(q)
    ensures var e := BinaryExponent(Print(q));
            && Normalised(q).nano * Pow(1000, e) == q.nano * Pow(1024, e)
            && Normalised(q).format == if e > 0 then BinarySI else q.format
  {
    var e := BinaryExponent(Print(q));
    if e > 0 {
      var m := DecimalMantissa(q);
      NormalisedIsExactIff(q, m, e);
      PowSplits(1000, 3, e + 3);
      PowersOfThousand();
      Rescaled(m, Pow(1024, e), Pow(1000, e));
    }
  }

  lemma ScaledOrder(x: int, y: int, c: int, d: int)
    requires c >= 1 && d >= 1
    ensures x <= y <==> x * c * d <= y * d * c
  {
    assert (y - x) * c * d == y * d * c - x * c * d;
    SignOfProduct(y - x, c);
    SignOfProduct((y - x) * c, d);
  }

  /** When normalising keeps the order of two quantities: it compares the amounts weighted by the
      factors of their suffixes. */
  lemma OrderIsKeptIff(q: Quantity, p: Quantity)
    requires ProductFits(q) && ProductFits(p)
    ensures var a, b := BinaryExponent(Print(q)), BinaryExponent(Print(p));
            Normalised(q).nano <= Normalised(p).nano
            <==> q.nano * Pow(1024, a) * Pow(1000, b) <= p.nano * Pow(1024, b) * Pow(1000, a)
  {
    var a, b := BinaryExponent(Print(q)), BinaryExponent(Print(p));
    NormalisedScales(q);
    NormalisedScales(p);
    PowGrows(1000, 0, a);
    PowGrows(1000, 0, b);
    ScaledOrder(Normalised(q).nano, Normalised(p).nano, Pow(1000, a), Pow(1000, b));
  }

  lemma {:induction false} PowOfLargerBase(k: nat)
    ensures 1 <= Pow(1000, k) <= Pow(1024, k)
  {
    if k > 0 { PowOfLargerBase(k - 1); }
  }

  lemma Regroup(x: int, c: int, d: int, r: int)
    ensures x * c * (d * r) == (x * (c * d)) * r
    ensures x * (c * r) * d == (x * (c * d)) * r
  {
    assert x * c * (d * r) == ((x * c) * d) * r;
    assert (x * c) * d == x * (c * d);
    assert x * (c * r) * d == ((x * c) * r) * d;
    assert ((x * c) * r) * d == ((x * c) * d) * r;
  }

  lemma ProductOrder(x: int, y: int, c: int)
    requires x <= y && 0 <= c
    ensures c * x <= c * y && x * c <= y * c
  {
  }

  lemma WeightedOrder(x: int, y: int, c: int, d: int, r: int, s: int)
    requires 0 <= x <= y && 0 <= c && 0 <= d && 0 <= r <= s
    ensures x * c * (d * r) <= y * (c * s) * d
  {
    var u := c * d;
    assert x * c * (d * r) == (x * u) * r by { Regroup(x, c, d, r); }
    assert y * (c * s) * d == (y * u) * s by { Regroup(y, c, d, s); }
    ProductOrder(x, y, u);
    ProductOrder(r, s, y * u);
    ProductOrder(x * u, y * u, r);
  }

  lemma LargerPowers(x: int, y: int, a: nat, b: nat)
    requires 0 <= x <= y && a <= b
    ensures x * Pow(1024, a) * Pow(1000, b) <= y * Pow(1024, b) * Pow(1000, a)
  {
    PowSplits(1000, a, b);
    PowSplits(1024, a, b);
    PowGrows(1000, 0, a);
    PowGrows(1024, 0, a);
    PowOfLargerBase(b - a);
    WeightedOrder(x, y, Pow(1024, a), Pow(1000, a), Pow(1000, b - a), Pow(1024, b - a));
  }

  /** Amounts that are not negative keep their order when the larger one has the larger suffix or the
      same one, none being smaller than M. */
  lemma LargerSuffixKeepsOrder(q: Quantity, p: Quantity)
    requires ProductFits(q) && ProductFits(p)
    requires 0 <= q.nano <= p.nano && BinaryExponent(Print(q)) <= BinaryExponent(Print(p))
    ensures Normalised(q).nano <= Normalised(p).nano
  {
    var a, b := BinaryExponent(Print(q)), BinaryExponent(Print(p));
    LargerPowers(q.nano, p.nano, a, b);
    OrderIsKeptIff(q, p);
  }

  /** Normalising does not keep the order: 1000M prints as 1G and overtakes 1001M. */
  lemma NormalisingReordersQuantities()
    ensures
      var thousand := Quantity(1000 * Pow(1000, 5), DecimalSI);
      var thousandAndOne := Quantity(1001 * Pow(1000, 5), DecimalSI);
      thousand.nano < thousandAndOne.nano && Normalised(thousand).nano > Normalised(thousandAndOne).nano
  {
    StripIsUnique(1, 6, 1000);
    StripIsUnique(1001, 5, 1000);
    assert 1000 * Pow(1000, 5) == 1 * Pow(1000, 6);
  }
}
