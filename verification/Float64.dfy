/**
 What becomes of an unsigned 64-bit number that is read from JSON into a 64-bit floating-point number and converted
 back: rounding to 53 significant bits, ties to the even neighbour.
 */
module Float64 {

  const EXACT: nat := 0x20_0000_0000_0000
  const LIMIT: nat := 0x1_0000_0000_0000_0000

  /** The conversion of 2^64, which does not fit: what the amd64 instruction gives. */
  const OVERFLOW: nat := 0x8000_0000_0000_0000

  /** The leading 53 bits. */
  function Mantissa(n: nat): nat { if n < EXACT then n else Mantissa(n / 2) }

  /** The distance of neighbouring floating-point numbers around n. */
  function Unit(n: nat): nat { if n < EXACT then 1 else 2 * Unit(n / 2) }

  /** The number with the bits behind the leading ones cleared. */
  function Lower(n: nat): nat { if n < EXACT then n else 2 * Lower(n / 2) }

  function Nearest(n: nat): nat {
    var above := 2 * (n - Lower(n));
    if above < Unit(n) || (above == Unit(n) && Mantissa(n) % 2 == 0) then Lower(n) else Lower(n) + Unit(n)
  }

  function ReadNumber(n: nat): nat { if Nearest(n) < LIMIT then Nearest(n) else OVERFLOW }

  /** The two neighbours enclose the number, a unit apart, and the lower one is its leading bits times the unit. */
  lemma {:induction false} Enclosed(n: nat)
    ensures Lower(n) <= n < Lower(n) + Unit(n)
    ensures Lower(n) == Mantissa(n) * Unit(n) && Mantissa(n) < EXACT
    ensures n >= EXACT / 2 ==> Mantissa(n) >= EXACT / 2 && Lower(n) >= EXACT / 2
  {
    if n >= EXACT {
      Enclosed(n / 2);
      assert Mantissa(n) * Unit(n) == 2 * (Mantissa(n / 2) * Unit(n / 2));
    }
  }

  /** Both neighbours are floating-point numbers. */
  lemma {:induction false} NeighboursExact(n: nat)
    ensures Lower(Lower(n)) == Lower(n) && Lower(Lower(n) + Unit(n)) == Lower(n) + Unit(n)
  {
    if n >= EXACT {
      NeighboursExact(n / 2);
      Enclosed(n / 2);
    } else if n + 1 == EXACT {
      assert Lower(EXACT) == 2 * Lower(EXACT / 2);
    }
  }

  /** A number survives exactly when only its leading 53 bits are set. */
  lemma ExactIff(n: nat)
    ensures Nearest(n) == n <==> Lower(n) == n
  {
    Enclosed(n);
  }

  lemma SmallIsExact(n: nat)
    requires n < EXACT
    ensures Nearest(n) == n && ReadNumber(n) == n
  {
  }

  /** A number that rounds up to 2^64 reads back as 2^63, every other one as what it rounds to. */
  lemma TopReadsBack(n: nat)
    ensures ReadNumber(n) == if Nearest(n) >= 0x1_0000_0000_0000_0000 then 0x8000_0000_0000_0000 else Nearest(n)
  {
  }

  /** Rounding goes to one of the two neighbours, the nearer one. */
  lemma NearestIsNear(n: nat)
    ensures Nearest(n) == Lower(n) || Nearest(n) == Lower(n) + Unit(n)
    ensures 2 * n - Unit(n) <= 2 * Nearest(n) <= 2 * n + Unit(n)
  {
    Enclosed(n);
  }

  /** Rounding twice is rounding once. */
  lemma NearestStable(n: nat)
    ensures Nearest(Nearest(n)) == Nearest(n)
  {
    NeighboursExact(n);
    ExactIff(Nearest(n));
  }

  lemma {:induction false} PowersExact(k: nat)
    requires Lower(k) == k && 2 * k >= EXACT
    ensures Lower(2 * k) == 2 * k
  {
    var n := 2 * k;
    assert n / 2 == k;
    assert Lower(n) == 2 * Lower(n / 2);
  }

  lemma OverflowIsExact()
    ensures Nearest(OVERFLOW) == OVERFLOW
  {
    PowersExact(EXACT / 2);
    PowersExact(EXACT);
    PowersExact(EXACT * 2);
    PowersExact(EXACT * 4);
    PowersExact(EXACT * 8);
    PowersExact(EXACT * 16);
    PowersExact(EXACT * 32);
    PowersExact(EXACT * 64);
    PowersExact(EXACT * 128);
    PowersExact(EXACT * 256);
    PowersExact(EXACT * 512);
    ExactIff(OVERFLOW);
  }

  /** Reading back twice is reading back once. */
  lemma ReadNumberStable(n: nat)
    ensures ReadNumber(ReadNumber(n)) == ReadNumber(n)
  {
    NearestStable(n);
    OverflowIsExact();
  }

  /** The first number that does not survive. */
  lemma FirstInexact()
    ensures ReadNumber(EXACT + 1) == EXACT
  {
    var n, h := EXACT + 1, EXACT / 2;
    assert n / 2 == h;
    assert Mantissa(n) == Mantissa(h) == h;
    assert Unit(n) == 2 * Unit(h) == 2;
    assert Lower(n) == 2 * Lower(h) == EXACT;
  }
}
