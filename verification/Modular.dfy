/** Remainders by a variable modulus: what a circular array needs of them. */
module Modular {

  lemma MulBounds(k: int, c: int)
    requires c >= 0
    ensures k >= 1 ==> k * c >= c
    ensures k <= 0 ==> k * c <= 0
    ensures k <= -1 ==> k * c <= -c
  {
    assert k * c == (k - 1) * c + c == (k + 1) * c - c;
  }

  /** Adding whole turns does not move a position. */
  lemma ModTurns(a: int, k: int, c: nat)
    requires c > 0
    ensures (a + k * c) % c == a % c
  {
    var x, y := a / c, (a + k * c) / c;
    assert a == x * c + a % c;
    assert a + k * c == y * c + (a + k * c) % c;
    var d := x + k - y;
    assert d * c == x * c + k * c - y * c;
    MulBounds(d, c);
  }

  /** Positions are equal exactly when the numbers differ by whole turns. */
  lemma ModEqual(a: int, b: int, c: nat) returns (k: int)
    requires c > 0 && a % c == b % c
    ensures a == b + k * c
  {
    k := a / c - b / c;
    assert a == (a / c) * c + a % c;
    assert b == (b / c) * c + b % c;
    assert k * c == (a / c) * c - (b / c) * c;
  }

  lemma ModShift(a: int, b: int, d: int, c: nat)
    requires c > 0 && a % c == b % c
    ensures (a + d) % c == (b + d) % c
  {
    var k := ModEqual(a, b, c);
    ModTurns(b + d, k, c);
  }

  /** Numbers less than a turn apart have different positions. */
  lemma ModDistinct(a: int, b: int, c: nat)
    requires c > 0 && a < b < a + c
    ensures a % c != b % c
  {
    if a % c == b % c {
      var k := ModEqual(b, a, c);
      MulBounds(k, c);
    }
  }

  lemma DivExact(k: int, b: nat)
    requires b > 0
    ensures (k * b) / b == k
  {
    var r := (k * b) / b;
    assert k * b == r * b + (k * b) % b;
    ModTurns(0, k, b);
    assert (r - k) * b == r * b - k * b;
    MulBounds(r - k, b);
    MulBounds(k - r, b);
  }

  /** Positions that agree in a large ring agree in a ring whose size divides it. */
  lemma ModDivides(a: int, b: int, c: nat, m: nat)
    requires c > 0 && m > 0 && a % (m * c) == b % (m * c)
    ensures a % c == b % c
  {
    var k := ModEqual(a, b, m * c);
    assert k * (m * c) == (k * m) * c;
    ModTurns(b, k * m, c);
  }

  lemma ModSmall(a: int, c: nat)
    requires 0 <= a < c
    ensures a % c == a
  {
  }

  /** A remainder may be taken early. */
  lemma ModInner(a: int, d: int, c: nat)
    requires c > 0
    ensures (a % c + d) % c == (a + d) % c
  {
    ModSmall(a % c, c);
    ModShift(a % c, a, d, c);
  }

  /** Every position belongs to one number of any full turn. */
  lemma ModSurjects(p: int, base: int, lo: int, c: nat) returns (q: int)
    requires 0 <= p < c
    ensures lo <= q < lo + c && (q - base) % c == p
  {
    q := lo + (p + base - lo) % c;
    ModInner(p + base - lo, lo - base, c);
    ModSmall(p, c);
  }

  /** The position of number `x` in a ring of size `c`, going round one turn at a time.  It is `x % c`
      (`TurnIsMod`); proofs about rings use this form and its laws, which involve no multiplication. */
  ghost function Turn(x: int, c: nat): (p: nat)
    requires c > 0
    ensures p < c
    decreases if x < 0 then -x else x
  {
    if x < 0 then (if -x < c then x + c else Turn(x + c, c))
    else if x < c then x
    else Turn(x - c, c)
  }

  lemma {:induction false} TurnIsMod(x: int, c: nat)
    requires c > 0
    ensures Turn(x, c) == x % c
    decreases if x < 0 then -x else x
  {
    if x < 0 {
      ModTurns(x, 1, c);
      if -x >= c { TurnIsMod(x + c, c); } else { ModSmall(x + c, c); }
    } else if x < c {
      ModSmall(x, c);
    } else {
      ModTurns(x, -1, c);
      TurnIsMod(x - c, c);
    }
  }

  lemma TurnDistinct(a: int, b: int, c: nat)
    requires c > 0 && a < b < a + c
    ensures Turn(a, c) != Turn(b, c)
  {
    TurnIsMod(a, c);
    TurnIsMod(b, c);
    ModDistinct(a, b, c);
  }

  lemma TurnStep(a: int, d: int, c: nat)
    requires c > 0
    ensures (Turn(a, c) + d) % c == Turn(a + d, c)
  {
    TurnIsMod(a, c);
    TurnIsMod(a + d, c);
    ModInner(a, d, c);
  }

  lemma TurnAgain(a: int, d: int, c: nat)
    requires c > 0
    ensures Turn(Turn(a, c) + d, c) == Turn(a + d, c)
  {
    TurnStep(a, d, c);
    TurnIsMod(Turn(a, c) + d, c);
  }

  lemma TurnShift(x: int, c: nat)
    requires c > 0
    ensures Turn(x - c, c) == Turn(x, c)
  {
    TurnIsMod(x, c);
    TurnIsMod(x - c, c);
    ModTurns(x, -1, c);
  }

  /** A position in a large ring, seen in a ring whose size divides it. */
  lemma TurnInSmaller(x: int, d: int, c: nat, m: nat)
    requires c > 0 && m > 0 && m * c > 0
    ensures (Turn(x, m * c) + d) % c == (x + d) % c
  {
    TurnIsMod(x, m * c);
    ModSmall(Turn(x, m * c), m * c);
    ModDivides(Turn(x, m * c), x, c, m);
    ModShift(Turn(x, m * c), x, d, c);
  }

  // ---------------------------------------------------------------------------------------------
  // Items and blocks: index `x` lies in block `x / b`
  // ---------------------------------------------------------------------------------------------

  lemma QuotientIs(x: int, q: int, b: nat)
    requires b > 0 && q * b <= x < q * b + b
    ensures x / b == q && x % b == x - q * b
  {
    var r := x / b;
    assert x == r * b + x % b;
    assert (r - q) * b == r * b - q * b;
    MulBounds(r - q, b);
    MulBounds(q - r, b);
    assert (q - r) * b == q * b - r * b;
  }

  lemma QuotientBounds(x: int, b: nat)
    requires b > 0
    ensures (x / b) * b <= x < (x / b) * b + b && x - x % b == (x / b) * b
    ensures x >= 0 ==> x / b >= 0
  {
    assert x == (x / b) * b + x % b;
    if x >= 0 { MulBounds(x / b, b); }
  }

  lemma QuotientMonotone(x: int, y: int, b: nat)
    requires b > 0 && x <= y
    ensures x / b <= y / b
  {
    QuotientBounds(x, b);
    QuotientBounds(y, b);
    assert (x / b - y / b) * b == (x / b) * b - (y / b) * b;
    MulBounds(x / b - y / b, b);
  }

  /** How many blocks the first `n` items occupy. */
  function Ceiling(n: nat, b: nat): (c: int)
    requires b > 0
  {
    (n - 1) / b + 1
  }

  lemma CeilingBounds(n: nat, b: nat)
    requires b > 0
    ensures Ceiling(n, b) >= 0
    ensures n <= Ceiling(n, b) * b < n + b
    ensures forall x: nat :: x < n ==> x / b < Ceiling(n, b)
  {
    QuotientBounds(n - 1, b);
    assert Ceiling(n, b) * b == ((n - 1) / b) * b + b;
    forall x: nat | x < n ensures x / b < Ceiling(n, b) { QuotientMonotone(x, n - 1, b); }
    MulBounds(Ceiling(n, b), b);
  }

  /** The block of index `x`, in a form that involves no division.  It is `x / b` (`HomeIsQuotient`). */
  ghost function Home(x: nat, b: nat): nat
    requires b > 0
  {
    WholeBlocks(x, b)
  }

  /** The number of whole blocks below index `x`, counted one by one. */
  ghost function WholeBlocks(x: nat, b: nat): nat
    requires b > 0
  {
    if x < b then 0 else 1 + WholeBlocks(x - b, b)
  }

  lemma {:induction false} HomeIsQuotient(x: nat, b: nat)
    requires b > 0
    ensures Home(x, b) == x / b
  {
    if x < b {
      QuotientIs(x, 0, b);
    } else {
      HomeIsQuotient(x - b, b);
      QuotientBounds(x - b, b);
      assert ((x - b) / b + 1) * b == ((x - b) / b) * b + b;
      QuotientIs(x, (x - b) / b + 1, b);
    }
  }

  /** The first index of block `q`.  It is `q * b` (`BaseIsProduct`). */
  ghost function Base(q: nat, b: nat): nat {
    if q == 0 then 0 else Base(q - 1, b) + b
  }

  lemma {:induction false} BaseIsProduct(q: nat, b: nat)
    ensures Base(q, b) == q * b
  {
    if q > 0 { BaseIsProduct(q - 1, b); }
  }

  lemma BaseIsMasked(x: nat, b: nat)
    requires b > 0
    ensures Base(Home(x, b), b) == x - x % b
  {
    HomeIsQuotient(x, b);
    QuotientBounds(x, b);
    BaseIsProduct(Home(x, b), b);
  }

  lemma HomeMonotone(x: nat, y: nat, b: nat)
    requires b > 0 && x <= y
    ensures Home(x, b) <= Home(y, b)
  {
    HomeIsQuotient(x, b);
    HomeIsQuotient(y, b);
    QuotientMonotone(x, y, b);
  }

  lemma HomeBounds(x: nat, b: nat)
    requires b > 0
    ensures Home(x, b) * b <= x < Home(x, b) * b + b
  {
    HomeIsQuotient(x, b);
    QuotientBounds(x, b);
  }

  /** Items of one block have different offsets in it. */
  lemma HomeSlotsDiffer(x: nat, y: nat, b: nat)
    requires b > 0 && x != y && Home(x, b) == Home(y, b)
    ensures x % b != y % b
  {
    HomeBounds(x, b);
    HomeBounds(y, b);
    if x < y { ModDistinct(x, y, b); } else { ModDistinct(y, x, b); }
  }

  /** How many blocks the first `n` items occupy; `Ceiling` in the form proofs use. */
  ghost function Occupied(n: nat, b: nat): nat
    requires b > 0
  {
    if n == 0 then 0 else Home(n - 1, b) + 1
  }

  lemma HomeTurnsDiffer(x: nat, y: nat, b: nat)
    requires b > 0 && x != y && Home(x, b) == Home(y, b)
    ensures Turn(x, b) != Turn(y, b)
  {
    HomeSlotsDiffer(x, y, b);
    TurnIsMod(x, b);
    TurnIsMod(y, b);
  }

  lemma HomeBelowCeiling(x: nat, n: nat, b: nat)
    requires b > 0
    ensures x < n ==> Home(x, b) < Ceiling(n, b)
    ensures Home(x, b) >= Ceiling(n, b) ==> x >= n
  {
    HomeIsQuotient(x, b);
    CeilingBounds(n, b);
  }

  /** The next block boundary behind `x`. */
  lemma HomeOfNext(x: nat, b: nat)
    requires b > 0
    ensures var next := x - x % b + b;
            && x < next && next % b == 0
            && Home(next, b) == Home(x, b) + 1
            && forall y: nat :: x <= y < next ==> Home(y, b) == Home(x, b)
  {
    var q := x / b;
    var next := x - x % b + b;
    HomeIsQuotient(x, b);
    QuotientBounds(x, b);
    assert next == (q + 1) * b;
    HomeIsQuotient(next, b);
    QuotientIs(next, q + 1, b);
    forall y: nat | x <= y < next ensures Home(y, b) == Home(x, b) {
      HomeIsQuotient(y, b);
      QuotientIs(y, q, b);
    }
  }
}
