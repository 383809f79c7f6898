/** Counters of a machine word: unsigned numbers that wrap around, compared and masked as the program does. */
module Circular {
  import opened Modular

  function Pow2(k: nat): (p: nat)
    ensures p > 0
  {
    if k == 0 then 1 else 2 * Pow2(k - 1)
  }

  /** Half a turn of a word of `bits` bits. */
  function Half(bits: nat): (h: nat)
    requires bits > 0
    ensures h > 0 && 2 * h == Pow2(bits)
  {
    Pow2(bits - 1)
  }

  /** The low bits of `x` that a counter with `m` values keeps. */
  function Wrap(x: int, m: nat): (w: nat)
    requires m > 0
    ensures w < m
  {
    x % m
  }

  /** `circular_less_than` on counters with `2 * half` values. */
  predicate CircularLess(a: nat, b: nat, half: nat)
    requires half > 0
  {
    Wrap(a - b, 2 * half) > half
  }

  // ---------------------------------------------------------------------------------------------
  // Wrapping
  // ---------------------------------------------------------------------------------------------

  lemma WrapAdd(x: int, d: int, m: nat)
    requires m > 0
    ensures Wrap(Wrap(x, m) + d, m) == Wrap(x + d, m)
  {
    ModInner(x, d, m);
  }

  lemma WrapMinus(x: int, y: int, m: nat)
    requires m > 0
    ensures Wrap(x - Wrap(y, m), m) == Wrap(x - y, m)
  {
    assert y == (y / m) * m + y % m;
    ModTurns(x - y, y / m, m);
  }

  lemma WrapDifference(x: int, y: int, m: nat)
    requires m > 0
    ensures Wrap(Wrap(x, m) - Wrap(y, m), m) == Wrap(x - y, m)
  {
    WrapAdd(x, 0 - Wrap(y, m), m);
    WrapMinus(x, y, m);
  }

  /** A word cut down to a narrower one. */
  lemma WrapTwice(x: int, k: nat, m: nat)
    requires k > 0 && m > 0 && k * m > 0
    ensures Wrap(Wrap(x, k * m), m) == Wrap(x, m)
  {
    ModSmall(x % (k * m), k * m);
    ModDivides(x % (k * m), x, m, k);
  }

  /** What is left of a number less than one turn away from zero. */
  lemma WrapNear(d: int, m: nat)
    requires m > 0 && 0 <= d + m && d < m
    ensures Wrap(d, m) == if d < 0 then d + m else d
  {
    if d < 0 {
      ModTurns(d, 1, m);
      ModSmall(d + m, m);
    } else {
      ModSmall(d, m);
    }
  }

  /** For two counters less than a turn apart, `circular_less_than` is right exactly when `a` is at most half a turn
      ahead of `b`, and less than half a turn behind it. */
  lemma CircularLessIsLess(a: nat, b: nat, half: nat)
    requires half > 0 && a < b + 2 * half && b < a + 2 * half
    ensures (CircularLess(Wrap(a, 2 * half), Wrap(b, 2 * half), half) <==> a < b) <==> a <= b + half && b < a + half
  {
    WrapDifference(a, b, 2 * half);
    WrapNear(a - b, 2 * half);
  }

  /** A distance computed in wrapped counters, tested against zero. */
  lemma DistanceIsRight(d: int, half: nat)
    requires half > 0 && 0 <= d + half && d < half
    ensures CircularLess(0, Wrap(d, 2 * half), half) <==> 0 < d
    ensures 0 < d ==> Wrap(d, 2 * half) == d
  {
    WrapNear(d, 2 * half);
    WrapMinus(0, d, 2 * half);
    WrapNear(-d, 2 * half);
  }

  // ---------------------------------------------------------------------------------------------
  // Masks
  // ---------------------------------------------------------------------------------------------

  /** `x & y` */
  function And(x: nat, y: nat): nat {
    if x == 0 || y == 0 then 0
    else 2 * And(x / 2, y / 2) + (x % 2) * (y % 2)
  }

  lemma HalfMod(x: nat, p: nat)
    requires p > 0
    ensures x % (2 * p) == 2 * (x / 2 % p) + x % 2
  {
    var h := x / 2;
    assert x == 2 * h + x % 2;
    var q := h / p;
    assert h == q * p + h % p;
    assert x == q * (2 * p) + (2 * (h % p) + x % 2) by {
      assert 2 * (q * p) == q * (2 * p);
    }
    ModTurns(2 * (h % p) + x % 2, q, 2 * p);
    ModSmall(2 * (h % p) + x % 2, 2 * p);
  }

  /** One bit of the mask `2 * p - 1`, where `y` is the mask for the rest. */
  lemma LowMaskStep(x: nat, p: nat, y: nat)
    requires p == y + 1 && And(x / 2, y) == x / 2 % p
    ensures And(x, 2 * y + 1) == x % (2 * p)
  {
    assert (2 * y + 1) / 2 == y && (2 * y + 1) % 2 == 1;
    assert And(x, 2 * y + 1) == 2 * And(x / 2, y) + x % 2;
    HalfMod(x, p);
  }

  /** `x & (2^k - 1)` is the remainder by `2^k`. */
  lemma {:induction false} LowMask(x: nat, k: nat)
    ensures And(x, Pow2(k) - 1) == x % Pow2(k)
  {
    if x == 0 {
      ModSmall(0, Pow2(k));
    } else if k > 0 {
      LowMask(x / 2, k - 1);
      LowMaskStep(x, Pow2(k - 1), Pow2(k - 1) - 1);
    }
  }

  /** One zero bit of a mask, below the rest `y`. */
  lemma ZeroBit(x: nat, y: nat)
    ensures And(x, 2 * y) == 2 * And(x / 2, y)
  {
    assert (2 * y) / 2 == y && (2 * y) % 2 == 0;
    if x == 1 { assert And(0, y) == 0; }
  }

  lemma {:induction false} Pow2Grows(k: nat, w: nat)
    requires k <= w
    ensures Pow2(k) <= Pow2(w)
  {
    if k < w { Pow2Grows(k, w - 1); }
  }

  /** For a `w`-bit `x`, `x & ~(2^k - 1)` clears the low `k` bits. */
  lemma {:induction false} HighMask(x: nat, k: nat, w: nat)
    requires k <= w && x < Pow2(w)
    ensures Pow2(k) <= Pow2(w) && And(x, Pow2(w) - Pow2(k)) == x - x % Pow2(k)
  {
    Pow2Grows(k, w);
    if k == 0 {
      FullMask(x, w);
    } else {
      var y := x / 2;
      assert y < Pow2(w - 1);
      HighMask(y, k - 1, w - 1);
      ZeroBit(x, Pow2(w - 1) - Pow2(k - 1));
      HalfMod(x, Pow2(k - 1));
    }
  }

  lemma {:induction false} FullMask(x: nat, w: nat)
    requires x < Pow2(w)
    ensures And(x, Pow2(w) - 1) == x
  {
    LowMask(x, w);
    ModSmall(x, Pow2(w));
  }

  lemma TwiceProduct(x: nat, y: nat)
    ensures 2 * (x * y) == (2 * x) * y
  {
  }

  lemma {:induction false} Pow2Split(a: nat, b: nat)
    ensures Pow2(a + b) == Pow2(a) * Pow2(b)
  {
    if a > 0 {
      Pow2Split(a - 1, b);
      TwiceProduct(Pow2(a - 1), Pow2(b));
    }
  }

  lemma FloorBounds(y: nat, b: nat)
    requires b > 0
    ensures 0 <= y - y % b <= y
  {
    QuotientBounds(y, b);
    MulBounds(y / b, b);
  }

  /** Clearing the low bits commutes with wrapping around. */
  lemma BaseWraps(x: int, k: nat, w: nat)
    requires k <= w
    ensures Pow2(k) <= Pow2(w)
    ensures And(Wrap(x, Pow2(w)), Pow2(w) - Pow2(k)) == Wrap(x - x % Pow2(k), Pow2(w))
  {
    HighMask(Wrap(x, Pow2(w)), k, w);
    Pow2Split(w - k, k);
    FloorWraps(x, Pow2(k), Pow2(w - k));
  }

  lemma FloorWraps(x: int, b: nat, k: nat)
    requires b > 0 && k > 0 && k * b > 0
    ensures Wrap(x, k * b) - Wrap(x, k * b) % b == Wrap(x - x % b, k * b)
  {
    var m := k * b;
    var y := Wrap(x, m);
    ModSmall(y, m);
    ModDivides(y, x, b, k);
    WrapAdd(x, 0 - x % b, m);
    FloorBounds(y, b);
    ModSmall(y - y % b, m);
  }

  // ---------------------------------------------------------------------------------------------
  // Slots
  // ---------------------------------------------------------------------------------------------

  /** Reading a `2 * half`-valued number as a signed one. */
  function Signed(x: nat, half: nat): int {
    if x < half then x else x - 2 * half
  }

  /** Division that drops the remainder. */
  function Truncated(x: int, b: nat): int
    requires b > 0
  {
    if x >= 0 then x / b else -(-x / b)
  }

  /** The distance in blocks from one base to another, both index words of `2 * half` values, as a size of `size`
      values.  The difference is taken as signed; an index word as wide as a size is converted back for the
      division by the (unsigned) block size, a wider one is not. */
  function WrappedOffset(base: nat, frontBase: nat, b: nat, half: nat, size: nat): nat
    requires b > 0 && half > 0 && size > 0
  {
    var difference := Wrap(base - frontBase, 2 * half);
    if 2 * half == size then difference / b else Wrap(Truncated(Signed(difference, half), b), size)
  }

  /** The slot the program computes: the front's, and that distance on, masked. */
  function WrappedSlot(front: nat, base: nat, frontBase: nat, b: nat, n: nat, half: nat, size: nat): nat
    requires b > 0 && n > 0 && half > 0 && size > 0
  {
    And(Wrap(front + WrappedOffset(base, frontBase, b, half, size), size), n - 1)
  }

  /** A whole number of blocks, wrapped, is the wrapped number of blocks. */
  lemma WrappedBlocks(d: int, b: nat, m: nat)
    requires b > 0 && m > 0 && m * b > 0
    ensures Wrap(d * b, m * b) == Wrap(d, m) * b
  {
    var q := d / m;
    assert d == q * m + d % m;
    assert d * b == (d % m) * b + q * (m * b);
    ModTurns((d % m) * b, q, m * b);
    MulBounds(d % m, b);
    assert (m - d % m) * b == m * b - (d % m) * b;
    MulBounds(m - d % m, b);
    ModSmall((d % m) * b, m * b);
  }

  /** Dividing a negative distance as a large unsigned number gives the right slot all the same. */
  lemma UnsignedDivision(d: int, b: nat, m: nat)
    requires b > 0 && m > 0 && m * b > 0
    ensures Wrap(d * b, m * b) / b == Wrap(d, m)
  {
    WrappedBlocks(d, b, m);
    DivExact(d % m, b);
  }

  /** So does dividing it as a signed one, even when the distance is half a turn or more. */
  lemma SignedDivision(d: int, b: nat, m: nat, half: nat)
    requires b > 0 && m > 0 && 2 * half == m * b
    ensures var e := Truncated(Signed(Wrap(d * b, m * b), half), b);
            e == Wrap(d, m) || e == Wrap(d, m) - m
  {
    WrappedBlocks(d, b, m);
    var e := d % m;
    DivExact(e, b);
    if e * b >= half {
      assert e * b - m * b == (e - m) * b && -((e - m) * b) == (m - e) * b;
      DivExact(m - e, b);
    }
  }

  /** `n` divides `m`. */
  ghost predicate Multiple(m: nat, n: nat) {
    exists k: nat :: k > 0 && m == k * n
  }

  /** A word of `m` values counts blocks of `b` by whole turns of a ring of `n`. */
  ghost predicate CountsTurns(m: nat, b: nat, n: nat) {
    exists blocks: nat :: blocks > 0 && m == blocks * b && Multiple(blocks, n)
  }

  lemma CutToRing(x: int, m: nat, n: nat)
    requires n > 0 && m > 0 && Multiple(m, n)
    ensures Wrap(x, m) % n == x % n
  {
    var k: nat :| k > 0 && m == k * n;
    WrapTwice(x, k, n);
  }

  lemma UnsignedOffset(d: int, b: nat, n: nat, blocks: nat, m: nat)
    requires b > 0 && n > 0 && blocks > 0 && m > 0 && m == blocks * b && Multiple(blocks, n)
    ensures (Wrap(d * b, m) / b) % n == d % n
  {
    UnsignedDivision(d, b, blocks);
    CutToRing(d, blocks, n);
  }

  lemma LessATurn(x: int, m: nat, n: nat)
    requires n > 0 && Multiple(m, n)
    ensures (x - m) % n == x % n
  {
    var k: nat :| k > 0 && m == k * n;
    var back: int := 0 - k;
    assert x - m == x + back * n;
    ModTurns(x, back, n);
  }

  lemma SignedOffset(d: int, b: nat, n: nat, blocks: nat, half: nat)
    requires b > 0 && n > 0 && blocks > 0 && 2 * half == blocks * b && Multiple(blocks, n)
    ensures Truncated(Signed(Wrap(d * b, blocks * b), half), b) % n == d % n
  {
    SignedDivision(d, b, blocks, half);
    CutToRing(d, blocks, n);
    LessATurn(Wrap(d, blocks), blocks, n);
  }

  lemma DistanceInBlocks(q: int, r: int, b: nat, m: nat)
    requires m > 0
    ensures Wrap(Wrap(q * b, m) - Wrap(r * b, m), m) == Wrap((q - r) * b, m)
  {
    WrapDifference(q * b, r * b, m);
    assert q * b - r * b == (q - r) * b;
  }

  /** In whole blocks, the distance is right up to whole turns of the ring. */
  lemma OffsetIsRight(q: int, r: int, b: nat, n: nat, half: nat, size: nat)
    requires b > 0 && n > 0 && half > 0 && size > 0 && CountsTurns(2 * half, b, n) && Multiple(size, n)
    ensures WrappedOffset(Wrap(q * b, 2 * half), Wrap(r * b, 2 * half), b, half, size) % n == (q - r) % n
  {
    DistanceInBlocks(q, r, b, 2 * half);
    var blocks: nat :| blocks > 0 && 2 * half == blocks * b && Multiple(blocks, n);
    if 2 * half == size {
      UnsignedOffset(q - r, b, n, blocks, 2 * half);
    } else {
      SignedOffset(q - r, b, n, blocks, half);
      CutToRing(Truncated(Signed(Wrap((q - r) * b, 2 * half), half), b), size, n);
    }
  }

  lemma PowersDivide(k: nat, w: nat)
    requires k <= w
    ensures Multiple(Pow2(w), Pow2(k))
  {
    Pow2Split(w - k, k);
  }

  lemma PowersCount(bBits: nat, nBits: nat, w: nat)
    requires nBits + bBits <= w
    ensures CountsTurns(Pow2(w), Pow2(bBits), Pow2(nBits))
  {
    Pow2Split(w - bBits, bBits);
    PowersDivide(nBits, w - bBits);
  }

  lemma SlotFromOffset(front: nat, base: nat, frontBase: nat, d: int, b: nat, nBits: nat, half: nat, size: nat)
    requires b > 0 && half > 0 && size > 0 && Multiple(size, Pow2(nBits))
    requires WrappedOffset(base, frontBase, b, half, size) % Pow2(nBits) == d % Pow2(nBits)
    ensures WrappedSlot(front, base, frontBase, b, Pow2(nBits), half, size) == (front + d) % Pow2(nBits)
  {
    var offset := WrappedOffset(base, frontBase, b, half, size);
    LowMask(Wrap(front + offset, size), nBits);
    CutToRing(front + offset, size, Pow2(nBits));
    ModShift(offset, d, front, Pow2(nBits));
  }

  lemma SlotOfWords(front: nat, q: int, r: int, b: nat, nBits: nat, turn: nat, half: nat, size: nat)
    requires b > 0 && half > 0 && size > 0 && turn == 2 * half
    requires CountsTurns(turn, b, Pow2(nBits)) && Multiple(size, Pow2(nBits))
    ensures WrappedSlot(front, Wrap(q * b, turn), Wrap(r * b, turn), b, Pow2(nBits), half, size) == (front + (q - r)) % Pow2(nBits)
  {
    OffsetIsRight(q, r, b, Pow2(nBits), half, size);
    SlotFromOffset(front, Wrap(q * b, turn), Wrap(r * b, turn), q - r, b, nBits, half, size);
  }

  /** The slot found in wrapped arithmetic is the front's slot plus the signed distance in blocks, around a ring
      of a power-of-two capacity, as long as all the ring's blocks fit the index words: whatever the distance,
      and whether index words are as wide as sizes or wider. */
  lemma SlotIsRight(front: nat, q: int, r: int, bBits: nat, nBits: nat, w: nat, sizeBits: nat)
    requires 0 < sizeBits <= w && nBits + bBits <= w && nBits <= sizeBits
    ensures var b := Pow2(bBits);
            WrappedSlot(front, Wrap(q * b, Pow2(w)), Wrap(r * b, Pow2(w)), b, Pow2(nBits), Half(w), Pow2(sizeBits))
            == (front + (q - r)) % Pow2(nBits)
  {
    var b := Pow2(bBits);
    PowersCount(bBits, nBits, w);
    PowersDivide(nBits, sizeBits);
    SlotOfWords(front, q, r, b, nBits, Pow2(w), Half(w), Pow2(sizeBits));
  }

  // ---------------------------------------------------------------------------------------------
  // Counting blocks
  // ---------------------------------------------------------------------------------------------

  /** The block starts among `count` indices from `start`. */
  ghost function Starts(start: nat, count: nat, b: nat): set<nat>
    requires b > 0
  {
    set x | start <= x < start + count && x % b == 0
  }

  /** `(start + count - 1) / b - (start - 1) / b` is the number of block starts in the range. */
  lemma {:induction false} StartsCounted(start: nat, count: nat, b: nat)
    requires b > 0
    ensures |Starts(start, count, b)| == (start + count - 1) / b - (start - 1) / b
  {
    if count > 0 {
      StartsCounted(start, count - 1, b);
      var x := start + count - 1;
      var less := Starts(start, count - 1, b);
      if x % b == 0 {
        assert Starts(start, count, b) == less + {x};
        NextQuotient(x, b);
      } else {
        assert Starts(start, count, b) == less;
        NextQuotient(x, b);
      }
    } else {
      assert Starts(start, count, b) == {};
    }
  }

  lemma NextQuotient(x: nat, b: nat)
    requires b > 0
    ensures x / b - (x - 1) / b == if x % b == 0 then 1 else 0
  {
    var q := x / b;
    assert x == q * b + x % b;
    if x % b == 0 {
      assert x - 1 == (q - 1) * b + (b - 1);
      QuotientIs(x - 1, q - 1, b);
    } else {
      QuotientIs(x - 1, q, b);
    }
  }

  /** How many slots the blocks have that start in the range. */
  ghost function Slots(start: nat, count: nat, b: nat): nat
    requires b > 0
  {
    b * |Starts(start, count, b)|
  }

  lemma DifferenceOfBases(start: nat, count: nat, b: nat)
    requires b > 0
    ensures var last, before := start + count - 1, start - 1;
            (last - last % b) - (before - before % b) == Slots(start, count, b) < count + b
  {
    var last, before := start + count - 1, start - 1;
    StartsCounted(start, count, b);
    QuotientBounds(last, b);
    QuotientBounds(before, b);
    var n := last / b - before / b;
    assert n * b == (last / b) * b - (before / b) * b;
  }

  /** What `blockBaseDiff` is before it is stored as a size. */
  lemma DifferenceOfWords(start: nat, count: nat, bBits: nat, w: nat)
    requires bBits <= w
    ensures Pow2(bBits) <= Pow2(w)
    ensures var m, b := Pow2(w), Pow2(bBits);
            Wrap(And(Wrap(start + count - 1, m), m - b) - And(Wrap(start - 1, m), m - b), m)
            == Wrap(Slots(start, count, b), m)
  {
    var m, b := Pow2(w), Pow2(bBits);
    var last, before := start + count - 1, start - 1;
    BaseWraps(last, bBits, w);
    BaseWraps(before, bBits, w);
    DifferenceOfBases(start, count, b);
    WrapDifference(last - last % b, before - before % b, m);
  }

  /** The bulk enqueue's `blockBaseDiff`, as the program computes it with masks, from index words of `m` values for a
      size of `size` values. */
  function WrappedDiff(start: nat, count: nat, b: nat, m: nat, size: nat): nat
    requires 0 < b <= m && size > 0
  {
    Wrap(Wrap(And(Wrap(start + count - 1, m), m - b) - And(Wrap(start - 1, m), m - b), m), size)
  }

  lemma DiffOfWords(start: nat, count: nat, b: nat, m: nat, size: nat)
    requires 0 < b <= m && size > 0
    ensures WrappedDiff(Wrap(start, m), count, b, m, size) == WrappedDiff(start, count, b, m, size)
  {
    WrapAdd(start, count - 1, m);
    WrapAdd(start, -1, m);
  }

  /** The slots of `n` blocks. */
  function Span(n: nat, b: nat): nat {
    n * b
  }

  /** The base of the block `mine + 1` blocks behind the one before `tail`, counted on from the masked tail. */
  function WrappedBase(tail: nat, mine: nat, b: nat, m: nat): nat
    requires 0 < b <= m
  {
    Wrap(And(Wrap(tail - 1, m), m - b) + Span(mine + 1, b), m)
  }

  lemma BaseOfWords(tail: nat, mine: nat, bBits: nat, w: nat)
    requires bBits <= w
    ensures Pow2(bBits) <= Pow2(w)
    ensures var b := Pow2(bBits);
            WrappedBase(Wrap(tail, Pow2(w)), mine, b, Pow2(w)) == Wrap((tail - 1) - (tail - 1) % b + Span(mine + 1, b), Pow2(w))
  {
    BaseWraps(tail - 1, bBits, w);
    BaseOnward(tail, mine, Pow2(bBits), Pow2(w), (tail - 1) - (tail - 1) % Pow2(bBits));
  }

  lemma BaseOnward(tail: nat, mine: nat, b: nat, m: nat, base: int)
    requires 0 < b <= m && And(Wrap(tail - 1, m), m - b) == Wrap(base, m)
    ensures WrappedBase(Wrap(tail, m), mine, b, m) == Wrap(base + Span(mine + 1, b), m)
  {
    WrapAdd(tail, -1, m);
    WrapAdd(base, Span(mine + 1, b), m);
  }

  lemma CutDown(x: nat, m: nat, size: nat)
    requires m > 0 && size > 0 && Multiple(m, size)
    ensures Wrap(Wrap(x, m), size) == x <==> x < size
  {
    CutToRing(x, m, size);
    if x < size { ModSmall(x, size); }
  }

  /** It is `b` for each block start in the range, with the first index of a sub-queue (where `start - 1` wraps) no
      exception, exactly as long as that is a size. */
  lemma BlockBaseDiff(start: nat, count: nat, bBits: nat, w: nat, sizeBits: nat)
    requires bBits <= sizeBits <= w
    ensures Pow2(bBits) <= Pow2(w)
    ensures var all := Slots(start, count, Pow2(bBits));
            WrappedDiff(start, count, Pow2(bBits), Pow2(w), Pow2(sizeBits)) == all <==> all < Pow2(sizeBits)
  {
    DifferenceOfWords(start, count, bBits, w);
    PowersDivide(sizeBits, w);
    CutDown(Slots(start, count, Pow2(bBits)), Pow2(w), Pow2(sizeBits));
  }

  /** It is one for every call with fewer than `b` items less than a size can count. */
  lemma StartsFit(start: nat, count: nat, b: nat, size: nat)
    requires b > 0 && count + b <= size
    ensures Slots(start, count, b) < size
  {
    DifferenceOfBases(start, count, b);
  }
}
