/** 64-bit machine words as natural numbers.
    `Or` and `And` work bit by bit, shifts move one bit at a time, and `Shl` drops what leaves the
    word at the top. The lemmas take apart words built from fields laid one above the other. */
module Words {

  const WORD: nat := 0x1_0000_0000_0000_0000

  function Pow2(n: nat): (p: nat)
    ensures p >= 1
  {
    if n == 0 then 1 else 2 * Pow2(n - 1)
  }

  function Or(x: nat, y: nat): nat {
    if x == 0 then y else if y == 0 then x else
      2 * Or(x / 2, y / 2) + (if x % 2 == 1 || y % 2 == 1 then 1 else 0)
  }

  function And(x: nat, y: nat): nat {
    if x == 0 || y == 0 then 0 else
      2 * And(x / 2, y / 2) + (if x % 2 == 1 && y % 2 == 1 then 1 else 0)
  }

  function Up(x: nat, n: nat): nat { if n == 0 then x else 2 * Up(x, n - 1) }

  function Shl(x: nat, n: nat): nat { Up(x, n) % WORD }

  function Shr(x: nat, n: nat): nat { if n == 0 then x else Shr(x, n - 1) / 2 }

  function Mask(n: nat): nat { Pow2(n) - 1 }

  /** `(w >> off) & mask`. */
  function Bits(w: nat, off: nat, width: nat): nat { And(Shr(w, off), Mask(width)) }

  /** `hi` followed by `n` bits of `lo`. */
  function Cat(hi: nat, n: nat, lo: nat): nat { Up(hi, n) + lo }

  // ---- arithmetic --------------------------------------------------------------------------

  lemma MulMonotone(a: int, b: int, c: int)
    requires a <= b && 0 <= c
    ensures a * c <= b * c
  {}

  lemma Scaled(x: nat, a: nat, b: nat, lo: nat)
    requires x < a && lo < b
    ensures x * b + lo < a * b
  {
    MulMonotone(x + 1, a, b);
    assert (x + 1) * b == x * b + b;
  }

  lemma Assoc(a: int, b: int, c: int)
    ensures (a * b) * c == a * (b * c) == (a * c) * b
  {}

  lemma Recompose(x: nat, d: nat)
    requires d > 0
    ensures x == (x / d) * d + x % d
  {}

  /** Division with remainder is unique. */
  lemma Divided(x: int, d: int, q: int, r: int)
    requires x == q * d + r && 0 <= r < d
    ensures x / d == q && x % d == r
  {
    var e := x / d - q;
    assert e * d == r - x % d;
    if e >= 1 { MulMonotone(1, e, d); }
    if e <= -1 { MulMonotone(e, -1, d); }
  }

  lemma DivDiv(x: nat, a: nat, b: nat)
    requires a > 0 && b > 0
    ensures a * b > 0 && x / (a * b) == x / a / b
    ensures x % (a * b) == (x / a % b) * a + x % a
  {
    var y := x / a;
    var q, r := y / b, y % b;
    Recompose(x, a);
    Recompose(y, b);
    MulMonotone(r + 1, b, a);
    Assoc(q, b, a);
    MulMonotone(1, a, b);
    assert x == q * (a * b) + (r * a + x % a);
    Divided(x, a * b, q, r * a + x % a);
  }

  lemma {:induction false} Pow2Plus(m: nat, n: nat)
    ensures Pow2(m + n) == Pow2(m) * Pow2(n)
  {
    if m == 0 {
    } else {
      Pow2Plus(m - 1, n);
      assert Pow2(m + n) == 2 * Pow2(m - 1 + n);
      assert 2 * (Pow2(m - 1) * Pow2(n)) == (2 * Pow2(m - 1)) * Pow2(n);
    }
  }

  lemma Pow2Monotone(m: nat, n: nat)
    requires m <= n
    ensures Pow2(m) <= Pow2(n)
  {
    Pow2Plus(m, n - m);
    assert Pow2(m) * 1 <= Pow2(m) * Pow2(n - m);
  }

  lemma Doubled(n: nat, p: nat)
    requires Pow2(n) == p
    ensures Pow2(n + n) == p * p
  {
    Pow2Plus(n, n);
  }

  lemma WordSize()
    ensures Pow2(64) == WORD
  {
    Doubled(8, 0x100);
    Doubled(16, 0x1_0000);
    Doubled(32, 0x1_0000_0000);
  }

  // ---- shifts ------------------------------------------------------------------------------

  lemma {:induction false} UpIsProduct(x: nat, n: nat)
    ensures Up(x, n) == x * Pow2(n)
  {
    if n > 0 { UpIsProduct(x, n - 1); }
  }

  lemma {:induction false} ShrIsQuotient(x: nat, n: nat)
    ensures Shr(x, n) == x / Pow2(n)
  {
    if n > 0 {
      ShrIsQuotient(x, n - 1);
      DivDiv(x, Pow2(n - 1), 2);
    }
  }

  lemma {:induction false} UpUp(x: nat, m: nat, n: nat)
    ensures Up(Up(x, m), n) == Up(x, m + n)
  {
    if n > 0 { UpUp(x, m, n - 1); }
  }

  lemma {:induction false} ShrShr(x: nat, m: nat, n: nat)
    ensures Shr(Shr(x, m), n) == Shr(x, m + n)
  {
    if n > 0 { ShrShr(x, m, n - 1); }
  }

  lemma UpBound(x: nat, width: nat, n: nat)
    requires x < Pow2(width)
    ensures Up(x, n) < Pow2(width + n)
  {
    UpIsProduct(x, n);
    Pow2Plus(width, n);
    Scaled(x, Pow2(width), Pow2(n), 0);
  }

  /** A shifted field that ends below bit 64 loses nothing. */
  lemma ShlExact(x: nat, width: nat, n: nat)
    requires x < Pow2(width) && width + n <= 64
    ensures Shl(x, n) == Up(x, n) < Pow2(width + n)
  {
    UpBound(x, width, n);
    WordSize();
    Pow2Monotone(width + n, 64);
  }

  // ---- bits --------------------------------------------------------------------------------

  lemma OrCommutes(x: nat, y: nat)
    ensures Or(x, y) == Or(y, x)
  {}

  /** A word whose low `n` bits are clear, OR-ed with a value of `n` bits, is their sum. */
  lemma {:induction false} OrIsSum(x: nat, y: nat, n: nat)
    requires y < Pow2(n)
    ensures Or(Up(x, n), y) == Up(x, n) + y
  {
    if n > 0 { OrIsSum(x, y / 2, n - 1); }
  }

  lemma {:induction false} OrAssociates(x: nat, y: nat, z: nat)
    ensures Or(Or(x, y), z) == Or(x, Or(y, z))
    decreases x + y + z
  {
    if x > 0 && y > 0 && z > 0 {
      OrAssociates(x / 2, y / 2, z / 2);
      OrHalves(x, y);
      OrHalves(y, z);
      hide Or;
      OrHalves(Or(x, y), z);
      OrHalves(x, Or(y, z));
    }
  }

  lemma OrHalves(x: nat, y: nat)
    ensures Or(x, y) / 2 == Or(x / 2, y / 2) && Or(x, y) % 2 == if x % 2 == 1 then 1 else y % 2
  {}

  /** `n` ones but for a zero at bit `i`. */
  function AllBut(n: nat, i: nat): nat
    requires i < n
  {
    Pow2Monotone(i + 1, n);
    Pow2(n) - 1 - Pow2(i)
  }

  /** Clearing bit `i` of a word of `n` bits. */
  lemma {:induction false} ClearBit(x: nat, n: nat, i: nat)
    requires i < n && x < Pow2(n)
    ensures And(x, AllBut(n, i)) + Up(Shr(x, i) % 2, i) == x
  {
    var m := AllBut(n, i);
    if i == 0 {
      assert m == 2 * Mask(n - 1) && m / 2 == Mask(n - 1) && m % 2 == 0;
      AndSmall(x / 2, n - 1);
      assert And(x, m) == 2 * (x / 2);
    } else {
      assert m == 2 * AllBut(n - 1, i - 1) + 1;
      assert m / 2 == AllBut(n - 1, i - 1) && m % 2 == 1;
      ClearBit(x / 2, n - 1, i - 1);
      ShrShr(x, 1, i - 1);
      assert Shr(x, 1) == x / 2;
    }
  }

  /** `x & ((1 << n) - 1)` keeps the remainder modulo 2^n. */
  lemma {:induction false} AndMask(x: nat, n: nat)
    ensures And(x, Mask(n)) == x % Pow2(n)
  {
    if n > 0 {
      var p := Pow2(n - 1);
      assert Mask(n) == 2 * p - 1 && Mask(n) / 2 == Mask(n - 1) && Mask(n) % 2 == 1;
      AndMask(x / 2, n - 1);
      DivDiv(x, 2, p);
    }
  }

  lemma AndSmall(x: nat, n: nat)
    requires x < Pow2(n)
    ensures And(x, Mask(n)) == x
  {
    AndMask(x, n);
    Divided(x, Pow2(n), 0, x);
  }

  /** Two adjacent fields are one wider field. */
  lemma BitsJoin(w: nat, off: nat, m: nat, n: nat)
    ensures Cat(Bits(w, off + m, n), m, Bits(w, off, m)) == Bits(w, off, m + n)
  {
    var v := Shr(w, off);
    ShrShr(w, off, m);
    BitsIs(v, m, n);
    AndMask(v, m);
    AndMask(v, m + n);
    Pow2Plus(m, n);
    DivDiv(v, Pow2(m), Pow2(n));
    UpIsProduct(Bits(v, m, n), m);
  }

  lemma BitsIs(w: nat, off: nat, width: nat)
    ensures Bits(w, off, width) == w / Pow2(off) % Pow2(width)
  {
    ShrIsQuotient(w, off);
    AndMask(Shr(w, off), width);
  }

  lemma BitsBound(w: nat, off: nat, width: nat)
    ensures Bits(w, off, width) < Pow2(width)
  {
    BitsIs(w, off, width);
  }

  lemma AndBound(x: nat, n: nat)
    ensures And(x, Mask(n)) < Pow2(n)
  {
    AndMask(x, n);
  }

  // ---- fields ------------------------------------------------------------------------------

  lemma CatBound(hi: nat, m: nat, n: nat, lo: nat)
    requires hi < Pow2(m) && lo < Pow2(n)
    ensures Cat(hi, n, lo) < Pow2(m + n)
  {
    UpIsProduct(hi, n);
    Pow2Plus(m, n);
    Scaled(hi, Pow2(m), Pow2(n), lo);
  }

  /** Splitting a word built from two fields at their border, or higher up. */
  lemma CatSplit(hi: nat, n: nat, lo: nat, m: nat)
    requires lo < Pow2(n)
    ensures Shr(Cat(hi, n, lo), n) == hi
    ensures And(Cat(hi, n, lo), Mask(n)) == lo
    ensures Shr(Cat(hi, n, lo), n + m) == Shr(hi, m)
  {
    var w := Cat(hi, n, lo);
    UpIsProduct(hi, n);
    Divided(w, Pow2(n), hi, lo);
    ShrIsQuotient(w, n);
    AndMask(w, n);
    ShrShr(w, n, m);
  }

  lemma CatCat(hi: nat, k: nat, mid: nat, n: nat, lo: nat, m: nat)
    requires mid < Pow2(k) && lo < Pow2(n)
    ensures Shr(Cat(Cat(hi, k, mid), n, lo), n + k + m) == Shr(hi, m)
  {
    CatSplit(Cat(hi, k, mid), n, lo, k + m);
    CatSplit(hi, k, mid, m);
  }

  /** Every word is its upper part followed by its lower part. */
  lemma CatJoin(w: nat, n: nat)
    ensures Cat(Shr(w, n), n, And(w, Mask(n))) == w
  {
    ShrIsQuotient(w, n);
    UpIsProduct(Shr(w, n), n);
    AndMask(w, n);
    Recompose(w, Pow2(n));
  }

  lemma Rejoin(w: nat, off: nat, width: nat)
    ensures Cat(Shr(w, off + width), width, Bits(w, off, width)) == Shr(w, off)
  {
    ShrShr(w, off, width);
    CatJoin(Shr(w, off), width);
  }

  /** A field inside the low `n` bits does not see the truncation to `n` bits. */
  lemma BitsLow(w: nat, n: nat, off: nat, width: nat)
    requires off + width <= n
    ensures Bits(Bits(w, 0, n), off, width) == Bits(w, off, width)
  {
    BitsJoin(w, 0, off, n - off);
    BitsBound(w, 0, off);
    CatSplit(Bits(w, off, n - off), off, Bits(w, 0, off), 0);
    BitsJoin(w, off, width, n - off - width);
    BitsBound(w, off, width);
    CatSplit(Bits(w, off + width, n - off - width), width, Bits(w, off, width), 0);
  }

  lemma ShrBound(w: nat, m: nat, n: nat)
    requires w < Pow2(m + n)
    ensures Shr(w, n) < Pow2(m)
  {
    Pow2Plus(m, n);
    ShrIsQuotient(w, n);
    if Shr(w, n) >= Pow2(m) {
      Recompose(w, Pow2(n));
      MulMonotone(Pow2(m), Shr(w, n), Pow2(n));
    }
  }

  lemma {:induction false} UpPlus(x: nat, y: nat, n: nat)
    ensures Up(x, n) + Up(y, n) == Up(x + y, n)
  {
    if n > 0 { UpPlus(x, y, n - 1); }
  }

  /** OR-ing a field of `width` bits in at bit `n` of a word whose low n + width bits are clear. */
  lemma OrField(hi: nat, width: nat, x: nat, n: nat)
    requires x < Pow2(width) && width + n <= 64
    ensures Or(Up(hi, width + n), Shl(x, n)) == Up(Cat(hi, width, x), n)
  {
    ShlExact(x, width, n);
    OrIsSum(hi, Up(x, n), width + n);
    UpUp(hi, width, n);
    UpPlus(Up(hi, width), x, n);
  }

  /** Three fields OR-ed together, none overlapping. */
  lemma ThreeFields(x: nat, wx: nat, y: nat, wy: nat, z: nat, wz: nat)
    requires x < Pow2(wx) && y < Pow2(wy) && z < Pow2(wz) && wx + (wy + wz) <= 64
    ensures Or(Or(Shl(x, wy + wz), Shl(y, wz)), z) == Cat(Cat(x, wy, y), wz, z)
  {
    ShlExact(x, wx, wy + wz);
    OrField(x, wy, y, wz);
    OrIsSum(Cat(x, wy, y), z, wz);
  }

  /** The mask getters OR one bit at a time; n ones are built (getLBAMask and its siblings). */
  method GetMask(n: nat) returns (mask: nat)
    requires n <= 64
    ensures mask == Mask(n)
    ensures forall x: nat :: And(x, mask) == x % Pow2(n)
  {
    mask := 0;
    for bitIndex := 0 to n
      invariant mask == Mask(bitIndex)
    {
      ShlExact(1, 1, bitIndex);
      UpIsProduct(1, bitIndex);
      OrCommutes(mask, Shl(1, bitIndex));
      OrIsSum(1, mask, bitIndex);
      mask := Or(mask, Shl(1, bitIndex));
    }
    forall x: nat ensures And(x, mask) == x % Pow2(n) { AndMask(x, n); }
  }
}
