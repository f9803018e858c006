/** The memory file behind the chip: where a page of a channel, page number, die and bank lies in it. */
module FileManager {
  import opened Words

  datatype Shape = Shape(pageSize: nat, bankNum: nat, numDie: nat, pageNum: nat, chanNum: nat)
  {
    predicate Valid() { pageSize > 0 && bankNum > 0 && numDie > 0 && pageNum > 0 && chanNum > 0 }

    /** All pages of all channels. */
    function Pages(): nat { ((chanNum * pageNum) * numDie) * bankNum }

    function Bytes(): nat { Pages() * pageSize }

    /** The last page starts below 4 GiB. */
    predicate Addressable() { (Pages() - 1) * pageSize < 0x1_0000_0000 }
  }

  datatype Location = Location(chan: nat, page: nat, die: nat, bank: nat)
  {
    predicate In(s: Shape) { chan < s.chanNum && page < s.pageNum && die < s.numDie && bank < s.bankNum }
  }

  /** The number of a page as the source sums it up. */
  function PageIndex(s: Shape, p: Location): nat {
    p.page * s.bankNum * s.numDie + p.chan * s.bankNum * s.numDie * s.pageNum + p.die * s.bankNum + p.bank
  }

  /** The byte the page starts at; sum and product are taken in 32 bits. */
  function FileIndex(s: Shape, p: Location): nat { PageIndex(s, p) * s.pageSize % 0x1_0000_0000 }

  // ---- the index is a mixed-radix number ---------------------------------------------------

  /** `x` followed by the digit `r` of radix `d`. */
  function Digit(x: nat, d: nat, r: nat): nat { x * d + r }

  function Nested(s: Shape, p: Location): nat {
    Digit(Digit(Digit(p.chan, s.pageNum, p.page), s.numDie, p.die), s.bankNum, p.bank)
  }

  lemma Distribute(x: nat, y: nat, z: nat)
    ensures (x + y) * z == x * z + y * z
  {}

  lemma IndexIsNested(s: Shape, p: Location)
    ensures PageIndex(s, p) == Nested(s, p)
  {
    var c, g, d, b := p.chan * s.pageNum, p.page, s.numDie, s.bankNum;
    Distribute(c, g, d);
    Distribute((c + g) * d, p.die, b);
    Distribute(c * d, g * d, b);
    Assoc(c, d, b);
    Assoc(g, d, b);
    Reorder(p.chan, s.pageNum, d, b);
  }

  lemma Reorder(c: nat, g: nat, d: nat, b: nat)
    ensures c * g * d * b == c * b * d * g
  {
    Assoc(c * g, d, b);
    Assoc(c, g, b * d);
    Assoc(c, b, d);
  }

  /** Digits in range give a number in range, and different digits different numbers. */
  lemma NestedInRange(s: Shape, p: Location)
    requires p.In(s)
    ensures Nested(s, p) < s.Pages()
  {
    Scaled(p.chan, s.chanNum, s.pageNum, p.page);
    Scaled(p.chan * s.pageNum + p.page, s.chanNum * s.pageNum, s.numDie, p.die);
    Scaled((p.chan * s.pageNum + p.page) * s.numDie + p.die, (s.chanNum * s.pageNum) * s.numDie, s.bankNum, p.bank);
  }

  lemma SplitDigit(x: nat, y: nat, d: nat, r: nat, t: nat)
    requires r < d && t < d && Digit(x, d, r) == Digit(y, d, t)
    ensures x == y && r == t
  {
    Divided(x * d + r, d, x, r);
    Divided(y * d + t, d, y, t);
  }

  lemma NestedInjective(s: Shape, p: Location, q: Location)
    requires p.In(s) && q.In(s) && Nested(s, p) == Nested(s, q)
    ensures p == q
  {
    hide Digit;
    var x, y := Digit(p.chan, s.pageNum, p.page), Digit(q.chan, s.pageNum, q.page);
    SplitDigit(Digit(x, s.numDie, p.die), Digit(y, s.numDie, q.die), s.bankNum, p.bank, q.bank);
    SplitDigit(x, y, s.numDie, p.die, q.die);
    SplitDigit(p.chan, q.chan, s.pageNum, p.page, q.page);
  }

  lemma IndexInRange(s: Shape, p: Location)
    requires p.In(s)
    ensures PageIndex(s, p) < s.Pages()
  {
    IndexIsNested(s, p);
    NestedInRange(s, p);
  }

  /** The page index is injective over all channels, pages, dies and banks. */
  lemma IndexInjective(s: Shape, p: Location, q: Location)
    requires p.In(s) && q.In(s)
    ensures PageIndex(s, p) == PageIndex(s, q) <==> p == q
  {
    IndexIsNested(s, p);
    IndexIsNested(s, q);
    if PageIndex(s, p) == PageIndex(s, q) { NestedInjective(s, p, q); }
  }

  /** Channel by channel, within it page by page, within it die by die, within it bank by bank. */
  predicate Before(p: Location, q: Location) {
    if p.chan != q.chan then p.chan < q.chan
    else if p.page != q.page then p.page < q.page
    else if p.die != q.die then p.die < q.die
    else p.bank < q.bank
  }

  /** The pages lie in the file in that order. */
  lemma IndexOrder(s: Shape, p: Location, q: Location)
    requires p.In(s) && q.In(s)
    ensures PageIndex(s, p) < PageIndex(s, q) <==> Before(p, q)
  {
    hide Digit;
    IndexIsNested(s, p);
    IndexIsNested(s, q);
    var x, y := Digit(p.chan, s.pageNum, p.page), Digit(q.chan, s.pageNum, q.page);
    DigitOrder(p.chan, q.chan, s.pageNum, p.page, q.page);
    DigitOrder(x, y, s.numDie, p.die, q.die);
    DigitOrder(Digit(x, s.numDie, p.die), Digit(y, s.numDie, q.die), s.bankNum, p.bank, q.bank);
    if x == y { SplitDigit(p.chan, q.chan, s.pageNum, p.page, q.page); }
    if Digit(x, s.numDie, p.die) == Digit(y, s.numDie, q.die) { SplitDigit(x, y, s.numDie, p.die, q.die); }
  }

  /** The more significant digits decide. */
  lemma DigitOrder(x: nat, y: nat, d: nat, r: nat, t: nat)
    requires r < d && t < d
    ensures Digit(x, d, r) < Digit(y, d, t) <==> x < y || (x == y && r < t)
  {
    if x < y {
      MulMonotone(x + 1, y, d);
      Distribute(x, 1, d);
    } else if y < x {
      MulMonotone(y + 1, x, d);
      Distribute(y, 1, d);
    }
  }

  /** Every page number belongs to a place. */
  lemma LastPlace(s: Shape) returns (p: Location)
    requires s.Valid()
    ensures p.In(s) && PageIndex(s, p) == s.Pages() - 1
  {
    p := Location(s.chanNum - 1, s.pageNum - 1, s.numDie - 1, s.bankNum - 1);
    IndexIsNested(s, p);
    LastDigit(s.chanNum, s.pageNum);
    LastDigit(s.chanNum * s.pageNum, s.numDie);
    LastDigit((s.chanNum * s.pageNum) * s.numDie, s.bankNum);
  }

  lemma LastDigit(x: nat, d: nat)
    requires x > 0 && d > 0
    ensures x * d >= 1 && (x - 1) * d + (d - 1) == x * d - 1
  {
    MulMonotone(1, x, d);
    Distribute(x - 1, 1, d);
  }

  lemma PageInside(i: nat, pages: nat, size: nat)
    requires i < pages
    ensures i * size + size <= pages * size && i * size <= (pages - 1) * size
  {
    MulMonotone(i + 1, pages, size);
    MulMonotone(i, pages - 1, size);
    Distribute(i, 1, size);
  }

  /** The 32-bit arithmetic reaches the right byte for every page exactly when the last page starts
      below 4 GiB. */
  lemma FileIndexExact(s: Shape)
    requires s.Valid()
    ensures (forall p: Location :: p.In(s) ==> FileIndex(s, p) == PageIndex(s, p) * s.pageSize)
       <==> s.Addressable()
  {
    hide PageIndex, Shape.Pages;
    var last := LastPlace(s);
    forall p: Location | p.In(s) ensures s.Addressable() ==> FileIndex(s, p) == PageIndex(s, p) * s.pageSize {
      IndexInRange(s, p);
      PageInside(PageIndex(s, p), s.Pages(), s.pageSize);
      InWord(PageIndex(s, p) * s.pageSize);
    }
    InWord((s.Pages() - 1) * s.pageSize);
    assert FileIndex(s, last) == (s.Pages() - 1) * s.pageSize % 0x1_0000_0000;
  }

  lemma InWord(x: nat)
    ensures x % 0x1_0000_0000 == x <==> x < 0x1_0000_0000
  {}

  // ---- the file ----------------------------------------------------------------------------

  class FileManager {
    const s: Shape
    const mSize: nat
    var mMemFile: seq<nat>

    /** The file is initialised and its indices do not wrap. */
    ghost predicate Valid()
      reads this
    {
      s.Valid() && s.Bytes() <= |mMemFile| && s.Addressable()
    }

    /** The file as pages. */
    ghost function Contents(): (r: imap<Location, seq<nat>>)
      requires Valid()
      reads this
      ensures forall p: Location :: p in r <==> p.In(s)
    {
      imap p: Location | p.In(s) :: PageAt(mMemFile, s, p)
    }

    constructor (s: Shape, size: nat)
      ensures this.s == s && mSize == size && mMemFile == []
    {
      this.s, mSize, mMemFile := s, size, [];
    }

    /** initFile: blocks of zeros until the size is reached. */
    method InitFile(mBlockSize: nat)
      requires s.Valid() && mBlockSize > 0 && mMemFile == []
      modifies this
      ensures |mMemFile| >= mSize && forall k :: 0 <= k < |mMemFile| ==> mMemFile[k] == 0
      ensures mSize == s.Bytes() && s.Addressable() ==> Valid()
    {
      hide s.Bytes, s.Addressable;
      while |mMemFile| < mSize
        invariant forall k :: 0 <= k < |mMemFile| ==> mMemFile[k] == 0
      {
        mMemFile := mMemFile + seq(mBlockSize, _ => 0);
      }
    }

    method ReadMemory(p: Location) returns (dataPtr: seq<nat>)
      requires Valid() && p.In(s)
      ensures dataPtr == Contents()[p] && |dataPtr| == s.pageSize
    {
      Fits(s, |mMemFile|, p);
      var fileIndex := FileIndex(s, p);
      dataPtr := mMemFile[fileIndex..fileIndex + s.pageSize];
    }

    /** One page is replaced and no other changes. */
    method WriteMemory(p: Location, dataPtr: seq<nat>)
      requires Valid() && p.In(s) && |dataPtr| == s.pageSize
      modifies this
      ensures Valid() && Contents() == old(Contents())[p := dataPtr]
    {
      Fits(s, |mMemFile|, p);
      var fileIndex := FileIndex(s, p);
      ghost var before := mMemFile;
      mMemFile := mMemFile[..fileIndex] + dataPtr + mMemFile[fileIndex + s.pageSize..];
      forall q: Location | q.In(s) ensures PageAt(mMemFile, s, q) == if q == p then dataPtr else PageAt(before, s, q) {
        PutThenPage(before, s, p, dataPtr, q);
      }
    }
  }

  /** The page at `p`. */
  function PageAt(file: seq<nat>, s: Shape, p: Location): (r: seq<nat>)
    requires s.Valid() && p.In(s) && s.Bytes() <= |file|
    ensures |r| == s.pageSize
  {
    IndexInRange(s, p);
    PageInside(PageIndex(s, p), s.Pages(), s.pageSize);
    file[PageIndex(s, p) * s.pageSize..PageIndex(s, p) * s.pageSize + s.pageSize]
  }

  /** A page of a complete file lies inside it, at the byte the source computes. */
  lemma Fits(s: Shape, length: nat, p: Location)
    requires s.Valid() && p.In(s) && s.Bytes() <= length && s.Addressable()
    ensures PageIndex(s, p) * s.pageSize + s.pageSize <= length
    ensures FileIndex(s, p) == PageIndex(s, p) * s.pageSize
  {
    IndexInRange(s, p);
    PageInside(PageIndex(s, p), s.Pages(), s.pageSize);
  }

  /** Pages do not overlap: writing one leaves every other as it was. */
  lemma PutThenPage(file: seq<nat>, s: Shape, p: Location, data: seq<nat>, q: Location)
    requires s.Valid() && p.In(s) && q.In(s) && s.Bytes() <= |file| && s.Addressable() && |data| == s.pageSize
    ensures PageIndex(s, p) * s.pageSize + s.pageSize <= |file|
    ensures var a := PageIndex(s, p) * s.pageSize;
            PageAt(file[..a] + data + file[a + s.pageSize..], s, q) == if q == p then data else PageAt(file, s, q)
  {
    hide PageIndex;
    Fits(s, |file|, p);
    Fits(s, |file|, q);
    IndexInjective(s, p, q);
    var i, j := PageIndex(s, p), PageIndex(s, q);
    if j < i { PageInside(j, i, s.pageSize); } else if i < j { PageInside(i, j, s.pageSize); }
    Spliced(file, i * s.pageSize, data, j * s.pageSize);
  }

  lemma Spliced(file: seq<nat>, a: nat, data: seq<nat>, b: nat)
    requires a + |data| <= |file| && b + |data| <= |file| && (b == a || b + |data| <= a || a + |data| <= b)
    ensures (file[..a] + data + file[a + |data|..])[b..b + |data|] == if b == a then data else file[b..b + |data|]
  {}
}
