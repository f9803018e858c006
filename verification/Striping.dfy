/** How a command's code words spread over the channels, and how an LBA is made of channel, code-word
    bank, chip-select and page. */
module Striping {
  import opened Words
  import opened Geometry
  import opened Hops
  import opened Shares
  import opened CommandQueue

  // ---- the LBA's fields --------------------------------------------------------------------

  datatype Address = Address(chan: nat, bank: nat, chip: nat, page: nat)
  {
    predicate In(g: Geometry) {
      chan < Pow2(g.chanBits) && bank < Pow2(g.cwBits) && chip < 2 && page < Pow2(g.pageBits)
    }
  }

  /** getLBAField. */
  function Split(g: Geometry, lba: nat): Address {
    Address(Bits(lba, 0, g.chanBits), Bits(lba, g.chanBits, g.cwBits), Bits(lba, g.chanBits + g.cwBits, 1),
            Bits(lba, g.chanBits + g.cwBits + 1, g.pageBits))
  }

  /** The shifts and ORs of TeraSBankLLMethod and of the host. */
  function Compose(g: Geometry, a: Address): nat {
    Or(Or(Or(a.chan, Shl(a.bank, g.chanBits)), Shl(a.chip, g.cwBits + g.chanBits)), Shl(a.page, g.cwBits + g.chanBits + 1))
  }

  /** The fields one above the other. */
  function Layered(g: Geometry, a: Address): nat {
    Cat(Cat(Cat(a.page, 1, a.chip), g.cwBits, a.bank), g.chanBits, a.chan)
  }

  lemma OrBelow(x: nat, hi: nat, width: nat, n: nat)
    requires x < Pow2(n) && hi < Pow2(width) && width + n <= 64
    ensures Or(x, Shl(hi, n)) == Cat(hi, n, x) < Pow2(width + n)
  {
    ShlExact(hi, width, n);
    OrCommutes(x, Shl(hi, n));
    OrIsSum(hi, x, n);
    CatBound(hi, width, n, x);
  }

  lemma ComposeIsLayered(g: Geometry, a: Address)
    requires g.Widths() && a.In(g)
    ensures Compose(g, a) == Layered(g, a) < Pow2(g.LbaBits())
  {
    hide Or, Shl, Pow2, Up, Cat;
    var K, B, P := g.chanBits, g.cwBits, g.pageBits;
    OneBit(a.chip);
    OrBelow(a.chan, a.bank, B, K);
    OrBelow(Cat(a.bank, K, a.chan), a.chip, 1, B + K);
    OrBelow(Cat(a.chip, B + K, Cat(a.bank, K, a.chan)), a.page, P, B + K + 1);
    LayersRegrouped(g, a);
  }

  /** The LBA as a number: consecutive LBAs run through the channels first, then the banks, the dies and
      the pages. */
  lemma ComposeIsNumber(g: Geometry, a: Address)
    requires g.Widths() && a.In(g)
    ensures Compose(g, a) == ((a.page * 2 + a.chip) * Pow2(g.cwBits) + a.bank) * Pow2(g.chanBits) + a.chan
  {
    hide Or, Shl, Up, Compose;
    ComposeIsLayered(g, a);
    UpIsProduct(a.page, 1);
    UpIsProduct(Cat(a.page, 1, a.chip), g.cwBits);
    UpIsProduct(Cat(Cat(a.page, 1, a.chip), g.cwBits, a.bank), g.chanBits);
    assert Pow2(1) == 2;
  }

  lemma LayersRegrouped(g: Geometry, a: Address)
    ensures var K, B := g.chanBits, g.cwBits;
            Cat(a.page, B + K + 1, Cat(a.chip, B + K, Cat(a.bank, K, a.chan))) == Layered(g, a)
  {
    hide Cat;
    var K, B, low := g.chanBits, g.cwBits, Cat(a.bank, g.chanBits, a.chan);
    assert B + K + 1 == 1 + (B + K);
    Regroup(a.page, 1, a.chip, B + K, low);
    Regroup(Cat(a.page, 1, a.chip), B, a.bank, K, a.chan);
  }

  lemma OneBit(x: nat)
    ensures x < 2 <==> x < Pow2(1)
  {}

  /** Appending fields is associative. */
  lemma Regroup(hi: nat, m: nat, mid: nat, n: nat, lo: nat)
    ensures Cat(hi, m + n, Cat(mid, n, lo)) == Cat(Cat(hi, m, mid), n, lo)
  {
    UpPlus(Up(hi, m), mid, n);
    UpUp(hi, m, n);
  }

  /** Every address in range is split out of the LBA it was composed into. */
  lemma SplitCompose(g: Geometry, a: Address)
    requires g.Widths() && a.In(g)
    ensures Split(g, Compose(g, a)) == a && Compose(g, a) < Pow2(g.LbaBits())
  {
    hide Or, Shl, Shr, And, Pow2, Up, Cat;
    ComposeIsLayered(g, a);
    ReadLow(g, a);
    ReadHigh(g, a);
  }

  lemma ReadLow(g: Geometry, a: Address)
    requires a.In(g)
    ensures Bits(Layered(g, a), 0, g.chanBits) == a.chan && Bits(Layered(g, a), g.chanBits, g.cwBits) == a.bank
  {
    CatSplit(Cat(Cat(a.page, 1, a.chip), g.cwBits, a.bank), g.chanBits, a.chan, 0);
    CatSplit(Cat(a.page, 1, a.chip), g.cwBits, a.bank, 0);
  }

  lemma ReadHigh(g: Geometry, a: Address)
    requires a.In(g)
    ensures Bits(Layered(g, a), g.chanBits + g.cwBits, 1) == a.chip
    ensures Bits(Layered(g, a), g.chanBits + g.cwBits + 1, g.pageBits) == a.page
  {
    hide Or, Shl, Pow2, Up, Cat;
    OneBit(a.chip);
    CatCat(Cat(a.page, 1, a.chip), g.cwBits, a.bank, g.chanBits, a.chan, 0);
    CatCat(Cat(a.page, 1, a.chip), g.cwBits, a.bank, g.chanBits, a.chan, 1);
    CatSplit(a.page, 1, a.chip, 0);
    AndSmall(a.page, g.pageBits);
    assert g.cwBits + g.chanBits == g.chanBits + g.cwBits;
    Whole(Cat(a.page, 1, a.chip));
  }

  lemma Whole(x: nat)
    ensures Shr(x, 0) == x
  {}

  /** And every LBA in range is composed of the address it splits into: the split is a bijection. */
  lemma ComposeSplit(g: Geometry, lba: nat)
    requires g.Widths() && lba < Pow2(g.LbaBits())
    ensures Split(g, lba).In(g) && Compose(g, Split(g, lba)) == lba
  {
    hide Or, Shl, Shr, And, Pow2, Up;
    var K, B, P := g.chanBits, g.cwBits, g.pageBits;
    BitsBound(lba, 0, K);
    BitsBound(lba, K, B);
    BitsBound(lba, K + B, 1);
    BitsBound(lba, K + B + 1, P);
    OneBit(Bits(lba, K + B, 1));
    AppendAll(lba, K, B, P);
    LowBits(lba, g.LbaBits());
    assert g.LbaBits() == K + B + 1 + P;
  }

  lemma LowBits(x: nat, n: nat)
    requires x < Pow2(n)
    ensures Bits(x, 0, n) == x
  {
    AndSmall(x, n);
  }

  // ---- even shares -------------------------------------------------------------------------

  /** The channels of the first `n` code words of a queued command, counted. */
  function ChannelShare(g: Geometry, word: nat, n: nat, c: nat): nat
    requires g.LbaBits() <= 22
  {
    if n == 0 then 0 else
      ChannelShare(g, word, n - 1, c) + if HostChan(g, Replica(g.LbaBits(), word, n - 1)) == c then 1 else 0
  }

  /** Code word i goes to channel (lba + i) modulo the number of channels. */
  lemma ReplicaChannel(g: Geometry, word: nat, i: nat)
    requires g.Widths() && g.LbaBits() <= 22 && word < Pow2(g.LbaBits() + 19)
    ensures HostChan(g, Replica(g.LbaBits(), word, i)) == (Bits(word, 9, g.LbaBits()) + i) % g.ChanNum()
  {
    hide Or, Shl, Shr, Pow2, Up, Replica, Mask, And;
    var L, lba := g.LbaBits(), Bits(word, 9, g.LbaBits());
    ReplicaDecodes(L, word, i);
    ModOfLow(lba + i, L, g.chanBits);
  }

  lemma ModOfLow(x: nat, n: nat, k: nat)
    requires k <= n
    ensures And(And(x, Mask(n)), Mask(k)) == x % Pow2(k)
  {
    hide Or, Shl, Pow2, Up, Mask, And;
    BitsLow(x, n, 0, k);
    AndMask(x, k);
    Whole(x);
    Whole(And(x, Mask(n)));
  }

  lemma {:induction false} ChannelShareIs(g: Geometry, word: nat, n: nat, c: nat)
    requires g.Widths() && g.LbaBits() <= 22 && word < Pow2(g.LbaBits() + 19)
    ensures ChannelShare(g, word, n, c) == Share(Bits(word, 9, g.LbaBits()), n, g.ChanNum(), c)
  {
    hide HostChan, Replica, Pow2, Bits;
    if n > 0 {
      ChannelShareIs(g, word, n - 1, c);
      ReplicaChannel(g, word, n - 1);
    }
  }

  /** Whatever its LBA and length, a command loads any two channels alike to within one code word. */
  lemma StripesEvenly(g: Geometry, word: nat, n: nat, c: nat, d: nat)
    requires g.Widths() && g.LbaBits() <= 22 && word < Pow2(g.LbaBits() + 19)
    requires c < g.ChanNum() && d < g.ChanNum()
    ensures -1 <= ChannelShare(g, word, n, c) - ChannelShare(g, word, n, d) <= 1
  {
    hide ChannelShare, Share, Bits;
    ChannelShareIs(g, word, n, c);
    ChannelShareIs(g, word, n, d);
    SharesEven(Bits(word, 9, g.LbaBits()), n, g.ChanNum(), c, d);
  }
}
