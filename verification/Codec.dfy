/** The packed command words and the re-packings between the queues.
    Every layout is  slot:8 | queue:8 | type:2 | lba:L | count:9  for its own LBA width L; in the
    host's word the slot takes the queue field's position and nothing lies above it. */
module Codec {
  import opened Words

  datatype Fields = Fields(slot: nat, queue: nat, ctype: nat, lba: nat, cwCnt: nat)
  {
    predicate Fit(L: nat) {
      slot < 256 && queue < 256 && ctype < 4 && lba < Pow2(L) && cwCnt < 512
    }
  }

  /** The OR of shifted fields that every create method writes. */
  function Pack(L: nat, f: Fields): nat {
    Or(Or(Or(Or(Shl(f.slot, L + 19), Shl(f.queue, L + 11)), Shl(f.ctype, L + 9)), Shl(f.lba, 9)), f.cwCnt)
  }

  /** The shift-and-mask reads of the decode methods. */
  function Unpack(L: nat, w: nat): Fields {
    Fields(Bits(w, L + 19, 8), Bits(w, L + 11, 8), Bits(w, L + 9, 2), Bits(w, 9, L), Bits(w, 0, 9))
  }

  /** The word as a number: the fields one above the other. */
  function Layers(L: nat, f: Fields): nat {
    Cat(Upper(L, f), 9, f.cwCnt)
  }

  function Upper(L: nat, f: Fields): nat {
    Cat(Cat(Cat(f.slot, 8, f.queue), 2, f.ctype), L, f.lba)
  }

  lemma Sizes()
    ensures Pow2(0) == 1 && Pow2(1) == 2 && Pow2(2) == 4 && Pow2(8) == 256 && Pow2(9) == 512
  {}

  lemma PackIsLayers(L: nat, f: Fields)
    requires f.Fit(L) && L + 27 <= 64
    ensures Pack(L, f) == Layers(L, f)
  {
    Sizes();
    var a := Cat(f.slot, 8, f.queue);
    ShlExact(f.slot, 8, L + 19);
    OrField(f.slot, 8, f.queue, L + 11);
    OrField(a, 2, f.ctype, L + 9);
    OrField(Cat(a, 2, f.ctype), L, f.lba, 9);
    OrIsSum(Upper(L, f), f.cwCnt, 9);
  }

  /** Above the count and the LBA: `Shr` by L + 9 + m drops both. */
  lemma AboveLba(L: nat, f: Fields, m: nat)
    requires f.Fit(L)
    ensures Shr(Layers(L, f), L + 9 + m) == Shr(Cat(Cat(f.slot, 8, f.queue), 2, f.ctype), m)
  {
    Sizes();
    CatCat(Cat(Cat(f.slot, 8, f.queue), 2, f.ctype), L, f.lba, 9, f.cwCnt, m);
    assert 9 + L + m == L + 9 + m;
  }

  lemma LowFields(L: nat, f: Fields)
    requires f.Fit(L)
    ensures Bits(Layers(L, f), 0, 9) == f.cwCnt && Bits(Layers(L, f), 9, L) == f.lba
  {
    Sizes();
    CatSplit(Upper(L, f), 9, f.cwCnt, 0);
    CatSplit(Cat(Cat(f.slot, 8, f.queue), 2, f.ctype), L, f.lba, 0);
  }

  lemma TypeField(L: nat, f: Fields)
    requires f.Fit(L)
    ensures Bits(Layers(L, f), L + 9, 2) == f.ctype
  {
    Sizes();
    AboveLba(L, f, 0);
    CatSplit(Cat(f.slot, 8, f.queue), 2, f.ctype, 0);
  }

  lemma QueueField(L: nat, f: Fields)
    requires f.Fit(L)
    ensures Bits(Layers(L, f), L + 11, 8) == f.queue
  {
    Sizes();
    AboveLba(L, f, 2);
    CatSplit(Cat(f.slot, 8, f.queue), 2, f.ctype, 0);
    CatSplit(f.slot, 8, f.queue, 0);
  }

  lemma SlotField(L: nat, f: Fields)
    requires f.Fit(L)
    ensures Bits(Layers(L, f), L + 19, 8) == f.slot
  {
    Sizes();
    AboveLba(L, f, 10);
    CatCat(f.slot, 8, f.queue, 2, f.ctype, 0);
    AndSmall(f.slot, 8);
  }

  lemma UnpackLayers(L: nat, f: Fields)
    requires f.Fit(L)
    ensures Unpack(L, Layers(L, f)) == f
  {
    LowFields(L, f);
    TypeField(L, f);
    QueueField(L, f);
    SlotField(L, f);
  }

  /** Decoding a packed word gives its fields back; only the all-zero fields pack to zero. */
  lemma UnpackPack(L: nat, f: Fields)
    requires f.Fit(L) && L + 27 <= 64
    ensures Unpack(L, Pack(L, f)) == f
    ensures Pack(L, f) < Pow2(L + 27)
    ensures Pack(L, f) == 0 <==> f == Fields(0, 0, 0, 0, 0)
  {
    hide Or, And, Up, Shl, Shr, Pow2, Mask, Bits, Cat, Pack, Unpack;
    Sizes();
    PackIsLayers(L, f);
    UnpackLayers(L, f);
    CatBound(f.slot, 8, 8, f.queue);
    CatBound(Cat(f.slot, 8, f.queue), 16, 2, f.ctype);
    CatBound(Cat(Cat(f.slot, 8, f.queue), 2, f.ctype), 18, L, f.lba);
    CatBound(Upper(L, f), 18 + L, 9, f.cwCnt);
    UnpackZero(L);
    ZeroLayers(L);
  }

  lemma UnpackZero(L: nat)
    ensures Unpack(L, 0) == Fields(0, 0, 0, 0, 0)
  {
    forall n, m: nat ensures Bits(0, n, m) == 0 {
      ShrIsQuotient(0, n);
      Divided(0, Pow2(n), 0, 0);
    }
  }

  lemma ZeroLayers(L: nat)
    ensures Layers(L, Fields(0, 0, 0, 0, 0)) == 0
  {
    forall n: nat ensures Cat(0, n, 0) == 0 { UpIsProduct(0, n); }
  }

  /** Packing the decoded fields of a word in range gives the word back: the layout leaves no gap. */
  lemma PackUnpack(L: nat, w: nat)
    requires L + 27 <= 64 && w < Pow2(L + 27)
    ensures Unpack(L, w).Fit(L)
    ensures Pack(L, Unpack(L, w)) == w
  {
    UnpackFits(L, w);
    var f := Unpack(L, w);
    PackIsLayers(L, f);
    Sizes();
    TopField(L, w);
    Rejoin(w, L + 11, 8);
    Rejoin(w, L + 9, 2);
    Rejoin(w, 9, L);
    Rejoin(w, 0, 9);
  }

  lemma TopField(L: nat, w: nat)
    requires w < Pow2(L + 27)
    ensures Shr(w, L + 19) == Bits(w, L + 19, 8)
  {
    ShrBound(w, 8, L + 19);
    AndSmall(Shr(w, L + 19), 8);
  }

  lemma UnpackFits(L: nat, w: nat)
    ensures Unpack(L, w).Fit(L)
  {
    Sizes();
    BitsBound(w, L + 19, 8);
    BitsBound(w, L + 11, 8);
    BitsBound(w, L + 9, 2);
    BitsBound(w, 9, L);
    BitsBound(w, 0, 9);
  }
}
