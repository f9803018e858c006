/** The life of one packed command: the host's word, the active word of the short and long queues,
    the pending word of the timed queues, the active word again, and the 16-bit completion entry.
    A hop may drop the page; slot, queue number, type, bank bits and count have to survive. */
module Hops {
  import opened Words
  import opened Geometry
  import opened Codec

  // ---- the words ---------------------------------------------------------------------------

  /** genCommandPayload of the host, its LBA rebuilt from channel, bank, chip-select and page. */
  function EffectiveLba(g: Geometry, lba: nat): nat {
    var K, B := g.chanBits, g.cwBits;
    var chan := And(lba, Mask(K)) % 0x100;
    var bank := Bits(lba, K, B) % 0x100;
    var chip := Bits(lba, B + K, 1);
    var page := Bits(lba, B + K + 1, g.pageBits) % 0x1_0000_0000;
    Or(Or(Or(chan, Shl(bank, K)), Shl(chip, B + K)), Shl(page, B + K + 1))
  }

  function HostWord(g: Geometry, write: bool, lba: nat, slot: nat, cwCount: nat): nat {
    var L := g.LbaBits();
    And(Or(Or(Or(Shl(slot, L + 11), Shl(if write then 1 else 0, L + 9)), Shl(EffectiveLba(g, lba), 9)), cwCount),
        Mask(L + 19))
  }

  /** The queue number: the PCMDQ address less the slot's base, cast to eight bits. */
  function QueueNum(g: Geometry, slot: nat, queueAddr: int): nat {
    (queueAddr - Up(slot, g.addrShifter)) % 0x100
  }

  /** createActiveCmdEntry from a queued host word and its PCMDQ address. */
  function CreateActive(g: Geometry, cmd: nat, queueAddr: int): nat {
    Pack(g.ActiveBits(), ActiveFields(g, cmd, queueAddr))
  }

  function ActiveFields(g: Geometry, cmd: nat, queueAddr: int): Fields {
    var L := g.LbaBits();
    var slot := Bits(cmd, L + 11, 8);
    Fields(slot, QueueNum(g, slot, queueAddr), Bits(cmd, L + 9, 2),
           And(Shr(Bits(cmd, 9, L), g.chanBits), Mask(g.ActiveBits())), Bits(cmd, 0, 9))
  }

  /** createPendingCmdEntry. */
  function CreatePending(g: Geometry, active: nat): nat {
    var f := Unpack(g.ActiveBits(), active);
    Pack(g.PendingBits(), f.(lba := And(f.lba, Mask(g.PendingBits())) % 0x100))
  }

  /** decodePendingCmdEntry. */
  function DecodePending(g: Geometry, pending: nat): Fields {
    var f := Unpack(g.PendingBits(), pending);
    f.(lba := f.lba % 0x100)
  }

  /** createActiveCmdEntry from the fields of a pending word: the page is gone. */
  function RecreateActive(g: Geometry, f: Fields): nat {
    Pack(g.ActiveBits(), Fields(And(f.slot, Mask(8)), And(f.queue, Mask(8)), And(f.ctype, Mask(2)), f.lba,
                                And(f.cwCnt, Mask(9))))
  }

  /** getQueueAddress: the PCMDQ address an active word came from. */
  function QueueAddress(g: Geometry, active: nat): nat {
    Up(Bits(active, g.ActiveBits() + 19, 8), g.addrShifter) + Bits(active, g.ActiveBits() + 11, 8)
  }

  // ---- what the hops have to preserve ------------------------------------------------------

  /** Slot, queue number, type, count, and as `lba` the code-word bank with the chip-select above. */
  function HostKey(g: Geometry, cmd: nat, queueAddr: int): Fields {
    var L := g.LbaBits();
    Fields(Bits(cmd, L + 11, 8), QueueNum(g, Bits(cmd, L + 11, 8), queueAddr),
           Bits(cmd, L + 9, 2), Bits(cmd, 9 + g.chanBits, g.PendingBits()), Bits(cmd, 0, 9))
  }

  function ActiveKey(g: Geometry, active: nat): Fields {
    var f := Unpack(g.ActiveBits(), active);
    f.(lba := And(f.lba, Mask(g.PendingBits())))
  }

  /** The host's word decodes to what the host asked for, with the LBA taken modulo the capacity. */
  lemma HostDecodes(g: Geometry, write: bool, lba: nat, slot: nat, cwCount: nat)
    requires g.Widths() && slot < 256 && cwCount < 512
    ensures Unpack(g.LbaBits(), HostWord(g, write, lba, slot, cwCount))
         == Fields(0, slot, if write then 1 else 0, And(lba, Mask(g.LbaBits())), cwCount)
    ensures HostWord(g, write, lba, slot, cwCount) < Pow2(g.LbaBits() + 19)
  {
    hide Or, And, Up, Shl, Shr, Pow2, Mask, Bits, Pack, Unpack, HostWord;
    var L := g.LbaBits();
    var f := Fields(0, slot, if write then 1 else 0, And(lba, Mask(L)), cwCount);
    assert f.Fit(L) by { Sizes(); AndBound(lba, L); }
    HostIsPack(g, write, lba, slot, cwCount);
    UnpackPack(L, f);
    SlotTop(L, f);
  }

  lemma HostIsPack(g: Geometry, write: bool, lba: nat, slot: nat, cwCount: nat)
    requires g.Widths()
    ensures var L := g.LbaBits();
            HostWord(g, write, lba, slot, cwCount)
              == And(Pack(L, Fields(0, slot, if write then 1 else 0, And(lba, Mask(L)), cwCount)), Mask(L + 19))
  {
    hide And, Or, Shl, Pow2, Mask, EffectiveLba, Geometry.Widths;
    Effective(g, lba);
    ZeroShl(g.LbaBits() + 19);
    OrZero(Shl(slot, g.LbaBits() + 11));
  }

  lemma OrZero(y: nat)
    ensures Or(0, y) == y
  {}

  lemma ZeroShl(n: nat)
    ensures Shl(0, n) == 0
  {
    UpIsProduct(0, n);
  }

  lemma SlotTop(L: nat, f: Fields)
    requires f.Fit(L) && L + 27 <= 64 && f.slot == 0
    ensures Pack(L, f) < Pow2(L + 19)
    ensures And(Pack(L, f), Mask(L + 19)) == Pack(L, f)
  {
    Sizes();
    PackIsLayers(L, f);
    UpIsProduct(0, 8);
    CatBound(f.queue, 8, 2, f.ctype);
    CatBound(Cat(f.queue, 2, f.ctype), 10, L, f.lba);
    CatBound(Upper(L, f), 10 + L, 9, f.cwCnt);
    AndSmall(Pack(L, f), L + 19);
  }

  lemma Effective(g: Geometry, lba: nat)
    requires g.Widths()
    ensures EffectiveLba(g, lba) == And(lba, Mask(g.LbaBits()))
  {
    hide Or, And, Up, Shl, Shr, Pow2, Mask;
    var K, B, P := g.chanBits, g.cwBits, g.pageBits;
    Casts(g, lba);
    ShrNone(lba);
    assert EffectiveLba(g, lba) == Or(Or(Or(Bits(lba, 0, K), Shl(Bits(lba, K, B), K)), Shl(Bits(lba, K + B, 1), K + B)),
                                      Shl(Bits(lba, K + B + 1, P), K + B + 1));
    AppendAll(lba, K, B, P);
  }

  lemma AppendAll(lba: nat, K: nat, B: nat, P: nat)
    requires K + B + 1 + P <= 64
    ensures Or(Or(Or(Bits(lba, 0, K), Shl(Bits(lba, K, B), K)), Shl(Bits(lba, K + B, 1), K + B)),
               Shl(Bits(lba, K + B + 1, P), K + B + 1)) == Bits(lba, 0, K + B + 1 + P)
  {
    Append(lba, K, B);
    Append(lba, K + B, 1);
    Append(lba, K + B + 1, P);
  }

  lemma Casts(g: Geometry, lba: nat)
    requires g.Widths()
    ensures Bits(lba, 0, g.chanBits) % 0x100 == Bits(lba, 0, g.chanBits)
    ensures Bits(lba, g.chanBits, g.cwBits) % 0x100 == Bits(lba, g.chanBits, g.cwBits)
    ensures var off := g.cwBits + g.chanBits + 1;
            Bits(lba, off, g.pageBits) % 0x1_0000_0000 == Bits(lba, off, g.pageBits)
  {
    assert Pow2(8) == 0x100;
    Narrow(lba, 0, g.chanBits, 8);
    Narrow(lba, g.chanBits, g.cwBits, 8);
    Doubled(8, 0x100);
    Doubled(16, 0x1_0000);
    Narrow(lba, g.cwBits + g.chanBits + 1, g.pageBits, 32);
  }

  lemma Narrow(w: nat, off: nat, width: nat, cast: nat)
    requires width <= cast
    ensures Bits(w, off, width) < Pow2(width) <= Pow2(cast)
    ensures Bits(w, off, width) % Pow2(cast) == Bits(w, off, width)
  {
    BitsBound(w, off, width);
    Pow2Monotone(width, cast);
    Divided(Bits(w, off, width), Pow2(cast), 0, Bits(w, off, width));
  }

  /** OR-ing the next field of `w` above its low `m` bits. */
  lemma Append(w: nat, m: nat, n: nat)
    requires m + n <= 64
    ensures Or(Bits(w, 0, m), Shl(Bits(w, m, n), m)) == Bits(w, 0, m + n)
  {
    BitsBound(w, m, n);
    BitsBound(w, 0, m);
    ShlExact(Bits(w, m, n), n, m);
    OrCommutes(Bits(w, 0, m), Shl(Bits(w, m, n), m));
    OrIsSum(Bits(w, m, n), Bits(w, 0, m), m);
    BitsJoin(w, 0, m, n);
  }

  // ---- one hop at a time -------------------------------------------------------------------

  lemma LbaKey(g: Geometry, cmd: nat)
    ensures And(And(Shr(Bits(cmd, 9, g.LbaBits()), g.chanBits), Mask(g.ActiveBits())), Mask(g.PendingBits()))
         == Bits(cmd, 9 + g.chanBits, g.PendingBits())
  {
    var K, A, P := g.chanBits, g.ActiveBits(), g.PendingBits();
    var v := Shr(cmd, 9);
    BitsLow(v, K + A, K, A);
    ShrShr(cmd, 9, K);
    BitsLow(Shr(v, K), A, 0, P);
  }

  lemma ActiveFit(g: Geometry, cmd: nat, queueAddr: int)
    ensures ActiveFields(g, cmd, queueAddr).Fit(g.ActiveBits())
  {
    UnpackFits(g.LbaBits(), cmd);
    BitsBound(Bits(cmd, 9, g.LbaBits()), g.chanBits, g.ActiveBits());
    BitsBound(cmd, g.LbaBits() + 11, 8);
    Sizes();
  }

  lemma HostToActive(g: Geometry, cmd: nat, queueAddr: int)
    requires g.Widths()
    ensures ActiveKey(g, CreateActive(g, cmd, queueAddr)) == HostKey(g, cmd, queueAddr)
    ensures CreateActive(g, cmd, queueAddr) < Pow2(g.ActiveBits() + 27)
  {
    var f := ActiveFields(g, cmd, queueAddr);
    assert Unpack(g.ActiveBits(), CreateActive(g, cmd, queueAddr)) == f by {
      ActiveFit(g, cmd, queueAddr);
      UnpackPack(g.ActiveBits(), f);
    }
    assert CreateActive(g, cmd, queueAddr) < Pow2(g.ActiveBits() + 27) by {
      ActiveFit(g, cmd, queueAddr);
      UnpackPack(g.ActiveBits(), f);
    }
    LbaKey(g, cmd);
  }

  lemma PendingFits(g: Geometry, active: nat)
    requires g.Widths()
    ensures ActiveKey(g, active).Fit(g.PendingBits())
    ensures ActiveKey(g, active).lba % 0x100 == ActiveKey(g, active).lba
  {
    var P := g.PendingBits();
    UnpackFits(g.ActiveBits(), active);
    BitsBound(Unpack(g.ActiveBits(), active).lba, 0, P);
    Pow2Monotone(P, 8);
    Sizes();
  }

  lemma ActiveToPending(g: Geometry, active: nat)
    requires g.Widths()
    ensures DecodePending(g, CreatePending(g, active)) == ActiveKey(g, active)
    ensures Unpack(g.PendingBits(), CreatePending(g, active)) == ActiveKey(g, active)
    ensures CreatePending(g, active) == 0 <==> ActiveKey(g, active) == Fields(0, 0, 0, 0, 0)
    ensures CreatePending(g, active) < Pow2(g.PendingBits() + 27)
  {
    var f := ActiveKey(g, active);
    PendingFits(g, active);
    PendingIsPack(g, active);
    UnpackPack(g.PendingBits(), f);
    hide Unpack, Pack, ActiveKey, CreatePending;
    assert DecodePending(g, CreatePending(g, active)) == f.(lba := f.lba % 0x100);
  }

  lemma PendingIsPack(g: Geometry, active: nat)
    requires ActiveKey(g, active).lba % 0x100 == ActiveKey(g, active).lba
    ensures CreatePending(g, active) == Pack(g.PendingBits(), ActiveKey(g, active))
  {
    hide Unpack, Pack;
  }

  lemma PendingToActive(g: Geometry, f: Fields)
    requires g.Widths() && f.Fit(g.PendingBits())
    ensures ActiveKey(g, RecreateActive(g, f)) == f
    ensures RecreateActive(g, f) < Pow2(g.ActiveBits() + 27)
  {
    hide Or, And, Up, Shl, Shr, Pow2, Mask, Pack, Unpack, RecreateActive, Geometry.Widths;
    AgainIsPack(g, f);
    AndSmall(f.lba, g.PendingBits());
  }

  // ---- the whole chain ---------------------------------------------------------------------

  /** Host word, active word, pending word, active word: slot, queue number, type, bank, chip-select
      and count arrive unchanged, both active words name the PCMDQ address the command was fetched
      from, and no pending word of a counted command is the queue's "empty" value 0. */
  lemma CodecChain(g: Geometry, write: bool, lba: nat, slot: nat, cwCount: nat, i: nat)
    requires g.Widths() && slot < 256 && 1 <= cwCount < 512 && i < 256
    ensures var addr := Up(slot, g.addrShifter) + i;
            var first := CreateActive(g, HostWord(g, write, lba, slot, cwCount), addr);
            var pending := CreatePending(g, first);
            var again := RecreateActive(g, DecodePending(g, pending));
            var key := Fields(slot, i, if write then 1 else 0, Bits(lba, g.chanBits, g.PendingBits()), cwCount);
            && ActiveKey(g, first) == DecodePending(g, pending) == ActiveKey(g, again) == key
            && QueueAddress(g, first) == QueueAddress(g, again) == addr
            && pending != 0
  {
    hide Or, And, Up, Shl, Shr, Pow2, Mask, Bits, Pack, Unpack, HostWord, CreateActive, CreatePending, RecreateActive, DecodePending, ActiveKey, QueueAddress;
    var addr := Up(slot, g.addrShifter) + i;
    var w := HostWord(g, write, lba, slot, cwCount);
    HostKeyIs(g, write, lba, slot, cwCount, i);
    HostToActive(g, w, addr);
    LaterHops(g, CreateActive(g, w, addr));
    AddressOfKey(g, CreateActive(g, w, addr));
  }

  /** From any active word on: the pending word and the second active word carry its key. */
  lemma LaterHops(g: Geometry, active: nat)
    requires g.Widths()
    ensures var pending := CreatePending(g, active);
            var again := RecreateActive(g, DecodePending(g, pending));
            && DecodePending(g, pending) == ActiveKey(g, active) == ActiveKey(g, again)
            && QueueAddress(g, again) == QueueAddress(g, active)
            && (pending == 0 <==> ActiveKey(g, active) == Fields(0, 0, 0, 0, 0))
  {
    ActiveToPending(g, active);
    PendingFits(g, active);
    PendingToActive(g, ActiveKey(g, active));
    AddressOfKey(g, active);
    AddressOfKey(g, RecreateActive(g, ActiveKey(g, active)));
  }

  lemma AddressOfKey(g: Geometry, active: nat)
    ensures QueueAddress(g, active) == Up(ActiveKey(g, active).slot, g.addrShifter) + ActiveKey(g, active).queue
  {}

  lemma HostKeyIs(g: Geometry, write: bool, lba: nat, slot: nat, cwCount: nat, i: nat)
    requires g.Widths() && slot < 256 && cwCount < 512 && i < 256
    ensures HostKey(g, HostWord(g, write, lba, slot, cwCount), Up(slot, g.addrShifter) + i)
         == Fields(slot, i, if write then 1 else 0, Bits(lba, g.chanBits, g.PendingBits()), cwCount)
  {
    hide Or, And, Up, Shl, Shr, Pow2, Mask, Bits, HostWord;
    HostBits(g, write, lba, slot, cwCount);
    HostKeyOfHost(g, HostWord(g, write, lba, slot, cwCount), lba);
    QueueNumIs(g, slot, i);
  }

  lemma HostBits(g: Geometry, write: bool, lba: nat, slot: nat, cwCount: nat)
    requires g.Widths() && slot < 256 && cwCount < 512
    ensures var w, L := HostWord(g, write, lba, slot, cwCount), g.LbaBits();
            && Bits(w, L + 11, 8) == slot && Bits(w, L + 9, 2) == (if write then 1 else 0)
            && Bits(w, 9, L) == And(lba, Mask(L)) && Bits(w, 0, 9) == cwCount
  {
    HostDecodes(g, write, lba, slot, cwCount);
  }

  lemma QueueNumIs(g: Geometry, slot: nat, i: nat)
    requires i < 256
    ensures QueueNum(g, slot, Up(slot, g.addrShifter) + i) == i
  {}

  lemma HostKeyOfHost(g: Geometry, w: nat, lba: nat)
    requires Bits(w, 9, g.LbaBits()) == And(lba, Mask(g.LbaBits()))
    ensures Bits(w, 9 + g.chanBits, g.PendingBits()) == Bits(lba, g.chanBits, g.PendingBits())
  {
    var K, L, P := g.chanBits, g.LbaBits(), g.PendingBits();
    BitsLow(Shr(w, 9), L, K, P);
    ShrShr(w, 9, K);
    BitsLow(lba, L, K, P);
  }

  // ---- the page ----------------------------------------------------------------------------

  /** The active word keeps all of the LBA but the channel, which the queue it stands in stands for. */
  lemma ActiveAddress(g: Geometry, cmd: nat, queueAddr: int)
    requires g.Widths()
    ensures Cat(Unpack(g.ActiveBits(), CreateActive(g, cmd, queueAddr)).lba, g.chanBits, HostChan(g, cmd)) == Bits(cmd, 9, g.LbaBits())
  {
    hide Or, Up, Shl, Shr, Pow2, Mask, Cat;
    var v, K, A := Bits(cmd, 9, g.LbaBits()), g.chanBits, g.ActiveBits();
    ActiveFit(g, cmd, queueAddr);
    UnpackPack(A, ActiveFields(g, cmd, queueAddr));
    BitsJoin(v, 0, K, A);
    BitsBound(cmd, 9, g.LbaBits());
    AndSmall(v, K + A);
    ShrNone(v);
  }

  lemma ShrNone(v: nat)
    ensures Shr(v, 0) == v
  {}

  /** The active word made of a pending one is the first active word again exactly when the page is 0:
      the page does not travel through the timed queue. */
  lemma PageLostIff(g: Geometry, active: nat)
    requires g.Widths() && active < Pow2(g.ActiveBits() + 27)
    ensures RecreateActive(g, DecodePending(g, CreatePending(g, active))) == active
       <==> Unpack(g.ActiveBits(), active).lba < Pow2(g.PendingBits())
  {
    hide Or, And, Up, Shl, Shr, Pow2, Mask, Pack, Unpack, CreatePending, DecodePending, Geometry.Widths;
    var f, key := Unpack(g.ActiveBits(), active), ActiveKey(g, active);
    ActiveToPending(g, active);
    PendingFits(g, active);
    AgainIsPack(g, key);
    PackUnpack(g.ActiveBits(), active);
    if f.lba < Pow2(g.PendingBits()) { AndSmall(f.lba, g.PendingBits()); } else { AndBound(f.lba, g.PendingBits()); }
  }

  lemma AgainIsPack(g: Geometry, f: Fields)
    requires g.Widths() && f.Fit(g.PendingBits())
    ensures RecreateActive(g, f) == Pack(g.ActiveBits(), f) && Unpack(g.ActiveBits(), RecreateActive(g, f)) == f
    ensures RecreateActive(g, f) < Pow2(g.ActiveBits() + 27) && g.ActiveBits() + 27 <= 64
  {
    hide Or, And, Up, Shl, Shr, Pow2, Mask, Pack, Unpack;
    Sizes();
    AndSmall(f.slot, 8);
    AndSmall(f.queue, 8);
    AndSmall(f.ctype, 2);
    AndSmall(f.cwCnt, 9);
    Pow2Monotone(g.PendingBits(), g.ActiveBits());
    UnpackPack(g.ActiveBits(), f);
  }

  // ---- bank indices read from the words ----------------------------------------------------

  function BankOf(g: Geometry, bits: nat): nat
    requires g.numDie >= 1
  {
    LinkIndex(g, And(bits, Mask(g.cwBits)), And(Shr(bits, g.cwBits), Mask(1)))
  }

  /** TeraSBankLLMethod reads the host word (getLBAField). */
  function HostBank(g: Geometry, cmd: nat): nat
    requires g.numDie >= 1
  {
    var lba := Bits(cmd, 9, g.LbaBits());
    LinkIndex(g, And(Shr(lba, g.chanBits), Mask(g.cwBits)), And(Shr(lba, g.chanBits + g.cwBits), Mask(1)))
  }

  function HostChan(g: Geometry, cmd: nat): nat { And(Bits(cmd, 9, g.LbaBits()), Mask(g.chanBits)) }

  /** processLongQueueCmd, write branch: the active word's LBA. */
  function WriteMoveBank(g: Geometry, active: nat): nat {
    var lba := Unpack(g.ActiveBits(), active).lba;
    PlainIndex(g, And(lba, Mask(g.cwBits)), And(Shr(lba, g.cwBits), Mask(1)))
  }

  /** processLongQueueCmd, read branch: decodeLBA on the active word. */
  function ReadDoneBank(g: Geometry, active: nat): nat {
    ReadDoneIndex(g, Bits(active, 9, g.cwBits), Bits(active, g.cwBits + 9, 1))
  }

  /** pendingReadCmdProcess: the pending word's LBA. */
  function PendingReadBank(g: Geometry, pending: nat): nat {
    var lba := DecodePending(g, pending).lba;
    PlainIndex(g, And(lba, Mask(g.cwBits)), And(Shr(lba, g.cwBits), Mask(1)))
  }

  /** pendingWriteCmdProcess: getCwBankNum on the low 32 bits, the chip-select as a boolean. */
  function PendingWriteBank(g: Geometry, pending: nat): nat
    requires g.numDie >= 1
  {
    var lba := DecodePending(g, pending).lba;
    PendingWriteIndex(g, And(Shr(And(pending, Mask(32)), 9), Mask(g.cwBits)),
                      if Shr(lba, g.cwBits) != 0 then 1 else 0)
  }

  lemma HostBankIsKey(g: Geometry, cmd: nat)
    requires g.Widths()
    ensures HostBank(g, cmd) == BankOf(g, Bits(cmd, 9 + g.chanBits, g.PendingBits()))
  {
    var K, B, L, P := g.chanBits, g.cwBits, g.LbaBits(), g.PendingBits();
    var v := Shr(cmd, 9);
    ShrShr(cmd, 9, K);
    BitsLow(v, L, K, B);
    BitsLow(v, L, K + B, 1);
    ShrShr(v, K, B);
    BitsLow(Shr(v, K), P, 0, B);
    BitsLow(Shr(v, K), P, B, 1);
  }

  /** The bank index of every process is the one computed at linking time. */
  lemma ActiveBanks(g: Geometry, active: nat)
    requires g.Widths() && IndexesAgree(g)
    ensures WriteMoveBank(g, active) == ReadDoneBank(g, active) == BankOf(g, ActiveKey(g, active).lba)
  {
    var A, B, P := g.ActiveBits(), g.cwBits, g.PendingBits();
    var v := Shr(active, 9);
    BitsLow(v, A, 0, P);
    BitsLow(v, A, 0, B);
    BitsLow(v, A, B, 1);
    BitsLow(v, P, 0, B);
    BitsLow(v, P, B, 1);
    ShrShr(active, 9, B);
    IndexRange(g, v);
  }

  lemma IndexRange(g: Geometry, v: nat)
    ensures Bits(v, 0, g.cwBits) < Pow2(g.cwBits) && Bits(v, g.cwBits, 1) < 2
  {
    BitsBound(v, 0, g.cwBits);
    BitsBound(v, g.cwBits, 1);
  }

  lemma PendingReads(g: Geometry, pending: nat)
    requires g.Widths() && IndexesAgree(g)
    ensures PendingReadBank(g, pending) == BankOf(g, DecodePending(g, pending).lba)
  {
    IndexRange(g, DecodePending(g, pending).lba);
  }

  lemma PendingLba(g: Geometry, pending: nat)
    requires g.Widths()
    ensures DecodePending(g, pending).lba == Bits(pending, 9, g.PendingBits())
  {
    BitsBound(pending, 9, g.PendingBits());
    Pow2Monotone(g.PendingBits(), 8);
    Sizes();
  }

  lemma PendingWrites(g: Geometry, pending: nat)
    requires g.Widths() && IndexesAgree(g)
    ensures PendingWriteBank(g, pending) == BankOf(g, DecodePending(g, pending).lba)
  {
    var B, P := g.cwBits, g.PendingBits();
    var lba := Bits(pending, 9, P);
    PendingLba(g, pending);
    hide And, Shr, Pow2, DecodePending;
    assert And(Shr(And(pending, Mask(32)), 9), Mask(B)) == And(lba, Mask(B)) by {
      BitsLow(pending, 32, 9, B);
      BitsLow(Shr(pending, 9), P, 0, B);
    }
    ChipBit(pending, B);
    IndexRange(g, lba);
  }

  lemma ChipBit(pending: nat, B: nat)
    ensures var lba := Bits(pending, 9, B + 1);
            And(Shr(lba, B), Mask(1)) == (if Shr(lba, B) != 0 then 1 else 0)
  {
    var lba := Bits(pending, 9, B + 1);
    BitsBound(pending, 9, B + 1);
    ShrBound(lba, 1, B);
    assert Pow2(1) == 2;
    AndSmall(Shr(lba, B), 1);
  }

  lemma PendingBanks(g: Geometry, pending: nat)
    requires g.Widths() && IndexesAgree(g)
    ensures PendingReadBank(g, pending) == PendingWriteBank(g, pending) == BankOf(g, DecodePending(g, pending).lba)
  {
    PendingReads(g, pending);
    PendingWrites(g, pending);
  }

  lemma BankInRange(g: Geometry, bits: nat)
    requires g.Valid()
    ensures BankOf(g, bits) < g.CodeWordNum()
  {
    IndexRange(g, bits);
    LinkIndexInRange(g, And(bits, Mask(g.cwBits)), And(Shr(bits, g.cwBits), Mask(1)));
  }

  // ---- the completion entry ----------------------------------------------------------------

  /** createCompletionEntry: one type bit, eight slot bits, seven count bits. */
  function CompletionEntry(ctype: nat, slot: nat, cwCnt: nat): nat {
    Or(Or(Shl(And(ctype, Mask(1)), 15), Shl(And(slot, Mask(8)), 7)), And(cwCnt, Mask(7))) % 0x1_0000
  }

  /** unpack on the host's side. */
  function EntryFields(entry: nat): (nat, nat, nat) {
    (Bits(entry, 15, 1), Bits(entry, 7, 8), Bits(entry, 0, 7))
  }

  /** The host reads back type and slot, and the count modulo 128. */
  lemma CompletionEntryDecodes(ctype: nat, slot: nat, cwCnt: nat)
    requires ctype < 2 && slot < 256
    ensures EntryFields(CompletionEntry(ctype, slot, cwCnt)) == (ctype, slot, cwCnt % 128)
    ensures CompletionEntry(ctype, slot, cwCnt) < 0x1_0000
  {
    var cnt := cwCnt % 128;
    assert And(cwCnt, Mask(7)) == cnt by { AndMask(cwCnt, 7); assert Pow2(7) == 128; }
    EntryIsCat(ctype, slot, cwCnt, cnt);
    EntryReads(ctype, slot, cnt);
  }

  lemma EntryIsCat(ctype: nat, slot: nat, cwCnt: nat, cnt: nat)
    requires ctype < 2 && slot < 256 && cnt < 128 && cnt == And(cwCnt, Mask(7))
    ensures CompletionEntry(ctype, slot, cwCnt) == Cat(Cat(ctype, 8, slot), 7, cnt) < 0x1_0000
  {
    EntryPowers();
    hide Pow2, And, Or, Shl, Mask, Cat;
    AndSmall(ctype, 1);
    AndSmall(slot, 8);
    ThreeFields(ctype, 1, slot, 8, cnt, 7);
    EntryBound(ctype, slot, cnt);
  }

  lemma EntryPowers()
    ensures Pow2(1) == 2 && Pow2(8) == 256 && Pow2(7) == 128
  {}

  lemma EntryBound(ctype: nat, slot: nat, cnt: nat)
    requires ctype < 2 && slot < 256 && cnt < 128
    ensures Cat(Cat(ctype, 8, slot), 7, cnt) < 0x1_0000
  {
    UpIsProduct(ctype, 8);
    UpIsProduct(Cat(ctype, 8, slot), 7);
    assert Pow2(8) == 256 && Pow2(7) == 128;
  }

  lemma EntryReads(ctype: nat, slot: nat, cnt: nat)
    requires ctype < 2 && slot < 256 && cnt < 128
    ensures EntryFields(Cat(Cat(ctype, 8, slot), 7, cnt)) == (ctype, slot, cnt)
  {
    var k := 7;
    assert Pow2(k) == 128;
    assert Pow2(8) == 256 && Pow2(1) == 2;
    var w := Cat(Cat(ctype, 8, slot), k, cnt);
    CatSplit(Cat(ctype, 8, slot), k, cnt, 0);
    CatSplit(ctype, 8, slot, 0);
    assert Bits(w, 15, 1) == ctype by {
      CatCat(ctype, 8, slot, k, cnt, 0);
      AndSmall(ctype, 1);
    }
  }
}
