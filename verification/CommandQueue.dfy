/** The PCMD queue: one host command is replicated into one entry per code word. */
module CommandQueue {
  import opened Words
  import opened Geometry
  import opened Codec
  import opened Hops
  import opened BankLists

  /** The operand `~(1 << i)`: the shift is done in 32-bit `int` and the result widened to 64 bits,
      so bit 31 yields 0x7fffffff. Shifts by 32 and more are undefined in the language. */
  function ClearMask(i: nat): nat
    requires i < 32
  {
    if i < 31 then AllBut(64, i) else 0x7fff_ffff
  }

  /** The command word with its LBA bits cleared, as the loop of replicateCommand leaves it. */
  function Cleared(L: nat, w: nat): nat
    requires L <= 23
  {
    ClearTo(w, 9 + L)
  }

  function ClearTo(w: nat, i: nat): nat
    requires 9 <= i <= 32
  {
    if i == 9 then w else And(ClearTo(w, i - 1), ClearMask(i - 1))
  }

  /** The word stored for code word `i`; the first entry keeps the host's word. */
  function Replica(L: nat, w: nat, i: nat): nat
    requires L <= 23
  {
    if i == 0 then w else Or(Cleared(L, w), Shl(And(Bits(w, 9, L) + i, Mask(L)), 9))
  }

  /** The first loop of replicateCommand. */
  method ClearLba(L: nat, cmd: nat) returns (value: nat)
    requires L <= 23
    ensures value == Cleared(L, cmd)
  {
    value := cmd;
    for lbaIndex := 9 to L + 9
      invariant value == ClearTo(cmd, lbaIndex)
    {
      value := And(value, ClearMask(lbaIndex));
    }
  }

  class CommandQueueManager {
    const g: Geometry
    var mCmdQueue: seq<CmdEntry>
    var mSlotNum: nat

    constructor (g: Geometry)
      requires g.Widths()
      ensures this.g == g && |mCmdQueue| == Up(g.numSlot, g.addrShifter)
      ensures forall k :: 0 <= k < |mCmdQueue| ==> mCmdQueue[k] == CmdEntry(0, -1, 0)
    {
      this.g := g;
      mCmdQueue := seq(Up(g.numSlot, g.addrShifter), _ => CmdEntry(0, -1, 0));
      mSlotNum := 0;
    }

    method InsertCommand(slotNum: nat, value: nat, delay: nat)
      requires Up(slotNum, g.addrShifter) < |mCmdQueue|
      modifies this
      ensures mCmdQueue == old(mCmdQueue)[Up(slotNum, g.addrShifter) := CmdEntry(value, -1, delay)]
      ensures mSlotNum == slotNum
    {
      mCmdQueue := mCmdQueue[Up(slotNum, g.addrShifter) := CmdEntry(value, -1, delay)];
      mSlotNum := slotNum;
    }

    method UpdateNextAddress(address: nat, value: int)
      requires address < |mCmdQueue|
      modifies this`mCmdQueue
      ensures mCmdQueue == old(mCmdQueue)[address := old(mCmdQueue)[address].(nextAddr := value)]
    {
      mCmdQueue := mCmdQueue[address := mCmdQueue[address].(nextAddr := value)];
    }

    /** Entry i of the slot receives the replica of code word i; all other entries stay. */
    method ReplicateCommand(slotNum: nat, cwCount: nat)
      requires g.LbaBits() <= 23
      requires Up(slotNum, g.addrShifter) < |mCmdQueue| && Up(slotNum, g.addrShifter) + cwCount <= |mCmdQueue|
      modifies this`mCmdQueue
      ensures var base := Up(slotNum, g.addrShifter);
              var first := old(mCmdQueue)[base];
              && |mCmdQueue| == |old(mCmdQueue)|
              && (forall k :: 0 <= k < |mCmdQueue| && !(base < k < base + cwCount) ==> mCmdQueue[k] == old(mCmdQueue)[k])
              && (forall i :: 0 < i < cwCount ==>
                    mCmdQueue[base + i] == CmdEntry(Replica(g.LbaBits(), first.cmd, i), -1, first.time))
    {
      var address := Up(slotNum, g.addrShifter);
      var base := address;
      var value := mCmdQueue[address].cmd;
      var delay := mCmdQueue[address].time;
      var L := g.LbaBits();
      var logicalBlockAddr := Bits(value, 9, L);
      ghost var w := value;
      value := ClearLba(L, value);
      ghost var lba := logicalBlockAddr;
      var cwIndex := 0;
      while cwIndex < cwCount - 1
        invariant 0 <= cwIndex && (cwIndex == 0 || cwIndex <= cwCount - 1)
        invariant address == base + cwIndex && logicalBlockAddr == lba + cwIndex
        invariant |mCmdQueue| == |old(mCmdQueue)|
        invariant forall k :: 0 <= k < |mCmdQueue| && !(base < k <= base + cwIndex) ==> mCmdQueue[k] == old(mCmdQueue)[k]
        invariant forall i :: 0 < i <= cwIndex ==> mCmdQueue[base + i] == CmdEntry(Replica(L, w, i), -1, delay)
      {
        logicalBlockAddr := logicalBlockAddr + 1;
        address := address + 1;
        mCmdQueue := mCmdQueue[address := CmdEntry(Or(value, Shl(And(logicalBlockAddr, Mask(L)), 9)), -1, delay)];
        cwIndex := cwIndex + 1;
      }
    }
  }

  // ---- what the replicas say ---------------------------------------------------------------

  /** With the top bit shift below 31, the loop clears exactly the LBA field. */
  lemma {:induction false} ClearToIs(w: nat, i: nat)
    requires w < WORD && 9 <= i <= 31
    ensures ClearTo(w, i) == Cat(Shr(w, i), i, Bits(w, 0, 9))
    decreases i
  {
    if i == 9 {
      CatJoin(w, 9);
    } else {
      var j := i - 1;
      ClearToIs(w, j);
      var x := ClearTo(w, j);
      Narrower(w, j);
      WordSize();
      ClearBit(x, 64, j);
      CatSplit(Shr(w, j), j, Bits(w, 0, 9), 0) by { LowNine(w, j); }
      assert Shr(x, j) == Shr(w, j);
      HalfStep(w, j);
    }
  }

  lemma LowNine(w: nat, j: nat)
    requires j >= 9
    ensures Bits(w, 0, 9) < Pow2(9) <= Pow2(j)
  {
    BitsBound(w, 0, 9);
    Pow2Monotone(9, j);
  }

  lemma Narrower(w: nat, j: nat)
    requires w < WORD && j >= 9
    ensures Cat(Shr(w, j), j, Bits(w, 0, 9)) <= w
  {
    CatJoin(w, j);
    BitsJoin(w, 0, 9, j - 9);
  }

  lemma HalfStep(w: nat, j: nat)
    ensures Up(Shr(w, j), j) == Up(Shr(w, j + 1), j + 1) + Up(Shr(w, j) % 2, j)
  {
    var h := Shr(w, j);
    assert h == 2 * (h / 2) + h % 2;
    UpPlus(2 * (h / 2), h % 2, j);
    UpUp(h / 2, 1, j);
    assert Up(h / 2, 1) == 2 * (h / 2);
  }

  /** The fields of code word `i`: the host's, with the LBA advanced modulo the capacity. */
  function ReplicaFields(L: nat, w: nat, i: nat): Fields {
    var f := Unpack(L, w);
    f.(lba := And(f.lba + i, Mask(L)))
  }

  /** Both results of OR-ing the LBA in, above the count and below the upper part `hi`. */
  lemma OrLba(L: nat, hi: nat, lba: nat, cnt: nat)
    requires L + 9 <= 64 && lba < Pow2(L) && cnt < Pow2(9)
    ensures Or(Cat(hi, L + 9, cnt), Shl(lba, 9)) == Cat(Cat(hi, L, lba), 9, cnt)
  {
    hide Or, And, Shr, Pow2, Mask, Up, Shl;
    Pow2Monotone(9, L + 9);
    OrIsSum(hi, cnt, L + 9);
    OrSwap(Up(hi, L + 9), cnt, Shl(lba, 9));
    OrField(hi, L, lba, 9);
    OrIsSum(Cat(hi, L, lba), cnt, 9);
  }

  lemma OrSwap(x: nat, y: nat, z: nat)
    ensures Or(Or(x, y), z) == Or(Or(x, z), y)
  {
    OrAssociates(x, y, z);
    OrCommutes(y, z);
    OrAssociates(x, z, y);
  }

  lemma ReplicaIs(L: nat, w: nat, i: nat)
    requires L <= 22 && w < Pow2(L + 19) && i > 0
    ensures Replica(L, w, i) == Cat(Cat(Shr(w, L + 9), L, And(Bits(w, 9, L) + i, Mask(L))), 9, Bits(w, 0, 9))
  {
    assert w < WORD by { WordSize(); Pow2Monotone(L + 19, 64); }
    ClearToIs(w, L + 9);
    OverCleared(L, w, i);
  }

  lemma OverCleared(L: nat, w: nat, i: nat)
    requires L <= 22 && i > 0 && Cleared(L, w) == Cat(Shr(w, L + 9), L + 9, Bits(w, 0, 9))
    ensures Replica(L, w, i) == Cat(Cat(Shr(w, L + 9), L, And(Bits(w, 9, L) + i, Mask(L))), 9, Bits(w, 0, 9))
  {
    hide Or, And, Up, Shl, Shr, Pow2, Mask, Bits, Cat;
    BitsBound(w, 0, 9);
    AndBound(Bits(w, 9, L) + i, L);
    OrLba(L, Shr(w, L + 9), And(Bits(w, 9, L) + i, Mask(L)), Bits(w, 0, 9));
  }

  lemma RebuiltUpper(L: nat, w: nat, lba: nat, m: nat)
    requires lba < Pow2(L)
    ensures Shr(Cat(Cat(Shr(w, L + 9), L, lba), 9, Bits(w, 0, 9)), L + 9 + m) == Shr(w, L + 9 + m)
  {
    BitsBound(w, 0, 9);
    CatCat(Shr(w, L + 9), L, lba, 9, Bits(w, 0, 9), m);
    ShrShr(w, L + 9, m);
    assert 9 + L + m == L + 9 + m;
  }

  /** A word rebuilt around a new LBA has the old fields otherwise. */
  lemma Rebuilt(L: nat, w: nat, lba: nat)
    requires lba < Pow2(L)
    ensures Unpack(L, Cat(Cat(Shr(w, L + 9), L, lba), 9, Bits(w, 0, 9))) == Unpack(L, w).(lba := lba)
  {
    RebuiltLow(L, w, lba);
    RebuiltUpper(L, w, lba, 0);
    RebuiltUpper(L, w, lba, 2);
    RebuiltUpper(L, w, lba, 10);
  }

  lemma RebuiltLow(L: nat, w: nat, lba: nat)
    requires lba < Pow2(L)
    ensures var r := Cat(Cat(Shr(w, L + 9), L, lba), 9, Bits(w, 0, 9));
            Bits(r, 0, 9) == Bits(w, 0, 9) && Bits(r, 9, L) == lba
  {
    BitsBound(w, 0, 9);
    CatSplit(Cat(Shr(w, L + 9), L, lba), 9, Bits(w, 0, 9), 0);
    CatSplit(Shr(w, L + 9), L, lba, 0);
  }

  /** With at most 22 LBA bits every replica carries the host's slot, type and count, and the LBAs
      run on modulo the capacity. */
  lemma ReplicaDecodes(L: nat, w: nat, i: nat)
    requires L <= 22 && w < Pow2(L + 19)
    ensures Unpack(L, Replica(L, w, i)) == ReplicaFields(L, w, i)
  {
    hide Or, And, Up, Shl, Shr, Pow2, Mask, Bits, Cat, Cleared;
    BitsBound(w, 9, L);
    if i == 0 {
      AndSmall(Bits(w, 9, L), L);
    } else {
      ReplicaIs(L, w, i);
      AndBound(Bits(w, 9, L) + i, L);
      Rebuilt(L, w, And(Bits(w, 9, L) + i, Mask(L)));
    }
  }

  lemma LastMask(n: nat)
    requires n == 31
    ensures Mask(n) == 0x7fff_ffff
  {
    assert Pow2(n + 1) == 0x1_0000_0000 by { Doubled(8, 0x100); Doubled(16, 0x1_0000); }
  }

  /** With 23 LBA bits the last mask is 0x7fffffff: everything above the count is cleared. */
  lemma ClearedAll(L: nat, w: nat)
    requires L == 23 && w < WORD
    ensures Cleared(L, w) == Bits(w, 0, 9)
  {
    var n := L + 8;
    ClearToIs(w, n);
    LowNine(w, n);
    CatSplit(Shr(w, n), n, Bits(w, 0, 9), 0);
    LastMask(n);
  }

  lemma CountAndLba(L: nat, lba: nat, cnt: nat)
    requires L + 9 <= 64 && lba < Pow2(L) && cnt < Pow2(9)
    ensures Unpack(L, Or(cnt, Shl(lba, 9))) == Fields(0, 0, 0, lba, cnt)
  {
    hide Or, And, Up, Shl, Shr, Pow2, Mask, Bits, Unpack;
    UpIsProduct(0, L + 9);
    OrLba(L, 0, lba, cnt);
    ShortWord(L, lba, cnt);
  }

  /** A replica built on a word cleared down to its count has lost slot and type. */
  lemma OverClearedReplica(L: nat, w: nat, i: nat)
    requires L <= 23 && i > 0 && Cleared(L, w) == Bits(w, 0, 9)
    ensures Unpack(L, Replica(L, w, i)) == Fields(0, 0, 0, And(Bits(w, 9, L) + i, Mask(L)), Bits(w, 0, 9))
  {
    hide Or, And, Up, Shl, Shr, Pow2, Mask, Bits;
    AndBound(Bits(w, 9, L) + i, L);
    BitsBound(w, 0, 9);
    CountAndLba(L, And(Bits(w, 9, L) + i, Mask(L)), Bits(w, 0, 9));
  }

  lemma ReplicaOverflows(L: nat, w: nat, i: nat)
    requires L == 23 && w < WORD && i > 0
    ensures Unpack(L, Replica(L, w, i)) == Fields(0, 0, 0, And(Bits(w, 9, L) + i, Mask(L)), Bits(w, 0, 9))
  {
    ClearedAll(L, w);
    OverClearedReplica(L, w, i);
  }

  lemma ShortWord(L: nat, lba: nat, cnt: nat)
    requires lba < Pow2(L) && cnt < Pow2(9)
    ensures Unpack(L, Cat(Cat(0, L, lba), 9, cnt)) == Fields(0, 0, 0, lba, cnt)
  {
    Sizes();
    ZeroUpper(L, Fields(0, 0, 0, lba, cnt));
    UnpackLayers(L, Fields(0, 0, 0, lba, cnt));
  }

  lemma ZeroUpper(L: nat, f: Fields)
    requires f.slot == f.queue == f.ctype == 0
    ensures Layers(L, f) == Cat(Cat(0, L, f.lba), 9, f.cwCnt)
  {
    UpIsProduct(f.slot, 8);
    UpIsProduct(f.slot, 2);
  }

  /** Over all defined shifts (up to 23 LBA bits) a replica keeps the host's fields exactly when there
      are at most 22 LBA bits, or the fields above the LBA were zero anyway. */
  lemma ReplicationIff(L: nat, w: nat, i: nat)
    requires L <= 23 && w < Pow2(L + 19) && i > 0
    ensures Unpack(L, Replica(L, w, i)) == ReplicaFields(L, w, i)
       <==> L <= 22 || (Unpack(L, w).slot == Unpack(L, w).queue == Unpack(L, w).ctype == 0)
  {
    hide Or, And, Up, Shl, Shr, Pow2, Mask, Bits, Replica, Cleared;
    if L <= 22 {
      ReplicaDecodes(L, w, i);
    } else {
      assert w < WORD by { WordSize(); Pow2Monotone(L + 19, 64); }
      ReplicaOverflows(L, w, i);
      Stripped(Unpack(L, w), And(Bits(w, 9, L) + i, Mask(L)));
    }
  }

  lemma Stripped(u: Fields, lba: nat)
    ensures Fields(0, 0, 0, lba, u.cwCnt) == u.(lba := lba) <==> u.slot == u.queue == u.ctype == 0
  {}

  const FIVE: Fields := Fields(0, 5, 1, 0, 2)

  lemma FiveFits(L: nat)
    requires L == 23
    ensures FIVE.Fit(L) && 1 < Pow2(L)
  {
    Pow2Monotone(1, L);
    assert Pow2(1) == 2;
  }

  lemma FiveWord(L: nat)
    requires L == 23
    ensures Unpack(L, Pack(L, FIVE)) == FIVE && Pack(L, FIVE) < Pow2(L + 19) <= WORD
  {
    FiveFits(L);
    UnpackPack(L, FIVE);
    SlotTop(L, FIVE);
    WordSize();
    Pow2Monotone(L + 19, 64);
  }

  /** A write into slot 5 with 23 LBA bits: its second code word is stored as a read in slot 0. */
  lemma ReplicationCounterexample(L: nat)
    requires L == 23
    ensures var w := Pack(L, FIVE);
            w < Pow2(L + 19) && Unpack(L, w) == FIVE && Unpack(L, Replica(L, w, 1)) == Fields(0, 0, 0, 1, 2)
  {
    FiveWord(L);
    var w := Pack(L, FIVE);
    ReplicaOverflows(L, w, 1);
    FiveBits(L, w);
  }

  lemma FiveBits(L: nat, w: nat)
    requires L == 23 && Unpack(L, w) == FIVE
    ensures And(Bits(w, 9, L) + 1, Mask(L)) == 1 && Bits(w, 0, 9) == 2
  {
    assert Unpack(L, w).lba == 0;
    FiveFits(L);
    AndSmall(1, L);
  }
}
