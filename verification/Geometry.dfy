/** The memory geometry, the widths derived from it, and the bank index every process computes. */
module Geometry {
  import opened Words

  /** Sizes are powers of two; `dieBits` is log2 of the code-word banks on one die
      (bankNum * pageSize / codeWordSize). */
  datatype Geometry = Geometry(
    chanBits: nat, cwBits: nat, pageBits: nat, dieBits: nat, numDie: nat,
    addrShifter: nat, numSlot: nat, credit: nat)
  {
    function ChanNum(): nat { Pow2(chanBits) }

    function CodeWordNum(): nat { Pow2(dieBits) * numDie }

    /** mCwBankMaskBits as the controller's constructor computes it. */
    function ControllerCwBits(): nat { if CodeWordNum() > 2 then dieBits else 1 }

    /** mCwBankMaskBits as the command queue's constructor computes it. */
    function QueueCwBits(): nat { if Pow2(dieBits) > 2 then dieBits else 1 }

    function LbaBits(): nat { pageBits + cwBits + chanBits + 1 }

    function ActiveBits(): nat { pageBits + cwBits + 1 }

    function PendingBits(): nat { cwBits + 1 }

    /** The test `mCwBankMaskBits == 1 && mBankNum <= mCodeWordSize / mPageSize`:
        a die holds a single code-word bank. */
    predicate SingleBank() { cwBits == 1 && dieBits == 0 }

    /** The field widths of the packed words. */
    predicate Widths() {
      && numDie >= 1
      && PendingBits() <= 8 && chanBits <= 8 && pageBits <= 31
      && LbaBits() + 27 <= 64
      && addrShifter <= 8 && 1 <= numSlot <= 256
    }

    predicate Valid() { Widths() && cwBits == ControllerCwBits() == QueueCwBits() }
  }

  // ---- the five places that turn (cwBank, chipSelect) into a bank index --------------------

  /** TeraSBankLLMethod. */
  function LinkIndex(g: Geometry, cwBank: nat, chip: nat): nat
    requires g.numDie >= 1
  {
    var one := g.SingleBank() && cwBank == 1;
    var bank, cs := if one then 0 else cwBank, if one then 1 else chip;
    var cs' := if cs == 1 && g.numDie == 1 then 0 else cs;
    if cs' != 0 && g.numDie > 1 then bank + g.CodeWordNum() / g.numDie else bank
  }

  /** pendingWriteCmdProcess. */
  function PendingWriteIndex(g: Geometry, cwBank: nat, chip: nat): nat
    requires g.numDie >= 1
  {
    if cwBank == 1 && g.SingleBank() then
      if g.numDie == 1 then 0 else 0 + g.CodeWordNum() / g.numDie
    else if chip == 1 && g.numDie > 1 then cwBank + g.CodeWordNum() / g.numDie
    else cwBank
  }

  /** pendingReadCmdProcess and the write branch of processLongQueueCmd. */
  function PlainIndex(g: Geometry, cwBank: nat, chip: nat): nat {
    if chip == 1 && g.numDie > 1 then cwBank + g.CodeWordNum() / 2 else cwBank
  }

  /** The read branch of processLongQueueCmd. */
  function ReadDoneIndex(g: Geometry, cwBank: nat, chip: nat): nat {
    var bank, cs := if cwBank == 1 && g.SingleBank() then 0 else cwBank,
                    if cwBank == 1 && g.SingleBank() then 1 else chip;
    if cs == 1 && g.numDie > 1 then bank + g.CodeWordNum() / 2 else bank
  }

  ghost predicate IndexesAgree(g: Geometry)
    requires g.numDie >= 1
  {
    forall cwBank, chip :: 0 <= cwBank < Pow2(g.cwBits) && 0 <= chip < 2 ==>
      LinkIndex(g, cwBank, chip) == PendingWriteIndex(g, cwBank, chip)
        == PlainIndex(g, cwBank, chip) == ReadDoneIndex(g, cwBank, chip)
  }

  /** The number of banks as a multiple of the banks on one die. */
  lemma Dies(g: Geometry)
    requires g.numDie >= 1
    ensures g.CodeWordNum() / g.numDie == Pow2(g.dieBits) <= g.CodeWordNum()
    ensures g.numDie == 1 ==> g.CodeWordNum() == Pow2(g.dieBits)
    ensures g.numDie == 2 ==> g.CodeWordNum() == 2 * Pow2(g.dieBits)
    ensures g.numDie >= 2 ==> g.CodeWordNum() >= 2 * Pow2(g.dieBits)
    ensures g.numDie >= 3 ==> g.CodeWordNum() >= 3 * Pow2(g.dieBits)
  {
    var d, k := Pow2(g.dieBits), g.numDie;
    Divided(d * k, k, d, 0);
    MulMonotone(1, k, d);
    if k >= 2 { MulMonotone(2, k, d); }
    if k >= 3 { MulMonotone(3, k, d); }
  }

  lemma ManyBanks(g: Geometry)
    ensures Pow2(1) == 2 && (g.dieBits >= 1 ==> Pow2(g.dieBits) >= 2)
    ensures g.dieBits == 0 ==> Pow2(g.dieBits) == 1
    ensures g.dieBits >= 2 ==> Pow2(g.dieBits) >= 4
  {
    assert Pow2(2) == 4;
    if g.dieBits >= 1 { Pow2Monotone(1, g.dieBits); }
    if g.dieBits >= 2 { Pow2Monotone(2, g.dieBits); }
  }

  /** Both constructors agree on the width exactly when a die has two code-word banks or there are
      at most two dies. */
  lemma WidthsAgree(g: Geometry)
    requires g.numDie >= 1
    ensures g.ControllerCwBits() == g.QueueCwBits() <==> g.dieBits >= 1 || g.numDie <= 2
    ensures g.ControllerCwBits() == g.QueueCwBits() ==> g.QueueCwBits() == if g.dieBits == 0 then 1 else g.dieBits
  {
    Dies(g);
    ManyBanks(g);
  }

  lemma Agree(g: Geometry)
    requires 1 <= g.dieBits && 1 <= g.numDie <= 2
    ensures IndexesAgree(g)
  {
    Dies(g);
  }

  lemma Disagree(g: Geometry)
    requires g.Valid() && (g.dieBits == 0 || g.numDie > 2)
    ensures !IndexesAgree(g)
  {
    Dies(g);
    ManyBanks(g);
    WidthsAgree(g);
    if g.dieBits >= 1 {
      assert LinkIndex(g, 0, 1) != PlainIndex(g, 0, 1);
    } else {
      assert LinkIndex(g, 1, 1) != PlainIndex(g, 1, 1);
    }
  }

  /** A release uses the bank index computed at linking time, for every command, exactly when a die
      has at least two code-word banks and there are at most two dies. */
  lemma IndexAgreement(g: Geometry)
    requires g.Valid()
    ensures IndexesAgree(g) <==> g.dieBits >= 1 && g.numDie <= 2
  {
    if g.dieBits >= 1 && g.numDie <= 2 { Agree(g); } else { Disagree(g); }
  }

  predicate InBanks(g: Geometry, cwBank: nat, chip: nat) { cwBank < Pow2(g.cwBits) && chip < 2 }

  /** Different bank and chip-select bits mean different banks. */
  ghost predicate BanksApart(g: Geometry)
    requires g.numDie >= 1
  {
    forall b: nat, chip: nat, b': nat, chip': nat ::
      InBanks(g, b, chip) && InBanks(g, b', chip') && LinkIndex(g, b, chip) == LinkIndex(g, b', chip') ==> b == b' && chip == chip'
  }

  /** Two LBAs of one channel whose bank or chip-select bits differ are linked to different lists exactly
      when a die has at least two code-word banks and there are at least two dies; else some share one. */
  lemma BanksApartIff(g: Geometry)
    requires g.Valid()
    ensures BanksApart(g) <==> g.dieBits >= 1 && g.numDie >= 2
  {
    Dies(g);
    ManyBanks(g);
    WidthsAgree(g);
    if g.dieBits == 0 {
      assert InBanks(g, 1, 0) && InBanks(g, 1, 1) && LinkIndex(g, 1, 0) == LinkIndex(g, 1, 1);
    } else if g.numDie == 1 {
      assert InBanks(g, 0, 0) && InBanks(g, 0, 1) && LinkIndex(g, 0, 0) == LinkIndex(g, 0, 1);
    }
  }

  /** With two dies every bank is reached, so the banks are numbered without gaps. */
  lemma EveryBank(g: Geometry, index: nat) returns (cwBank: nat, chip: nat)
    requires g.Valid() && g.dieBits >= 1 && g.numDie == 2 && index < g.CodeWordNum()
    ensures InBanks(g, cwBank, chip) && LinkIndex(g, cwBank, chip) == index
  {
    Dies(g);
    ManyBanks(g);
    WidthsAgree(g);
    if index < Pow2(g.dieBits) { cwBank, chip := index, 0; } else { cwBank, chip := index - Pow2(g.dieBits), 1; }
  }

  /** The bank index stays inside the tables of `CodeWordNum` entries. */
  lemma LinkIndexInRange(g: Geometry, cwBank: nat, chip: nat)
    requires g.Valid() && cwBank < Pow2(g.cwBits) && chip < 2
    ensures LinkIndex(g, cwBank, chip) < g.CodeWordNum()
  {
    Dies(g);
    ManyBanks(g);
    WidthsAgree(g);
  }
}
