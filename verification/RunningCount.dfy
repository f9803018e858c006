/** The running count per slot. */
module RunningCount {
  import opened Words

  class IntermediateCmdQueueManager {
    var mCmdQueue: seq<nat>

    ghost predicate Valid() reads this { forall k :: 0 <= k < |mCmdQueue| ==> mCmdQueue[k] < 0x1_0000 }

    constructor (slots: nat)
      ensures Valid() && mCmdQueue == seq(slots, _ => 0)
    {
      mCmdQueue := seq(slots, _ => 0);
    }

    /** The first sub-command of a slot sets the count, every further one decrements it; the
        16-bit counter wraps. */
    method Count(slotNum: nat, cwCount: nat) returns (cnt: nat)
      requires Valid() && slotNum < |mCmdQueue|
      modifies this
      ensures Valid() && cnt == (if old(mCmdQueue[slotNum]) == 0 then cwCount - 1 else old(mCmdQueue[slotNum]) - 1) % 0x1_0000
      ensures mCmdQueue == old(mCmdQueue)[slotNum := cnt]
    {
      if mCmdQueue[slotNum] == 0 {
        mCmdQueue := mCmdQueue[slotNum := (cwCount - 1) % 0x1_0000];
      } else {
        mCmdQueue := mCmdQueue[slotNum := (mCmdQueue[slotNum] - 1) % 0x1_0000];
      }
      cnt := mCmdQueue[slotNum];
    }

    /** update: slot and count are read from the packed word itself. */
    method Update(cmd: nat, lbaMaskBits: nat) returns (cnt: nat)
      requires Valid() && SlotOf(lbaMaskBits, cmd) < |mCmdQueue|
      modifies this
      ensures Valid()
      ensures var slot := SlotOf(lbaMaskBits, cmd);
              && cnt == (if old(mCmdQueue[slot]) == 0 then CountOf(cmd) - 1 else old(mCmdQueue[slot]) - 1) % 0x1_0000
              && mCmdQueue == old(mCmdQueue)[slot := cnt]
    {
      cnt := Count(SlotOf(lbaMaskBits, cmd), CountOf(cmd));
    }
  }

  /** getSlotAndCwCnt. */
  function SlotOf(lbaMaskBits: nat, cmd: nat): nat { Bits(cmd, lbaMaskBits + 19, 8) }

  function CountOf(cmd: nat): nat { Bits(cmd, 0, 9) }
}
