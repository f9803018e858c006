/** The PCIe controller's tables: PCMDQ, host command queue, internal tags, running counts, read buffers. */
module PcieTables {
  import opened Common
  import opened Pool
  import opened TagLifecycle

  class CommandQueueManager {
    var mCmdQueue: seq<PEntry>
    var mCmdQStatus: seq<Status>
    var mCmdQSize: nat

    constructor (queueSize: nat)
      ensures mCmdQueue == ResetEntries(queueSize) && mCmdQStatus == AllFree(queueSize) && mCmdQSize == 0
    {
      mCmdQueue, mCmdQStatus, mCmdQSize := ResetEntries(queueSize), AllFree(queueSize), 0;
    }

    method GetFreeQueueAddr() returns (found: bool, qAddr: nat)
      ensures found <==> FirstFree(mCmdQStatus) < |mCmdQStatus|
      ensures found ==> qAddr == FirstFree(mCmdQStatus)
    {
      found, qAddr := GetFree(mCmdQStatus);
    }

    method SetQueueBusy(qAddr: nat)
      requires qAddr < |mCmdQStatus|
      modifies this`mCmdQStatus
      ensures mCmdQStatus == old(mCmdQStatus)[qAddr := BUSY]
    {
      mCmdQStatus := mCmdQStatus[qAddr := BUSY];
    }

    /** insert: command 1 is stored as WRITE, 2 as READ, any other leaves the entry's type. */
    method Insert(qAddr: nat, cmd: nat, plba: nat, cmdOffset: nat, iTag: nat, nextAddr: int)
      requires qAddr < |mCmdQueue|
      modifies this`mCmdQueue, this`mCmdQSize
      ensures mCmdQSize == old(mCmdQSize) + 1
      ensures var ctype := if cmd == 1 then WRITE else if cmd == 2 then READ else old(mCmdQueue[qAddr].cmd);
              mCmdQueue == old(mCmdQueue)[qAddr := PEntry(ctype, plba, cmdOffset, iTag, nextAddr)]
    {
      var ctype := mCmdQueue[qAddr].cmd;
      if cmd == 1 { ctype := WRITE; } else if cmd == 2 { ctype := READ; }
      mCmdQueue := mCmdQueue[qAddr := PEntry(ctype, plba, cmdOffset, iTag, nextAddr)];
      mCmdQSize := mCmdQSize + 1;
    }

    /** setQueueFree: the entry is reset; the 32-bit size wraps below zero. */
    method SetQueueFree(qAddr: nat)
      requires qAddr < |mCmdQueue| == |mCmdQStatus|
      modifies this
      ensures mCmdQueue == old(mCmdQueue)[qAddr := RESET] && mCmdQStatus == old(mCmdQStatus)[qAddr := FREE]
      ensures mCmdQSize == if old(mCmdQSize) == 0 then 0xffff_ffff else old(mCmdQSize) - 1
    {
      mCmdQStatus := mCmdQStatus[qAddr := FREE];
      mCmdQueue := mCmdQueue[qAddr := RESET];
      mCmdQSize := if mCmdQSize == 0 then 0xffff_ffff else mCmdQSize - 1;
    }

    method UpdateNextAddress(qAddr: nat, value: int)
      requires qAddr < |mCmdQueue|
      modifies this`mCmdQueue
      ensures mCmdQueue == old(mCmdQueue)[qAddr := old(mCmdQueue)[qAddr].(nextAddr := value)]
    {
      mCmdQueue := mCmdQueue[qAddr := mCmdQueue[qAddr].(nextAddr := value)];
    }

    method IsFull() returns (full: bool)
      ensures full <==> mCmdQSize == |mCmdQueue|
    {
      full := |mCmdQueue| == mCmdQSize;
    }
  }

  class HostCmdQueueMgr {
    const mSize: nat
    var mHCmdQStatus: seq<Status>
    var mHCmdQSize: nat

    constructor (size: nat)
      ensures mSize == size && mHCmdQStatus == AllFree(size) && mHCmdQSize == 0
    {
      mSize, mHCmdQStatus, mHCmdQSize := size, AllFree(size), 0;
    }

    method Push()
      modifies this`mHCmdQSize
      ensures mHCmdQSize == old(mHCmdQSize) + 1
    {
      mHCmdQSize := mHCmdQSize + 1;
    }

    method Pop()
      requires mHCmdQSize > 0
      modifies this`mHCmdQSize
      ensures mHCmdQSize == old(mHCmdQSize) - 1
    {
      mHCmdQSize := mHCmdQSize - 1;
    }

    method SetStatus(qAddr: nat, status: Status)
      requires qAddr < |mHCmdQStatus|
      modifies this`mHCmdQStatus
      ensures mHCmdQStatus == old(mHCmdQStatus)[qAddr := status]
    {
      mHCmdQStatus := mHCmdQStatus[qAddr := status];
    }

    method IsFull() returns (full: bool)
      ensures full <==> mHCmdQSize == mSize
    {
      full := mHCmdQSize == mSize;
    }
  }

  class iTagManager {
    var iTagTable: seq<Status>

    constructor (size: nat)
      ensures iTagTable == AllFree(size)
    {
      iTagTable := AllFree(size);
    }

    /** getFreeTag: the first free tag; without one the caller's variable stays as it is. */
    method GetFreeTag(tag: nat) returns (found: bool, newTag: nat)
      ensures found <==> FirstFree(iTagTable) < |iTagTable|
      ensures newTag == if found then FirstFree(iTagTable) else tag
    {
      found, newTag := GetFree(iTagTable);
      if !found { newTag := tag; }
    }

    method SetTag(tag: nat, status: Status) returns (ok: bool)
      modifies this
      ensures ok <==> tag < |old(iTagTable)|
      ensures iTagTable == if tag < |old(iTagTable)| then old(iTagTable)[tag := status] else old(iTagTable)
    {
      ok := tag < |iTagTable|;
      if ok { iTagTable := iTagTable[tag := status]; }
    }
  }

  class RunningCntTable {
    var mRunningCntTable: seq<nat>

    constructor (size: nat)
      ensures mRunningCntTable == Zeros(size)
    {
      mRunningCntTable := Zeros(size);
    }

    method Insert(tag: nat, blkCnt: nat)
      requires tag < |mRunningCntTable|
      modifies this
      ensures mRunningCntTable == old(mRunningCntTable)[tag := blkCnt % 0x1_0000]
    {
      mRunningCntTable := mRunningCntTable[tag := blkCnt % 0x1_0000];
    }

    /** updateCnt and getRunningCnt; the count has 16 bits. */
    method UpdateCnt(tag: nat) returns (cnt: nat)
      requires tag < |mRunningCntTable|
      modifies this
      ensures cnt == if old(mRunningCntTable[tag]) == 0 then 0xffff else old(mRunningCntTable[tag]) - 1
      ensures mRunningCntTable == old(mRunningCntTable)[tag := cnt]
    {
      cnt := if mRunningCntTable[tag] == 0 then 0xffff else mRunningCntTable[tag] - 1;
      mRunningCntTable := mRunningCntTable[tag := cnt];
    }
  }

  /** The read buffers' status table. */
  class DataBufferManager {
    var mDataBuffStatus: seq<Status>

    constructor (size: nat)
      ensures mDataBuffStatus == AllFree(size)
    {
      mDataBuffStatus := AllFree(size);
    }

    /** getFreeBuffPtr: the index is handed out in eight bits. */
    method GetFreeBuffPtr() returns (found: bool, qAddr: nat)
      ensures found <==> FirstFree(mDataBuffStatus) < |mDataBuffStatus|
      ensures found ==> qAddr == FirstFree(mDataBuffStatus) % 0x100
    {
      found, qAddr := GetFree(mDataBuffStatus);
      qAddr := qAddr % 0x100;
    }

    method SetBuffStatus(qAddr: nat, status: Status)
      requires qAddr < |mDataBuffStatus|
      modifies this
      ensures mDataBuffStatus == old(mDataBuffStatus)[qAddr := status]
    {
      mDataBuffStatus := mDataBuffStatus[qAddr := status];
    }
  }
}
