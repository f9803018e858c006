/** The PCIe controller's threads on its own tables and queues: each method is one enabled step of the
    tag lifecycle, or nothing when its thread has to wait. */
module TeraSPCIeController {
  import opened Common
  import opened Places
  import opened Pool
  import opened TagLifecycle
  import opened TagSafety
  import opened TlpArbiter
  import opened PcieTables

  class TeraSPCIeController {
    const p: Params
    const mTagMgr: iTagManager
    const mHostCmdQueue: HostCmdQueueMgr
    const mRunningCntTable: RunningCntTable
    const mCmdQueue: CommandQueueManager
    const mReadDataBuff: DataBufferManager
    const mTLPQueueMgr: TLPManager
    const mArbiter: TokenArbiter
    var mParamTable: seq<CmdType>
    var mHCmdQueue: seq<Request>          // with mCmdSize and mFreeTagQueue
    var current: Option<Request>          // pcmdQInsertThread's command in hand
    var flight: map<nat, Flight>          // records in the channel managers' queues
    var mRdBuffPtrQueue: seq<nat>
    var inTx: Option<nat>                 // data TLP in transmission
    var mTagQueue: seq<nat>
    var mDMAActiveCmdQueueData: seq<nat>
    var mCmdDoneTagQueue: seq<nat>
    var mBankLinkList: seq<L.BankList>    // by channel and code-word bank
    ghost var lists: map<nat, seq<nat>>
    ghost var listOf: map<nat, nat>
    ghost var stage: seq<Stage>
    ghost var fetched: seq<nat>
    ghost var completed: seq<nat>

    ghost function Objects(): set<object>
      reads this
    {
      {this, mTagMgr, mHostCmdQueue, mRunningCntTable, mCmdQueue, mReadDataBuff, mTLPQueueMgr, mArbiter}
    }

    ghost function Snapshot(): State
      reads Objects()
    {
      State(mTagMgr.iTagTable, mHostCmdQueue.mHCmdQStatus, mHostCmdQueue.mHCmdQSize, mRunningCntTable.mRunningCntTable,
            mParamTable, mHCmdQueue, current, mCmdQueue.mCmdQueue, mCmdQueue.mCmdQStatus, mCmdQueue.mCmdQSize, flight,
            mReadDataBuff.mDataBuffStatus, mRdBuffPtrQueue, mTLPQueueMgr.mMemWriteDataQueue, inTx,
            mTagQueue, mDMAActiveCmdQueueData, mCmdDoneTagQueue, mTLPQueueMgr.mMemWriteCompletionQueue,
            mBankLinkList, lists, listOf, stage, fetched, completed)
    }

    ghost predicate Valid()
      reads Objects()
    {
      && mArbiter.mTLPQueueMgr == mTLPQueueMgr && mArbiter.mArbiterToken < 4 && mHostCmdQueue.mSize == p.tags
      && Safe(p, Snapshot())
    }

    constructor (p: Params)
      requires p.buffers <= 0x100
      ensures Valid() && this.p == p && Snapshot() == Init(p)
      ensures fresh(mTagMgr) && fresh(mHostCmdQueue) && fresh(mRunningCntTable) && fresh(mCmdQueue)
      ensures fresh(mReadDataBuff) && fresh(mTLPQueueMgr) && fresh(mArbiter)
    {
      this.p := p;
      mTagMgr := new iTagManager(p.tags);
      mHostCmdQueue := new HostCmdQueueMgr(p.tags);
      mRunningCntTable := new RunningCntTable(p.tags);
      mCmdQueue := new CommandQueueManager(p.slots);
      mReadDataBuff := new DataBufferManager(p.buffers);
      var queues := new TLPManager(p.tags);
      mTLPQueueMgr := queues;
      mArbiter := new TokenArbiter(queues);
      mParamTable := Reads(p.tags);
      mHCmdQueue, current, flight, mRdBuffPtrQueue, inTx := [], None, map[], [], None;
      mTagQueue, mDMAActiveCmdQueueData, mCmdDoneTagQueue := [], [], [];
      mBankLinkList, lists, listOf := EmptyLists(p.lists), map[], map[];
      stage, fetched, completed := Idles(p.tags), [], [];
      new;
      hide Safe, AllFree, Zeros, ResetEntries, Reads, Idles, EmptyLists;
      InitSafe(p);
      assert Snapshot() == Init(p);
    }

    /** processCompletionTLPCmd, for one host command: it waits while the host queue is full. */
    method ProcessCompletionTLPCmd(op: CmdType, lba: nat, cnt: nat, stale: nat) returns (taken: bool, tag: nat)
      requires Valid() && cnt <= 0xffff
      modifies this`mParamTable, this`mHCmdQueue, this`stage, this`fetched, mTagMgr, mHostCmdQueue, mRunningCntTable
      ensures Valid() && (taken <==> old(mHostCmdQueue.mHCmdQSize) != p.tags)
      ensures if taken then Apply(p, old(Snapshot()), Fetch(op, lba, cnt, stale)) == Some(Snapshot())
                && tag < |old(Snapshot()).tagTable| && old(Snapshot()).tagTable[tag] == FREE
              else Snapshot() == old(Snapshot()) && Apply(p, Snapshot(), Fetch(op, lba, cnt, stale)) == None
    {
      hide Safe, FirstFree, Apply;
      ghost var s' := FetchNext(p, Snapshot(), op, lba, cnt, stale);
      var full := mHostCmdQueue.IsFull();
      if full { return false, stale; }
      var found;
      found, tag := mTagMgr.GetFreeTag(stale);
      Register(op, lba, cnt, tag);
      assert Snapshot() == s';
      taken := true;
    }

    method Register(op: CmdType, lba: nat, cnt: nat, tag: nat)
      requires cnt <= 0xffff && tag < |mParamTable| && tag < |stage| && tag < |mTagMgr.iTagTable|
      requires tag < |mHostCmdQueue.mHCmdQStatus| && tag < |mRunningCntTable.mRunningCntTable|
      modifies this`mParamTable, this`mHCmdQueue, this`stage, this`fetched, mTagMgr, mHostCmdQueue, mRunningCntTable
      ensures mTagMgr.iTagTable == old(mTagMgr.iTagTable)[tag := BUSY]
      ensures mHostCmdQueue.mHCmdQStatus == old(mHostCmdQueue.mHCmdQStatus)[tag := BUSY]
      ensures mHostCmdQueue.mHCmdQSize == old(mHostCmdQueue.mHCmdQSize) + 1
      ensures mRunningCntTable.mRunningCntTable == old(mRunningCntTable.mRunningCntTable)[tag := cnt]
      ensures mParamTable == old(mParamTable)[tag := op]
      ensures mHCmdQueue == old(mHCmdQueue) + [Request(op, lba, 0, cnt, tag)]
      ensures stage == old(stage)[tag := Queued] && fetched == old(fetched) + [tag]
    {
      var ok := mTagMgr.SetTag(tag, BUSY);
      mHostCmdQueue.Push();
      mHostCmdQueue.SetStatus(tag, BUSY);
      mParamTable := mParamTable[tag := op];
      mRunningCntTable.Insert(tag, cnt);
      mHCmdQueue := mHCmdQueue + [Request(op, lba, 0, cnt, tag)];
      stage, fetched := stage[tag := Queued], fetched + [tag];
    }

    /** pcmdQInsertThread takes up the next command. */
    method PcmdQStart()
      requires Valid() && current.None? && mHCmdQueue != []
      modifies this`mHCmdQueue, this`current, this`stage
      ensures Valid() && Apply(p, old(Snapshot()), Start) == Some(Snapshot())
      ensures mHCmdQueue == old(mHCmdQueue)[1..]
      ensures current == if old(mHCmdQueue)[0].cnt > 0 then Some(old(mHCmdQueue)[0]) else None
    {
      hide Allocated, Carried, Counted, Staged, Aligned, Owned, Booked;
      ghost var s := Snapshot();
      FrontQueued(p, s);
      StepSafe(p, s, Start);
      var r := mHCmdQueue[0];
      mHCmdQueue := mHCmdQueue[1..];
      if r.cnt > 0 { current := Some(r); }
      stage := stage[r.tag := if r.cnt == 0 then Waiting else Inserting];
      assert Snapshot() == Apply(p, s, Start).value;
    }

    /** One turn of its loop: a sub-command enters the PCMDQ, unless that is full, and is linked to the
        list that its LBA selects. */
    method PcmdQInsert(waited: bool, list: nat) returns (inserted: bool)
      requires Valid() && current.Some? && list < p.lists
      modifies this`current, this`flight, this`stage, this`mBankLinkList, this`lists, this`listOf, mCmdQueue
      ensures Valid() && (inserted <==> old(mCmdQueue.mCmdQSize) != p.slots)
      ensures if inserted then Apply(p, old(Snapshot()), Insert(waited, list)) == Some(Snapshot())
                && |Snapshot().flight| == |old(Snapshot()).flight| + 1
              else Snapshot() == old(Snapshot()) && Apply(p, Snapshot(), Insert(waited, list)) == None
    {
      hide Safe, FirstFree, Apply, Inserted, Linked;
      ghost var s' := InsertNext(p, Snapshot(), waited, list);
      var full := mCmdQueue.IsFull();
      if full { return false; }
      var qAddr := Enter(waited);
      TeraSBankLLMethod(qAddr, list);
      InsertGrows(p, old(Snapshot()), waited, list, s');
      inserted := true;
    }

    /** The sub-command takes the first free entry. */
    method Enter(waited: bool) returns (qAddr: nat)
      requires Valid() && current.Some? && mCmdQueue.mCmdQSize != p.slots
      modifies this`current, this`flight, this`stage, mCmdQueue
      ensures qAddr == FirstFree(old(Snapshot()).status) && Inserted(p, old(Snapshot()), waited) == Some(Snapshot())
    {
      hide Safe, FirstFree, Inserted;
      ghost var t, q := EnterNext(p, Snapshot(), waited);
      var found;
      found, qAddr := mCmdQueue.GetFreeQueueAddr();
      mCmdQueue.SetQueueBusy(qAddr);
      PutEntry(qAddr, waited);
      assert Snapshot() == t;
    }

    /** insert, and the command in hand counts down. */
    method PutEntry(qAddr: nat, waited: bool)
      requires current.Some? && qAddr < |mCmdQueue.mCmdQueue| && current.value.cnt >= 1 && current.value.tag < |stage|
      modifies this`current, this`flight, this`stage, mCmdQueue`mCmdQueue, mCmdQueue`mCmdQSize
      ensures var r := old(current).value;
              var offset := if waited then 0 else r.offset;
              var cmd := if r.op == WRITE then WRITE else old(mCmdQueue.mCmdQueue)[qAddr].cmd;
              && mCmdQueue.mCmdQueue == old(mCmdQueue.mCmdQueue)[qAddr := PEntry(cmd, r.lba, offset, r.tag, -1)]
              && mCmdQueue.mCmdQSize == old(mCmdQueue.mCmdQSize) + 1
              && flight == old(flight)[qAddr := Flight(r.tag, cmd, None)]
              && current == (if r.cnt == 1 then None else Some(r.(lba := r.lba + 1, offset := offset + 1, cnt := r.cnt - 1)))
              && stage == if r.cnt == 1 then old(stage)[r.tag := Waiting] else old(stage)
    {
      var r := current.value;
      var offset := if waited then 0 else r.offset;
      mCmdQueue.Insert(qAddr, if r.op == WRITE then 1 else 0, r.lba, offset, r.tag, -1);
      flight := flight[qAddr := Flight(r.tag, mCmdQueue.mCmdQueue[qAddr].cmd, None)];
      if r.cnt == 1 {
        current, stage := None, stage[r.tag := Waiting];
      } else {
        current := Some(r.(lba := r.lba + 1, offset := offset + 1, cnt := r.cnt - 1));
      }
    }

    /** TeraSBankLLMethod: head and tail of an empty list, else the link of the tail, then the tail. */
    method TeraSBankLLMethod(qAddr: nat, list: nat)
      requires list < |mBankLinkList|
      requires mBankLinkList[list].head == -1 || 0 <= mBankLinkList[list].tail < |mCmdQueue.mCmdQueue|
      modifies this`mBankLinkList, this`lists, this`listOf, mCmdQueue`mCmdQueue
      ensures Snapshot() == Linked(old(Snapshot()), qAddr, list)
    {
      var l := mBankLinkList[list];
      if l.head == -1 {
        mBankLinkList := mBankLinkList[list := L.BankList(qAddr, qAddr)];
      } else {
        mCmdQueue.UpdateNextAddress(l.tail, qAddr);
        mBankLinkList := mBankLinkList[list := L.BankList(l.head, qAddr)];
      }
      lists, listOf := Put(lists, list, qAddr), listOf[qAddr := list];
    }

    /** processBankLinkList, when the dispatcher takes the head of a list that is not empty. */
    method ProcessBankLinkList(list: nat) returns (q: Option<nat>)
      requires Valid() && list < p.lists
      modifies this`mBankLinkList, this`lists, this`listOf
      ensures Valid()
      ensures match q
              case Some(qAddr) =>
                && Apply(p, old(Snapshot()), Unlink(list)) == Some(Snapshot())
                && At(old(lists), list) == [qAddr] + At(lists, list) && qAddr in flight && qAddr !in listOf
              case None => Snapshot() == old(Snapshot()) && At(lists, list) == []
    {
      hide Allocated, Carried, Chained, Counted, Staged, Aligned, Owned, Booked;
      ghost var s := Snapshot();
      UnlinkTakesFront(p, s, list);
      var l := mBankLinkList[list];
      if l.head == -1 { return None; }
      StepSafe(p, s, Unlink(list));
      var qAddr := l.head;
      if l.head == l.tail {
        mBankLinkList := mBankLinkList[list := L.BankList(-1, -1)];
      } else {
        mBankLinkList := mBankLinkList[list := L.BankList(mCmdQueue.mCmdQueue[l.head].nextAddr, l.tail)];
      }
      lists, listOf := Take(lists, list), listOf - {qAddr};
      assert Snapshot() == Apply(p, s, Unlink(list)).value;
      q := Some(qAddr);
    }

    /** dispatchReadCmdThread: the read of entry `q` gets a buffer, if one is free. */
    method DispatchRead(q: nat) returns (taken: bool)
      requires Valid() && q in flight && q !in listOf && flight[q].cmd == READ && flight[q].buffer.None?
      modifies this`flight, mReadDataBuff
      ensures Valid() && (taken <==> FREE in old(mReadDataBuff.mDataBuffStatus))
      ensures if taken then Apply(p, old(Snapshot()), TakeBuffer(q)) == Some(Snapshot())
              else Snapshot() == old(Snapshot()) && Apply(p, Snapshot(), TakeBuffer(q)) == None
    {
      hide Allocated, Carried, Counted, Staged, Aligned, Owned, Booked, FirstFree;
      ghost var s := Snapshot();
      var found, qAddr := mReadDataBuff.GetFreeBuffPtr();
      if !found { return false; }
      StepSafe(p, s, TakeBuffer(q));
      mReadDataBuff.SetBuffStatus(qAddr, BUSY);
      flight := flight[q := flight[q].(buffer := Some(qAddr))];
      assert Snapshot() == Apply(p, s, TakeBuffer(q)).value;
      taken := true;
    }

    /** pendingWriteCmdMethod: the write of entry `q` is done. */
    method PendingWriteCmd(q: nat)
      requires Valid() && q in flight && q !in listOf && flight[q].cmd == WRITE
      modifies this`flight, this`mTagQueue, this`stage, mCmdQueue, mRunningCntTable
      ensures Valid() && Apply(p, old(Snapshot()), FinishWrite(q)) == Some(Snapshot())
    {
      hide Safe, Apply;
      ghost var s' := ReleaseNext(p, Snapshot(), q);
      var iTag := flight[q].tag;
      mCmdQueue.SetQueueFree(q);
      flight := flight - {q};
      var cnt := mRunningCntTable.UpdateCnt(iTag);
      if cnt == 0 {
        mTagQueue, stage := mTagQueue + [iTag], stage[iTag := Finished];
      }
      assert Snapshot() == s';
    }

    /** memReadCompletionThread: the data of entry `q` goes out in a data TLP. */
    method MemReadCompletion(q: nat)
      requires Valid() && q in flight && q !in listOf && flight[q].cmd == READ && flight[q].buffer.Some?
      modifies this`flight, this`mRdBuffPtrQueue, this`mDMAActiveCmdQueueData, this`stage
      modifies mTLPQueueMgr`mMemWriteDataQueue, mCmdQueue, mRunningCntTable
      ensures Valid() && Apply(p, old(Snapshot()), FinishRead(q)) == Some(Snapshot())
    {
      hide Safe, Apply;
      ghost var s' := ReleaseNext(p, Snapshot(), q);
      var iTag, buffPtr := flight[q].tag, flight[q].buffer.value;
      mRdBuffPtrQueue := mRdBuffPtrQueue + [buffPtr];
      mTLPQueueMgr.mMemWriteDataQueue := mTLPQueueMgr.mMemWriteDataQueue + [buffPtr];
      mCmdQueue.SetQueueFree(q);
      flight := flight - {q};
      var cnt := mRunningCntTable.UpdateCnt(iTag);
      if cnt == 0 {
        mDMAActiveCmdQueueData, stage := mDMAActiveCmdQueueData + [iTag], stage[iTag := Finished];
      }
      assert Snapshot() == s';
    }

    /** writeCmdDoneThread. */
    method WriteCmdDone()
      requires Valid() && mTagQueue != []
      modifies this`mTagQueue, this`mCmdDoneTagQueue, this`stage, mTLPQueueMgr`mMemWriteCompletionQueue
      ensures Valid() && Apply(p, old(Snapshot()), ReportWrite) == Some(Snapshot())
    {
      hide Allocated, Carried, Counted, Staged, Aligned, Owned, Booked;
      ghost var s := Snapshot();
      FrontFinished(p, s, true);
      StepSafe(p, s, ReportWrite);
      var iTag := mTagQueue[0];
      mTagQueue := mTagQueue[1..];
      mCmdDoneTagQueue := mCmdDoneTagQueue + [iTag];
      mTLPQueueMgr.mMemWriteCompletionQueue := mTLPQueueMgr.mMemWriteCompletionQueue + [iTag];
      stage := stage[iTag := Done];
      assert Snapshot() == Apply(p, s, ReportWrite).value;
    }

    /** readDoneThread. */
    method ReadDone()
      requires Valid() && mDMAActiveCmdQueueData != []
      modifies this`mDMAActiveCmdQueueData, this`mCmdDoneTagQueue, this`stage, mTLPQueueMgr`mMemWriteCompletionQueue
      ensures Valid() && Apply(p, old(Snapshot()), ReportRead) == Some(Snapshot())
    {
      hide Allocated, Carried, Counted, Staged, Aligned, Owned, Booked;
      ghost var s := Snapshot();
      FrontFinished(p, s, false);
      StepSafe(p, s, ReportRead);
      var iTag := mDMAActiveCmdQueueData[0];
      mDMAActiveCmdQueueData := mDMAActiveCmdQueueData[1..];
      mCmdDoneTagQueue := mCmdDoneTagQueue + [iTag];
      mTLPQueueMgr.mMemWriteCompletionQueue := mTLPQueueMgr.mMemWriteCompletionQueue + [iTag];
      stage := stage[iTag := Done];
      assert Snapshot() == Apply(p, s, ReportRead).value;
    }

    /** One turn of arbiterThread: queueArbiter picks, the TLP is popped; with a completion TLP the tag
        and host entry at the front of the side queue are freed. */
    method Arbitrate() returns (r: TLPQueueType)
      requires Valid() && inTx.None?
      modifies this`inTx, this`mCmdDoneTagQueue, this`stage, this`completed, mTagMgr, mHostCmdQueue, mArbiter, mTLPQueueMgr
      ensures Valid()
      ensures r == MEM_WRITE_DATA_Q ==> Apply(p, old(Snapshot()), SendData) == Some(Snapshot())
      ensures r == MEM_WRITE_COMP_Q ==> Apply(p, old(Snapshot()), SendCompletion) == Some(Snapshot())
      ensures r != MEM_WRITE_DATA_Q && r != MEM_WRITE_COMP_Q ==> Snapshot() == old(Snapshot())
      ensures Served(old(mArbiter.Model()), mArbiter.Model(), r)
    {
      hide Safe, Apply;
      ghost var s := Snapshot();
      var tlp;
      r, tlp := Pick();
      match r
      case MEM_WRITE_DATA_Q =>
        ghost var s' := DataNext(p, s);
        inTx := Some(tlp);
        assert Snapshot() == s';
      case MEM_WRITE_COMP_Q =>
        CompletionPicked(tlp, s);
      case _ =>
    }

    /** queueArbiter and popTLP. */
    method Pick() returns (r: TLPQueueType, tlp: nat)
      requires mArbiter.mTLPQueueMgr == mTLPQueueMgr && mArbiter.mArbiterToken < 4
      modifies mArbiter, mTLPQueueMgr
      ensures Served(old(mArbiter.Model()), mArbiter.Model(), r)
      ensures r != NONE ==> tlp == old(mArbiter.Model()).queues[Number(r)][0]
    {
      r, tlp := mArbiter.Arbitrate();
    }

    /** The MEM_WRITE_COMP_Q case; `s` is the state before the TLP was popped. */
    method CompletionPicked(tlp: nat, ghost s: State)
      requires Safe(p, s) && s.inTx.None? && s.compQ != [] && tlp == s.compQ[0]
      requires Snapshot() == s.(compQ := s.compQ[1..])
      modifies this`mCmdDoneTagQueue, this`stage, this`completed, mTagMgr, mHostCmdQueue
      ensures Safe(p, Snapshot()) && Apply(p, s, SendCompletion) == Some(Snapshot())
    {
      hide Safe, Apply;
      ghost var s' := CompletionNext(p, s);
      FreeTag();
      completed := completed + [tlp];
      assert Snapshot() == s';
    }

    /** The frees of the MEM_WRITE_COMP_Q case. */
    method FreeTag()
      requires mCmdDoneTagQueue != [] && mHostCmdQueue.mHCmdQSize > 0
      requires mCmdDoneTagQueue[0] < |mTagMgr.iTagTable| == |mHostCmdQueue.mHCmdQStatus| == |stage|
      modifies this`mCmdDoneTagQueue, this`stage, mTagMgr, mHostCmdQueue
      ensures var tag := old(mCmdDoneTagQueue)[0];
              && mCmdDoneTagQueue == old(mCmdDoneTagQueue)[1..] && stage == old(stage)[tag := Idle]
              && mTagMgr.iTagTable == old(mTagMgr.iTagTable)[tag := FREE]
              && mHostCmdQueue.mHCmdQStatus == old(mHostCmdQueue.mHCmdQStatus)[tag := FREE]
              && mHostCmdQueue.mHCmdQSize == old(mHostCmdQueue.mHCmdQSize) - 1
    {
      var tag := mCmdDoneTagQueue[0];
      mCmdDoneTagQueue := mCmdDoneTagQueue[1..];
      mHostCmdQueue.SetStatus(tag, FREE);
      var ok := mTagMgr.SetTag(tag, FREE);
      mHostCmdQueue.Pop();
      stage := stage[tag := Idle];
    }

    /** The data TLP has been transmitted: the buffer at the front of the side queue is freed. */
    method DataTransmitted()
      requires Valid() && inTx.Some?
      modifies this`mRdBuffPtrQueue, this`inTx, mReadDataBuff
      ensures Valid() && Apply(p, old(Snapshot()), DataSent) == Some(Snapshot())
      ensures old(inTx) == Some(old(mRdBuffPtrQueue)[0])
    {
      hide Allocated, Carried, Counted, Staged, Booked;
      ghost var s := Snapshot();
      BufferReady(p, s);
      StepSafe(p, s, DataSent);
      var buffPtr := mRdBuffPtrQueue[0];
      mRdBuffPtrQueue := mRdBuffPtrQueue[1..];
      mReadDataBuff.SetBuffStatus(buffPtr, FREE);
      inTx := None;
      assert Snapshot() == Apply(p, s, DataSent).value;
    }
  }

  // ---- facts the methods use ---------------------------------------------------------------

  /** The step that takes a host command: nothing while the host queue is full. */
  lemma FetchNext(p: Params, s: State, op: CmdType, lba: nat, cnt: nat, stale: nat) returns (s': State)
    requires Safe(p, s) && cnt <= 0xffff
    ensures |s.tagTable| == |s.hostStatus| == |s.running| == |s.ops| == |s.stage| == p.tags
    ensures s.hostSize == p.tags ==> Apply(p, s, Fetch(op, lba, cnt, stale)) == None
    ensures s.hostSize != p.tags ==>
              var tag := FirstFree(s.tagTable);
              && Apply(p, s, Fetch(op, lba, cnt, stale)) == Some(s') && Safe(p, s') && tag < p.tags
              && s' == s.(tagTable := s.tagTable[tag := BUSY], hostStatus := s.hostStatus[tag := BUSY],
                          hostSize := s.hostSize + 1, running := s.running[tag := cnt], ops := s.ops[tag := op],
                          requests := s.requests + [Request(op, lba, 0, cnt, tag)],
                          stage := s.stage[tag := Queued], fetched := s.fetched + [tag])
  {
    hide Allocated, Carried, Chained, Counted, Staged, Aligned, Owned, Booked, FirstFree;
    s' := s;
    if s.hostSize != p.tags {
      FreshTag(p, s);
      StepSafe(p, s, Fetch(op, lba, cnt, stale));
      s' := Apply(p, s, Fetch(op, lba, cnt, stale)).value;
    }
  }

  /** The insertion, before the linking. */
  lemma EnterNext(p: Params, s: State, waited: bool) returns (t: State, q: nat)
    requires Safe(p, s) && s.current.Some? && s.size != p.slots
    ensures |s.entries| == |s.status| == p.slots && |s.table| == |t.table| == p.lists
    ensures Inserted(p, s, waited) == Some(t) && q == FirstFree(s.status) < p.slots && q !in s.flight
    ensures s.current.value.tag < |s.stage| && s.current.value.cnt >= 1
    ensures var r := s.current.value;
            var offset := if waited then 0 else r.offset;
            var cmd := if r.op == WRITE then WRITE else s.entries[q].cmd;
            t == s.(entries := s.entries[q := PEntry(cmd, r.lba, offset, r.tag, -1)], status := s.status[q := BUSY],
                    size := s.size + 1, flight := s.flight[q := Flight(r.tag, cmd, None)],
                    current := if r.cnt == 1 then None else Some(r.(lba := r.lba + 1, offset := offset + 1, cnt := r.cnt - 1)),
                    stage := if r.cnt == 1 then s.stage[r.tag := Waiting] else s.stage)
  {
    EntryFree(p, s);
    hide Safe, FirstFree;
    q := FirstFree(s.status);
    t := Inserted(p, s, waited).value;
  }

  lemma InsertGrows(p: Params, s: State, waited: bool, list: nat, s': State)
    requires Safe(p, s) && Apply(p, s, Insert(waited, list)) == Some(s')
    ensures |s'.flight| == |s.flight| + 1
  {
    var q := FirstFree(s.status);
    EntryFree(p, s);
    assert q in s'.flight && s'.flight == s.flight[q := s'.flight[q]];
    hide *;
    OneMore(s.flight, q, s'.flight[q]);
  }

  lemma OneMore(flight: map<nat, Flight>, q: nat, f: Flight)
    requires q !in flight
    ensures |flight[q := f]| == |flight| + 1
  {
    assert flight[q := f].Keys == flight.Keys + {q};
  }

  lemma EntryFree(p: Params, s: State)
    requires Safe(p, s) && s.current.Some? && s.size != p.slots
    ensures Sized(p, s) && FirstFree(s.status) < p.slots && FirstFree(s.status) !in s.flight
    ensures s.current.value.tag < p.tags && s.current.value.cnt >= 1
  {
    FreshEntry(p, s);
    CurrentInserting(p, s);
  }

  /** The step of the insertion loop: nothing while the PCMDQ is full. */
  lemma InsertNext(p: Params, s: State, waited: bool, list: nat) returns (s': State)
    requires Safe(p, s) && s.current.Some? && list < p.lists
    ensures |s.entries| == |s.status| == p.slots
    ensures s.size == p.slots ==> Apply(p, s, Insert(waited, list)) == None
    ensures s.size != p.slots ==>
              && Apply(p, s, Insert(waited, list)) == Some(s') && Safe(p, s') && Inserted(p, s, waited).Some?
              && |Inserted(p, s, waited).value.table| == p.lists
              && s' == Linked(Inserted(p, s, waited).value, FirstFree(s.status), list)
              && (s.table[list].head == -1 || 0 <= s.table[list].tail < p.slots)
  {
    s' := s;
    InsertSize(p, s, waited, list);
    hide *;
    if s.size != p.slots {
      var t, q := EnterNext(p, s, waited);
      EntryTail(p, s, list);
      s' := LinkNext(p, s, waited, list, t, q);
      StepSafe(p, s, Insert(waited, list));
    }
  }

  lemma EntryTail(p: Params, s: State, list: nat)
    requires Safe(p, s) && list < |s.table|
    ensures s.table[list].head == -1 || 0 <= s.table[list].tail < p.slots
  {
    TailBusy(p, s, list);
  }

  lemma InsertSize(p: Params, s: State, waited: bool, list: nat)
    requires Safe(p, s)
    ensures Sized(p, s) && |s.entries| == |s.status| == p.slots && |s.table| == p.lists
    ensures s.size == p.slots ==> Apply(p, s, Insert(waited, list)) == None
  {
    hide Allocated, Carried, Chained, Counted, Staged, Aligned, Owned, Booked, FirstFree;
  }

  lemma LinkNext(p: Params, s: State, waited: bool, list: nat, t: State, q: nat) returns (s': State)
    requires Sized(p, s) && list < p.lists && |t.table| == p.lists && q == FirstFree(s.status) && q !in s.flight
    requires Inserted(p, s, waited) == Some(t)
    ensures s' == Linked(t, q, list) && Apply(p, s, Insert(waited, list)) == Some(s')
  {
    hide Inserted, FirstFree;
    s' := Linked(t, q, list);
  }

  /** The step that ends the flight of entry `q`. */
  lemma ReleaseNext(p: Params, s: State, q: nat) returns (s': State)
    requires Safe(p, s) && q in s.flight && q !in s.listOf && (s.flight[q].cmd == READ ==> s.flight[q].buffer.Some?)
    ensures var f := s.flight[q];
            && Apply(p, s, if f.cmd == WRITE then FinishWrite(q) else FinishRead(q)) == Some(s') && Safe(p, s')
            && q < |s.entries| == |s.status| && f.tag < |s.running| == |s.stage|
            && var n := if s.running[f.tag] == 0 then 0xffff else s.running[f.tag] - 1;
               var b := if f.cmd == READ then [f.buffer.value] else [];
               s' == s.(rdBuffPtrs := s.rdBuffPtrs + b, dataQ := s.dataQ + b,
                        entries := s.entries[q := RESET], status := s.status[q := FREE],
                        size := if s.size == 0 then 0xffff_ffff else s.size - 1,
                        flight := s.flight - {q}, running := s.running[f.tag := n],
                        tagQueue := if n == 0 && f.cmd == WRITE then s.tagQueue + [f.tag] else s.tagQueue,
                        dmaActive := if n == 0 && f.cmd == READ then s.dmaActive + [f.tag] else s.dmaActive,
                        stage := if n == 0 then s.stage[f.tag := Finished] else s.stage)
  {
    hide Allocated, Carried, Chained, Counted, Staged, Aligned, Owned, Booked;
    FlightInRange(p, s, q);
    var e := if s.flight[q].cmd == WRITE then FinishWrite(q) else FinishRead(q);
    StepSafe(p, s, e);
    s' := Apply(p, s, e).value;
    var none: seq<nat> := [];
    assert s.rdBuffPtrs + none == s.rdBuffPtrs && s.dataQ + none == s.dataQ;
  }

  lemma FlightInRange(p: Params, s: State, q: nat)
    requires Safe(p, s) && q in s.flight
    ensures q < p.slots && s.flight[q].tag < p.tags
  {
    assert FlightOk(p, s, q);
  }

  lemma DataNext(p: Params, s: State) returns (s': State)
    requires Safe(p, s) && s.inTx.None? && s.dataQ != []
    ensures Apply(p, s, SendData) == Some(s') && Safe(p, s') && s' == s.(inTx := Some(s.dataQ[0]), dataQ := s.dataQ[1..])
  {
    StepSafe(p, s, SendData);
    s' := Apply(p, s, SendData).value;
  }

  /** The step that sends a completion TLP: the tag at the front of the side queue is that of the TLP. */
  lemma CompletionNext(p: Params, s: State) returns (s': State)
    requires Safe(p, s) && s.inTx.None? && s.compQ != []
    ensures s.doneTags != [] && s.doneTags[0] < |s.tagTable| == |s.hostStatus| == |s.stage| && s.hostSize > 0
    ensures var t := s.doneTags[0];
            && Apply(p, s, SendCompletion) == Some(s') && Safe(p, s') && t == s.compQ[0]
            && s' == s.(compQ := s.compQ[1..], doneTags := s.doneTags[1..], completed := s.completed + [s.compQ[0]],
                        hostStatus := s.hostStatus[t := FREE], tagTable := s.tagTable[t := FREE],
                        hostSize := s.hostSize - 1, stage := s.stage[t := Idle])
  {
    FrontDone(p, s);
    assert s.doneTags[0] in Busy(s.tagTable);
    StepSafe(p, s, SendCompletion);
    s' := Apply(p, s, SendCompletion).value;
  }

  lemma BufferReady(p: Params, s: State)
    requires Safe(p, s) && s.inTx.Some?
    ensures s.rdBuffPtrs != [] && s.rdBuffPtrs[0] < p.buffers && s.inTx == Some(s.rdBuffPtrs[0])
  {
    assert s.rdBuffPtrs[0] in s.rdBuffPtrs;
  }
}
