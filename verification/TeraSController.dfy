/** The DIMM controller with its own data: packed words, `nextAddr` links and status tables. Every
    method does what its process does between two waits, and the ghost field `m` shows which step of
    the pipeline that is. */
module TeraSController {
  import opened Common
  import opened Words
  import opened Geometry
  import opened Codec
  import opened Hops
  import opened CommandQueue
  import opened Pipeline
  import opened PipelineSafety
  import opened BankLists
  import opened Refinement
  import opened ControllerSteps
  import opened TimedQueue
  import opened ControllerFront
  import opened ControllerAccept
  import opened RunningCount
  import opened CompletionDrain

  function EmptyTable(g: Geometry): Table {
    seq(g.ChanNum(), _ => seq(g.CodeWordNum(), _ => BankList(-1, -1)))
  }

  function EmptyChan(g: Geometry): Chan {
    var free := seq(g.CodeWordNum(), _ => BANK_FREE);
    Chan([], [], [], [], [], [], [], free, free)
  }

  /** The same step taken `n` times. */
  function Repeat(p: Params, s: State, e: Event, n: nat): (r: Option<State>)
    requires Sized(p, s)
    ensures r.Some? ==> Sized(p, r.value)
  {
    if n == 0 then Some(s) else
      match Repeat(p, s, e, n - 1)
      case None => None
      case Some(s') => Apply(p, s', e)
  }

  lemma EmptyStands(u: Setup, entries: seq<CmdEntry>)
    requires Sound(u.g)
    ensures var g := u.g;
            Stands(u, Init(P(g)), Data(seq(g.ChanNum(), _ => EmptyChan(g)), entries, EmptyTable(g),
              seq(g.ChanNum(), _ => g.credit), seq(g.ChanNum(), _ => 0), seq(g.numSlot, _ => 0),
              seq(g.numSlot, _ => Entry(0, READ, 0)), [], [], 0))
  {
    InitSafe(P(u.g));
  }

  /** The first `n` reads of the timed queue, all due by now, have left it, and their words stand at the
      end of the long queue in that order; the later ones wait on. */
  ghost predicate ReadsReleased(g: Geometry, before: seq<Chan>, after: seq<Chan>, c: nat, n: nat, now: nat) {
    && c < |before| == |after| && after == before[c := after[c]] && n <= |before[c].mPendingRead|
    && (forall k :: 0 <= k < n ==> before[c].mPendingRead[k].due <= now)
    && after[c] == before[c].(mPendingRead := before[c].mPendingRead[n..],
                              mAlcq := before[c].mAlcq + Recreated(g, before[c].mPendingRead[..n]),
                              mPhyDL1 := after[c].mPhyDL1, mPhyDL2 := after[c].mPhyDL2)
  }

  /** The active words made of pending ones. */
  ghost function Recreated(g: Geometry, timed: seq<Timed>): (r: seq<nat>)
    ensures |r| == |timed|
  {
    seq(|timed|, k requires 0 <= k < |timed| => RecreateActive(g, DecodePending(g, timed[k].word)))
  }

  lemma NoReadYet(g: Geometry, chans: seq<Chan>, c: nat, now: nat)
    requires c < |chans|
    ensures ReadsReleased(g, chans, chans, c, 0, now)
  {
    assert chans[c].mAlcq + Recreated(g, []) == chans[c].mAlcq;
  }

  lemma OneMoreRead(g: Geometry, before: seq<Chan>, so: seq<Chan>, after: seq<Chan>, c: nat, n: nat, now: nat)
    requires ReadsReleased(g, before, so, c, n, now) && |after| == |so|
    requires so[c].mPendingRead != [] && so[c].mPendingRead[0].due <= now && after == so[c := after[c]]
    requires after[c] == so[c].(mPendingRead := so[c].mPendingRead[1..],
                                mAlcq := so[c].mAlcq + [RecreateActive(g, DecodePending(g, so[c].mPendingRead[0].word))],
                                mPhyDL1 := after[c].mPhyDL1, mPhyDL2 := after[c].mPhyDL2)
    ensures ReadsReleased(g, before, after, c, n + 1, now)
  {
    hide RecreateActive, DecodePending;
    var timed := before[c].mPendingRead;
    assert Recreated(g, timed[..n + 1]) == Recreated(g, timed[..n]) + [RecreateActive(g, DecodePending(g, timed[n].word))];
  }

  class TeraSController {
    const g: Geometry
    const mReadTime: nat
    const mProgramTime: nat
    const mCmdQueue: CommandQueueManager
    const mIntermediateQueue: IntermediateCmdQueueManager
    const mCompletionQueue: CompletionQueueManager
    var mBankLinkList: Table
    var chans: seq<Chan>
    var mAvailableCredit: seq<nat>
    var answersDue: seq<nat>
    var mSlotTable: seq<Entry>
    var mSlotNumQueue: seq<nat>
    var now: nat
    ghost var m: State
    ghost var completions: seq<Entry>

    ghost function Setting(): Setup { Setup(g, mReadTime, mProgramTime) }

    /** All of the controller's data as one value. */
    ghost function Snapshot(): Data
      reads this, mCmdQueue, mIntermediateQueue
    {
      Data(chans, mCmdQueue.mCmdQueue, mBankLinkList, mAvailableCredit, answersDue,
           mIntermediateQueue.mCmdQueue, mSlotTable, mSlotNumQueue, completions, now)
    }

    ghost predicate Valid()
      reads this, mCmdQueue, mIntermediateQueue, mCompletionQueue
    {
      && mCmdQueue.g == g && |mCmdQueue.mCmdQueue| == Up(g.numSlot, g.addrShifter)
      && mIntermediateQueue.Valid() && mCompletionQueue.mCompletionQueue == EntryWords(completions)
      && Stands(Setting(), m, Snapshot())
    }

    constructor (g: Geometry, readTime: nat, programTime: nat)
      requires Sound(g)
      ensures Valid() && this.g == g && m == Init(P(g))
      ensures fresh(mCmdQueue) && fresh(mIntermediateQueue) && fresh(mCompletionQueue)
    {
      this.g := g;
      mReadTime, mProgramTime, now := readTime, programTime, 0;
      mCmdQueue := new CommandQueueManager(g);
      mIntermediateQueue := new IntermediateCmdQueueManager(g.numSlot);
      mCompletionQueue := new CompletionQueueManager();
      mBankLinkList := EmptyTable(g);
      chans := seq(g.ChanNum(), _ => EmptyChan(g));
      mAvailableCredit := seq(g.ChanNum(), _ => g.credit);
      answersDue := seq(g.ChanNum(), _ => 0);
      mSlotTable := seq(g.numSlot, _ => Entry(0, READ, 0));
      mSlotNumQueue := [];
      completions := [];
      m := Init(P(g));
      new;
      EmptyStands(Setting(), mCmdQueue.mCmdQueue);
    }

    /** Simulated time only moves forward. */
    method Advance(t: nat)
      requires Valid() && t >= now
      modifies this`now
      ensures Valid() && now == t
    {
      LaterTimely(Setting(), chans, now, t);
      now := t;
    }

    // ---- the host's side -------------------------------------------------------------------

    /** processPCMDQueue: insert, replicate, link. */
    method ProcessPCMDQueue(slotNum: nat, value: nat, delay: nat)
      requires Valid() && HostCmd(g, slotNum, value) && m.phase[slotNum] == Idle
      modifies this, mCmdQueue
      ensures Valid() && now == old(now)
      ensures Apply(P(g), old(m), Accept(slotNum, TypeOf(Bits(value, g.LbaBits() + 9, 2)), Homes(g, value, Bits(value, 0, 9)))) == Some(m)
      ensures Stored(g, old(mCmdQueue.mCmdQueue), mCmdQueue.mCmdQueue, slotNum, value)
    {
      hide Refines, Stands, Apply, Linkable, AllChains, LinkedUpTo, Filled, Replica, Bits, Homes;
      SnapshotSized(Setting(), m, Snapshot());
      ghost var d := Snapshot();
      ghost var subs := CodeWords(g, slotNum, value);
      ghost var m' := AcceptNext(Setting(), m, d, slotNum, value);
      SlotInRange(g, slotNum, Bits(value, 0, 9));
      mCmdQueue.InsertCommand(slotNum, value, delay);
      var ctype := TypeOf(Bits(value, g.LbaBits() + 9, 2));
      var cwCount := Bits(value, 0, 9);
      ghost var inserted := mCmdQueue.mCmdQueue;
      mCmdQueue.ReplicateCommand(slotNum, cwCount);
      ghost var before := mCmdQueue.mCmdQueue;
      IsFilled(g, d.entries, inserted, before, slotNum, value, delay);
      AcceptReady(Setting(), m, d, slotNum, value, before);
      TeraSBankLLMethod(slotNum, value);
      AcceptStands(Setting(), m, d, slotNum, value, before, mCmdQueue.mCmdQueue, mBankLinkList, m');
      WordsStored(g, m, d.entries, before, mCmdQueue.mCmdQueue, mBankLinkList, slotNum, value);
      mSlotTable := mSlotTable[slotNum := Entry(slotNum, ctype, cwCount)];
      m := m';
    }

    /** TeraSBankLLMethod: every code word goes to the tail of its bank's list. */
    method TeraSBankLLMethod(slotNum: nat, ghost value: nat)
      requires Sound(g) && HostCmd(g, slotNum, value) && mCmdQueue.g == g
      requires Linkable(g, m.q, m.loc, CodeWords(g, slotNum, value), |mCmdQueue.mCmdQueue|)
      requires AllChains(g, mCmdQueue.mCmdQueue, mBankLinkList, m.q)
      requires Up(slotNum, g.addrShifter) + Bits(value, 0, 9) <= |mCmdQueue.mCmdQueue|
      requires Bits(mCmdQueue.mCmdQueue[Up(slotNum, g.addrShifter)].cmd, 0, 9) == Bits(value, 0, 9)
      requires forall i :: 0 <= i < Bits(value, 0, 9) ==>
                 mCmdQueue.mCmdQueue[Up(slotNum, g.addrShifter) + i].cmd == Replica(g.LbaBits(), value, i)
      modifies this`mBankLinkList, mCmdQueue`mCmdQueue
      ensures |mCmdQueue.mCmdQueue| == |old(mCmdQueue.mCmdQueue)|
      ensures LinkedUpTo(g, m.q, CodeWords(g, slotNum, value), Bits(value, 0, 9),
                         old(mCmdQueue.mCmdQueue), mCmdQueue.mCmdQueue, mBankLinkList)
    {
      hide AllChains, Linkable, Replica, HostChan, HostBank, Bits;
      ghost var before, subs := mCmdQueue.mCmdQueue, CodeWords(g, slotNum, value);
      var base := Up(slotNum, g.addrShifter);
      var cwCount := Bits(mCmdQueue.mCmdQueue[base].cmd, 0, 9);
      var addr := base;
      assert subs[..0] == [];
      for cmdIndex := 0 to cwCount
        invariant addr == base + cmdIndex && cwCount == |subs|
        invariant LinkedUpTo(g, m.q, subs, cmdIndex, before, mCmdQueue.mCmdQueue, mBankLinkList)
      {
        var cmd := mCmdQueue.mCmdQueue[addr].cmd;
        var chanNum, cwBank := HostChan(g, cmd), HostBank(g, cmd);
        assert cmd == before[base + cmdIndex].cmd;
        CodeWordHome(g, slotNum, value, cmdIndex, cmd);
        LinkTurn(g, m.q, m.loc, subs, cmdIndex, before, mCmdQueue.mCmdQueue, mBankLinkList);
        var list := mBankLinkList[chanNum][cwBank];
        if list.head == -1 {
          mBankLinkList := SetList(mBankLinkList, chanNum, cwBank, BankList(addr, addr));
        } else {
          mCmdQueue.UpdateNextAddress(list.tail, addr);
          mBankLinkList := SetList(mBankLinkList, chanNum, cwBank, BankList(list.head, addr));
        }
        addr := addr + 1;
      }
    }

    /** readCompletionQueue_mode0. */
    method ReadCompletionQueue() returns (dataPtr: seq<nat>)
      requires Valid()
      modifies this, mCompletionQueue
      ensures Valid() && now == old(now) && Apply(P(g), old(m), Poll) == Some(m)
      ensures dataPtr == Payload(EntryWords(old(completions)))
    {
      hide Refines, Stands, Apply, Unpack, CreatePending, DecodePending, WriteMoveBank, ReadDoneBank, PendingWriteBank, PendingReadBank, CreateActive;
      SnapshotSized(Setting(), m, Snapshot());
      ghost var words := mCompletionQueue.mCompletionQueue;
      ghost var m' := PollStands(Setting(), m, Snapshot());
      dataPtr := mCompletionQueue.ReadCompletionQueue(64);
      DropWords(completions, PollSize(|completions|));
      completions := completions[PollSize(|completions|)..];
      m := m';
    }

    // ---- dispatcher ------------------------------------------------------------------------

    /** One turn of cmdDispatcherProcess at bank `b`: the head of the list leaves it when the latch it
        takes first is free. */
    method CmdDispatcher(c: nat, b: nat) returns (taken: bool)
      requires Valid() && c < |chans| && b < g.CodeWordNum() && chans[c].hand == []
      modifies this
      ensures Valid() && now == old(now)
      ensures if taken then Apply(P(g), old(m), Dispatch(c, b)) == Some(m)
              else m == old(m) && Apply(P(g), m, Dispatch(c, b)) == None
      ensures if taken then Handed(old(chans), old(Head(c, b)), chans, c) else chans == old(chans)
    {
      hide Refines, Stands, Apply, Unpack, CreatePending, DecodePending, WriteMoveBank, ReadDoneBank, PendingWriteBank, PendingReadBank, CreateActive;
      SnapshotSized(Setting(), m, Snapshot());
      HeadFound(Setting(), m, Snapshot(), c, b);
      var list := mBankLinkList[c][b];
      if list.head == -1 {
        DispatchBlocked(Setting(), m, Snapshot(), c, b);
        return false;
      }
      var cmd := mCmdQueue.mCmdQueue[list.head].cmd;
      if !LatchFree(g, chans[c], b, cmd) {
        DispatchBlocked(Setting(), m, Snapshot(), c, b);
        return false;
      }
      ghost var m', ch := DispatchStands(Setting(), m, Snapshot(), c, b);
      chans := chans[c := Taken(g, chans[c], b, cmd, list.head)];
      mBankLinkList := SetList(mBankLinkList, c, b, ProcessBankLinkList(list));
      m := m';
      return true;
    }

    /** The entry at the head of a list, -1 if there is none. */
    function Head(c: nat, b: nat): int
      reads this
    {
      if c < |mBankLinkList| && b < |mBankLinkList[c]| then mBankLinkList[c][b].head else -1
    }

    /** Entry `addr` is in the dispatcher's hand, as an active word; the queues stay as they are. */
    ghost predicate Handed(before: seq<Chan>, addr: int, after: seq<Chan>, c: nat)
      reads mCmdQueue
    {
      && 0 <= addr < |mCmdQueue.mCmdQueue| && c < |before| == |after| && after == before[c := after[c]]
      && after[c] == before[c].(hand := [CreateActive(g, mCmdQueue.mCmdQueue[addr].cmd, addr)],
                                mPhyDL1 := after[c].mPhyDL1, mPhyDL2 := after[c].mPhyDL2)
    }

    /** processBankLinkList. */
    function ProcessBankLinkList(list: BankList): BankList
      requires 0 <= list.head < |mCmdQueue.mCmdQueue|
      reads this, mCmdQueue
    {
      Unlinked(mCmdQueue.mCmdQueue, list)
    }

    /** DispatchShortQueue and DispatchLongQueue: the command in hand enters its queue unless that is
        full. */
    method DispatchQueue(c: nat) returns (entered: bool)
      requires Valid() && c < |chans| && chans[c].hand != []
      modifies this
      ensures Valid() && now == old(now)
      ensures if entered then Apply(P(g), old(m), Enqueue(c)) == Some(m)
              else m == old(m) && Apply(P(g), m, Enqueue(c)) == None
      ensures var ch := old(chans[c]);
              var word, write := ch.hand[0], Unpack(g.ActiveBits(), ch.hand[0]).ctype == 1;
              chans == if !entered then old(chans)
                       else if write then old(chans)[c := ch.(hand := [], mAlcq := ch.mAlcq + [word])]
                       else old(chans)[c := ch.(hand := [], mAscq := ch.mAscq + [word])]
    {
      hide Refines, Stands, Apply, Unpack, CreatePending, DecodePending, WriteMoveBank, ReadDoneBank, PendingWriteBank, PendingReadBank, CreateActive;
      SnapshotSized(Setting(), m, Snapshot());
      var ch := chans[c];
      EnqueueFull(Setting(), m, Snapshot(), c);
      var write := Unpack(g.ActiveBits(), ch.hand[0]).ctype == 1;
      if (if write then |ch.mAlcq| else |ch.mAscq|) == g.CodeWordNum() { return false; }
      ghost var m' := EnqueueStands(Setting(), m, Snapshot(), c, write);
      chans := chans[c := Entered(g, ch, write)];
      m := m';
      return true;
    }

    // ---- channel manager -------------------------------------------------------------------

    /** chanManagerProcess: queueArbitration prefers the short queue while credit is left, and the
        front of the chosen queue goes on the bus. */
    method ChanManager(c: nat) returns (e: Option<Event>)
      requires Valid() && c < |chans| && chans[c].busShort == [] && chans[c].busLong == []
      modifies this
      ensures Valid() && now == old(now)
      ensures e == Some(ShortPop(c)) <==> old(mAvailableCredit[c]) > 0 && old(chans[c].mAscq) != []
      ensures e == Some(LongPop(c)) <==> (old(mAvailableCredit[c]) == 0 || old(chans[c].mAscq) == []) && old(chans[c].mAlcq) != []
      ensures match e
              case Some(ev) => Apply(P(g), old(m), ev) == Some(m)
              case None => m == old(m)
      ensures var ch := old(chans[c]);
              chans == if e == Some(ShortPop(c)) then old(chans)[c := ch.(mAscq := ch.mAscq[1..], busShort := [ch.mAscq[0]])]
                       else if e == Some(LongPop(c)) then old(chans)[c := ch.(mAlcq := ch.mAlcq[1..], busLong := [ch.mAlcq[0]])]
                       else old(chans)
    {
      hide Refines;
      SnapshotSized(Setting(), m, Snapshot());
      if mAvailableCredit[c] != 0 && chans[c].mAscq != [] {
        SendShort(c);
        e := Some(ShortPop(c));
      } else if chans[c].mAlcq != [] {
        SendLong(c);
        e := Some(LongPop(c));
      } else {
        e := None;
      }
    }

    /** processShortQueueCmd, up to the bus: a credit is taken and the read command sent. */
    method SendShort(c: nat)
      requires Valid() && c < |chans| && chans[c].busShort == [] && chans[c].busLong == []
      requires mAvailableCredit[c] != 0 && chans[c].mAscq != []
      modifies this
      ensures Valid() && now == old(now) && Apply(P(g), old(m), ShortPop(c)) == Some(m)
      ensures var ch := old(chans[c]);
              chans == old(chans)[c := ch.(mAscq := ch.mAscq[1..], busShort := [ch.mAscq[0]])]
    {
      hide Refines, Stands, Apply, Unpack, CreatePending, DecodePending, WriteMoveBank, ReadDoneBank, PendingWriteBank, PendingReadBank, CreateActive;
      SnapshotSized(Setting(), m, Snapshot());
      var ch := chans[c];
      ghost var m', d' := ShortPopStands(Setting(), m, Snapshot(), c);
      mAvailableCredit := mAvailableCredit[c := mAvailableCredit[c] - 1];
      chans := chans[c := ch.(mAscq := ch.mAscq[1..], busShort := [ch.mAscq[0]])];
      m := m';
      assert Snapshot() == d';
    }

    /** processLongQueueCmd, up to the bus: a write, or the bank select of a finished read, is sent. */
    method SendLong(c: nat)
      requires Valid() && c < |chans| && chans[c].busShort == [] && chans[c].busLong == []
      requires chans[c].mAlcq != []
      modifies this
      ensures Valid() && now == old(now) && Apply(P(g), old(m), LongPop(c)) == Some(m)
      ensures var ch := old(chans[c]);
              chans == old(chans)[c := ch.(mAlcq := ch.mAlcq[1..], busLong := [ch.mAlcq[0]])]
    {
      hide Refines, Stands, Apply, Unpack, CreatePending, DecodePending, WriteMoveBank, ReadDoneBank, PendingWriteBank, PendingReadBank, CreateActive;
      SnapshotSized(Setting(), m, Snapshot());
      var ch := chans[c];
      ghost var m', ch', read := LongPopStands(Setting(), m, Snapshot(), c);
      if Unpack(g.ActiveBits(), ch.mAlcq[0]).ctype != 1 {
        answersDue := answersDue[c := answersDue[c] + 1];
      }
      chans := chans[c := ch.(mAlcq := ch.mAlcq[1..], busLong := [ch.mAlcq[0]])];
      m := m';
    }

    /** processShortQueueCmd, after the bus: the command waits mReadTime for the chip. */
    method ShortSent(c: nat)
      requires Valid() && c < |chans| && chans[c].busShort != []
      modifies this
      ensures Valid() && now == old(now) && Apply(P(g), old(m), ShortDone(c)) == Some(m)
      ensures var ch := old(chans[c]);
              var timed := Timed(now + mReadTime, CreatePending(g, ch.busShort[0]));
              chans == old(chans)[c := ch.(busShort := [], mPendingRead := ch.mPendingRead + [timed])]
    {
      hide Refines, Stands, Apply, Waiting, Unpack, CreatePending, DecodePending, WriteMoveBank, ReadDoneBank, PendingWriteBank, PendingReadBank, CreateActive;
      SnapshotSized(Setting(), m, Snapshot());
      ghost var m' := ShortDoneStands(Setting(), m, Snapshot(), c);
      WaitsLast(Setting(), m, Snapshot(), c);
      chans := chans[c := Waiting(g, chans[c], now + mReadTime)];
      m := m';
    }

    /** processLongQueueCmd, after the bus. A write moves on to DL1 once that is free; a read releases
        DL2 and is counted. */
    method LongSent(c: nat) returns (e: Option<Event>)
      requires Valid() && c < |chans| && chans[c].busLong != []
      modifies this, mIntermediateQueue
      ensures Valid() && now == old(now)
      ensures match e
              case Some(ev) => (ev == WriteMove(c) || ev == ReadDone(c)) && Apply(P(g), old(m), ev) == Some(m)
              case None => m == old(m) && Apply(P(g), m, WriteMove(c)) == None && Apply(P(g), m, ReadDone(c)) == None
      ensures match e
              case Some(WriteMove(_)) => WriteTimed(old(chans), chans, c)
              case Some(_) => BusCleared(old(chans), chans, c)
              case None => chans == old(chans)
    {
      hide Refines, Stands, Apply, Unpack, CreatePending, DecodePending, WriteMoveBank, ReadDoneBank, PendingWriteBank, PendingReadBank, CreateActive;
      SnapshotSized(Setting(), m, Snapshot());
      var ch := chans[c];
      LongFound(Setting(), m, Snapshot(), c);
      if Unpack(g.ActiveBits(), ch.busLong[0]).ctype == 1 {
        if ch.mPhyDL1[WriteMoveBank(g, ch.busLong[0])] == BANK_BUSY {
          WriteStays(Setting(), m, Snapshot(), c);
          return None;
        }
        WriteSent(c);
        e := Some(WriteMove(c));
      } else {
        BankSelected(c);
        e := Some(ReadDone(c));
      }
    }

    /** The write on the bus now waits for the chip, due `mProgramTime` from now, behind all earlier writes. */
    ghost predicate WriteTimed(before: seq<Chan>, after: seq<Chan>, c: nat)
      reads this
    {
      && c < |before| == |after| && before[c].busLong != [] && after == before[c := after[c]]
      && var timed := Timed(now + mProgramTime, CreatePending(g, before[c].busLong[0]));
         after[c] == before[c].(busLong := [], mPendingWrite := before[c].mPendingWrite + [timed],
                                mPhyDL1 := after[c].mPhyDL1, mPhyDL2 := after[c].mPhyDL2)
    }

    /** Only the bus and DL2 of the channel change. */
    ghost predicate BusCleared(before: seq<Chan>, after: seq<Chan>, c: nat) {
      && c < |before| == |after| && after == before[c := after[c]]
      && after[c] == before[c].(busLong := [], mPhyDL2 := after[c].mPhyDL2)
    }

    method WriteSent(c: nat)
      requires Valid() && Movable(Setting(), Snapshot(), c)
      modifies this`chans, this`m
      ensures Valid() && now == old(now) && Apply(P(g), old(m), WriteMove(c)) == Some(m) && WriteTimed(old(chans), chans, c)
    {
      hide Refines, Stands, Apply, Unpack, CreatePending, WriteMoveBank;
      ghost var m', ch' := WriteMoveStands(Setting(), m, Snapshot(), c);
      chans := chans[c := WriteMoveChanged(g, chans[c], now + mProgramTime)];
      m := m';
    }

    method BankSelected(c: nat)
      requires Valid() && c < |chans| && chans[c].busLong != []
      requires Unpack(g.ActiveBits(), chans[c].busLong[0]).ctype != 1
      modifies this, mIntermediateQueue
      ensures Valid() && now == old(now) && Apply(P(g), old(m), ReadDone(c)) == Some(m) && BusCleared(old(chans), chans, c)
    {
      hide Refines, Stands, Apply, Unpack, CreatePending, DecodePending, WriteMoveBank, ReadDoneBank, PendingWriteBank, PendingReadBank, CreateActive;
      SnapshotSized(Setting(), m, Snapshot());
      var ch := chans[c];
      LongFound(Setting(), m, Snapshot(), c);
      ghost var m' := ReadDoneStands(Setting(), m, Snapshot(), c);
      var slotNum := Unpack(g.ActiveBits(), ch.busLong[0]).slot;
      var pendingCmd := CreatePending(g, ch.busLong[0]);
      WordCounts(g, pendingCmd);
      CountFits(mIntermediateQueue.mCmdQueue, slotNum, CountOf(pendingCmd));
      chans := chans[c := ReadDoneChanged(g, ch)];
      var cnt := mIntermediateQueue.Update(pendingCmd, g.PendingBits());
      if cnt == 0 { mSlotNumQueue := mSlotNumQueue + [slotNum]; }
      m := m';
    }

    /** checkRespProcess: an answered bank select gives its credit back. */
    method CheckResp(c: nat)
      requires Valid() && c < |chans| && answersDue[c] > 0
      modifies this
      ensures Valid() && now == old(now) && Apply(P(g), old(m), Answer(c)) == Some(m)
    {
      hide Refines, Stands, Apply, Unpack, CreatePending, DecodePending, WriteMoveBank, ReadDoneBank, PendingWriteBank, PendingReadBank, CreateActive;
      SnapshotSized(Setting(), m, Snapshot());
      ghost var m' := AnswerStands(Setting(), m, Snapshot(), c);
      mAvailableCredit := mAvailableCredit[c := mAvailableCredit[c] + 1];
      answersDue := answersDue[c := answersDue[c] - 1];
      m := m';
    }

    // ---- timed queues ----------------------------------------------------------------------

    /** pendingReadCmdProcess: all finished reads enter the long queue, until it is full. */
    method PendingReadCmdProcess(c: nat) returns (ghost n: nat)
      requires Valid() && c < |chans|
      modifies this
      ensures Valid() && now == old(now) && ReadsReleased(g, old(chans), chans, c, n, now)
      ensures Repeat(P(g), old(m), ReadReady(c), n) == Some(m)
      ensures chans[c].mPendingRead == [] || chans[c].mPendingRead[0].due > now || |chans[c].mAlcq| == g.CodeWordNum()
    {
      hide Refines, Stands, Apply, ReadsReleased, Unpack, CreatePending, DecodePending, RecreateActive, WriteMoveBank, ReadDoneBank, PendingWriteBank, PendingReadBank, CreateActive;
      SnapshotSized(Setting(), m, Snapshot());
      n := 0;
      NoReadYet(g, chans, c, now);
      while chans[c].mPendingRead != [] && chans[c].mPendingRead[0].due <= now
        invariant Valid() && now == old(now) && |chans| == |old(chans)| && ReadsReleased(g, old(chans), chans, c, n, now)
        invariant Repeat(P(g), old(m), ReadReady(c), n) == Some(m)
        decreases |chans[c].mPendingRead|
      {
        ReadFound(Setting(), m, Snapshot(), c);
        if |chans[c].mAlcq| == g.CodeWordNum() { break; }
        ghost var so := chans;
        Ready(c);
        OneMoreRead(g, old(chans), so, chans, c, n, now);
        n := n + 1;
      }
    }

    method Ready(c: nat)
      requires Valid() && c < |chans| && |chans[c].mAlcq| < g.CodeWordNum()
      requires chans[c].mPendingRead != [] && chans[c].mPendingRead[0].due <= now
      modifies this
      ensures Valid() && now == old(now) && |chans| == |old(chans)| && Apply(P(g), old(m), ReadReady(c)) == Some(m)
      ensures var ch := old(chans[c]);
              && chans == old(chans)[c := chans[c]]
              && chans[c] == ch.(mPendingRead := ch.mPendingRead[1..],
                                 mAlcq := ch.mAlcq + [RecreateActive(g, DecodePending(g, ch.mPendingRead[0].word))],
                                 mPhyDL1 := chans[c].mPhyDL1, mPhyDL2 := chans[c].mPhyDL2)
    {
      hide Refines, Stands, Apply, Unpack, CreatePending, DecodePending, RecreateActive, WriteMoveBank, ReadDoneBank, PendingWriteBank, PendingReadBank, CreateActive;
      ghost var m', ch' := ReadReadyStands(Setting(), m, Snapshot(), c);
      chans := chans[c := ReadReadyChanged(g, chans[c])];
      m := m';
    }

    /** pendingWriteCmdProcess: all programmed writes release their DL1 and are counted. */
    method PendingWriteCmdProcess(c: nat) returns (ghost n: nat)
      requires Valid() && c < |chans|
      modifies this, mIntermediateQueue, mCompletionQueue
      ensures Valid() && now == old(now) && WritesReleased(old(chans), chans, c, n)
      ensures Repeat(P(g), old(m), WriteDone(c), n) == Some(m)
      ensures chans[c].mPendingWrite == [] || chans[c].mPendingWrite[0].due > now
    {
      hide Refines, Stands, Apply, Unpack, CreatePending, DecodePending, WriteMoveBank, ReadDoneBank, PendingWriteBank, PendingReadBank, CreateActive;
      SnapshotSized(Setting(), m, Snapshot());
      n := 0;
      while chans[c].mPendingWrite != [] && chans[c].mPendingWrite[0].due <= now
        invariant Valid() && now == old(now) && |chans| == |old(chans)| && WritesReleased(old(chans), chans, c, n)
        invariant Repeat(P(g), old(m), WriteDone(c), n) == Some(m)
        decreases |chans[c].mPendingWrite|
      {
        Programmed(c);
        n := n + 1;
      }
    }

    /** The first `n` writes of the timed queue, all due by now, have left it; the later ones wait on. */
    ghost predicate WritesReleased(before: seq<Chan>, after: seq<Chan>, c: nat, n: nat)
      reads this
    {
      && c < |before| == |after| && after == before[c := after[c]] && n <= |before[c].mPendingWrite|
      && (forall k :: 0 <= k < n ==> before[c].mPendingWrite[k].due <= now)
      && after[c] == before[c].(mPendingWrite := before[c].mPendingWrite[n..], mPhyDL1 := after[c].mPhyDL1)
    }

    method Programmed(c: nat)
      requires Valid() && c < |chans| && chans[c].mPendingWrite != [] && chans[c].mPendingWrite[0].due <= now
      modifies this, mIntermediateQueue, mCompletionQueue
      ensures Valid() && now == old(now) && |chans| == |old(chans)| && Apply(P(g), old(m), WriteDone(c)) == Some(m)
      ensures chans == old(chans)[c := chans[c]]
      ensures chans[c] == old(chans[c]).(mPendingWrite := old(chans[c]).mPendingWrite[1..], mPhyDL1 := chans[c].mPhyDL1)
    {
      hide Refines, Stands, Apply, Front, Unpack, CreatePending, SetStatus, EntryWords, WriteMoveBank, ReadDoneBank, PendingWriteBank, PendingReadBank, CreateActive;
      SnapshotSized(Setting(), m, Snapshot());
      var cmd := chans[c].mPendingWrite[0].word;
      WriteFound(Setting(), m, Snapshot(), c);
      ghost var d := Snapshot();
      ghost var m' := WriteDoneStands(Setting(), m, d, c);
      var slotNum := DecodePending(g, cmd).slot;
      WordCounts(g, cmd);
      CountFits(mIntermediateQueue.mCmdQueue, slotNum, CountOf(cmd));
      chans := chans[c := WriteDoneChanged(g, chans[c])];
      var cnt := mIntermediateQueue.Update(cmd, g.PendingBits());
      if cnt == 0 { PushCompletion(slotNum); }
      m := m';
      assert Snapshot() == Tallied(d.(chans := chans), slotNum, CountOf(cmd), true);
    }

    /** The completion of a slot, from the slot table. */
    method PushCompletion(slotNum: nat)
      requires slotNum < |mSlotTable| && mCompletionQueue.mCompletionQueue == EntryWords(completions)
      modifies this`completions, mCompletionQueue
      ensures completions == old(completions) + [Entry(slotNum, mSlotTable[slotNum].ctype, mSlotTable[slotNum].cwCnt)]
      ensures mCompletionQueue.mCompletionQueue == EntryWords(completions)
    {
      var entry := mSlotTable[slotNum];
      mCompletionQueue.PushCommand(CompletionEntry(if entry.ctype == WRITE then 1 else 0, slotNum, entry.cwCnt));
      ghost var pushed := Entry(slotNum, entry.ctype, entry.cwCnt);
      assert (completions + [pushed])[..|completions|] == completions;
      completions := completions + [pushed];
    }

    /** completionMethod. */
    method CompletionMethod()
      requires Valid() && mSlotNumQueue != []
      modifies this, mCompletionQueue
      ensures Valid() && now == old(now) && Apply(P(g), old(m), Complete) == Some(m)
    {
      hide Refines, Stands, Apply, Unpack, CreatePending, DecodePending, WriteMoveBank, ReadDoneBank, PendingWriteBank, PendingReadBank, CreateActive;
      SnapshotSized(Setting(), m, Snapshot());
      ghost var m' := CompleteStands(Setting(), m, Snapshot());
      var slotNum := mSlotNumQueue[0];
      mSlotNumQueue := mSlotNumQueue[1..];
      PushCompletion(slotNum);
      m := m';
    }
  }

  // ---- facts the methods use ---------------------------------------------------------------

  lemma SnapshotSized(u: Setup, m: State, d: Data)
    requires Stands(u, m, d)
    ensures |d.chans| == |d.table| == |d.credit| == |d.due| == u.g.ChanNum()
    ensures |d.cnt| == |d.slots| == u.g.numSlot
    ensures Sound(u.g) && Sized(P(u.g), m)
  {}

  lemma LaterTimely(u: Setup, chans: seq<Chan>, now: nat, later: nat)
    requires Timely(u, chans, now) && now <= later
    ensures Timely(u, chans, later)
  {
    forall c | 0 <= c < |chans|
      ensures InTime(chans[c].mPendingRead, later + u.readTime) && InTime(chans[c].mPendingWrite, later + u.programTime)
    {
      assert InTime(chans[c].mPendingRead, now + u.readTime) && InTime(chans[c].mPendingWrite, now + u.programTime);
    }
  }

  lemma SlotInRange(g: Geometry, slot: nat, n: nat)
    requires slot < g.numSlot && 1 <= n <= Pow2(g.addrShifter)
    ensures Up(slot, g.addrShifter) < Up(g.numSlot, g.addrShifter)
    ensures Up(slot, g.addrShifter) + n <= Up(g.numSlot, g.addrShifter)
  {
    AddrInRange(g, Sub(slot, n - 1, READ, n, 0, 0));
  }

  /** What insertCommand and replicateCommand leave behind. */
  lemma IsFilled(g: Geometry, entries: seq<CmdEntry>, inserted: seq<CmdEntry>, before: seq<CmdEntry>, slot: nat, word: nat, delay: nat)
    requires g.LbaBits() <= 22 && Bits(word, 0, 9) >= 1 && |before| == |inserted|
    requires Up(slot, g.addrShifter) + Bits(word, 0, 9) <= |entries|
    requires inserted == entries[Up(slot, g.addrShifter) := CmdEntry(word, -1, delay)]
    requires var base, n := Up(slot, g.addrShifter), Bits(word, 0, 9);
             var first := inserted[base];
             && (forall k :: 0 <= k < |before| && !(base < k < base + n) ==> before[k] == inserted[k])
             && (forall i :: 0 < i < n ==> before[base + i] == CmdEntry(Replica(g.LbaBits(), first.cmd, i), -1, first.time))
    ensures Filled(g, entries, before, slot, word, Bits(word, 0, 9))
  {
    assert before[Up(slot, g.addrShifter)].cmd == Replica(g.LbaBits(), word, 0);
  }

  /** The slot's entries hold the replicas of the host's word, and every other entry its old word. */
  ghost predicate Stored(g: Geometry, before: seq<CmdEntry>, after: seq<CmdEntry>, slot: nat, word: nat)
    requires g.LbaBits() <= 22
  {
    var base, n := Up(slot, g.addrShifter), Bits(word, 0, 9);
    && |after| == |before| && base + n <= |before|
    && (forall i :: 0 <= i < n ==> after[base + i].cmd == Replica(g.LbaBits(), word, i))
    && (forall k :: 0 <= k < |before| && !(base <= k < base + n) ==> after[k].cmd == before[k].cmd)
  }

  lemma WordsStored(g: Geometry, m: State, entries: seq<CmdEntry>, before: seq<CmdEntry>, after: seq<CmdEntry>, table: Table, slot: nat, word: nat)
    requires Sound(g) && HostCmd(g, slot, word) && Filled(g, entries, before, slot, word, Bits(word, 0, 9))
    requires LinkedUpTo(g, m.q, CodeWords(g, slot, word), Bits(word, 0, 9), before, after, table)
    ensures Stored(g, entries, after, slot, word)
  {
    hide AllChains, CodeWords, Bits, Replica, HostCmd;
    var base, n := Up(slot, g.addrShifter), Bits(word, 0, 9);
    forall i | 0 <= i < n ensures after[base + i].cmd == Replica(g.LbaBits(), word, i) {
      assert after[base + i].cmd == before[base + i].cmd;
    }
  }

  lemma CodeWordHome(g: Geometry, slot: nat, word: nat, i: nat, cmd: nat)
    requires Sound(g) && i < Bits(word, 0, 9) && cmd == Replica(g.LbaBits(), word, i)
    ensures var x := CodeWords(g, slot, word)[i];
            HostChan(g, cmd) == x.chan && HostBank(g, cmd) == x.bank && Addr(g, x) == Up(slot, g.addrShifter) + i
  {}

  lemma AcceptNext(u: Setup, m: State, d: Data, slot: nat, word: nat) returns (m': State)
    requires Stands(u, m, d) && HostCmd(u.g, slot, word) && m.phase[slot] == Idle
    ensures var e := Accept(slot, TypeOf(Bits(word, u.g.LbaBits() + 9, 2)), Homes(u.g, word, Bits(word, 0, 9)));
            Apply(P(u.g), m, e) == Some(m')
  {
    HomesInRange(u.g, word, Bits(word, 0, 9));
    var e := Accept(slot, TypeOf(Bits(word, u.g.LbaBits() + 9, 2)), Homes(u.g, word, Bits(word, 0, 9)));
    assert Apply(P(u.g), m, e).Some?;
    m' := Apply(P(u.g), m, e).value;
  }

  /** After replication the lists are untouched and the new code words may be linked. */
  lemma AcceptReady(u: Setup, m: State, d: Data, slot: nat, word: nat, before: seq<CmdEntry>)
    requires Stands(u, m, d) && HostCmd(u.g, slot, word) && m.phase[slot] == Idle
    requires |d.entries| == Up(u.g.numSlot, u.g.addrShifter)
    requires Filled(u.g, d.entries, before, slot, word, Bits(word, 0, 9))
    ensures AllChains(u.g, before, d.table, m.q)
    ensures Linkable(u.g, m.q, m.loc, CodeWords(u.g, slot, word), |before|)
    ensures Bits(before[Up(slot, u.g.addrShifter)].cmd, 0, 9) == Bits(word, 0, 9)
  {
    hide Apply, Bits, Homes, ChanOk, Lists, Small, Linkable;
    var m' := AcceptNext(u, m, d, slot, word);
    var e := Accept(slot, TypeOf(Bits(word, u.g.LbaBits() + 9, 2)), Homes(u.g, word, Bits(word, 0, 9)));
    forall x | x in m.loc ensures x.slot != slot { assert Belongs(m, x); }
    FillKeeps(u.g, m, d.entries, before, d.table, slot, word, Bits(word, 0, 9));
    AcceptLinkable(u.g, m, e, |before|);
    assert before[Up(slot, u.g.addrShifter) + 0].cmd == Replica(u.g.LbaBits(), word, 0);
  }

  lemma WriteStays(u: Setup, m: State, d: Data, c: nat)
    requires Stands(u, m, d) && c < |d.chans| && d.chans[c].busLong != []
    requires Unpack(u.g.ActiveBits(), d.chans[c].busLong[0]).ctype == 1
    requires WriteMoveBank(u.g, d.chans[c].busLong[0]) < |d.chans[c].mPhyDL1|
    requires d.chans[c].mPhyDL1[WriteMoveBank(u.g, d.chans[c].busLong[0])] == BANK_BUSY
    ensures Apply(P(u.g), m, WriteMove(c)) == None && Apply(P(u.g), m, ReadDone(c)) == None
  {
    LongFound(u, m, d, c);
  }

  /** The count manager reads slot and count where the decoder does. */
  lemma WordCounts(g: Geometry, word: nat)
    ensures SlotOf(g.PendingBits(), word) == Unpack(g.PendingBits(), word).slot
    ensures CountOf(word) == Unpack(g.PendingBits(), word).cwCnt < 512
  {
    BitsBound(word, 0, 9);
    Sizes();
  }

  /** The 16-bit running count does not wrap. */
  lemma CountFits(counts: seq<nat>, slot: nat, cwCnt: nat)
    requires slot < |counts| && counts[slot] < 0x1_0000 && cwCnt < 512 && Update(counts[slot], cwCnt) >= 0
    ensures (if counts[slot] == 0 then cwCnt - 1 else counts[slot] - 1) % 0x1_0000 == Update(counts[slot], cwCnt)
  {}
}
