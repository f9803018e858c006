/** How the controller's packed words, links and status tables stand for a pipeline state. */
module Refinement {
  import opened Common
  import opened Words
  import opened Geometry
  import opened Codec
  import opened Hops
  import opened Places
  import opened Pipeline
  import opened PipelineSafety
  import opened BankLists
  import opened TimedQueue

  datatype CwBankStatus = BANK_FREE | BANK_BUSY

  /** The state of one channel: the dispatcher's command in hand, the queues, the bus, the timed
      queues and the data-latch status of every bank. */
  datatype Chan = Chan(
    hand: seq<nat>, mAscq: seq<nat>, busShort: seq<nat>, mPendingRead: seq<Timed>,
    mAlcq: seq<nat>, busLong: seq<nat>, mPendingWrite: seq<Timed>,
    mPhyDL1: seq<CwBankStatus>, mPhyDL2: seq<CwBankStatus>)

  function P(g: Geometry): Params { Params(g.ChanNum(), g.CodeWordNum(), g.numSlot, g.credit) }

  function TypeOf(ctype: nat): CmdType { if ctype == 1 then WRITE else READ }

  /** The sub-command a key stands for on channel `c`. */
  predicate Is(g: Geometry, c: nat, key: Fields, x: Sub)
    requires g.numDie >= 1
  {
    key.ctype < 2 && x == Sub(key.slot, key.queue, TypeOf(key.ctype), key.cwCnt, c, BankOf(g, key.lba))
  }

  ghost predicate ActiveAll(g: Geometry, c: nat, words: seq<nat>, subs: seq<Sub>)
    requires g.numDie >= 1
  {
    |words| == |subs| && forall k :: 0 <= k < |words| ==> Is(g, c, ActiveKey(g, words[k]), subs[k])
  }

  ghost predicate PendingAll(g: Geometry, c: nat, timed: seq<Timed>, subs: seq<Sub>)
    requires g.numDie >= 1
  {
    |timed| == |subs| &&
    forall k :: 0 <= k < |timed| ==> timed[k].word != 0 && Is(g, c, DecodePending(g, timed[k].word), subs[k])
  }

  /** The host word of a listed sub-command. */
  predicate HostIs(g: Geometry, word: nat, x: Sub)
    requires g.numDie >= 1
  {
    HostChan(g, word) == x.chan && Is(g, x.chan, HostKey(g, word, Addr(g, x)), x)
  }

  ghost predicate ListWords(g: Geometry, entries: seq<CmdEntry>, subs: seq<Sub>)
    requires g.numDie >= 1
  {
    forall k :: 0 <= k < |subs| ==> Addr(g, subs[k]) < |entries| && HostIs(g, entries[Addr(g, subs[k])].cmd, subs[k])
  }

  /** The shared entry array represents all bank lists, links and words. */
  ghost predicate Lists(g: Geometry, entries: seq<CmdEntry>, table: Table, q: map<Place, seq<Sub>>)
    requires g.numDie >= 1
  {
    && AllChains(g, entries, table, q)
    && forall c, b :: 0 <= c < g.ChanNum() && 0 <= b < g.CodeWordNum() ==> ListWords(g, entries, At(q, Listed(c, b)))
  }

  ghost predicate StatusIs(status: seq<CwBankStatus>, c: nat, banks: nat, busy: set<(nat, nat)>) {
    |status| == banks && forall b :: 0 <= b < banks ==> (status[b] == BANK_BUSY <==> (c, b) in busy)
  }

  ghost predicate ChanOk(g: Geometry, m: State, c: nat, ch: Chan)
    requires g.numDie >= 1
  {
    && ActiveAll(g, c, ch.hand, m.At(Hand(c)))
    && ActiveAll(g, c, ch.mAscq, m.At(Short(c)))
    && ActiveAll(g, c, ch.busShort, m.At(BusShort(c)))
    && PendingAll(g, c, ch.mPendingRead, m.At(PendRead(c)))
    && ActiveAll(g, c, ch.mAlcq, m.At(Long(c)))
    && ActiveAll(g, c, ch.busLong, m.At(BusLong(c)))
    && PendingAll(g, c, ch.mPendingWrite, m.At(PendWrite(c)))
    && StatusIs(ch.mPhyDL1, c, g.CodeWordNum(), m.dl1.Keys)
    && StatusIs(ch.mPhyDL2, c, g.CodeWordNum(), m.dl2.Keys)
  }

  ghost predicate ChansOk(g: Geometry, m: State, chans: seq<Chan>)
    requires g.numDie >= 1
  {
    |chans| == g.ChanNum() && forall c :: 0 <= c < |chans| ==> ChanOk(g, m, c, chans[c])
  }

  // ---- the words along the way -------------------------------------------------------------

  /** What the controller relies on: constructor widths, one bank index for all processes, and an
      LBA that replicateCommand can handle. */
  predicate Sound(g: Geometry) { g.Valid() && g.dieBits >= 1 && g.numDie <= 2 && g.LbaBits() <= 22 }

  lemma Dispatched(g: Geometry, word: nat, x: Sub)
    requires Sound(g) && HostIs(g, word, x)
    ensures Is(g, x.chan, ActiveKey(g, CreateActive(g, word, Addr(g, x))), x)
  {
    HostToActive(g, word, Addr(g, x));
  }

  lemma Sent(g: Geometry, c: nat, word: nat, x: Sub)
    requires Sound(g) && Is(g, c, ActiveKey(g, word), x) && x.cwCnt >= 1
    ensures CreatePending(g, word) != 0 && Is(g, c, DecodePending(g, CreatePending(g, word)), x)
    ensures Unpack(g.PendingBits(), CreatePending(g, word)).slot == x.slot
    ensures Unpack(g.PendingBits(), CreatePending(g, word)).cwCnt == x.cwCnt
  {
    ActiveToPending(g, word);
  }

  lemma Returned(g: Geometry, c: nat, word: nat, x: Sub)
    requires Sound(g) && Is(g, c, DecodePending(g, word), x)
    ensures Is(g, c, ActiveKey(g, RecreateActive(g, DecodePending(g, word))), x)
  {
    DecodeFits(g, word);
    PendingToActive(g, DecodePending(g, word));
  }

  lemma DecodeFits(g: Geometry, word: nat)
    requires g.Widths()
    ensures DecodePending(g, word).Fit(g.PendingBits())
  {
    UnpackFits(g.PendingBits(), word);
    Pow2Monotone(g.PendingBits(), 8);
    Sizes();
  }

  lemma ActiveReads(g: Geometry, c: nat, word: nat, x: Sub)
    requires Sound(g) && Is(g, c, ActiveKey(g, word), x)
    ensures WriteMoveBank(g, word) == ReadDoneBank(g, word) == x.bank
    ensures QueueAddress(g, word) == Addr(g, x)
    ensures Unpack(g.ActiveBits(), word).ctype == 1 <==> x.ctype == WRITE
    ensures Unpack(g.ActiveBits(), word).slot == x.slot
  {
    Agree(g);
    ActiveBanks(g, word);
    AddressOfKey(g, word);
  }

  lemma PendingReadsBack(g: Geometry, c: nat, word: nat, x: Sub)
    requires Sound(g) && Is(g, c, DecodePending(g, word), x)
    ensures PendingReadBank(g, word) == PendingWriteBank(g, word) == x.bank
    ensures Unpack(g.PendingBits(), word).slot == x.slot && Unpack(g.PendingBits(), word).cwCnt == x.cwCnt
    ensures DecodePending(g, word).ctype == 1 <==> x.ctype == WRITE
  {
    Agree(g);
    PendingBanks(g, word);
  }

  // ---- what a step on one channel leaves alone ---------------------------------------------

  predicate OnChannel(e: Event) { !e.Accept? && !e.Complete? && !e.Poll? }

  lemma OtherChan(g: Geometry, m: State, e: Event, m': State, c: nat, ch: Chan)
    requires g.numDie >= 1 && ChanOk(g, m, c, ch)
    requires Shaped(m, e, m') && LatchesSet(m, e, m')
    requires OnChannel(e) ==> e.chan != c
    ensures ChanOk(g, m', c, ch)
  {
    OtherPlaces(m, e, m', c);
    OtherLatches(m, e, m', c);
    hide Is, DecodePending, ActiveKey, Shaped, LatchesSet;
  }

  lemma OtherPlaces(m: State, e: Event, m': State, c: nat)
    requires Shaped(m, e, m') && (OnChannel(e) ==> e.chan != c)
    ensures forall at: Place :: !at.Listed? && at.chan == c ==> m'.At(at) == m.At(at)
  {
    forall at: Place | !at.Listed? && at.chan == c ensures m'.At(at) == m.At(at) {
      StepAfter(m, e, m', at);
    }
  }

  lemma OtherLatches(m: State, e: Event, m': State, c: nat)
    requires LatchesSet(m, e, m') && (OnChannel(e) ==> e.chan != c)
    ensures forall b :: (c, b) in m'.dl1 <==> (c, b) in m.dl1
    ensures forall b :: (c, b) in m'.dl2 <==> (c, b) in m.dl2
  {}

  /** Once the channel at work is shown to be right again, all are. */
  lemma OtherChans(g: Geometry, m: State, e: Event, m': State, chans: seq<Chan>, chans': seq<Chan>)
    requires Sound(g) && Safe(P(g), m) && Apply(P(g), m, e) == Some(m') && ChansOk(g, m, chans)
    requires |chans'| == |chans|
    requires forall c :: 0 <= c < |chans| && (OnChannel(e) ==> c != e.chan) ==> chans'[c] == chans[c]
    requires OnChannel(e) && e.chan < |chans| ==> ChanOk(g, m', e.chan, chans'[e.chan])
    ensures ChansOk(g, m', chans')
  {
    StepShape(P(g), m, e);
    StepLatches(P(g), m, e);
    forall c | 0 <= c < |chans| ensures ChanOk(g, m', c, chans'[c]) {
      assert ChanOk(g, m, c, chans[c]);
      if OnChannel(e) && c == e.chan { } else { OtherChan(g, m, e, m', c, chans[c]); }
    }
  }

  lemma ListedKept(s: State, e: Event, s': State, at: Place)
    requires Shaped(s, e, s') && at.Listed? && !e.Accept? && !e.Dispatch?
    ensures s'.At(at) == s.At(at)
  {}

  lemma ListsKept(g: Geometry, m: State, e: Event, m': State, entries: seq<CmdEntry>, table: Table)
    requires g.numDie >= 1 && Lists(g, entries, table, m.q)
    requires Shaped(m, e, m') && !e.Accept? && !e.Dispatch?
    ensures Lists(g, entries, table, m'.q)
  {
    forall c, b | 0 <= c < g.ChanNum() && 0 <= b < g.CodeWordNum()
      ensures At(m'.q, Listed(c, b)) == At(m.q, Listed(c, b))
    {
      ListedKept(m, e, m', Listed(c, b));
    }
  }

  lemma {:induction false} UpInjective(g: Geometry, x: Sub, y: Sub)
    requires x.idx < Pow2(g.addrShifter) && y.idx < Pow2(g.addrShifter) && Addr(g, x) == Addr(g, y)
    ensures x.slot == y.slot && x.idx == y.idx
  {
    CatSplit(x.slot, g.addrShifter, x.idx, 0);
    CatSplit(y.slot, g.addrShifter, y.idx, 0);
  }

  /** Commands fit in their slot's share of the entries. */
  ghost predicate Small(g: Geometry, loc: map<Sub, Place>) {
    forall x :: x in loc ==> x.slot < g.numSlot && x.idx < Pow2(g.addrShifter)
  }

  lemma LiveApart(g: Geometry, m: State)
    requires Sized(P(g), m) && Counted(P(g), m) && Small(g, m.loc)
    ensures Apart(g, m.loc)
  {
    forall x, y | x in m.loc && y in m.loc && Addr(g, x) == Addr(g, y) ensures x == y {
      UpInjective(g, x, y);
    }
  }

  lemma AddrInRange(g: Geometry, x: Sub)
    requires x.slot < g.numSlot && x.idx < Pow2(g.addrShifter)
    ensures Addr(g, x) < Up(g.numSlot, g.addrShifter)
  {
    UpPlus(x.slot, 1, g.addrShifter);
    UpIsProduct(1, g.addrShifter);
    UpIsProduct(x.slot + 1, g.addrShifter);
    UpIsProduct(g.numSlot, g.addrShifter);
    MulMonotone(x.slot + 1, g.numSlot, Pow2(g.addrShifter));
  }

  /** A step on one channel, the bank lists untouched: everything else follows from the channel. */
  lemma ChannelStep(g: Geometry, m: State, e: Event, m': State, chans: seq<Chan>, chans': seq<Chan>,
                    entries: seq<CmdEntry>, table: Table)
    requires Sound(g) && Safe(P(g), m) && Apply(P(g), m, e) == Some(m')
    requires ChansOk(g, m, chans) && Lists(g, entries, table, m.q) && Small(g, m.loc)
    requires !e.Accept? && !e.Dispatch? && |chans'| == |chans|
    requires forall c :: 0 <= c < |chans| && (OnChannel(e) ==> c != e.chan) ==> chans'[c] == chans[c]
    requires OnChannel(e) && e.chan < |chans| ==> ChanOk(g, m', e.chan, chans'[e.chan])
    ensures Safe(P(g), m') && ChansOk(g, m', chans') && Lists(g, entries, table, m'.q) && Small(g, m'.loc)
  {
    StepSafe(P(g), m, e);
    OtherChans(g, m, e, m', chans, chans');
    StepShape(P(g), m, e);
    ListsKept(g, m, e, m', entries, table);
    SmallKept(g, m, e, m');
  }

  lemma SmallKept(g: Geometry, m: State, e: Event, m': State)
    requires Conserved(P(g), m) && Small(g, m.loc) && Shaped(m, e, m') && !e.Accept?
    ensures Small(g, m'.loc)
  {
    if ShapeOf(m, e).Moved? { FrontFits(P(g), m, ShapeOf(m, e).from); }
  }

  /** Places of the channel at work after the step. */
  lemma Now(m: State, e: Event, m': State, c: nat)
    requires Shaped(m, e, m')
    ensures m'.At(Hand(c)) == After(m, e, Hand(c)) && m'.At(Short(c)) == After(m, e, Short(c))
    ensures m'.At(BusShort(c)) == After(m, e, BusShort(c)) && m'.At(PendRead(c)) == After(m, e, PendRead(c))
    ensures m'.At(Long(c)) == After(m, e, Long(c)) && m'.At(BusLong(c)) == After(m, e, BusLong(c))
    ensures m'.At(PendWrite(c)) == After(m, e, PendWrite(c))
  {
    StepAfter(m, e, m', Hand(c));
    StepAfter(m, e, m', Short(c));
    StepAfter(m, e, m', BusShort(c));
    StepAfter(m, e, m', PendRead(c));
    StepAfter(m, e, m', Long(c));
    StepAfter(m, e, m', BusLong(c));
    StepAfter(m, e, m', PendWrite(c));
  }

  // ---- the channel at work, step by step ---------------------------------------------------

  ghost predicate At1(g: Geometry, m: State, c: nat, ch: Chan) {
    Sound(g) && Safe(P(g), m) && c < g.ChanNum() && ChanOk(g, m, c, ch)
  }

  /** What a step does, as far as channel `c` sees it. */
  predicate Effect(m: State, e: Event, m': State, c: nat) {
    && Shaped(m, e, m') && LatchesSet(m, e, m')
    && m'.At(Hand(c)) == After(m, e, Hand(c)) && m'.At(Short(c)) == After(m, e, Short(c))
    && m'.At(BusShort(c)) == After(m, e, BusShort(c)) && m'.At(PendRead(c)) == After(m, e, PendRead(c))
    && m'.At(Long(c)) == After(m, e, Long(c)) && m'.At(BusLong(c)) == After(m, e, BusLong(c))
    && m'.At(PendWrite(c)) == After(m, e, PendWrite(c))
  }

  lemma Stepped(g: Geometry, m: State, e: Event, m': State, c: nat)
    requires Sound(g) && Safe(P(g), m) && Apply(P(g), m, e) == Some(m')
    ensures Effect(m, e, m', c)
  {
    StepShape(P(g), m, e);
    StepLatches(P(g), m, e);
    Now(m, e, m', c);
  }

  function SetStatus(status: seq<CwBankStatus>, b: nat, v: CwBankStatus): seq<CwBankStatus> {
    if b < |status| then status[b := v] else status
  }

  lemma StatusSet(status: seq<CwBankStatus>, c: nat, banks: nat, busy: set<(nat, nat)>, busy': set<(nat, nat)>, b: nat, v: CwBankStatus)
    requires StatusIs(status, c, banks, busy) && b < banks
    requires busy' == if v == BANK_BUSY then busy + {(c, b)} else busy - {(c, b)}
    ensures StatusIs(SetStatus(status, b, v), c, banks, busy')
  {}

  lemma FrontCounted(g: Geometry, m: State, at: Place)
    requires Safe(P(g), m) && m.At(at) != []
    ensures m.At(at)[0] in m.loc && Fits(P(g), at, m.At(at)[0]) && m.At(at)[0].cwCnt >= 1
    ensures m.At(at)[0].slot < g.numSlot && Belongs(m, m.At(at)[0])
    ensures Update(m.cnt[m.At(at)[0].slot], m.At(at)[0].cwCnt) >= 0
  {
    FrontFits(P(g), m, at);
    CountDown(P(g), m, m.At(at)[0]);
  }

  // queueArbitration and the two queues

  lemma ShortPopChan(g: Geometry, m: State, c: nat, ch: Chan, m': State)
    requires Sound(g) && ChanOk(g, m, c, ch) && ch.mAscq != [] && ch.busShort == [] && Effect(m, ShortPop(c), m', c)
    ensures ChanOk(g, m', c, ch.(mAscq := ch.mAscq[1..], busShort := [ch.mAscq[0]]))
  {
    hide Is, Unpack, DecodePending, CreatePending, RecreateActive, ActiveKey, WriteMoveBank, ReadDoneBank, PendingReadBank, PendingWriteBank;
  }

  lemma LongPopChan(g: Geometry, m: State, c: nat, ch: Chan, m': State)
    requires Sound(g) && ChanOk(g, m, c, ch) && ch.mAlcq != [] && ch.busLong == [] && Effect(m, LongPop(c), m', c)
    ensures ChanOk(g, m', c, ch.(mAlcq := ch.mAlcq[1..], busLong := [ch.mAlcq[0]]))
  {
    hide Is, Unpack, DecodePending, CreatePending, RecreateActive, ActiveKey, WriteMoveBank, ReadDoneBank, PendingReadBank, PendingWriteBank;
  }

  lemma EnqueueChan(g: Geometry, m: State, c: nat, ch: Chan, m': State)
    requires Sound(g) && ChanOk(g, m, c, ch) && |ch.hand| == 1 && Effect(m, Enqueue(c), m', c)
    ensures m.At(Hand(c))[0].ctype == READ ==> ChanOk(g, m', c, ch.(hand := [], mAscq := ch.mAscq + [ch.hand[0]]))
    ensures m.At(Hand(c))[0].ctype == WRITE ==> ChanOk(g, m', c, ch.(hand := [], mAlcq := ch.mAlcq + [ch.hand[0]]))
  {
    hide Is, Unpack, DecodePending, CreatePending, RecreateActive, ActiveKey, WriteMoveBank, ReadDoneBank, PendingReadBank, PendingWriteBank;
  }

  lemma ShortDoneChan(g: Geometry, m: State, c: nat, ch: Chan, due: nat, m': State)
    requires Sound(g) && ChanOk(g, m, c, ch) && |ch.busShort| == 1 && Effect(m, ShortDone(c), m', c)
    requires m.At(BusShort(c))[0].cwCnt >= 1
    ensures ChanOk(g, m', c,
                   ch.(busShort := [], mPendingRead := ch.mPendingRead + [Timed(due, CreatePending(g, ch.busShort[0]))]))
  {
    hide Is, Unpack, DecodePending, CreatePending, RecreateActive, ActiveKey, WriteMoveBank, ReadDoneBank, PendingReadBank, PendingWriteBank;
    Sent(g, c, ch.busShort[0], m.At(BusShort(c))[0]);
  }

  /** ActiveCommandQueue::pushQueue drops the command when the queue is full. */
  function PushQueue(queue: seq<nat>, length: nat, cmd: nat): seq<nat> {
    if |queue| < length then queue + [cmd] else queue
  }

  /** pendingReadCmdProcess: the finished read enters the long queue; if DL2 is free its data moves. */
  function ReadReadyChanged(g: Geometry, ch: Chan): Chan
    requires ch.mPendingRead != []
  {
    var word := ch.mPendingRead[0].word;
    var b := PendingReadBank(g, word);
    var ch' := ch.(mPendingRead := ch.mPendingRead[1..], mAlcq := PushQueue(ch.mAlcq, g.CodeWordNum(), RecreateActive(g, DecodePending(g, word))));
    if b < |ch.mPhyDL2| && ch.mPhyDL2[b] == BANK_FREE then
      ch'.(mPhyDL1 := SetStatus(ch.mPhyDL1, b, BANK_FREE), mPhyDL2 := SetStatus(ch.mPhyDL2, b, BANK_BUSY))
    else ch'
  }

  lemma ReadReadyChan(g: Geometry, m: State, c: nat, ch: Chan, m': State)
    requires Sound(g) && ChanOk(g, m, c, ch) && ch.mPendingRead != [] && Effect(m, ReadReady(c), m', c)
    requires m.At(PendRead(c))[0].bank < g.CodeWordNum() && |ch.mAlcq| < g.CodeWordNum()
    ensures ChanOk(g, m', c, ReadReadyChanged(g, ch))
  {
    hide Is, Unpack, DecodePending, CreatePending, RecreateActive, ActiveKey, WriteMoveBank, ReadDoneBank, PendingReadBank, PendingWriteBank;
    var x := m.At(PendRead(c))[0];
    PendingReadsBack(g, c, ch.mPendingRead[0].word, x);
    ReadReadyQueues(g, m, c, ch, m');
    if (c, x.bank) !in m.dl2 {
      StatusSet(ch.mPhyDL1, c, g.CodeWordNum(), m.dl1.Keys, m'.dl1.Keys, x.bank, BANK_FREE);
      StatusSet(ch.mPhyDL2, c, g.CodeWordNum(), m.dl2.Keys, m'.dl2.Keys, x.bank, BANK_BUSY);
    }
  }

  lemma ReadReadyQueues(g: Geometry, m: State, c: nat, ch: Chan, m': State)
    requires Sound(g) && ChanOk(g, m, c, ch) && ch.mPendingRead != [] && Effect(m, ReadReady(c), m', c)
    requires |ch.mAlcq| < g.CodeWordNum()
    ensures var ch' := ReadReadyChanged(g, ch);
            && PendingAll(g, c, ch'.mPendingRead, m'.At(PendRead(c))) && ActiveAll(g, c, ch'.mAlcq, m'.At(Long(c)))
            && m'.At(Hand(c)) == m.At(Hand(c)) && m'.At(Short(c)) == m.At(Short(c))
            && m'.At(BusShort(c)) == m.At(BusShort(c)) && m'.At(BusLong(c)) == m.At(BusLong(c))
            && m'.At(PendWrite(c)) == m.At(PendWrite(c))
  {
    hide Is, Unpack, DecodePending, CreatePending, RecreateActive, ActiveKey, WriteMoveBank, ReadDoneBank, PendingReadBank, PendingWriteBank;
    Returned(g, c, ch.mPendingRead[0].word, m.At(PendRead(c))[0]);
  }

  /** processLongQueueCmd, write: the data moves from DL2 to DL1 and is programmed. */
  function WriteMoveChanged(g: Geometry, ch: Chan, due: nat): Chan
    requires ch.busLong != []
  {
    var b := WriteMoveBank(g, ch.busLong[0]);
    ch.(busLong := [], mPendingWrite := ch.mPendingWrite + [Timed(due, CreatePending(g, ch.busLong[0]))],
        mPhyDL1 := SetStatus(ch.mPhyDL1, b, BANK_BUSY), mPhyDL2 := SetStatus(ch.mPhyDL2, b, BANK_FREE))
  }

  lemma WriteMoveChan(g: Geometry, m: State, c: nat, ch: Chan, due: nat, m': State)
    requires Sound(g) && ChanOk(g, m, c, ch) && |ch.busLong| == 1 && Effect(m, WriteMove(c), m', c)
    requires m.At(BusLong(c))[0].bank < g.CodeWordNum() && m.At(BusLong(c))[0].cwCnt >= 1
    ensures ChanOk(g, m', c, WriteMoveChanged(g, ch, due))
  {
    hide Is, Unpack, DecodePending, CreatePending, RecreateActive, ActiveKey, WriteMoveBank, ReadDoneBank, PendingReadBank, PendingWriteBank;
    var x := m.At(BusLong(c))[0];
    ActiveReads(g, c, ch.busLong[0], x);
    WriteMoveQueues(g, m, c, ch, due, m');
    StatusSet(ch.mPhyDL1, c, g.CodeWordNum(), m.dl1.Keys, m'.dl1.Keys, x.bank, BANK_BUSY);
    StatusSet(ch.mPhyDL2, c, g.CodeWordNum(), m.dl2.Keys, m'.dl2.Keys, x.bank, BANK_FREE);
    hide SetStatus, StatusIs, Shaped, After, LatchesSet, ActiveAll, PendingAll;
  }

  lemma WriteMoveQueues(g: Geometry, m: State, c: nat, ch: Chan, due: nat, m': State)
    requires Sound(g) && ChanOk(g, m, c, ch) && |ch.busLong| == 1 && Effect(m, WriteMove(c), m', c)
    requires m.At(BusLong(c))[0].cwCnt >= 1
    ensures var ch' := WriteMoveChanged(g, ch, due);
            && ActiveAll(g, c, ch'.busLong, m'.At(BusLong(c))) && PendingAll(g, c, ch'.mPendingWrite, m'.At(PendWrite(c)))
            && m'.At(Hand(c)) == m.At(Hand(c)) && m'.At(Short(c)) == m.At(Short(c))
            && m'.At(BusShort(c)) == m.At(BusShort(c)) && m'.At(PendRead(c)) == m.At(PendRead(c))
            && m'.At(Long(c)) == m.At(Long(c))
  {
    hide Is, Unpack, DecodePending, CreatePending, RecreateActive, ActiveKey, WriteMoveBank, ReadDoneBank, PendingReadBank, PendingWriteBank;
    Sent(g, c, ch.busLong[0], m.At(BusLong(c))[0]);
  }

  /** processLongQueueCmd, read: the bank select is done and DL2 is released. */
  function ReadDoneChanged(g: Geometry, ch: Chan): Chan
    requires ch.busLong != []
  {
    ch.(busLong := [], mPhyDL2 := SetStatus(ch.mPhyDL2, ReadDoneBank(g, ch.busLong[0]), BANK_FREE))
  }

  lemma ReadDoneChan(g: Geometry, m: State, c: nat, ch: Chan, m': State)
    requires Sound(g) && ChanOk(g, m, c, ch) && |ch.busLong| == 1 && Effect(m, ReadDone(c), m', c)
    requires m.At(BusLong(c))[0].bank < g.CodeWordNum()
    ensures ChanOk(g, m', c, ReadDoneChanged(g, ch))
  {
    hide Is, Unpack, DecodePending, CreatePending, RecreateActive, ActiveKey, WriteMoveBank, ReadDoneBank, PendingReadBank, PendingWriteBank;
    var x := m.At(BusLong(c))[0];
    ActiveReads(g, c, ch.busLong[0], x);
    StatusSet(ch.mPhyDL2, c, g.CodeWordNum(), m.dl2.Keys, m'.dl2.Keys, x.bank, BANK_FREE);
  }

  /** pendingWriteCmdProcess: the program is done and DL1 is released. */
  function WriteDoneChanged(g: Geometry, ch: Chan): Chan
    requires g.numDie >= 1 && ch.mPendingWrite != []
  {
    ch.(mPendingWrite := ch.mPendingWrite[1..],
        mPhyDL1 := SetStatus(ch.mPhyDL1, PendingWriteBank(g, ch.mPendingWrite[0].word), BANK_FREE))
  }

  lemma WriteDoneChan(g: Geometry, m: State, c: nat, ch: Chan, m': State)
    requires Sound(g) && ChanOk(g, m, c, ch) && ch.mPendingWrite != [] && Effect(m, WriteDone(c), m', c)
    requires m.At(PendWrite(c))[0].bank < g.CodeWordNum()
    ensures ChanOk(g, m', c, WriteDoneChanged(g, ch))
  {
    hide Is, Unpack, DecodePending, CreatePending, RecreateActive, ActiveKey, WriteMoveBank, ReadDoneBank, PendingReadBank, PendingWriteBank;
    var x := m.At(PendWrite(c))[0];
    PendingReadsBack(g, c, ch.mPendingWrite[0].word, x);
    StatusSet(ch.mPhyDL1, c, g.CodeWordNum(), m.dl1.Keys, m'.dl1.Keys, x.bank, BANK_FREE);
  }

  /** What the words on the bus and in the timed queues say about the command at work. */
  lemma BusLongReads(g: Geometry, m: State, c: nat, ch: Chan)
    requires At1(g, m, c, ch) && ch.busLong != []
    ensures m.At(BusLong(c)) != [] && |ch.busLong| == 1
    ensures var x := m.At(BusLong(c))[0];
            && x.chan == c && x.bank < g.CodeWordNum() && x.cwCnt >= 1
            && WriteMoveBank(g, ch.busLong[0]) == ReadDoneBank(g, ch.busLong[0]) == x.bank
            && (Unpack(g.ActiveBits(), ch.busLong[0]).ctype == 1 <==> x.ctype == WRITE)
            && QueueAddress(g, ch.busLong[0]) == Addr(g, x)
            && Unpack(g.ActiveBits(), ch.busLong[0]).slot == x.slot < g.numSlot
            && (ch.mPhyDL1[x.bank] == BANK_BUSY <==> (c, x.bank) in m.dl1)
  {
    FrontCounted(g, m, BusLong(c));
    ActiveReads(g, c, ch.busLong[0], m.At(BusLong(c))[0]);
  }
}
