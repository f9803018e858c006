/** Each process segment of the controller, on its data, is one enabled step of the pipeline. */
module ControllerSteps {
  import opened Common
  import opened Geometry
  import opened Codec
  import opened Hops
  import opened Pipeline
  import opened PipelineSafety
  import opened BankLists
  import opened TimedQueue
  import opened Refinement

  datatype Data = Data(
    chans: seq<Chan>, entries: seq<CmdEntry>, table: Table, credit: seq<nat>, due: seq<nat>,
    cnt: seq<nat>, slots: seq<Entry>, slotNumQ: seq<nat>, completions: seq<Entry>, now: nat)

  /** The fixed parameters: the geometry and the two delays of the chip. */
  datatype Setup = Setup(g: Geometry, readTime: nat, programTime: nat)

  /** The channels, the entries and the list table together stand for pipeline state `m`. */
  ghost predicate Refines(g: Geometry, m: State, chans: seq<Chan>, entries: seq<CmdEntry>, table: Table) {
    Sound(g) && Safe(P(g), m) && ChansOk(g, m, chans) && Lists(g, entries, table, m.q) && Small(g, m.loc)
  }

  /** A timed queue with one fixed delay holds nothing due later than `limit`. */
  ghost predicate InTime(q: seq<Timed>, limit: nat) {
    Sorted(q) && forall k :: 0 <= k < |q| ==> q[k].due <= limit
  }

  ghost predicate Timely(u: Setup, chans: seq<Chan>, now: nat) {
    forall c :: 0 <= c < |chans| ==>
      InTime(chans[c].mPendingRead, now + u.readTime) && InTime(chans[c].mPendingWrite, now + u.programTime)
  }

  ghost predicate Booking(m: State, d: Data) {
    && d.cnt == m.cnt && d.slots == m.table && d.slotNumQ == m.slotNumQ
    && m.drained <= |m.log| && d.completions == m.Pending()
  }

  /** The controller's data stands for the pipeline state `m`. */
  ghost predicate Stands(u: Setup, m: State, d: Data) {
    && Refines(u.g, m, d.chans, d.entries, d.table) && Timely(u, d.chans, d.now)
    && d.credit == m.credit && d.due == m.due && Booking(m, d)
  }

  // ---- common to all steps -----------------------------------------------------------------

  lemma InTimeAppend(q: seq<Timed>, limit: nat, word: nat)
    requires InTime(q, limit)
    ensures InTime(q + [Timed(limit, word)], limit) && Insert(q, Timed(limit, word)) == q + [Timed(limit, word)]
  {
    LatestAppends(q, Timed(limit, word));
  }

  lemma InTimeRest(q: seq<Timed>, limit: nat)
    requires InTime(q, limit) && q != []
    ensures InTime(q[1..], limit)
  {}

  lemma TimelySet(u: Setup, chans: seq<Chan>, now: nat, c: nat, ch: Chan)
    requires Timely(u, chans, now) && c < |chans|
    requires ch.mPendingRead == chans[c].mPendingRead || InTime(ch.mPendingRead, now + u.readTime)
    requires ch.mPendingWrite == chans[c].mPendingWrite || InTime(ch.mPendingWrite, now + u.programTime)
    ensures Timely(u, chans[c := ch], now)
  {
    assert InTime(chans[c].mPendingRead, now + u.readTime);
  }

  /** The step of a channel is known as soon as the channel is. */
  lemma OneChannel(g: Geometry, m: State, e: Event, m': State, chans: seq<Chan>, c: nat, ch: Chan,
                   entries: seq<CmdEntry>, table: Table)
    requires Refines(g, m, chans, entries, table) && c < |chans|
    requires Apply(P(g), m, e) == Some(m') && OnChannel(e) && e.chan == c && !e.Dispatch?
    requires ChanOk(g, m', c, ch)
    ensures Refines(g, m', chans[c := ch], entries, table)
    ensures CreditSet(m, e, m') && BooksSet(m, e, m')
  {
    ChannelStep(g, m, e, m', chans, chans[c := ch], entries, table);
    StepCreditSet(P(g), m, e);
    StepBooks(P(g), m, e);
  }

  lemma Conclude(u: Setup, m: State, e: Event, m': State, d: Data, c: nat, ch: Chan)
    requires Stands(u, m, d) && c < |d.chans|
    requires Apply(P(u.g), m, e) == Some(m') && OnChannel(e) && e.chan == c
    requires !e.Dispatch? && !e.ReadDone? && !e.WriteDone?
    requires ChanOk(u.g, m', c, ch) && Timely(u, d.chans[c := ch], d.now)
    ensures Stands(u, m', d.(chans := d.chans[c := ch], credit := m'.credit, due := m'.due))
    ensures CreditSet(m, e, m')
  {
    OneChannel(u.g, m, e, m', d.chans, c, ch, d.entries, d.table);
  }

  lemma ConcludeStill(u: Setup, m: State, e: Event, m': State, d: Data, c: nat, ch: Chan)
    requires Stands(u, m, d) && c < |d.chans|
    requires Apply(P(u.g), m, e) == Some(m') && OnChannel(e) && e.chan == c
    requires e.Enqueue? || e.ShortDone? || e.ReadReady? || e.WriteMove?
    requires ChanOk(u.g, m', c, ch) && Timely(u, d.chans[c := ch], d.now)
    ensures Stands(u, m', d.(chans := d.chans[c := ch]))
  {
    Conclude(u, m, e, m', d, c, ch);
    assert d.(chans := d.chans[c := ch], credit := m'.credit, due := m'.due) == d.(chans := d.chans[c := ch]);
  }

  /** The channel at work. */
  lemma AtWork(u: Setup, m: State, d: Data, c: nat)
    requires Stands(u, m, d) && c < |d.chans|
    ensures Sound(u.g) && Safe(P(u.g), m) && c < u.g.ChanNum() && ChanOk(u.g, m, c, d.chans[c])
    ensures InTime(d.chans[c].mPendingRead, d.now + u.readTime) && InTime(d.chans[c].mPendingWrite, d.now + u.programTime)
  {}

  // ---- short queue -------------------------------------------------------------------------

  lemma ShortPopStands(u: Setup, m: State, d: Data, c: nat) returns (m': State, d': Data)
    requires Stands(u, m, d) && c < |d.chans| && d.credit[c] > 0
    requires d.chans[c].mAscq != [] && d.chans[c].busShort == [] && d.chans[c].busLong == []
    ensures Apply(P(u.g), m, ShortPop(c)) == Some(m') && Stands(u, m', d')
    ensures var ch := d.chans[c];
            d' == d.(chans := d.chans[c := ch.(mAscq := ch.mAscq[1..], busShort := [ch.mAscq[0]])],
                     credit := d.credit[c := d.credit[c] - 1])
  {
    hide Refines, Conserved, Credited, Counted, Reporting, Unpack, DecodePending, CreatePending, RecreateActive, PendingReadBank, PendingWriteBank, WriteMoveBank, ReadDoneBank, Is;
    AtWork(u, m, d, c);
    var ch := d.chans[c];
    var ch' := ch.(mAscq := ch.mAscq[1..], busShort := [ch.mAscq[0]]);
    assert Apply(P(u.g), m, ShortPop(c)).Some?;
    m' := Apply(P(u.g), m, ShortPop(c)).value;
    Stepped(u.g, m, ShortPop(c), m', c);
    ShortPopChan(u.g, m, c, ch, m');
    TimelySet(u, d.chans, d.now, c, ch');
    Conclude(u, m, ShortPop(c), m', d, c, ch');
    d' := d.(chans := d.chans[c := ch'], credit := m'.credit, due := m'.due);
  }

  lemma ShortDoneStands(u: Setup, m: State, d: Data, c: nat) returns (m': State)
    requires Stands(u, m, d) && c < |d.chans| && d.chans[c].busShort != []
    ensures Apply(P(u.g), m, ShortDone(c)) == Some(m')
    ensures Stands(u, m', d.(chans := d.chans[c := Waiting(u.g, d.chans[c], d.now + u.readTime)]))
  {
    hide Refines, Conserved, Credited, Counted, Reporting, Unpack, DecodePending, CreatePending, RecreateActive, PendingReadBank, PendingWriteBank, WriteMoveBank, ReadDoneBank, Is;
    AtWork(u, m, d, c);
    var ch, t := d.chans[c], Timed(d.now + u.readTime, CreatePending(u.g, d.chans[c].busShort[0]));
    InTimeAppend(ch.mPendingRead, t.due, t.word);
    var ch' := ch.(busShort := [], mPendingRead := ch.mPendingRead + [t]);
    assert |m.At(BusShort(c))| == 1;
    assert Apply(P(u.g), m, ShortDone(c)).Some?;
    m' := Apply(P(u.g), m, ShortDone(c)).value;
    Stepped(u.g, m, ShortDone(c), m', c);
    FrontCounted(u.g, m, BusShort(c));
    ShortDoneChan(u.g, m, c, ch, t.due, m');
    TimelySet(u, d.chans, d.now, c, ch');
    ConcludeStill(u, m, ShortDone(c), m', d, c, ch');
  }

  /** The command on the bus starts to wait for the chip. */
  function Waiting(g: Geometry, ch: Chan, due: nat): Chan
    requires ch.busShort != []
  {
    ch.(busShort := [], mPendingRead := Insert(ch.mPendingRead, Timed(due, CreatePending(g, ch.busShort[0]))))
  }

  /** Nothing waits longer than a read sent now, so it goes to the back. */
  lemma WaitsLast(u: Setup, m: State, d: Data, c: nat)
    requires Stands(u, m, d) && c < |d.chans| && d.chans[c].busShort != []
    ensures var ch, due := d.chans[c], d.now + u.readTime;
            Waiting(u.g, ch, due)
              == ch.(busShort := [], mPendingRead := ch.mPendingRead + [Timed(due, CreatePending(u.g, ch.busShort[0]))])
  {
    hide Refines, CreatePending;
    AtWork(u, m, d, c);
    InTimeAppend(d.chans[c].mPendingRead, d.now + u.readTime, CreatePending(u.g, d.chans[c].busShort[0]));
  }

  // ---- dispatcher --------------------------------------------------------------------------

  /** The queue the command in hand is bound for, after it entered. */
  function Entered(g: Geometry, ch: Chan, write: bool): Chan
    requires ch.hand != []
  {
    if write then ch.(hand := [], mAlcq := PushQueue(ch.mAlcq, g.CodeWordNum(), ch.hand[0]))
    else ch.(hand := [], mAscq := PushQueue(ch.mAscq, g.CodeWordNum(), ch.hand[0]))
  }

  lemma HandReads(u: Setup, m: State, d: Data, c: nat)
    requires Stands(u, m, d) && c < |d.chans| && d.chans[c].hand != []
    ensures |d.chans[c].hand| == |m.At(Hand(c))| == 1
    ensures Unpack(u.g.ActiveBits(), d.chans[c].hand[0]).ctype == 1 <==> m.At(Hand(c))[0].ctype == WRITE
    ensures |d.chans[c].mAlcq| == |m.At(Long(c))| <= u.g.CodeWordNum() && |d.chans[c].mAscq| == |m.At(Short(c))| <= u.g.CodeWordNum()
  {
    hide Refines, Conserved, Credited, Counted, Reporting, Unpack, DecodePending, CreatePending, RecreateActive, PendingReadBank, PendingWriteBank, WriteMoveBank, ReadDoneBank, Is;
    AtWork(u, m, d, c);
    assert |m.At(Hand(c))| == 1;
    ActiveReads(u.g, c, d.chans[c].hand[0], m.At(Hand(c))[0]);
  }

  lemma EnqueueStands(u: Setup, m: State, d: Data, c: nat, write: bool) returns (m': State)
    requires Stands(u, m, d) && c < |d.chans| && d.chans[c].hand != []
    requires write == (Unpack(u.g.ActiveBits(), d.chans[c].hand[0]).ctype == 1)
    requires if write then |d.chans[c].mAlcq| < u.g.CodeWordNum() else |d.chans[c].mAscq| < u.g.CodeWordNum()
    ensures Apply(P(u.g), m, Enqueue(c)) == Some(m')
    ensures Stands(u, m', d.(chans := d.chans[c := Entered(u.g, d.chans[c], write)]))
  {
    hide Refines, Conserved, Credited, Counted, Reporting, Unpack, DecodePending, CreatePending, RecreateActive, PendingReadBank, PendingWriteBank, WriteMoveBank, ReadDoneBank, Is;
    AtWork(u, m, d, c);
    HandReads(u, m, d, c);
    var ch' := Entered(u.g, d.chans[c], write);
    assert Apply(P(u.g), m, Enqueue(c)).Some?;
    m' := Apply(P(u.g), m, Enqueue(c)).value;
    Stepped(u.g, m, Enqueue(c), m', c);
    EnqueueChan(u.g, m, c, d.chans[c], m');
    TimelySet(u, d.chans, d.now, c, ch');
    ConcludeStill(u, m, Enqueue(c), m', d, c, ch');
  }

  /** A full queue is exactly what keeps the command in hand. */
  lemma EnqueueFull(u: Setup, m: State, d: Data, c: nat)
    requires Stands(u, m, d) && c < |d.chans| && d.chans[c].hand != []
    ensures |d.chans[c].mAlcq| <= u.g.CodeWordNum() && |d.chans[c].mAscq| <= u.g.CodeWordNum()
    ensures var write := Unpack(u.g.ActiveBits(), d.chans[c].hand[0]).ctype == 1;
            var queue := if write then d.chans[c].mAlcq else d.chans[c].mAscq;
            |queue| == u.g.CodeWordNum() ==> Apply(P(u.g), m, Enqueue(c)) == None
  {
    HandReads(u, m, d, c);
  }

  // ---- credit ------------------------------------------------------------------------------

  lemma AnswerStands(u: Setup, m: State, d: Data, c: nat) returns (m': State)
    requires Stands(u, m, d) && c < |d.chans| && d.due[c] > 0
    ensures Apply(P(u.g), m, Answer(c)) == Some(m')
    ensures Stands(u, m', d.(credit := d.credit[c := d.credit[c] + 1], due := d.due[c := d.due[c] - 1]))
  {
    hide Refines, Conserved, Credited, Counted, Reporting, Unpack, DecodePending, CreatePending, RecreateActive, PendingReadBank, PendingWriteBank, WriteMoveBank, ReadDoneBank, Is;
    AtWork(u, m, d, c);
    m' := Apply(P(u.g), m, Answer(c)).value;
    assert ChanOk(u.g, m', c, d.chans[c]);
    TimelySet(u, d.chans, d.now, c, d.chans[c]);
    Conclude(u, m, Answer(c), m', d, c, d.chans[c]);
    assert d.chans[c := d.chans[c]] == d.chans;
  }

  // ---- long queue --------------------------------------------------------------------------

  lemma ReadReadyRuns(u: Setup, m: State, d: Data, c: nat)
    requires Stands(u, m, d) && c < |d.chans|
    requires d.chans[c].mPendingRead != [] && |d.chans[c].mAlcq| < u.g.CodeWordNum()
    ensures Apply(P(u.g), m, ReadReady(c)).Some?
  {
    hide Refines, Conserved, Credited, Counted, Reporting, Is;
    AtWork(u, m, d, c);
  }

  lemma ReadReadyNext(u: Setup, m: State, d: Data, c: nat) returns (m': State, ch: Chan)
    requires Stands(u, m, d) && c < |d.chans|
    requires d.chans[c].mPendingRead != [] && |d.chans[c].mAlcq| < u.g.CodeWordNum()
    ensures Apply(P(u.g), m, ReadReady(c)) == Some(m')
    ensures ch == ReadReadyChanged(u.g, d.chans[c]) && ChanOk(u.g, m', c, ch)
    ensures Timely(u, d.chans[c := ch], d.now)
  {
    hide Refines, Apply, Conserved, Credited, Counted, Reporting, Unpack, DecodePending, CreatePending, RecreateActive, PendingReadBank, PendingWriteBank, WriteMoveBank, ReadDoneBank, Is;
    AtWork(u, m, d, c);
    FrontCounted(u.g, m, PendRead(c));
    ReadReadyRuns(u, m, d, c);
    m' := Apply(P(u.g), m, ReadReady(c)).value;
    Stepped(u.g, m, ReadReady(c), m', c);
    ReadReadyChan(u.g, m, c, d.chans[c], m');
    InTimeRest(d.chans[c].mPendingRead, d.now + u.readTime);
    ch := ReadReadyChanged(u.g, d.chans[c]);
    TimelySet(u, d.chans, d.now, c, ch);
  }

  lemma ReadReadyStands(u: Setup, m: State, d: Data, c: nat) returns (m': State, ch: Chan)
    requires Stands(u, m, d) && c < |d.chans|
    requires d.chans[c].mPendingRead != [] && |d.chans[c].mAlcq| < u.g.CodeWordNum()
    ensures Apply(P(u.g), m, ReadReady(c)) == Some(m')
    ensures ch == ReadReadyChanged(u.g, d.chans[c])
    ensures Stands(u, m', d.(chans := d.chans[c := ch]))
  {
    hide Refines, ReadReadyChanged, Timely, ChanOk;
    m', ch := ReadReadyNext(u, m, d, c);
    ConcludeStill(u, m, ReadReady(c), m', d, c, ch);
  }

  lemma LongPopNext(u: Setup, m: State, d: Data, c: nat) returns (m': State, ch: Chan, read: bool)
    requires Stands(u, m, d) && c < |d.chans|
    requires d.chans[c].mAlcq != [] && d.chans[c].busShort == [] && d.chans[c].busLong == []
    ensures Apply(P(u.g), m, LongPop(c)) == Some(m')
    ensures ch == d.chans[c].(mAlcq := d.chans[c].mAlcq[1..], busLong := [d.chans[c].mAlcq[0]]) && ChanOk(u.g, m', c, ch)
    ensures read == (Unpack(u.g.ActiveBits(), d.chans[c].mAlcq[0]).ctype != 1) == (Front(m, Long(c)).ctype == READ)
  {
    hide Refines, Conserved, Credited, Counted, Reporting, Unpack, DecodePending, CreatePending, RecreateActive, PendingReadBank, PendingWriteBank, WriteMoveBank, ReadDoneBank, Is;
    AtWork(u, m, d, c);
    ch := d.chans[c];
    assert Apply(P(u.g), m, LongPop(c)).Some?;
    m' := Apply(P(u.g), m, LongPop(c)).value;
    Stepped(u.g, m, LongPop(c), m', c);
    LongPopChan(u.g, m, c, ch, m');
    ActiveReads(u.g, c, ch.mAlcq[0], m.At(Long(c))[0]);
    read := Front(m, Long(c)).ctype == READ;
    ch := ch.(mAlcq := ch.mAlcq[1..], busLong := [ch.mAlcq[0]]);
  }

  lemma LongPopStands(u: Setup, m: State, d: Data, c: nat) returns (m': State, ch: Chan, read: bool)
    requires Stands(u, m, d) && c < |d.chans|
    requires d.chans[c].mAlcq != [] && d.chans[c].busShort == [] && d.chans[c].busLong == []
    ensures Apply(P(u.g), m, LongPop(c)) == Some(m')
    ensures ch == d.chans[c].(mAlcq := d.chans[c].mAlcq[1..], busLong := [d.chans[c].mAlcq[0]])
    ensures read == (Unpack(u.g.ActiveBits(), d.chans[c].mAlcq[0]).ctype != 1)
    ensures Stands(u, m', d.(chans := d.chans[c := ch], due := if read then d.due[c := d.due[c] + 1] else d.due))
  {
    hide Refines, ChanOk;
    m', ch, read := LongPopNext(u, m, d, c);
    TimelySet(u, d.chans, d.now, c, ch);
    Conclude(u, m, LongPop(c), m', d, c, ch);
    assert d.due[c := d.due[c] + 0] == d.due;
  }

  /** The write on the bus, its bank's DL1 free. */
  ghost predicate Movable(u: Setup, d: Data, c: nat) {
    && c < |d.chans| && d.chans[c].busLong != []
    && Unpack(u.g.ActiveBits(), d.chans[c].busLong[0]).ctype == 1
    && WriteMoveBank(u.g, d.chans[c].busLong[0]) < |d.chans[c].mPhyDL1|
    && d.chans[c].mPhyDL1[WriteMoveBank(u.g, d.chans[c].busLong[0])] == BANK_FREE
  }

  lemma WriteMoveNext(u: Setup, m: State, d: Data, c: nat) returns (m': State, ch: Chan)
    requires Stands(u, m, d) && Movable(u, d, c)
    ensures Apply(P(u.g), m, WriteMove(c)) == Some(m')
    ensures ch == WriteMoveChanged(u.g, d.chans[c], d.now + u.programTime) && ChanOk(u.g, m', c, ch)
  {
    hide Refines, Conserved, Credited, Counted, Reporting, Unpack, DecodePending, CreatePending, RecreateActive, PendingReadBank, PendingWriteBank, WriteMoveBank, ReadDoneBank, Is;
    AtWork(u, m, d, c);
    ch := d.chans[c];
    BusLongReads(u.g, m, c, ch);
    assert Apply(P(u.g), m, WriteMove(c)).Some?;
    m' := Apply(P(u.g), m, WriteMove(c)).value;
    Stepped(u.g, m, WriteMove(c), m', c);
    WriteMoveChan(u.g, m, c, ch, d.now + u.programTime, m');
    ch := WriteMoveChanged(u.g, ch, d.now + u.programTime);
  }

  lemma WriteMoveTimely(u: Setup, d: Data, c: nat, ch: Chan)
    requires Timely(u, d.chans, d.now) && c < |d.chans| && d.chans[c].busLong != []
    requires ch == WriteMoveChanged(u.g, d.chans[c], d.now + u.programTime)
    ensures Timely(u, d.chans[c := ch], d.now)
  {
    assert InTime(d.chans[c].mPendingWrite, d.now + u.programTime);
    InTimeAppend(d.chans[c].mPendingWrite, d.now + u.programTime, CreatePending(u.g, d.chans[c].busLong[0]));
    TimelySet(u, d.chans, d.now, c, ch);
  }

  lemma WriteMoveStands(u: Setup, m: State, d: Data, c: nat) returns (m': State, ch: Chan)
    requires Stands(u, m, d) && Movable(u, d, c)
    ensures ch == WriteMoveChanged(u.g, d.chans[c], d.now + u.programTime)
    ensures Apply(P(u.g), m, WriteMove(c)) == Some(m')
    ensures Stands(u, m', d.(chans := d.chans[c := ch]))
  {
    hide Refines, ChanOk;
    m', ch := WriteMoveNext(u, m, d, c);
    WriteMoveTimely(u, d, c, ch);
    ConcludeStill(u, m, WriteMove(c), m', d, c, ch);
  }

  /** What a process finds on the bus. */
  lemma LongFound(u: Setup, m: State, d: Data, c: nat)
    requires Stands(u, m, d) && c < |d.chans| && d.chans[c].busLong != []
    ensures |d.chans[c].busLong| == 1
    ensures var ch, x := d.chans[c], Front(m, BusLong(c));
            && WriteMoveBank(u.g, ch.busLong[0]) == ReadDoneBank(u.g, ch.busLong[0]) < u.g.CodeWordNum()
            && |ch.mPhyDL1| == |ch.mPhyDL2| == u.g.CodeWordNum()
            && Unpack(u.g.ActiveBits(), ch.busLong[0]).slot == x.slot
            && (Unpack(u.g.ActiveBits(), ch.busLong[0]).ctype == 1 <==> x.ctype == WRITE)
            && (ch.mPhyDL1[WriteMoveBank(u.g, ch.busLong[0])] == BANK_BUSY ==> x.ctype == WRITE ==> Apply(P(u.g), m, WriteMove(c)) == None)
            && CreatePending(u.g, ch.busLong[0]) != 0
            && Unpack(u.g.PendingBits(), CreatePending(u.g, ch.busLong[0])).slot == x.slot
            && Unpack(u.g.PendingBits(), CreatePending(u.g, ch.busLong[0])).cwCnt == x.cwCnt
  {
    hide Refines, Conserved, Credited, Counted, Reporting, Unpack, DecodePending, CreatePending, RecreateActive, PendingReadBank, PendingWriteBank, WriteMoveBank, ReadDoneBank, Is;
    AtWork(u, m, d, c);
    BusLongReads(u.g, m, c, d.chans[c]);
    Sent(u.g, c, d.chans[c].busLong[0], m.At(BusLong(c))[0]);
  }

  /** What pendingWriteCmdProcess finds at the front of its queue. */
  lemma WriteFound(u: Setup, m: State, d: Data, c: nat)
    requires Stands(u, m, d) && c < |d.chans| && d.chans[c].mPendingWrite != []
    ensures var ch, x := d.chans[c], Front(m, PendWrite(c));
            var word := ch.mPendingWrite[0].word;
            && word != 0 && DecodePending(u.g, word).ctype == 1 && x.ctype == WRITE
            && PendingWriteBank(u.g, word) < u.g.CodeWordNum() == |ch.mPhyDL1|
            && Unpack(u.g.PendingBits(), word).slot == x.slot && Unpack(u.g.PendingBits(), word).cwCnt == x.cwCnt
  {
    hide Refines, Conserved, Credited, Counted, Reporting, Unpack, DecodePending, CreatePending, RecreateActive, PendingReadBank, PendingWriteBank, WriteMoveBank, ReadDoneBank, Is;
    AtWork(u, m, d, c);
    FrontCounted(u.g, m, PendWrite(c));
    PendingReadsBack(u.g, c, d.chans[c].mPendingWrite[0].word, m.At(PendWrite(c))[0]);
  }

  /** What pendingReadCmdProcess finds at the front of its queue. */
  lemma ReadFound(u: Setup, m: State, d: Data, c: nat)
    requires Stands(u, m, d) && c < |d.chans| && d.chans[c].mPendingRead != []
    ensures var ch := d.chans[c];
            var word := ch.mPendingRead[0].word;
            && word != 0 && DecodePending(u.g, word).ctype == 0
            && PendingReadBank(u.g, word) < u.g.CodeWordNum() == |ch.mPhyDL1| == |ch.mPhyDL2|
            && (|ch.mAlcq| == u.g.CodeWordNum() ==> Apply(P(u.g), m, ReadReady(c)) == None)
            && |ch.mAlcq| <= u.g.CodeWordNum()
  {
    hide Refines, Conserved, Credited, Counted, Reporting, Unpack, CreatePending, RecreateActive, PendingReadBank, PendingWriteBank, WriteMoveBank, ReadDoneBank;
    AtWork(u, m, d, c);
    FrontCounted(u.g, m, PendRead(c));
    PendingReadsBack(u.g, c, d.chans[c].mPendingRead[0].word, m.At(PendRead(c))[0]);
  }

  // ---- counting steps ----------------------------------------------------------------------

  /** The books after a finished sub-command of `slot`: its count, and at zero its completion. */
  function Tallied(d: Data, slot: nat, cwCnt: nat, write: bool): Data
    requires slot < |d.cnt| && slot < |d.slots| && Update(d.cnt[slot], cwCnt) >= 0
  {
    var c := Update(d.cnt[slot], cwCnt);
    var d' := d.(cnt := d.cnt[slot := c]);
    if c != 0 then d'
    else if write then d'.(completions := d.completions + [Entry(slot, d.slots[slot].ctype, d.slots[slot].cwCnt)])
    else d'.(slotNumQ := d.slotNumQ + [slot])
  }

  lemma TallyBooks(m: State, x: Sub, m': State, d: Data)
    requires Booking(m, d) && Booked(m, x, m')
    ensures Booking(m', Tallied(d, x.slot, x.cwCnt, x.ctype == WRITE))
  {}

  lemma ConcludeTally(u: Setup, m: State, e: Event, m': State, d: Data, c: nat, ch: Chan, x: Sub)
    requires Stands(u, m, d) && c < |d.chans|
    requires Apply(P(u.g), m, e) == Some(m') && ((e == ReadDone(c) && x == Front(m, BusLong(c))) || (e == WriteDone(c) && x == Front(m, PendWrite(c))))
    requires ChanOk(u.g, m', c, ch) && Timely(u, d.chans[c := ch], d.now)
    ensures x.slot < |d.cnt| && x.slot < |d.slots| && Update(d.cnt[x.slot], x.cwCnt) >= 0
    ensures Stands(u, m', Tallied(d.(chans := d.chans[c := ch]), x.slot, x.cwCnt, x.ctype == WRITE))
  {
    OneChannel(u.g, m, e, m', d.chans, c, ch, d.entries, d.table);
    TallyBooks(m, x, m', d.(chans := d.chans[c := ch]));
  }

  lemma ReadDoneStands(u: Setup, m: State, d: Data, c: nat) returns (m': State)
    requires Stands(u, m, d) && c < |d.chans| && d.chans[c].busLong != []
    requires Unpack(u.g.ActiveBits(), d.chans[c].busLong[0]).ctype != 1
    ensures Apply(P(u.g), m, ReadDone(c)) == Some(m')
    ensures var x := Front(m, BusLong(c));
            && x.slot < |d.cnt| && x.slot < |d.slots| && Update(d.cnt[x.slot], x.cwCnt) >= 0
            && Stands(u, m', Tallied(d.(chans := d.chans[c := ReadDoneChanged(u.g, d.chans[c])]), x.slot, x.cwCnt, false))
  {
    hide Refines, Conserved, Credited, Counted, Reporting, Unpack, DecodePending, CreatePending, RecreateActive, PendingReadBank, PendingWriteBank, WriteMoveBank, ReadDoneBank, Is;
    AtWork(u, m, d, c);
    var ch, x := d.chans[c], Front(m, BusLong(c));
    BusLongReads(u.g, m, c, ch);
    FrontCounted(u.g, m, BusLong(c));
    assert Apply(P(u.g), m, ReadDone(c)).Some?;
    m' := Apply(P(u.g), m, ReadDone(c)).value;
    Stepped(u.g, m, ReadDone(c), m', c);
    ReadDoneChan(u.g, m, c, ch, m');
    TimelySet(u, d.chans, d.now, c, ReadDoneChanged(u.g, ch));
    ConcludeTally(u, m, ReadDone(c), m', d, c, ReadDoneChanged(u.g, ch), x);
  }

  lemma WriteDoneStands(u: Setup, m: State, d: Data, c: nat) returns (m': State)
    requires Stands(u, m, d) && c < |d.chans| && d.chans[c].mPendingWrite != []
    ensures Apply(P(u.g), m, WriteDone(c)) == Some(m')
    ensures var x := Front(m, PendWrite(c));
            && x.slot < |d.cnt| && x.slot < |d.slots| && Update(d.cnt[x.slot], x.cwCnt) >= 0
            && Stands(u, m', Tallied(d.(chans := d.chans[c := WriteDoneChanged(u.g, d.chans[c])]), x.slot, x.cwCnt, true))
  {
    hide Refines, Conserved, Credited, Counted, Reporting, Unpack, DecodePending, CreatePending, RecreateActive, PendingReadBank, PendingWriteBank, WriteMoveBank, ReadDoneBank, Is;
    AtWork(u, m, d, c);
    var ch, x := d.chans[c], Front(m, PendWrite(c));
    FrontCounted(u.g, m, PendWrite(c));
    assert Apply(P(u.g), m, WriteDone(c)).Some?;
    m' := Apply(P(u.g), m, WriteDone(c)).value;
    Stepped(u.g, m, WriteDone(c), m', c);
    WriteDoneChan(u.g, m, c, ch, m');
    InTimeRest(ch.mPendingWrite, d.now + u.programTime);
    TimelySet(u, d.chans, d.now, c, WriteDoneChanged(u.g, ch));
    ConcludeTally(u, m, WriteDone(c), m', d, c, WriteDoneChanged(u.g, ch), x);
  }
}
