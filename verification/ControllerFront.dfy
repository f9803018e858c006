/** The steps that touch all channels or the bank lists: completion and poll, the dispatcher taking
    a command off its list, and the host's command entering the PCMD queue. */
module ControllerFront {
  import opened Common
  import opened Words
  import opened Geometry
  import opened Hops
  import opened Places
  import opened Pipeline
  import opened PipelineSafety
  import opened BankLists
  import opened Refinement
  import opened ControllerSteps

  // ---- completion and poll -----------------------------------------------------------------

  lemma AllChannels(g: Geometry, m: State, e: Event, m': State, chans: seq<Chan>, entries: seq<CmdEntry>, table: Table)
    requires Refines(g, m, chans, entries, table)
    requires Apply(P(g), m, e) == Some(m') && (e.Complete? || e.Poll?)
    ensures Refines(g, m', chans, entries, table)
    ensures CreditSet(m, e, m') && BooksSet(m, e, m')
  {
    ChannelStep(g, m, e, m', chans, chans, entries, table);
    StepCreditSet(P(g), m, e);
    StepBooks(P(g), m, e);
  }

  lemma CompleteStands(u: Setup, m: State, d: Data) returns (m': State)
    requires Stands(u, m, d) && d.slotNumQ != []
    ensures Apply(P(u.g), m, Complete) == Some(m')
    ensures d.slotNumQ[0] < |d.slots|
    ensures var e := d.slots[d.slotNumQ[0]];
            Stands(u, m', d.(slotNumQ := d.slotNumQ[1..],
                             completions := d.completions + [Entry(d.slotNumQ[0], e.ctype, e.cwCnt)]))
  {
    assert m.slotNumQ[0] in m.slotNumQ;
    assert Apply(P(u.g), m, Complete).Some?;
    m' := Apply(P(u.g), m, Complete).value;
    AllChannels(u.g, m, Complete, m', d.chans, d.entries, d.table);
    CompleteBooks(m, m', d);
  }

  lemma CompleteBooks(m: State, m': State, d: Data)
    requires Booking(m, d) && BooksSet(m, Complete, m')
    ensures var e := d.slots[d.slotNumQ[0]];
            Booking(m', d.(slotNumQ := d.slotNumQ[1..], completions := d.completions + [Entry(d.slotNumQ[0], e.ctype, e.cwCnt)]))
  {
    var e := d.slots[d.slotNumQ[0]];
    assert m'.Pending() == m.Pending() + [Entry(d.slotNumQ[0], e.ctype, e.cwCnt)];
  }

  lemma PollStands(u: Setup, m: State, d: Data) returns (m': State)
    requires Stands(u, m, d)
    ensures Apply(P(u.g), m, Poll) == Some(m')
    ensures Stands(u, m', d.(completions := d.completions[PollSize(|d.completions|)..]))
  {
    m' := Apply(P(u.g), m, Poll).value;
    AllChannels(u.g, m, Poll, m', d.chans, d.entries, d.table);
    PollBooks(m, m', d);
  }

  lemma PollBooks(m: State, m': State, d: Data)
    requires Booking(m, d) && BooksSet(m, Poll, m')
    ensures Booking(m', d.(completions := d.completions[PollSize(|d.completions|)..]))
  {
    assert m'.Pending() == m.Pending()[PollSize(|m.Pending()|)..];
  }

  // ---- dispatcher --------------------------------------------------------------------------

  /** The dispatcher's test: the latch that the command at the head of the list takes first is free. */
  predicate LatchFree(g: Geometry, ch: Chan, b: nat, cmd: nat) {
    b < |ch.mPhyDL1| && b < |ch.mPhyDL2| &&
    if Bits(cmd, g.LbaBits() + 9, 2) == 1 then ch.mPhyDL2[b] == BANK_FREE else ch.mPhyDL1[b] == BANK_FREE
  }

  /** The command in hand, its latch busy. */
  function Taken(g: Geometry, ch: Chan, b: nat, cmd: nat, addr: nat): Chan {
    var ch' := ch.(hand := [CreateActive(g, cmd, addr)]);
    if Bits(cmd, g.LbaBits() + 9, 2) == 1 then ch'.(mPhyDL2 := SetStatus(ch.mPhyDL2, b, BANK_BUSY))
    else ch'.(mPhyDL1 := SetStatus(ch.mPhyDL1, b, BANK_BUSY))
  }

  /** What the dispatcher finds at the head of a list. */
  lemma HeadFound(u: Setup, m: State, d: Data, c: nat, b: nat)
    requires Stands(u, m, d) && c < |d.chans| && b < u.g.CodeWordNum()
    ensures |d.chans| == |d.table| == u.g.ChanNum() && |d.table[c]| == u.g.CodeWordNum()
    ensures |d.chans[c].mPhyDL1| == |d.chans[c].mPhyDL2| == u.g.CodeWordNum()
    ensures d.table[c][b].head == -1 <==> m.At(Listed(c, b)) == []
    ensures d.table[c][b].head != -1 ==>
              var x := Front(m, Listed(c, b));
              && 0 <= d.table[c][b].head == Addr(u.g, x) < |d.entries| && x.chan == c && x.bank == b
              && HostIs(u.g, d.entries[d.table[c][b].head].cmd, x)
              && x in m.loc && x.slot < u.g.numSlot
              && (Bits(d.entries[d.table[c][b].head].cmd, u.g.LbaBits() + 9, 2) == 1 <==> x.ctype == WRITE)
  {
    hide HostIs, Bits, Addr, Conserved, Counted, Reporting, Credited, Bounded, AllChains, ActiveAll, PendingAll;
    AtWork(u, m, d, c);
    HeadOf(u.g, m, d.entries, d.table, c, b);
  }

  lemma HeadOf(g: Geometry, m: State, entries: seq<CmdEntry>, table: Table, c: nat, b: nat)
    requires Sound(g) && Conserved(P(g), m) && Lists(g, entries, table, m.q) && c < g.ChanNum() && b < g.CodeWordNum()
    ensures |table| == g.ChanNum() && |table[c]| == g.CodeWordNum()
    ensures table[c][b].head == -1 <==> m.At(Listed(c, b)) == []
    ensures table[c][b].head != -1 ==>
              var x := Front(m, Listed(c, b));
              && 0 <= table[c][b].head == Addr(g, x) < |entries| && x.chan == c && x.bank == b
              && HostIs(g, entries[table[c][b].head].cmd, x)
              && x in m.loc && x.slot < g.numSlot
              && (Bits(entries[table[c][b].head].cmd, g.LbaBits() + 9, 2) == 1 <==> x.ctype == WRITE)
  {
    var subs := m.At(Listed(c, b));
    assert Chain(entries, table[c][b], Addrs(g, subs));
    if subs != [] {
      assert ListWords(g, entries, subs);
      FrontFits(P(g), m, Listed(c, b));
      TypeRead(g, entries[Addr(g, subs[0])].cmd, subs[0]);
    }
  }

  lemma TypeRead(g: Geometry, word: nat, x: Sub)
    requires g.numDie >= 1 && HostIs(g, word, x)
    ensures Bits(word, g.LbaBits() + 9, 2) == 1 <==> x.ctype == WRITE
  {}

  lemma DispatchChan(g: Geometry, m: State, c: nat, b: nat, ch: Chan, cmd: nat, m': State)
    requires Sound(g) && c < g.ChanNum() && b < g.CodeWordNum() && ChanOk(g, m, c, ch) && ch.hand == []
    requires Effect(m, Dispatch(c, b), m', c) && m.At(Listed(c, b)) != []
    requires var x := m.At(Listed(c, b))[0];
             HostIs(g, cmd, x) && x.chan == c && (Bits(cmd, g.LbaBits() + 9, 2) == 1 <==> x.ctype == WRITE)
    ensures ChanOk(g, m', c, Taken(g, ch, b, cmd, Addr(g, m.At(Listed(c, b))[0])))
  {
    hide Is, HostIs, Bits, CreateActive, ActiveKey;
    var x := m.At(Listed(c, b))[0];
    Dispatched(g, cmd, x);
    if x.ctype == WRITE {
      StatusSet(ch.mPhyDL2, c, g.CodeWordNum(), m.dl2.Keys, m'.dl2.Keys, b, BANK_BUSY);
    } else {
      StatusSet(ch.mPhyDL1, c, g.CodeWordNum(), m.dl1.Keys, m'.dl1.Keys, b, BANK_BUSY);
    }
  }

  /** The lists after the front of one was unlinked. */
  lemma DispatchLists(u: Setup, m: State, d: Data, c: nat, b: nat, m': State)
    requires Stands(u, m, d) && c < |d.chans| && b < u.g.CodeWordNum() && m.At(Listed(c, b)) != []
    requires Shaped(m, Dispatch(c, b), m')
    ensures |d.table| == u.g.ChanNum() && |d.table[c]| == u.g.CodeWordNum() && 0 <= d.table[c][b].head < |d.entries|
    ensures Lists(u.g, d.entries, SetList(d.table, c, b, Unlinked(d.entries, d.table[c][b])), m'.q)
  {
    LiveApart(u.g, m);
    UnlinkStep(u.g, d.entries, d.table, m.q, m.loc, c, b);
    var table := SetList(d.table, c, b, Unlinked(d.entries, d.table[c][b]));
    ListsAfter(u.g, m, d.entries, d.table, table, c, b, m'.q);
  }

  lemma ListsAfter(g: Geometry, m: State, entries: seq<CmdEntry>, table: Table, table': Table, c: nat, b: nat, q: map<Place, seq<Sub>>)
    requires g.numDie >= 1 && m.At(Listed(c, b)) != [] && Lists(g, entries, table, m.q)
    requires AllChains(g, entries, table', Take(m.q, Listed(c, b))) && q == Move(m.q, Listed(c, b), Hand(c))
    ensures Lists(g, entries, table', q)
  {
    forall i, j | 0 <= i < g.ChanNum() && 0 <= j < g.CodeWordNum()
      ensures At(q, Listed(i, j)) == At(Take(m.q, Listed(c, b)), Listed(i, j))
      ensures ListWords(g, entries, At(q, Listed(i, j)))
    {
      assert ListWords(g, entries, At(m.q, Listed(i, j)));
    }
  }

  lemma DispatchNext(u: Setup, m: State, d: Data, c: nat, b: nat) returns (m': State, ch: Chan)
    requires Stands(u, m, d) && c < |d.chans| && b < u.g.CodeWordNum()
    requires d.chans[c].hand == [] && m.At(Listed(c, b)) != []
    requires 0 <= Addr(u.g, Front(m, Listed(c, b))) < |d.entries|
    requires LatchFree(u.g, d.chans[c], b, d.entries[Addr(u.g, Front(m, Listed(c, b)))].cmd)
    ensures Apply(P(u.g), m, Dispatch(c, b)) == Some(m')
    ensures ChanOk(u.g, m', c, ch)
    ensures var a := Addr(u.g, Front(m, Listed(c, b))); ch == Taken(u.g, d.chans[c], b, d.entries[a].cmd, a)
  {
    hide Refines, Conserved, Credited, Counted, Reporting, Bits, HostIs, Addr;
    AtWork(u, m, d, c);
    HeadFound(u, m, d, c, b);
    var x := m.At(Listed(c, b))[0];
    var cmd := d.entries[Addr(u.g, x)].cmd;
    m' := NextDispatch(u, m, d, c, b, x);
    Stepped(u.g, m, Dispatch(c, b), m', c);
    DispatchChan(u.g, m, c, b, d.chans[c], cmd, m');
    ch := Taken(u.g, d.chans[c], b, cmd, Addr(u.g, x));
  }

  lemma NextDispatch(u: Setup, m: State, d: Data, c: nat, b: nat, x: Sub) returns (m': State)
    requires Stands(u, m, d) && c < |d.chans| && b < u.g.CodeWordNum()
    requires d.chans[c].hand == [] && m.At(Listed(c, b)) != [] && x == m.At(Listed(c, b))[0]
    requires b < |d.chans[c].mPhyDL1| && b < |d.chans[c].mPhyDL2|
    requires if x.ctype == WRITE then d.chans[c].mPhyDL2[b] == BANK_FREE else d.chans[c].mPhyDL1[b] == BANK_FREE
    ensures Apply(P(u.g), m, Dispatch(c, b)) == Some(m')
  {
    hide Refines, Conserved, Credited, Counted, Reporting;
    AtWork(u, m, d, c);
    assert Apply(P(u.g), m, Dispatch(c, b)).Some?;
    m' := Apply(P(u.g), m, Dispatch(c, b)).value;
  }

  /** An empty list or a busy latch is exactly what keeps the dispatcher from a bank. */
  lemma DispatchBlocked(u: Setup, m: State, d: Data, c: nat, b: nat)
    requires Stands(u, m, d) && c < |d.chans| && b < u.g.CodeWordNum() && c < |d.table| && b < |d.table[c]|
    requires var head := d.table[c][b].head;
             head == -1 || (0 <= head < |d.entries| && !LatchFree(u.g, d.chans[c], b, d.entries[head].cmd))
    ensures Apply(P(u.g), m, Dispatch(c, b)) == None
  {
    hide Refines, Conserved, Credited, Counted, Reporting, Bits, HostIs, Addr;
    AtWork(u, m, d, c);
    HeadFound(u, m, d, c, b);
  }

  lemma DispatchStands(u: Setup, m: State, d: Data, c: nat, b: nat) returns (m': State, ch: Chan)
    requires Stands(u, m, d) && c < |d.chans| && b < u.g.CodeWordNum()
    requires c < |d.table| && b < |d.table[c]| && 0 <= d.table[c][b].head < |d.entries|
    requires d.chans[c].hand == []
    requires LatchFree(u.g, d.chans[c], b, d.entries[d.table[c][b].head].cmd)
    ensures Apply(P(u.g), m, Dispatch(c, b)) == Some(m')
    ensures ch == Taken(u.g, d.chans[c], b, d.entries[d.table[c][b].head].cmd, d.table[c][b].head)
    ensures Stands(u, m', d.(chans := d.chans[c := ch], table := SetList(d.table, c, b, Unlinked(d.entries, d.table[c][b]))))
  {
    HeadFound(u, m, d, c, b);
    m', ch := DispatchNext(u, m, d, c, b);
    DispatchConclude(u, m, d, c, b, m', ch);
  }

  lemma DispatchConclude(u: Setup, m: State, d: Data, c: nat, b: nat, m': State, ch: Chan)
    requires Stands(u, m, d) && c < |d.chans| && b < u.g.CodeWordNum()
    requires m.At(Listed(c, b)) != [] && Apply(P(u.g), m, Dispatch(c, b)) == Some(m') && ChanOk(u.g, m', c, ch)
    requires ch.mPendingRead == d.chans[c].mPendingRead && ch.mPendingWrite == d.chans[c].mPendingWrite
    ensures |d.table| == u.g.ChanNum() && |d.table[c]| == u.g.CodeWordNum() && 0 <= d.table[c][b].head < |d.entries|
    ensures Stands(u, m', d.(chans := d.chans[c := ch], table := SetList(d.table, c, b, Unlinked(d.entries, d.table[c][b]))))
  {
    hide Lists, ChanOk, Small, Conserved, Bounded, Credited, Counted, Reporting;
    var e := Dispatch(c, b);
    StepSafe(P(u.g), m, e);
    StepShape(P(u.g), m, e);
    OtherChans(u.g, m, e, m', d.chans, d.chans[c := ch]);
    DispatchLists(u, m, d, c, b, m');
    SmallKept(u.g, m, e, m');
    StepCreditSet(P(u.g), m, e);
    StepBooks(P(u.g), m, e);
    TimelySet(u, d.chans, d.now, c, ch);
  }
}
