/** Two short runs on one bank that doom it: one with reads alone, and one in which every finished
    read finds DL2 free. */
module PipelineTraces {
  import opened Common
  import opened Places
  import opened Pipeline
  import opened PipelineSafety
  import opened PipelineStall

  const SMALL: Params := Params(1, 2, 2, 2)

  /** The first bank of channel 0: the contents of the places on the way, and the idle slots. */
  predicate Looks(s: State, listed: seq<Sub>, hand: seq<Sub>, pend: seq<Sub>, long: seq<Sub>, idle: set<nat>) {
    && Sized(SMALL, s)
    && s.At(Listed(0, 0)) == listed && s.At(Hand(0)) == hand && s.At(Short(0)) == [] && s.At(BusShort(0)) == []
    && s.At(PendRead(0)) == pend && s.At(Long(0)) == long && s.At(BusLong(0)) == []
    && (forall t :: 0 <= t < 2 && t in idle ==> s.phase[t] == Idle)
  }

  function Word(slot: nat, ctype: CmdType): Sub { Sub(slot, 0, ctype, 1, 0, 0) }

  lemma AcceptOne(s: State, t: nat, ctype: CmdType, pend: seq<Sub>, long: seq<Sub>, idle: set<nat>) returns (s': State)
    requires Looks(s, [], [], pend, long, idle) && t < 2 && t in idle
    ensures Apply(SMALL, s, Accept(t, ctype, [(0, 0)])) == Some(s')
    ensures Looks(s', [Word(t, ctype)], [], pend, long, idle - {t})
    ensures s'.dl1 == s.dl1 && s'.dl2 == s.dl2 && s'.credit == s.credit
  {
    var x := Word(t, ctype);
    s' := Apply(SMALL, s, Accept(t, ctype, [(0, 0)])).value;
    assert SubsOf(t, ctype, [(0, 0)]) == [x];
    assert [x][..0] == [];
    assert LinkAll(s.q, [x]) == Put(s.q, Listed(0, 0), x);
  }

  /** A listed read goes through the short queue and over the bus into the chip. */
  const SEND: seq<Event> := [Dispatch(0, 0), Enqueue(0), ShortPop(0), ShortDone(0)]

  lemma SendRead(s: State, x: Sub, long: seq<Sub>, idle: set<nat>) returns (s': State)
    requires Looks(s, [x], [], [], long, idle) && x.ctype == READ && (0, 0) !in s.dl1 && s.credit[0] >= 1
    ensures Run(SMALL, s, SEND) == Some(s') && Looks(s', [], [], [x], long, idle)
    ensures s'.dl1 == s.dl1[(0, 0) := x] && s'.dl2 == s.dl2 && s'.credit[0] == s.credit[0] - 1
  {
    var s1 := Shift(s, Listed(0, 0), Hand(0)).(dl1 := s.dl1[(0, 0) := x]);
    assert Apply(SMALL, s, Dispatch(0, 0)) == Some(s1);
    var s2 := Shift(s1, Hand(0), Short(0));
    assert Apply(SMALL, s1, Enqueue(0)) == Some(s2);
    var s3;
    s3, s' := Sent(s2, x, long, idle);
    hide *;
    RunFour(SMALL, s, s1, s2, s3, s', SEND[0], SEND[1], SEND[2], SEND[3]);
  }

  /** From the short queue into the chip. */
  lemma Sent(s: State, x: Sub, long: seq<Sub>, idle: set<nat>) returns (s1: State, s': State)
    requires Sized(SMALL, s) && s.At(Short(0)) == [x] && s.credit[0] >= 1
    requires s.At(Listed(0, 0)) == [] && s.At(Hand(0)) == [] && s.At(BusShort(0)) == [] && s.At(PendRead(0)) == []
    requires s.At(Long(0)) == long && s.At(BusLong(0)) == [] && (forall t :: 0 <= t < 2 && t in idle ==> s.phase[t] == Idle)
    ensures Apply(SMALL, s, ShortPop(0)) == Some(s1) && Apply(SMALL, s1, ShortDone(0)) == Some(s')
    ensures Looks(s', [], [], [x], long, idle) && s'.dl1 == s.dl1 && s'.dl2 == s.dl2 && s'.credit[0] == s.credit[0] - 1
  {
    s1 := Shift(s, Short(0), BusShort(0)).(credit := s.credit[0 := s.credit[0] - 1]);
    assert Apply(SMALL, s, ShortPop(0)) == Some(s1);
    s' := Shift(s1, BusShort(0), PendRead(0));
    assert Apply(SMALL, s1, ShortDone(0)) == Some(s');
  }

  lemma RunFour(p: Params, s: State, s1: State, s2: State, s3: State, s4: State, e1: Event, e2: Event, e3: Event, e4: Event)
    requires Sized(p, s) && Apply(p, s, e1) == Some(s1) && Apply(p, s1, e2) == Some(s2)
    requires Apply(p, s2, e3) == Some(s3) && Apply(p, s3, e4) == Some(s4)
    ensures Run(p, s, [e1, e2, e3, e4]) == Some(s4)
  {
    hide Apply;
    RunOne(p, s, e1);
    RunMore(p, s, [e1], s1, e2);
    RunMore(p, s, [e1] + [e2], s2, e3);
    RunMore(p, s, [e1] + [e2] + [e3], s3, e4);
    assert [e1, e2, e3, e4] == [e1] + [e2] + [e3] + [e4];
  }

  lemma RunMore(p: Params, s: State, es: seq<Event>, t: State, e: Event)
    requires Sized(p, s) && Run(p, s, es) == Some(t)
    ensures Run(p, s, es + [e]) == Apply(p, t, e)
  {
    assert (es + [e])[..|es|] == es;
  }

  lemma Start()
    ensures Looks(Init(SMALL), [], [], [], [], {0, 1}) && Init(SMALL).credit[0] == 2
    ensures Init(SMALL).dl1 == map[] == Init(SMALL).dl2
  {}

  // ---- reads alone -------------------------------------------------------------------------

  predicate ReadsOnly(es: seq<Event>) {
    forall k :: 0 <= k < |es| && es[k].Accept? ==> es[k].ctype == READ
  }

  const FIRST: seq<Event> := [Accept(0, READ, [(0, 0)])] + SEND + [ReadReady(0)]
  const SECOND: seq<Event> := FIRST + [Accept(1, READ, [(0, 0)])] + SEND

  /** The first read is finished and waits in the long queue. */
  lemma FirstRead() returns (s': State)
    ensures Run(SMALL, Init(SMALL), FIRST) == Some(s') && Looks(s', [], [], [], [Word(0, READ)], {1})
    ensures (0, 0) !in s'.dl1 && (0, 0) in s'.dl2 && s'.credit[0] == 1
  {
    hide Apply, Looks, Run;
    var s := Init(SMALL);
    Start();
    var es := [Accept(0, READ, [(0, 0)])];
    var s1 := AcceptOne(s, 0, READ, [], [], {0, 1});
    RunOne(SMALL, s, es[0]);
    assert {0, 1} - {0} == {1};
    var s2 := SendRead(s1, Word(0, READ), [], {1});
    RunConcat(SMALL, s, es, SEND);
    s' := FirstReady(s2, Word(0, READ));
    RunMore(SMALL, s, es + SEND, s2, ReadReady(0));
  }

  lemma FirstReady(s: State, x: Sub) returns (s': State)
    requires Looks(s, [], [], [x], [], {1}) && x.bank == 0 && (0, 0) !in s.dl2
    ensures Apply(SMALL, s, ReadReady(0)) == Some(s') && Looks(s', [], [], [], [x], {1})
    ensures (0, 0) !in s'.dl1 && (0, 0) in s'.dl2 && s'.credit == s.credit
  {
    s' := Apply(SMALL, s, ReadReady(0)).value;
  }

  /** The second read is under way in the chip, and the first still holds DL2. */
  lemma SecondRead() returns (s': State)
    ensures Run(SMALL, Init(SMALL), SECOND) == Some(s')
    ensures Looks(s', [], [], [Word(1, READ)], [Word(0, READ)], {}) && (0, 0) in s'.dl2
  {
    hide Apply, Looks, Run;
    var s, first := Init(SMALL), [Word(0, READ)];
    var s3 := FirstRead();
    var s4 := AcceptOne(s3, 1, READ, [], first, {1});
    assert Sized(SMALL, s);
    RunMore(SMALL, s, FIRST, s3, Accept(1, READ, [(0, 0)]));
    assert {1} - {1} == {};
    s' := SendRead(s4, Word(1, READ), first, {});
    RunConcat(SMALL, s, FIRST + [Accept(1, READ, [(0, 0)])], SEND);
  }

  /** Reads alone can leave a bank dead: no later read of it is ever sent. */
  lemma ReadsAlone()
    ensures ReadsOnly(SECOND + [ReadReady(0)]) && Run(SMALL, Init(SMALL), SECOND + [ReadReady(0)]).Some?
    ensures exists b :: Dead(Run(SMALL, Init(SMALL), SECOND + [ReadReady(0)]).value, b)
  {
    hide Apply, Looks, Run, Clean;
    var es, e := SECOND, ReadReady(0);
    var s := SecondRead();
    RunMore(SMALL, Init(SMALL), es, s, e);
    FindsBusy(s);
    assert (es + [e])[..|es|] == es;
    DeadIffDirty(SMALL, es + [e]);
  }

  lemma FindsBusy(s: State)
    requires Looks(s, [], [], [Word(1, READ)], [Word(0, READ)], {}) && (0, 0) in s.dl2
    ensures Apply(SMALL, s, ReadReady(0)).Some? && !Clean(s, ReadReady(0))
  {}

  // ---- a run in which every finished read finds DL2 free ---------------------------------------

  const CROSS: seq<Event> :=
    [Accept(0, WRITE, [(0, 0)]), Dispatch(0, 0), Enqueue(0)] + [Accept(1, READ, [(0, 0)])] + [Dispatch(0, 0)]

  lemma WriteWaits(s1: State, w: Sub) returns (s2: State, s': State)
    requires Looks(s1, [w], [], [], [], {1}) && w == Word(0, WRITE) && s1.dl1 == map[] && s1.dl2 == map[]
    ensures Apply(SMALL, s1, Dispatch(0, 0)) == Some(s2) && Apply(SMALL, s2, Enqueue(0)) == Some(s')
    ensures Looks(s', [], [], [], [w], {1}) && s'.dl1 == map[] && s'.dl2 == map[(0, 0) := w]
  {
    s2 := Shift(s1, Listed(0, 0), Hand(0)).(dl2 := s1.dl2[(0, 0) := w]);
    assert Apply(SMALL, s1, Dispatch(0, 0)) == Some(s2);
    s' := Shift(s2, Hand(0), Long(0));
    assert Apply(SMALL, s2, Enqueue(0)) == Some(s');
  }

  lemma FirstWrite() returns (s': State)
    ensures Run(SMALL, Init(SMALL), CROSS[..3]) == Some(s') && Looks(s', [], [], [], [Word(0, WRITE)], {1})
    ensures s'.dl1 == map[] && s'.dl2 == map[(0, 0) := Word(0, WRITE)]
  {
    var s, w := Init(SMALL), Word(0, WRITE);
    Start();
    var s1 := AcceptOne(s, 0, WRITE, [], [], {0, 1});
    var s2;
    s2, s' := WriteWaits(s1, w);
    hide Apply, Looks;
    RunOne(SMALL, s, CROSS[0]);
    RunMore(SMALL, s, [CROSS[0]], s1, CROSS[1]);
    RunMore(SMALL, s, [CROSS[0]] + [CROSS[1]], s2, CROSS[2]);
    assert CROSS[..3] == [CROSS[0]] + [CROSS[1]] + [CROSS[2]];
  }

  lemma ReadCrosses(s4: State, long: seq<Sub>) returns (s5: State)
    requires Looks(s4, [Word(1, READ)], [], [], long, {}) && s4.dl1 == map[] && s4.dl2 == map[(0, 0) := Word(0, WRITE)]
    ensures Apply(SMALL, s4, Dispatch(0, 0)) == Some(s5) && Opposed(s5, (0, 0))
  {
    s5 := Shift(s4, Listed(0, 0), Hand(0)).(dl1 := s4.dl1[(0, 0) := Word(1, READ)]);
    assert Apply(SMALL, s4, Dispatch(0, 0)) == Some(s5);
  }

  /** A write holds DL2 and a read takes DL1: no finished read ever found DL2 busy, yet neither
      command will finish. */
  lemma CleanCross()
    ensures Run(SMALL, Init(SMALL), CROSS).Some? && CleanRun(SMALL, CROSS)
    ensures Crossed(Run(SMALL, Init(SMALL), CROSS).value, (0, 0))
  {
    var s, long := Init(SMALL), [Word(0, WRITE)];
    var s3 := FirstWrite();
    var s4 := AcceptOne(s3, 1, READ, [], long, {1});
    var s5 := ReadCrosses(s4, long);
    hide Apply, Looks, Opposed, Run, Exclusive, Crossed;
    RunMore(SMALL, s, CROSS[..3], s3, CROSS[3]);
    RunMore(SMALL, s, CROSS[..3] + [CROSS[3]], s4, CROSS[4]);
    assert CROSS == CROSS[..3] + [CROSS[3]] + [CROSS[4]];
    NoReadyClean(SMALL, CROSS);
    RunExclusive(SMALL, CROSS);
    OpposedCrossed(s5, (0, 0));
  }

  lemma OpposedCrossed(s: State, b: (nat, nat))
    requires Exclusive(s) && Opposed(s, b)
    ensures Crossed(s, b)
  {}

  lemma {:induction false} NoReadyClean(p: Params, es: seq<Event>)
    requires forall k :: 0 <= k < |es| ==> !es[k].ReadReady?
    ensures CleanRun(p, es)
  {
    if es != [] { NoReadyClean(p, es[..|es| - 1]); }
  }
}
