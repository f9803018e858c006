/** What every step of the pipeline keeps, and what follows for every run. */
module PipelineSafety {
  import opened Common
  import opened Places
  import opened Pipeline

  // ---- the invariants ----------------------------------------------------------------------

  /** A place only holds commands of its own channel, bank and type. */
  predicate Fits(p: Params, at: Place, x: Sub) {
    && x.chan < p.chans && x.bank < p.banks && x.slot < p.slots && x.idx < x.cwCnt
    && at.chan == x.chan
    && (at.Listed? ==> at.bank == x.bank)
    && (at.Short? || at.BusShort? || at.PendRead? ==> x.ctype == READ)
    && (at.PendWrite? ==> x.ctype == WRITE)
  }

  /** Conservation: every live sub-command is in exactly one place, once, and belongs there. */
  ghost predicate Conserved(p: Params, s: State) {
    && Kept(s.q, s.loc)
    && (forall x :: x in s.loc ==> Fits(p, s.loc[x], x))
  }

  /** The bounded queues and the single dispatcher and bus of a channel. */
  ghost predicate Bounded(p: Params, s: State) {
    forall c :: 0 <= c < p.chans ==>
      && |s.At(Hand(c))| <= 1 && |s.At(BusShort(c))| + |s.At(BusLong(c))| <= 1
      && |s.At(Short(c))| <= p.banks && |s.At(Long(c))| <= p.banks
  }

  /** Whether the command holds latch DL1 (`first`) or DL2 of its bank: a read takes DL1 until its
      data moves on to DL2; a write takes DL2 until its data moves on to DL1 to be programmed. */
  predicate Owns(first: bool, at: Place, x: Sub) {
    if first then
      if x.ctype == READ then at.Hand? || at.Short? || at.BusShort? || at.PendRead? else at.PendWrite?
    else
      if x.ctype == READ then at.Long? || at.BusLong? else at.Hand? || at.Long? || at.BusLong?
  }

  /** A latch is busy exactly while one command owns it, and that is the command that took it. */
  ghost predicate Latched(first: bool, loc: map<Sub, Place>, dl: map<(nat, nat), Sub>) {
    && (forall x :: x in loc && Owns(first, loc[x], x) ==> x.Bank() in dl && dl[x.Bank()] == x)
    && (forall b :: b in dl ==> dl[b] in loc && dl[b].Bank() == b && Owns(first, loc[dl[b]], dl[b]))
  }

  ghost predicate Exclusive(s: State) { Latched(true, s.loc, s.dl1) && Latched(false, s.loc, s.dl2) }

  function Reads(subs: seq<Sub>): nat {
    if subs == [] then 0 else (if subs[0].ctype == READ then 1 else 0) + Reads(subs[1..])
  }

  /** Reads that used a credit and were not answered yet. */
  function Outstanding(p: Params, s: State, c: nat): nat
    requires Sized(p, s) && c < p.chans
  {
    |s.At(BusShort(c))| + |s.At(PendRead(c))| + Reads(s.At(Long(c))) + s.due[c]
  }

  ghost predicate Credited(p: Params, s: State)
    requires Sized(p, s)
  {
    forall c :: 0 <= c < p.chans ==> s.credit[c] + Outstanding(p, s, c) == p.credit
  }

  ghost function LiveIn(loc: map<Sub, Place>, slot: nat): set<Sub> { set x | x in loc && x.slot == slot }

  /** The running count of slot `t`: 0 before its first sub-command is done, then how many are live. */
  ghost predicate CountAt(s: State, t: nat)
    requires t < |s.phase| && t < |s.cnt| && t < |s.table|
  {
    var live := |LiveIn(s.loc, t)|;
    if s.phase[t] == Running then 1 <= live <= s.table[t].cwCnt && s.cnt[t] == if live == s.table[t].cwCnt then 0 else live
    else live == 0 && s.cnt[t] == 0
  }

  /** A live sub-command belongs to the running command of its slot. */
  predicate Belongs(s: State, x: Sub) {
    && x.slot < |s.phase| && x.slot < |s.table| && s.phase[x.slot] == Running
    && x.ctype == s.table[x.slot].ctype && x.cwCnt == s.table[x.slot].cwCnt
  }

  ghost predicate Counted(p: Params, s: State)
    requires Sized(p, s)
  {
    && (forall x :: x in s.loc ==> Belongs(s, x))
    && (forall x, y :: x in s.loc && y in s.loc && x.slot == y.slot && x.idx == y.idx ==> x == y)
    && (forall t :: 0 <= t < p.slots ==> CountAt(s, t))
  }

  function Sel(entries: seq<Entry>, slot: nat): seq<Entry> {
    if entries == [] then [] else
      var n := |entries| - 1;
      Sel(entries[..n], slot) + if entries[n].slot == slot then [entries[n]] else []
  }

  /** The command of a slot whose completion is still to be queued. */
  function OpenAt(s: State, slot: nat): seq<Entry>
    requires slot < |s.phase| && slot < |s.table|
  {
    if s.phase[slot] == Running || s.phase[slot] == Finished then
      [Entry(slot, s.table[slot].ctype, s.table[slot].cwCnt)]
    else []
  }

  ghost predicate NoSlotTwice(entries: seq<Entry>) {
    forall j, k :: 0 <= j < k < |entries| ==> entries[j].slot != entries[k].slot
  }

  /** The completions queued for slot `t` so far are the commands accepted for it so far, in order,
      but for the one still open. */
  ghost predicate OnceAt(s: State, t: nat)
    requires t < |s.phase| && t < |s.table|
  {
    Sel(s.accepts, t) == Sel(s.log, t) + OpenAt(s, t)
  }

  /** Exactly once, for every slot; and no slot stands twice in the queues of finished commands. */
  ghost predicate Reporting(p: Params, s: State)
    requires Sized(p, s)
  {
    && NoDup(s.slotNumQ) && NoSlotTwice(s.Pending())
    && (forall t :: t in s.slotNumQ <==> 0 <= t < p.slots && s.phase[t] == Finished)
    && (forall t :: t in SlotsIn(s.Pending()) <==> 0 <= t < p.slots && s.phase[t] == Reported)
    && (forall t :: 0 <= t < p.slots ==> OnceAt(s, t))
  }

  // ---- linking a command -------------------------------------------------------------------

  /** Linking appends, to every bank list, exactly the code words bound for that bank, in order;
      no other place changes. */
  function Bound(subs: seq<Sub>, home: Place): seq<Sub> {
    if subs == [] then [] else
      var n := |subs| - 1;
      Bound(subs[..n], home) + if subs[n].Home() == home then [subs[n]] else []
  }

  lemma {:induction false} LinkAppends(q: map<Place, seq<Sub>>, subs: seq<Sub>, at: Place)
    ensures At(LinkAll(q, subs), at) == At(q, at) + Bound(subs, at)
  {
    if subs == [] {
    } else {
      LinkAppends(q, subs[..|subs| - 1], at);
    }
  }

  lemma {:induction false} BoundElsewhere(subs: seq<Sub>, at: Place)
    requires !at.Listed?
    ensures Bound(subs, at) == []
  {
    if subs != [] { BoundElsewhere(subs[..|subs| - 1], at); }
  }

  lemma {:induction false} Located(loc: map<Sub, Place>, subs: seq<Sub>)
    ensures forall x :: x in LocateAll(loc, subs) <==> x in loc || x in subs
    ensures forall x :: x in subs ==> LocateAll(loc, subs)[x] == x.Home()
    ensures forall x :: x in loc && x !in subs ==> LocateAll(loc, subs)[x] == loc[x]
  {
    if subs != [] {
      var n := |subs| - 1;
      Located(loc, subs[..n]);
      assert subs == subs[..n] + [subs[n]];
    }
  }

  lemma {:induction false} LinkKeeps(q: map<Place, seq<Sub>>, loc: map<Sub, Place>, subs: seq<Sub>)
    requires Kept(q, loc) && NoDup(subs) && (forall x :: x in subs ==> x !in loc)
    ensures Kept(LinkAll(q, subs), LocateAll(loc, subs))
  {
    if subs != [] {
      var n := |subs| - 1;
      LinkKeeps(q, loc, subs[..n]);
      Located(loc, subs[..n]);
      assert subs[n] !in subs[..n];
      PutKeeps(LinkAll(q, subs[..n]), LocateAll(loc, subs[..n]), subs[n].Home(), subs[n]);
    }
  }

  // ---- conservation ------------------------------------------------------------------------

  lemma ShiftConserves(p: Params, s: State, from: Place, to: Place)
    requires Conserved(p, s) && s.At(from) != []
    requires Fits(p, to, s.At(from)[0])
    ensures Conserved(p, Shift(s, from, to))
  {
    MoveKeeps(s.q, s.loc, from, to);
  }

  lemma RetireConserves(p: Params, s: State, from: Place)
    requires Conserved(p, s) && s.At(from) != []
    ensures Conserved(p, Retire(s, from))
  {
    TakeKeeps(s.q, s.loc, from);
  }

  lemma FrontFits(p: Params, s: State, at: Place)
    requires Conserved(p, s) && s.At(at) != []
    ensures s.At(at)[0] in s.loc && s.loc[s.At(at)[0]] == at && Fits(p, at, s.At(at)[0])
  {
    assert s.At(at)[0] in s.At(at);
  }

  lemma AcceptConserves(p: Params, s: State, slot: nat, ctype: CmdType, homes: seq<(nat, nat)>)
    requires Sized(p, s) && Conserved(p, s) && Counted(p, s)
    requires Apply(p, s, Accept(slot, ctype, homes)).Some?
    ensures Conserved(p, Apply(p, s, Accept(slot, ctype, homes)).value)
  {
    var subs := SubsOf(slot, ctype, homes);
    assert NoDup(subs);
    Fresh(p, s, Accept(slot, ctype, homes));
    LinkKeeps(s.q, s.loc, subs);
    Located(s.loc, subs);
  }

  // ---- what a step does to the places ------------------------------------------------------

  datatype Shape = Linked(subs: seq<Sub>) | Moved(from: Place, to: Place) | Retired(at: Place) | Still

  function ShapeOf(s: State, e: Event): Shape {
    match e
    case Accept(slot, ctype, homes) => Linked(SubsOf(slot, ctype, homes))
    case Dispatch(c, b) => Moved(Listed(c, b), Hand(c))
    case Enqueue(c) =>
      Moved(Hand(c), if s.At(Hand(c)) != [] && s.At(Hand(c))[0].ctype == READ then Short(c) else Long(c))
    case ShortPop(c) => Moved(Short(c), BusShort(c))
    case ShortDone(c) => Moved(BusShort(c), PendRead(c))
    case ReadReady(c) => Moved(PendRead(c), Long(c))
    case LongPop(c) => Moved(Long(c), BusLong(c))
    case WriteMove(c) => Moved(BusLong(c), PendWrite(c))
    case ReadDone(c) => Retired(BusLong(c))
    case WriteDone(c) => Retired(PendWrite(c))
    case Answer(_) => Still
    case Complete => Still
    case Poll => Still
  }

  predicate Shaped(s: State, e: Event, s': State) {
    match ShapeOf(s, e)
    case Linked(subs) => s'.q == LinkAll(s.q, subs) && s'.loc == LocateAll(s.loc, subs)
    case Moved(from, to) =>
      && s.At(from) != [] && s'.q == Move(s.q, from, to) && s'.loc == s.loc[s.At(from)[0] := to]
      && from.chan == to.chan && (to.Short? ==> s.At(from)[0].ctype == READ)
      && (to.PendWrite? ==> s.At(from)[0].ctype == WRITE)
    case Retired(at) => s.At(at) != [] && s'.q == Take(s.q, at) && s'.loc == s.loc - {s.At(at)[0]}
    case Still => s'.q == s.q && s'.loc == s.loc
  }

  lemma StepShape(p: Params, s: State, e: Event)
    requires Sized(p, s) && Apply(p, s, e).Some?
    ensures Shaped(s, e, Apply(p, s, e).value)
  {
    match e
    case Accept(_, _, _) =>
    case Dispatch(_, _) => FrontShape(p, s, e);
    case Enqueue(_) => FrontShape(p, s, e);
    case ShortPop(_) => FrontShape(p, s, e);
    case ShortDone(_) => FrontShape(p, s, e);
    case ReadReady(_) => BackShape(p, s, e);
    case LongPop(_) => BackShape(p, s, e);
    case WriteMove(_) => BackShape(p, s, e);
    case ReadDone(c) => FinishShape(p, s, BusLong(c));
    case WriteDone(c) => FinishShape(p, s, PendWrite(c));
    case _ =>
  }

  lemma FrontShape(p: Params, s: State, e: Event)
    requires Sized(p, s) && Apply(p, s, e).Some?
    requires e.Dispatch? || e.Enqueue? || e.ShortPop? || e.ShortDone?
    ensures Shaped(s, e, Apply(p, s, e).value)
  {}

  lemma BackShape(p: Params, s: State, e: Event)
    requires Sized(p, s) && Apply(p, s, e).Some?
    requires e.ReadReady? || e.LongPop? || e.WriteMove?
    ensures Shaped(s, e, Apply(p, s, e).value)
  {}

  lemma FinishShape(p: Params, s: State, from: Place)
    requires Sized(p, s) && s.At(from) != [] && Finish(p, s, from).Some?
    ensures var r := Finish(p, s, from).value;
            r.q == Take(s.q, from) && r.loc == s.loc - {s.At(from)[0]}
  {}

  lemma MoveFits(p: Params, s: State, e: Event, s': State)
    requires Conserved(p, s) && Shaped(s, e, s') && ShapeOf(s, e).Moved?
    ensures Fits(p, ShapeOf(s, e).to, s.At(ShapeOf(s, e).from)[0])
  {
    FrontFits(p, s, ShapeOf(s, e).from);
  }

  lemma StepConserves(p: Params, s: State, e: Event)
    requires Sized(p, s) && Conserved(p, s) && Counted(p, s)
    requires Apply(p, s, e).Some?
    ensures Conserved(p, Apply(p, s, e).value)
  {
    var s' := Apply(p, s, e).value;
    StepShape(p, s, e);
    match ShapeOf(s, e)
    case Linked(_) => AcceptConserves(p, s, e.slot, e.ctype, e.homes);
    case Moved(from, to) => MoveFits(p, s, e, s'); ShiftConserves(p, s, from, to);
    case Retired(at) => RetireConserves(p, s, at);
    case Still =>
  }

  /** Queues keep their bounds, so a push never finds its queue full and drops the command. */
  lemma StepBounded(p: Params, s: State, e: Event)
    requires Sized(p, s) && Bounded(p, s) && Apply(p, s, e).Some?
    ensures Bounded(p, Apply(p, s, e).value)
  {
    hide Apply, Bound;
    var s' := Apply(p, s, e).value;
    StepShape(p, s, e);
    StepRoom(p, s, e);
    forall c | 0 <= c < p.chans
      ensures |s'.At(Hand(c))| <= 1 && |s'.At(BusShort(c))| + |s'.At(BusLong(c))| <= 1
      ensures |s'.At(Short(c))| <= p.banks && |s'.At(Long(c))| <= p.banks
    {
      BoundedAt(p, s, e, s', c);
    }
  }

  lemma BoundedAt(p: Params, s: State, e: Event, s': State, c: nat)
    requires Sized(p, s) && Bounded(p, s) && c < p.chans && Shaped(s, e, s')
    requires e.Dispatch? ==> s.At(Hand(e.chan)) == []
    requires e.Enqueue? ==> |s.At(ShapeOf(s, e).to)| < p.banks
    requires e.ShortPop? || e.LongPop? ==> s.At(BusShort(e.chan)) == [] && s.At(BusLong(e.chan)) == []
    requires e.ReadReady? ==> |s.At(Long(e.chan))| < p.banks
    ensures |s'.At(Hand(c))| <= 1 && |s'.At(BusShort(c))| + |s'.At(BusLong(c))| <= 1
    ensures |s'.At(Short(c))| <= p.banks && |s'.At(Long(c))| <= p.banks
  {
    StepGrows(s, e, s', Hand(c));
    StepGrows(s, e, s', BusShort(c));
    StepGrows(s, e, s', BusLong(c));
    StepGrows(s, e, s', Short(c));
    StepGrows(s, e, s', Long(c));
    hide Shaped;
  }

  /** A place gets at most one command longer, and only where the step moves one. */
  predicate Grows(s: State, e: Event, s': State, at: Place) {
    |s'.At(at)| <= |s.At(at)| || (ShapeOf(s, e).Moved? && at == ShapeOf(s, e).to && |s'.At(at)| == |s.At(at)| + 1)
  }

  lemma StepGrows(s: State, e: Event, s': State, at: Place)
    requires Shaped(s, e, s') && !at.Listed?
    ensures Grows(s, e, s', at)
  {
    StepAfter(s, e, s', at);
  }

  /** The guards that keep the bounds. */
  lemma StepRoom(p: Params, s: State, e: Event)
    requires Sized(p, s) && Apply(p, s, e).Some?
    ensures e.Dispatch? ==> s.At(Hand(e.chan)) == []
    ensures e.Enqueue? ==> |s.At(ShapeOf(s, e).to)| < p.banks
    ensures e.ShortPop? || e.LongPop? ==> s.At(BusShort(e.chan)) == [] && s.At(BusLong(e.chan)) == []
    ensures e.ReadReady? ==> |s.At(Long(e.chan))| < p.banks
  {}

  // ---- latches -----------------------------------------------------------------------------

  lemma LatchMove(first: bool, loc: map<Sub, Place>, dl: map<(nat, nat), Sub>, x: Sub, to: Place)
    requires Latched(first, loc, dl) && x in loc
    ensures Owns(first, loc[x], x) == Owns(first, to, x) ==> Latched(first, loc[x := to], dl)
    ensures Owns(first, loc[x], x) && !Owns(first, to, x) ==> Latched(first, loc[x := to], dl - {x.Bank()})
    ensures !Owns(first, loc[x], x) && Owns(first, to, x) && x.Bank() !in dl
        ==> Latched(first, loc[x := to], dl[x.Bank() := x])
  {}

  lemma LatchRetire(first: bool, loc: map<Sub, Place>, dl: map<(nat, nat), Sub>, x: Sub)
    requires Latched(first, loc, dl) && x in loc
    ensures Owns(first, loc[x], x) ==> Latched(first, loc - {x}, dl - {x.Bank()})
    ensures !Owns(first, loc[x], x) ==> Latched(first, loc - {x}, dl)
  {}

  lemma LatchLink(first: bool, loc: map<Sub, Place>, dl: map<(nat, nat), Sub>, subs: seq<Sub>)
    requires Latched(first, loc, dl) && (forall x :: x in subs ==> x !in loc)
    ensures Latched(first, LocateAll(loc, subs), dl)
  {
    Located(loc, subs);
  }

  /** The step does not start moving a finished read while DL2 of its bank is busy. */
  predicate Clean(s: State, e: Event) {
    e.ReadReady? && s.At(PendRead(e.chan)) != [] ==> s.At(PendRead(e.chan))[0].Bank() !in s.dl2
  }

  /** What each step does to the latch tables; `x` is the command it works on. */
  predicate LatchesSet(s: State, e: Event, s': State) {
    match e
    case Dispatch(c, b) =>
      var x := Front(s, Listed(c, b));
      && (x.ctype == READ ==> (c, b) !in s.dl1 && s'.dl1 == s.dl1[(c, b) := x] && s'.dl2 == s.dl2)
      && (x.ctype == WRITE ==> (c, b) !in s.dl2 && s'.dl2 == s.dl2[(c, b) := x] && s'.dl1 == s.dl1)
    case ReadReady(c) =>
      var x := Front(s, PendRead(c));
      if (c, x.bank) in s.dl2 then s'.dl1 == s.dl1 && s'.dl2 == s.dl2
      else s'.dl1 == s.dl1 - {(c, x.bank)} && s'.dl2 == s.dl2[(c, x.bank) := x]
    case WriteMove(c) =>
      var x := Front(s, BusLong(c));
      x.ctype == WRITE && (c, x.bank) !in s.dl1 && s'.dl1 == s.dl1[(c, x.bank) := x] && s'.dl2 == s.dl2 - {(c, x.bank)}
    case ReadDone(c) =>
      Front(s, BusLong(c)).ctype == READ && s'.dl1 == s.dl1 && s'.dl2 == s.dl2 - {(c, Front(s, BusLong(c)).bank)}
    case WriteDone(c) => s'.dl1 == s.dl1 - {(c, Front(s, PendWrite(c)).bank)} && s'.dl2 == s.dl2
    case _ => s'.dl1 == s.dl1 && s'.dl2 == s.dl2
  }

  function Front(s: State, at: Place): Sub {
    if s.At(at) != [] then s.At(at)[0] else Sub(0, 0, READ, 0, 0, 0)
  }

  lemma StepLatches(p: Params, s: State, e: Event)
    requires Sized(p, s) && Apply(p, s, e).Some?
    ensures LatchesSet(s, e, Apply(p, s, e).value)
  {
    match e
    case ReadDone(c) => FinishLatches(p, s, BusLong(c));
    case WriteDone(c) => FinishLatches(p, s, PendWrite(c));
    case _ =>
  }

  lemma FinishLatches(p: Params, s: State, from: Place)
    requires Sized(p, s) && s.At(from) != [] && Finish(p, s, from).Some?
    ensures var x, r := s.At(from)[0], Finish(p, s, from).value;
            && r.dl1 == (if from.BusLong? then s.dl1 else s.dl1 - {(from.chan, x.bank)})
            && r.dl2 == (if from.BusLong? then s.dl2 - {(from.chan, x.bank)} else s.dl2)
  {}

  lemma MoveExclusive(p: Params, s: State, e: Event, s': State)
    requires Conserved(p, s) && Exclusive(s) && Clean(s, e)
    requires Shaped(s, e, s') && LatchesSet(s, e, s') && ShapeOf(s, e).Moved?
    ensures Exclusive(s')
  {
    hide Latched, Kept;
    var from, to := ShapeOf(s, e).from, ShapeOf(s, e).to;
    FrontFits(p, s, from);
    LatchMove(true, s.loc, s.dl1, s.At(from)[0], to);
    LatchMove(false, s.loc, s.dl2, s.At(from)[0], to);
  }

  lemma RetireExclusive(p: Params, s: State, e: Event, s': State)
    requires Conserved(p, s) && Exclusive(s)
    requires Shaped(s, e, s') && LatchesSet(s, e, s') && ShapeOf(s, e).Retired?
    ensures Exclusive(s')
  {
    hide Latched, Kept;
    var at := ShapeOf(s, e).at;
    FrontFits(p, s, at);
    LatchRetire(true, s.loc, s.dl1, s.At(at)[0]);
    LatchRetire(false, s.loc, s.dl2, s.At(at)[0]);
  }

  lemma Fresh(p: Params, s: State, e: Event)
    requires Sized(p, s) && Counted(p, s) && e.Accept? && Apply(p, s, e).Some?
    ensures forall x :: x in SubsOf(e.slot, e.ctype, e.homes) ==> x !in s.loc
    ensures LiveIn(s.loc, e.slot) == {}
  {
    forall x | x in s.loc ensures x.slot != e.slot { assert Belongs(s, x); }
    forall x | x in SubsOf(e.slot, e.ctype, e.homes) ensures x !in s.loc { assert x.slot == e.slot; }
  }

  /** Every clean step keeps latch exclusion. */
  lemma StepExclusive(p: Params, s: State, e: Event)
    requires Sized(p, s) && Conserved(p, s) && Counted(p, s) && Exclusive(s) && Clean(s, e)
    requires Apply(p, s, e).Some?
    ensures Exclusive(Apply(p, s, e).value)
  {
    var s' := Apply(p, s, e).value;
    StepShape(p, s, e);
    StepLatches(p, s, e);
    match ShapeOf(s, e)
    case Linked(subs) =>
      Fresh(p, s, e);
      LatchLink(true, s.loc, s.dl1, subs);
      LatchLink(false, s.loc, s.dl2, subs);
    case Moved(_, _) => MoveExclusive(p, s, e, s');
    case Retired(_) => RetireExclusive(p, s, e, s');
    case Still =>
  }

  /** A finished read whose DL2 is busy breaks exclusion at once: it stands in the long queue while
      another command still owns the latch it will release. */
  lemma DirtyStepBreaks(p: Params, s: State, e: Event)
    requires Sized(p, s) && Conserved(p, s) && Exclusive(s) && !Clean(s, e)
    requires Apply(p, s, e).Some?
    ensures !Exclusive(Apply(p, s, e).value)
  {
    var at := PendRead(e.chan);
    FrontFits(p, s, at);
    var x := s.At(at)[0];
    StepShape(p, s, e);
    StepLatches(p, s, e);
    var y := s.dl2[x.Bank()];
    assert Owns(false, s.loc[y], y) && !Owns(false, s.loc[x], x);
    assert Owns(false, Long(e.chan), x);
  }

  // ---- credit ------------------------------------------------------------------------------

  lemma {:induction false} ReadsPut(subs: seq<Sub>, x: Sub)
    ensures Reads(subs + [x]) == Reads(subs) + if x.ctype == READ then 1 else 0
  {
    if subs == [] {
      assert subs + [x] == [x] && [x][1..] == [];
    } else {
      assert (subs + [x])[1..] == subs[1..] + [x];
      ReadsPut(subs[1..], x);
    }
  }

  predicate CreditSet(s: State, e: Event, s': State) {
    match e
    case ShortPop(c) =>
      c < |s.credit| && s.credit[c] > 0 && s'.credit == s.credit[c := s.credit[c] - 1] && s'.due == s.due
    case LongPop(c) =>
      s'.credit == s.credit && c < |s.due| &&
      s'.due == s.due[c := s.due[c] + if Front(s, Long(c)).ctype == READ then 1 else 0]
    case Answer(c) =>
      c < |s.credit| && c < |s.due| && s.due[c] > 0
      && s'.credit == s.credit[c := s.credit[c] + 1] && s'.due == s.due[c := s.due[c] - 1]
    case _ => s'.credit == s.credit && s'.due == s.due
  }

  lemma StepCreditSet(p: Params, s: State, e: Event)
    requires Sized(p, s) && Apply(p, s, e).Some?
    ensures CreditSet(s, e, Apply(p, s, e).value)
  {}

  function Chan(e: Event): nat {
    match e
    case Accept(_, _, _) => 0
    case Complete => 0
    case Poll => 0
    case _ => e.chan
  }

  /** The contents of every place but the bank lists after a step. */
  function After(s: State, e: Event, at: Place): seq<Sub> {
    match ShapeOf(s, e)
    case Moved(from, to) =>
      if at == to then s.At(to) + [Front(s, from)]
      else if at == from && s.At(from) != [] then s.At(from)[1..] else s.At(at)
    case Retired(from) => if at == from && s.At(from) != [] then s.At(from)[1..] else s.At(at)
    case _ => s.At(at)
  }

  lemma StepAfter(s: State, e: Event, s': State, at: Place)
    requires Shaped(s, e, s') && !at.Listed?
    ensures s'.At(at) == After(s, e, at)
  {
    if e.Accept? {
      LinkAppends(s.q, SubsOf(e.slot, e.ctype, e.homes), at);
      BoundElsewhere(SubsOf(e.slot, e.ctype, e.homes), at);
    }
  }

  /** Credit plus outstanding reads is the initial credit: it neither underflows nor exceeds it. */
  lemma StepCredited(p: Params, s: State, e: Event)
    requires Sized(p, s) && Conserved(p, s) && Credited(p, s) && Apply(p, s, e).Some?
    ensures Credited(p, Apply(p, s, e).value)
  {
    var s' := Apply(p, s, e).value;
    StepShape(p, s, e);
    StepCreditSet(p, s, e);
    forall c | 0 <= c < p.chans ensures s'.credit[c] + Outstanding(p, s', c) == p.credit {
      CreditAt(p, s, e, s', c);
    }
  }

  lemma CreditAt(p: Params, s: State, e: Event, s': State, c: nat)
    requires Sized(p, s) && Sized(p, s') && Conserved(p, s) && Credited(p, s)
    requires Shaped(s, e, s') && CreditSet(s, e, s') && c < p.chans
    ensures s'.credit[c] + Outstanding(p, s', c) == p.credit
  {
    StepAfter(s, e, s', BusShort(c));
    StepAfter(s, e, s', PendRead(c));
    StepAfter(s, e, s', Long(c));
    assert s.credit[c] + Outstanding(p, s, c) == p.credit;
    ReadsAfter(p, s, e, c);
    ReadsShape(p, s, e);
  }

  lemma ReadsAfter(p: Params, s: State, e: Event, c: nat)
    ensures var n := Reads(s.At(Long(c)));
            Reads(After(s, e, Long(c))) ==
              match ShapeOf(s, e)
              case Moved(from, to) =>
                if to == Long(c) then n + (if Front(s, from).ctype == READ then 1 else 0)
                else if from == Long(c) && s.At(from) != [] then n - (if Front(s, from).ctype == READ then 1 else 0)
                else n
              case Retired(from) =>
                if from == Long(c) && s.At(from) != [] then n - (if Front(s, from).ctype == READ then 1 else 0) else n
              case _ => n
  {
    if ShapeOf(s, e).Moved? { ReadsPut(s.At(Long(c)), Front(s, ShapeOf(s, e).from)); }
  }

  lemma ReadsShape(p: Params, s: State, e: Event)
    requires Conserved(p, s)
    ensures e.ReadReady? && s.At(PendRead(e.chan)) != [] ==> Front(s, PendRead(e.chan)).ctype == READ
    ensures e.Enqueue? && ShapeOf(s, e).to.Long? && s.At(Hand(e.chan)) != [] ==> Front(s, Hand(e.chan)).ctype == WRITE
  {
    if e.ReadReady? && s.At(PendRead(e.chan)) != [] { FrontFits(p, s, PendRead(e.chan)); }
  }

  // ---- the running count -------------------------------------------------------------------

  lemma {:induction false} CardOfSeq<T(!new)>(xs: seq<T>)
    requires NoDup(xs)
    ensures |set x | x in xs| == |xs|
  {
    if xs == [] {
    } else {
      var n := |xs| - 1;
      CardOfSeq(xs[..n]);
      assert xs == xs[..n] + [xs[n]];
      assert (set x | x in xs) == (set x | x in xs[..n]) + {xs[n]};
      assert xs[n] !in xs[..n];
    }
  }

  /** Counting down a live sub-command always yields the number that stays live. */
  lemma CountDown(p: Params, s: State, x: Sub)
    requires Sized(p, s) && Counted(p, s) && x in s.loc
    ensures x.slot < p.slots && s.phase[x.slot] == Running
    ensures Update(s.cnt[x.slot], x.cwCnt) == |LiveIn(s.loc, x.slot)| - 1 == |LiveIn(s.loc - {x}, x.slot)|
  {
    assert Belongs(s, x) && CountAt(s, x.slot);
    assert x in LiveIn(s.loc, x.slot);
    assert LiveIn(s.loc - {x}, x.slot) == LiveIn(s.loc, x.slot) - {x};
  }

  /** What finishing sub-command `x` does to the books. */
  predicate Booked(s: State, x: Sub, s': State) {
    && x.slot < |s.cnt| && x.slot < |s.phase| && x.slot < |s.table|
    && s'.table == s.table && s'.accepts == s.accepts && s'.drained == s.drained
    && var c := Update(s.cnt[x.slot], x.cwCnt);
       && c >= 0 && s'.cnt == s.cnt[x.slot := c]
       && if c != 0 then s'.phase == s.phase && s'.slotNumQ == s.slotNumQ && s'.log == s.log
          else if x.ctype == WRITE then
            && s'.phase == s.phase[x.slot := Reported] && s'.slotNumQ == s.slotNumQ
            && s'.log == s.log + [Entry(x.slot, s.table[x.slot].ctype, s.table[x.slot].cwCnt)]
          else s'.phase == s.phase[x.slot := Finished] && s'.slotNumQ == s.slotNumQ + [x.slot] && s'.log == s.log
  }

  predicate BooksSet(s: State, e: Event, s': State) {
    match e
    case Accept(t, ctype, homes) =>
      && t < |s.phase| && t < |s.table| && s.phase[t] == Idle && homes != []
      && s'.phase == s.phase[t := Running] && s'.table == s.table[t := Entry(t, ctype, |homes|)]
      && s'.accepts == s.accepts + [Entry(t, ctype, |homes|)]
      && s'.cnt == s.cnt && s'.slotNumQ == s.slotNumQ && s'.log == s.log && s'.drained == s.drained
    case ReadDone(c) => Booked(s, Front(s, BusLong(c)), s')
    case WriteDone(c) => Booked(s, Front(s, PendWrite(c)), s')
    case Complete =>
      && s.slotNumQ != [] && s.slotNumQ[0] < |s.phase| && s.slotNumQ[0] < |s.table|
      && var t := s.slotNumQ[0];
         && s'.slotNumQ == s.slotNumQ[1..] && s'.phase == s.phase[t := Reported]
         && s'.log == s.log + [Entry(t, s.table[t].ctype, s.table[t].cwCnt)]
         && s'.cnt == s.cnt && s'.table == s.table && s'.accepts == s.accepts && s'.drained == s.drained
    case Poll =>
      && s.drained <= |s.log|
      && var n := PollSize(|s.Pending()|);
         && s'.drained == s.drained + n && s'.phase == Freed(s.phase, SlotsIn(s.Pending()[..n]))
         && s'.cnt == s.cnt && s'.table == s.table && s'.accepts == s.accepts
         && s'.slotNumQ == s.slotNumQ && s'.log == s.log
    case _ =>
      && s'.cnt == s.cnt && s'.table == s.table && s'.phase == s.phase && s'.accepts == s.accepts
      && s'.slotNumQ == s.slotNumQ && s'.log == s.log && s'.drained == s.drained
  }

  lemma FinishBooks(p: Params, s: State, from: Place)
    requires Sized(p, s) && s.At(from) != [] && Finish(p, s, from).Some?
    ensures Booked(s, s.At(from)[0], Finish(p, s, from).value)
  {}

  lemma StepBooks(p: Params, s: State, e: Event)
    requires Sized(p, s) && Apply(p, s, e).Some?
    ensures BooksSet(s, e, Apply(p, s, e).value)
  {
    match e
    case ReadDone(c) => FinishBooks(p, s, BusLong(c));
    case WriteDone(c) => FinishBooks(p, s, PendWrite(c));
    case _ =>
  }

  lemma AcceptCounted(p: Params, s: State, e: Event, s': State)
    requires Sized(p, s) && Sized(p, s') && Counted(p, s) && e.Accept? && BooksSet(s, e, s')
    requires s'.loc == LocateAll(s.loc, SubsOf(e.slot, e.ctype, e.homes))
    requires LiveIn(s.loc, e.slot) == {}
    ensures Counted(p, s')
  {
    var subs := SubsOf(e.slot, e.ctype, e.homes);
    Located(s.loc, subs);
    NoneLive(s.loc, e.slot);
    AcceptedLive(s.loc, s'.loc, subs, e.slot);
    hide LocateAll;
    forall t | 0 <= t < p.slots ensures CountAt(s', t) {
      assert CountAt(s, t);
      if t != e.slot { assert LiveIn(s'.loc, t) == LiveIn(s.loc, t); }
    }
    AcceptBelongs(p, s, e, s');
    hide CountAt, Belongs, BooksSet;
  }

  lemma AcceptBelongs(p: Params, s: State, e: Event, s': State)
    requires Sized(p, s) && Sized(p, s') && Counted(p, s) && e.Accept? && BooksSet(s, e, s')
    requires forall x :: x in s'.loc <==> x in s.loc || x in SubsOf(e.slot, e.ctype, e.homes)
    requires forall x :: x in s.loc ==> x.slot != e.slot
    ensures forall x :: x in s'.loc ==> Belongs(s', x)
    ensures forall x, y :: x in s'.loc && y in s'.loc && x.slot == y.slot && x.idx == y.idx ==> x == y
  {
    hide CountAt;
    forall x | x in s'.loc ensures Belongs(s', x) {
      if x in s.loc { assert Belongs(s, x); }
    }
  }

  lemma NoneLive(loc: map<Sub, Place>, slot: nat)
    requires LiveIn(loc, slot) == {}
    ensures forall x :: x in loc ==> x.slot != slot
  {
    forall x | x in loc ensures x.slot != slot { assert x !in LiveIn(loc, slot); }
  }

  lemma AcceptedLive(loc: map<Sub, Place>, loc': map<Sub, Place>, subs: seq<Sub>, slot: nat)
    requires NoDup(subs) && LiveIn(loc, slot) == {}
    requires forall x :: x in subs ==> x.slot == slot
    requires forall x :: x in loc' <==> x in loc || x in subs
    ensures |LiveIn(loc', slot)| == |subs|
  {
    CardOfSeq(subs);
    forall x | x in LiveIn(loc', slot) ensures x in subs {
      assert x in loc ==> x in LiveIn(loc, slot);
    }
    assert LiveIn(loc', slot) == set x | x in subs;
  }

  lemma RetireCounted(p: Params, s: State, x: Sub, s': State)
    requires Sized(p, s) && Sized(p, s') && Counted(p, s) && x in s.loc
    requires Booked(s, x, s') && s'.loc == s.loc - {x}
    ensures Counted(p, s')
  {
    CountDown(p, s, x);
    assert Belongs(s, x) && CountAt(s, x.slot);
    forall t | 0 <= t < p.slots ensures CountAt(s', t) {
      assert CountAt(s, t);
      if t != x.slot { assert LiveIn(s'.loc, t) == LiveIn(s.loc, t); }
    }
    forall y | y in s'.loc ensures Belongs(s', y) {
      assert Belongs(s, y);
      assert y.slot == x.slot ==> y in LiveIn(s'.loc, x.slot);
    }
  }

  /** Steps that neither add nor remove a sub-command and leave the running slots alone. */
  lemma SameCounted(p: Params, s: State, s': State)
    requires Sized(p, s) && Sized(p, s') && Counted(p, s)
    requires s'.loc.Keys == s.loc.Keys && s'.cnt == s.cnt && s'.table == s.table
    requires forall t :: 0 <= t < p.slots ==> (s.phase[t] == Running <==> s'.phase[t] == Running)
    ensures Counted(p, s')
  {
    forall t | 0 <= t < p.slots ensures CountAt(s', t) {
      assert CountAt(s, t);
      assert LiveIn(s'.loc, t) == LiveIn(s.loc, t);
    }
    forall y | y in s'.loc ensures Belongs(s', y) { assert Belongs(s, y); }
  }

  lemma SamePhases(p: Params, s: State, e: Event, s': State)
    requires Sized(p, s) && Sized(p, s') && Reporting(p, s)
    requires BooksSet(s, e, s') && (ShapeOf(s, e).Still? || ShapeOf(s, e).Moved?)
    ensures s'.cnt == s.cnt && s'.table == s.table
    ensures forall t :: 0 <= t < p.slots ==> (s.phase[t] == Running <==> s'.phase[t] == Running)
  {
    if e.Poll? {
      var n := PollSize(|s.Pending()|);
      forall t | 0 <= t < p.slots ensures s.phase[t] == Running <==> s'.phase[t] == Running {
        if t in SlotsIn(s.Pending()[..n]) { assert t in SlotsIn(s.Pending()); }
      }
    } else if e.Complete? {
      assert s.slotNumQ[0] in s.slotNumQ;
    }
  }

  lemma StepCounted(p: Params, s: State, e: Event)
    requires Sized(p, s) && Conserved(p, s) && Counted(p, s) && Reporting(p, s) && Apply(p, s, e).Some?
    ensures Counted(p, Apply(p, s, e).value)
  {
    var s' := Apply(p, s, e).value;
    StepShape(p, s, e);
    StepBooks(p, s, e);
    match ShapeOf(s, e)
    case Linked(_) => Fresh(p, s, e); AcceptCounted(p, s, e, s');
    case Retired(at) => FrontFits(p, s, at); RetireCounted(p, s, s.At(at)[0], s');
    case Moved(from, _) => FrontFits(p, s, from); SamePhases(p, s, e, s'); SameCounted(p, s, s');
    case Still => SamePhases(p, s, e, s'); SameCounted(p, s, s');
  }

  // ---- completions -------------------------------------------------------------------------

  lemma SelPut(entries: seq<Entry>, e: Entry, t: nat)
    ensures Sel(entries + [e], t) == Sel(entries, t) + if e.slot == t then [e] else []
  {
    assert (entries + [e])[..|entries|] == entries;
  }

  lemma SlotsPut(entries: seq<Entry>, e: Entry)
    ensures SlotsIn(entries + [e]) == SlotsIn(entries) + {e.slot}
  {
    forall t | t in SlotsIn(entries) + {e.slot} ensures t in SlotsIn(entries + [e]) {
      if t == e.slot { assert e in entries + [e]; }
      else { var f :| f in entries && f.slot == t; assert f in entries + [e]; }
    }
  }

  lemma SlotAt(entries: seq<Entry>, k: nat)
    requires k < |entries|
    ensures entries[k].slot in SlotsIn(entries)
  {
    assert entries[k] in entries;
  }

  lemma PushOnce(p: Params, s: State, t: nat, s': State, u: nat)
    requires Sized(p, s) && Sized(p, s') && t < p.slots && u < p.slots && OnceAt(s, u)
    requires s.phase[t] == Running || s.phase[t] == Finished
    requires s'.log == s.log + [Entry(t, s.table[t].ctype, s.table[t].cwCnt)] && s'.phase == s.phase[t := Reported]
    requires s'.table == s.table && s'.accepts == s.accepts
    ensures OnceAt(s', u)
  {
    hide Sel;
    var e := Entry(t, s.table[t].ctype, s.table[t].cwCnt);
    SelPut(s.log, e, u);
    if u == t {
      assert OpenAt(s, u) == [e] && OpenAt(s', u) == [];
      assert Sel(s.log, u) + [e] + [] == Sel(s.log, u) + [e];
    } else {
      assert OpenAt(s', u) == OpenAt(s, u);
      assert Sel(s.log, u) + [] == Sel(s.log, u);
    }
  }

  lemma NotPending(p: Params, s: State, t: nat)
    requires Sized(p, s) && Reporting(p, s) && t < p.slots && s.phase[t] != Reported
    ensures forall k :: 0 <= k < |s.Pending()| ==> s.Pending()[k].slot != t
  {
    hide OnceAt, Sel, NoSlotTwice;
    assert t !in SlotsIn(s.Pending());
    forall k | 0 <= k < |s.Pending()| ensures s.Pending()[k].slot != t { SlotAt(s.Pending(), k); }
  }

  /** Queueing the completion of a slot that was Running or Finished. */
  lemma PushReporting(p: Params, s: State, t: nat, s': State)
    requires Sized(p, s) && Sized(p, s') && Reporting(p, s) && t < p.slots
    requires s.phase[t] == Running || s.phase[t] == Finished
    requires s'.log == s.log + [Entry(t, s.table[t].ctype, s.table[t].cwCnt)] && s'.phase == s.phase[t := Reported]
    requires s'.table == s.table && s'.accepts == s.accepts && s'.drained == s.drained
    requires if s.phase[t] == Running then s'.slotNumQ == s.slotNumQ
             else s.slotNumQ != [] && s.slotNumQ[0] == t && s'.slotNumQ == s.slotNumQ[1..]
    ensures Reporting(p, s')
  {
    var e := Entry(t, s.table[t].ctype, s.table[t].cwCnt);
    assert s'.Pending() == s.Pending() + [e];
    SlotsPut(s.Pending(), e);
    NotPending(p, s, t);
    forall u | 0 <= u < p.slots ensures OnceAt(s', u) { PushOnce(p, s, t, s', u); }
    if s.phase[t] == Finished { FrontLeaves(s.slotNumQ); }
  }

  lemma FrontLeaves(q: seq<nat>)
    requires q != [] && NoDup(q)
    ensures NoDup(q[1..]) && forall t :: t in q[1..] <==> t in q && t != q[0]
  {
    assert q == [q[0]] + q[1..];
    forall k | 0 <= k < |q[1..]| ensures q[1..][k] != q[0] { assert q[0] != q[k + 1]; }
  }

  lemma AcceptReporting(p: Params, s: State, e: Event, s': State)
    requires Sized(p, s) && Sized(p, s') && Reporting(p, s) && e.Accept? && BooksSet(s, e, s')
    ensures Reporting(p, s')
  {
    forall u | 0 <= u < p.slots ensures OnceAt(s', u) {
      assert OnceAt(s, u);
      SelPut(s.accepts, Entry(e.slot, e.ctype, |e.homes|), u);
    }
  }

  lemma BookedReporting(p: Params, s: State, x: Sub, s': State)
    requires Sized(p, s) && Sized(p, s') && Reporting(p, s) && Booked(s, x, s') && s.phase[x.slot] == Running
    ensures Reporting(p, s')
  {
    if Update(s.cnt[x.slot], x.cwCnt) == 0 && x.ctype == WRITE {
      PushReporting(p, s, x.slot, s');
    } else {
      assert x.slot !in s.slotNumQ;
      forall u | 0 <= u < p.slots ensures OnceAt(s', u) { assert OnceAt(s, u); }
    }
  }

  lemma PollReporting(p: Params, s: State, s': State)
    requires Sized(p, s) && Sized(p, s') && Reporting(p, s) && BooksSet(s, Poll, s')
    ensures Reporting(p, s')
  {
    var pend, n := s.Pending(), PollSize(|s.Pending()|);
    assert s'.Pending() == pend[n..];
    forall t ensures t in SlotsIn(pend[n..]) <==> t in SlotsIn(pend) && t !in SlotsIn(pend[..n]) {
      SlotsSplit(pend, n, t);
    }
    forall u | 0 <= u < p.slots ensures OnceAt(s', u) {
      assert OnceAt(s, u);
      if u in SlotsIn(pend[..n]) { SlotsSplit(pend, n, u); }
    }
  }

  lemma SlotsSplit(entries: seq<Entry>, n: nat, t: nat)
    requires NoSlotTwice(entries) && n <= |entries|
    ensures t in SlotsIn(entries[n..]) <==> t in SlotsIn(entries) && t !in SlotsIn(entries[..n])
    ensures t in SlotsIn(entries[..n]) ==> t in SlotsIn(entries)
  {
    if t in SlotsIn(entries[n..]) {
      var k := SlotIndex(entries[n..], t);
      SlotAt(entries, n + k);
      forall j | 0 <= j < n ensures entries[..n][j].slot != t { SlotsDiffer(entries, j, n + k); }
      assert t !in SlotsIn(entries[..n]);
    }
    if t in SlotsIn(entries[..n]) {
      var j := SlotIndex(entries[..n], t);
      SlotAt(entries, j);
    }
    if t in SlotsIn(entries) {
      var k := SlotIndex(entries, t);
      if k < n { SlotAt(entries[..n], k); } else { SlotAt(entries[n..], k - n); }
    }
  }

  lemma SlotIndex(entries: seq<Entry>, t: nat) returns (k: nat)
    requires t in SlotsIn(entries)
    ensures k < |entries| && entries[k].slot == t
  {
    var f :| f in entries && f.slot == t;
    k :| 0 <= k < |entries| && entries[k] == f;
  }

  lemma SlotsDiffer(entries: seq<Entry>, j: nat, k: nat)
    requires NoSlotTwice(entries) && j < k < |entries|
    ensures entries[j].slot != entries[k].slot
  {}

  lemma StepReporting(p: Params, s: State, e: Event)
    requires Sized(p, s) && Conserved(p, s) && Counted(p, s) && Reporting(p, s) && Apply(p, s, e).Some?
    ensures Reporting(p, Apply(p, s, e).value)
  {
    var s' := Apply(p, s, e).value;
    StepShape(p, s, e);
    StepBooks(p, s, e);
    match ShapeOf(s, e)
    case Linked(_) => AcceptReporting(p, s, e, s');
    case Retired(at) =>
      FrontFits(p, s, at);
      assert Belongs(s, s.At(at)[0]);
      BookedReporting(p, s, s.At(at)[0], s');
    case Moved(_, _) => SameReporting(p, s, s');
    case Still =>
      if e.Poll? { PollReporting(p, s, s'); }
      else if e.Complete? { assert s.slotNumQ[0] in s.slotNumQ; PushReporting(p, s, s.slotNumQ[0], s'); }
      else { SameReporting(p, s, s'); }
  }

  lemma SameReporting(p: Params, s: State, s': State)
    requires Sized(p, s) && Sized(p, s') && Reporting(p, s)
    requires s'.phase == s.phase && s'.table == s.table && s'.accepts == s.accepts
    requires s'.slotNumQ == s.slotNumQ && s'.log == s.log && s'.drained == s.drained
    ensures Reporting(p, s')
  {
    forall u | 0 <= u < p.slots ensures OnceAt(s', u) { assert OnceAt(s, u); }
  }

  // ---- every run ---------------------------------------------------------------------------

  ghost predicate Safe(p: Params, s: State) {
    && Sized(p, s) && Conserved(p, s) && Bounded(p, s) && Credited(p, s) && Counted(p, s) && Reporting(p, s)
  }

  lemma StepSafe(p: Params, s: State, e: Event)
    requires Safe(p, s) && Apply(p, s, e).Some?
    ensures Safe(p, Apply(p, s, e).value)
  {
    StepConserves(p, s, e);
    StepBounded(p, s, e);
    StepCredited(p, s, e);
    StepCounted(p, s, e);
    StepReporting(p, s, e);
  }

  lemma InitSafe(p: Params)
    ensures Safe(p, Init(p)) && Exclusive(Init(p))
  {
    var s := Init(p);
    forall t | 0 <= t < p.slots ensures CountAt(s, t) && OnceAt(s, t) { assert LiveIn(s.loc, t) == {}; }
  }

  lemma {:induction false} RunConcat(p: Params, s: State, a: seq<Event>, b: seq<Event>)
    requires Sized(p, s) && Run(p, s, a).Some?
    ensures Run(p, s, a + b) == Run(p, Run(p, s, a).value, b)
    decreases |b|
  {
    if b == [] {
      assert a + b == a;
    } else {
      RunConcat(p, s, a, b[..|b| - 1]);
      assert (a + b)[..|a + b| - 1] == a + b[..|b| - 1];
    }
  }

  lemma RunOne(p: Params, s: State, e: Event)
    requires Sized(p, s)
    ensures Run(p, s, [e]) == Apply(p, s, e)
  {
    assert [e][..0] == [];
  }

  /** Conservation, bounds, credit, running counts and exactly-once completion hold after every run,
      whatever the interleaving. */
  lemma {:induction false} RunSafe(p: Params, es: seq<Event>)
    requires Run(p, Init(p), es).Some?
    ensures Safe(p, Run(p, Init(p), es).value)
  {
    if es == [] {
      InitSafe(p);
    } else {
      var s := Run(p, Init(p), es[..|es| - 1]);
      RunSafe(p, es[..|es| - 1]);
      StepSafe(p, s.value, es[|es| - 1]);
    }
  }

  /** Every finished read finds DL2 of its bank free. */
  ghost predicate CleanRun(p: Params, es: seq<Event>)
    decreases |es|
  {
    es == [] ||
    (CleanRun(p, es[..|es| - 1]) &&
     match Run(p, Init(p), es[..|es| - 1])
     case None => true
     case Some(s) => Clean(s, es[|es| - 1]))
  }

  /** Latch exclusion over every clean run. */
  lemma {:induction false} RunExclusive(p: Params, es: seq<Event>)
    requires Run(p, Init(p), es).Some? && CleanRun(p, es)
    ensures Exclusive(Run(p, Init(p), es).value)
  {
    if es == [] {
      InitSafe(p);
    } else {
      var before := es[..|es| - 1];
      RunSafe(p, before);
      RunExclusive(p, before);
      StepExclusive(p, Run(p, Init(p), before).value, es[|es| - 1]);
    }
  }

  /** From an exclusive state a step keeps exclusion exactly when it is clean. */
  lemma ExclusiveIffClean(p: Params, s: State, e: Event)
    requires Safe(p, s) && Exclusive(s) && Apply(p, s, e).Some?
    ensures Exclusive(Apply(p, s, e).value) <==> Clean(s, e)
  {
    if Clean(s, e) { StepExclusive(p, s, e); } else { DirtyStepBreaks(p, s, e); }
  }

  /** A slot's completion is set off by the step that finishes its last live sub-command, and its
      running count is then back at 0 for the next use of the slot. */
  lemma CompletesOnLast(p: Params, s: State, e: Event)
    requires Safe(p, s) && (e.ReadDone? || e.WriteDone?) && Apply(p, s, e).Some?
    ensures var x := Front(s, ShapeOf(s, e).at);
            var s' := Apply(p, s, e).value;
            && x in s.loc && s.phase[x.slot] == Running
            && (s'.phase[x.slot] != Running <==> LiveIn(s.loc, x.slot) == {x})
            && (s'.phase[x.slot] != Running ==> s'.cnt[x.slot] == 0)
  {
    StepShape(p, s, e);
    StepBooks(p, s, e);
    var x := Front(s, ShapeOf(s, e).at);
    FrontFits(p, s, ShapeOf(s, e).at);
    CountDown(p, s, x);
    assert x in LiveIn(s.loc, x.slot);
    if |LiveIn(s.loc, x.slot)| == 1 {
      assert |LiveIn(s.loc, x.slot) - {x}| == 0;
      assert LiveIn(s.loc, x.slot) == {x};
    }
  }

  // ---- runs without reads are clean --------------------------------------------------------

  predicate WriteOnly(es: seq<Event>) {
    forall k :: 0 <= k < |es| && es[k].Accept? ==> es[k].ctype == WRITE
  }

  lemma {:induction false} OnlyWrites(p: Params, es: seq<Event>)
    requires WriteOnly(es) && Run(p, Init(p), es).Some?
    ensures forall x :: x in Run(p, Init(p), es).value.loc ==> x.ctype == WRITE
  {
    if es != [] {
      var before, e := es[..|es| - 1], es[|es| - 1];
      var s := Run(p, Init(p), before).value;
      OnlyWrites(p, before);
      RunSafe(p, before);
      StepShape(p, s, e);
      StepTypes(p, s, e, Run(p, Init(p), es).value);
      hide Apply, Safe, Shaped;
    }
  }

  lemma StepTypes(p: Params, s: State, e: Event, s': State)
    requires Safe(p, s) && Shaped(s, e, s') && (e.Accept? ==> e.ctype == WRITE)
    requires forall x :: x in s.loc ==> x.ctype == WRITE
    ensures forall x :: x in s'.loc ==> x.ctype == WRITE
  {
    hide Bounded, Credited, Counted, Reporting;
    match ShapeOf(s, e)
    case Linked(subs) => Located(s.loc, subs);
    case Moved(from, _) => FrontFits(p, s, from);
    case _ =>
  }

  lemma {:induction false} WriteOnlyClean(p: Params, es: seq<Event>)
    requires WriteOnly(es) && Run(p, Init(p), es).Some?
    ensures CleanRun(p, es)
  {
    if es != [] {
      var before := es[..|es| - 1];
      WriteOnlyClean(p, before);
      OnlyWrites(p, before);
      RunSafe(p, before);
      var s, e := Run(p, Init(p), before).value, es[|es| - 1];
      if e.ReadReady? && s.At(PendRead(e.chan)) != [] { FrontFits(p, s, PendRead(e.chan)); }
    }
  }
}
