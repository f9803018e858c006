/** Where the pipeline stops for good. Two things spoil a bank: a finished read that finds DL2 busy
    (its DL1 is then never released), and a read holding DL1 while a write holds DL2 (each waits for
    the other's latch). */
module PipelineStall {
  import opened Common
  import opened Pipeline
  import opened PipelineSafety

  // ---- banks that never come back ----------------------------------------------------------

  /** DL1 is busy and no live command owns it. */
  ghost predicate Dead(s: State, b: (nat, nat)) {
    b in s.dl1 && forall x :: x in s.loc && x.Bank() == b ==> !Owns(true, s.loc[x], x)
  }

  /** Latch exclusion at one bank. */
  ghost predicate LatchedAt(first: bool, loc: map<Sub, Place>, dl: map<(nat, nat), Sub>, b: (nat, nat)) {
    && (forall x :: x in loc && x.Bank() == b && Owns(first, loc[x], x) ==> b in dl && dl[b] == x)
    && (b in dl ==> dl[b] in loc && dl[b].Bank() == b && Owns(first, loc[dl[b]], dl[b]))
  }

  /** A read took DL1 and a write took DL2. */
  predicate Opposed(s: State, b: (nat, nat)) {
    b in s.dl1 && b in s.dl2 && s.dl1[b].ctype == READ && s.dl2[b].ctype == WRITE
  }

  ghost predicate Crossed(s: State, b: (nat, nat)) {
    Opposed(s, b) && LatchedAt(true, s.loc, s.dl1, b) && LatchedAt(false, s.loc, s.dl2, b)
  }

  ghost predicate Doomed(s: State, b: (nat, nat)) { Dead(s, b) || Crossed(s, b) }

  /** What a step does to the command it works on, and to no other. */
  predicate Worked(s: State, e: Event, s': State, x: Sub) {
    match ShapeOf(s, e)
    case Linked(_) => (x !in s.loc ==> x in s'.loc ==> s'.loc[x].Listed?) && (x in s.loc ==> x in s'.loc && s'.loc[x] == s.loc[x])
    case Moved(from, to) => (x in s'.loc <==> x in s.loc) && (x in s.loc ==> s'.loc[x] == if x == Front(s, from) then to else s.loc[x])
    case Retired(at) => (x in s'.loc <==> x in s.loc && x != Front(s, at)) && (x in s'.loc ==> s'.loc[x] == s.loc[x])
    case Still => s'.loc == s.loc
  }

  lemma StepWorks(p: Params, s: State, e: Event, s': State, x: Sub)
    requires Safe(p, s) && Apply(p, s, e) == Some(s')
    ensures Worked(s, e, s', x)
    ensures ShapeOf(s, e).Moved? ==> FrontAt(p, s, ShapeOf(s, e).from)
    ensures ShapeOf(s, e).Retired? ==> FrontAt(p, s, ShapeOf(s, e).at)
  {
    hide Conserved, Bounded, Credited, Counted, Reporting;
    StepShape(p, s, e);
    match ShapeOf(s, e)
    case Linked(subs) => Located(s.loc, subs); Fresh(p, s, e);
    case Moved(from, _) => FrontFits(p, s, from);
    case Retired(at) => FrontFits(p, s, at);
    case Still =>
  }

  ghost predicate FrontAt(p: Params, s: State, at: Place) {
    var x := Front(s, at);
    x in s.loc && s.loc[x] == at && Fits(p, at, x)
  }

  /** All that a step does to the commands and latches. */
  ghost predicate Effect(p: Params, s: State, e: Event, s': State) {
    && (forall x :: Worked(s, e, s', x)) && LatchesSet(s, e, s')
    && (ShapeOf(s, e).Moved? ==> FrontAt(p, s, ShapeOf(s, e).from) && Fits(p, ShapeOf(s, e).to, Front(s, ShapeOf(s, e).from)))
    && (ShapeOf(s, e).Retired? ==> FrontAt(p, s, ShapeOf(s, e).at))
  }

  lemma StepEffect(p: Params, s: State, e: Event, s': State)
    requires Safe(p, s) && Apply(p, s, e) == Some(s')
    ensures Effect(p, s, e, s')
  {
    StepLatches(p, s, e);
    StepShape(p, s, e);
    if ShapeOf(s, e).Moved? { MoveFits(p, s, e, s'); }
    hide *;
    forall x ensures Worked(s, e, s', x) { StepWorks(p, s, e, s', x); }
    StepWorks(p, s, e, s', Sub(0, 0, READ, 0, 0, 0));
  }

  /** Dead banks stay dead: nobody can release DL1, so nobody can take it either. */
  lemma StepDead(p: Params, s: State, e: Event, s': State, b: (nat, nat))
    requires Effect(p, s, e, s') && Dead(s, b)
    ensures Dead(s', b)
  {
    forall x | x in s'.loc && x.Bank() == b ensures !Owns(true, s'.loc[x], x) {
      assert Worked(s, e, s', x);
    }
  }

  /** A read and a write that hold each other's latch never get free: the read either stays or leaves
      DL1 busy behind it. */
  lemma StepCrossed(p: Params, s: State, e: Event, s': State, b: (nat, nat))
    requires Effect(p, s, e, s') && Crossed(s, b)
    ensures Doomed(s', b)
  {
    var x, y := s.dl1[b], s.dl2[b];
    assert Worked(s, e, s', x) && Worked(s, e, s', y);
    forall z | z in s'.loc && z.Bank() == b
      ensures Owns(true, s'.loc[z], z) ==> z == x && Owns(true, s.loc[x], x)
      ensures Owns(false, s'.loc[z], z) ==> z == y || (e.ReadReady? && z == x)
    {
      assert Worked(s, e, s', z);
    }
  }

  lemma StepDoomed(p: Params, s: State, e: Event, s': State, b: (nat, nat))
    requires Effect(p, s, e, s') && Doomed(s, b)
    ensures Doomed(s', b)
  {
    if Dead(s, b) { StepDead(p, s, e, s', b); } else { StepCrossed(p, s, e, s', b); }
  }

  /** Commands of a doomed bank that can no longer finish: all its writes, and the reads in its list. */
  predicate Trapped(s: State, b: (nat, nat), x: Sub) {
    x in s.loc && x.Bank() == b && (s.loc[x].Listed? || x.ctype == WRITE)
  }

  lemma StepTrapped(p: Params, s: State, e: Event, s': State, b: (nat, nat), x: Sub)
    requires Effect(p, s, e, s') && Doomed(s, b) && Trapped(s, b, x)
    ensures Trapped(s', b, x)
    ensures x.ctype == READ ==> s'.loc[x] == s.loc[x]
    ensures x.ctype == WRITE && s.loc[x].BusLong? ==> s'.loc[x] == s.loc[x]
  {
    assert Worked(s, e, s', x);
  }

  /** A doomed bank stays doomed in every continuation. Its reads never leave their list again; its
      writes never leave the pipeline, and one that reaches the bus stays there, so that nothing of its
      channel is sent any more. The slots of all of them stay open. */
  lemma {:induction false} DoomedForever(p: Params, s: State, es: seq<Event>, b: (nat, nat), x: Sub)
    requires Safe(p, s) && Doomed(s, b) && Trapped(s, b, x) && Run(p, s, es).Some?
    ensures var s' := Run(p, s, es).value;
            && Safe(p, s') && Doomed(s', b) && Trapped(s', b, x) && s'.phase[x.slot] == Running
            && (x.ctype == READ ==> s'.loc[x] == s.loc[x])
            && (x.ctype == WRITE && s.loc[x].BusLong? ==> s'.loc[x] == s.loc[x])
    decreases |es|
  {
    if es == [] {
      assert Belongs(s, x);
    } else {
      var before, e := es[..|es| - 1], es[|es| - 1];
      DoomedForever(p, s, before, b, x);
      var t, s' := Run(p, s, before).value, Run(p, s, es).value;
      StepSafe(p, t, e);
      StepEffect(p, t, e, s');
      StepDoomed(p, t, e, s', b);
      StepTrapped(p, t, e, s', b, x);
      assert Belongs(s', x);
    }
  }

  // ---- how a bank gets doomed --------------------------------------------------------------

  /** The dispatcher takes a latch while the other latch of the bank is held by a command of the
      other type. */
  predicate Crosses(s: State, e: Event) {
    e.Dispatch? &&
    var b, x := (e.chan, e.bank), Front(s, Listed(e.chan, e.bank));
    if x.ctype == READ then b in s.dl2 && s.dl2[b].ctype == WRITE else b in s.dl1 && s.dl1[b].ctype == READ
  }

  predicate Careful(s: State, e: Event) { Clean(s, e) && !Crosses(s, e) }

  /** Latches exclusive, and nowhere a read and a write in each other's way. */
  ghost predicate Healthy(s: State) { Exclusive(s) && forall b :: !Opposed(s, b) }

  lemma HealthyFree(s: State, b: (nat, nat))
    requires Healthy(s)
    ensures !Doomed(s, b)
  {}

  /** A finished read that finds DL2 busy leaves its bank dead. */
  lemma ReadyKills(p: Params, s: State, e: Event, s': State)
    requires Effect(p, s, e, s') && e.ReadReady?
    requires var b := Front(s, PendRead(e.chan)).Bank();
             b in s.dl2 && LatchedAt(true, s.loc, s.dl1, b)
    ensures Dead(s', Front(s, PendRead(e.chan)).Bank())
  {
    var x := Front(s, PendRead(e.chan));
    forall y | y in s'.loc && y.Bank() == x.Bank() ensures !Owns(true, s'.loc[y], y) { assert Worked(s, e, s', y); }
  }

  lemma DirtyKills(p: Params, s: State, e: Event, s': State)
    requires Effect(p, s, e, s') && Exclusive(s) && !Clean(s, e)
    ensures Dead(s', Front(s, PendRead(e.chan)).Bank())
  {
    ReadyKills(p, s, e, s');
  }

  /** From a healthy state, a step keeps health exactly when it is careful; otherwise it dooms a bank. */
  lemma StepHealthy(p: Params, s: State, e: Event, s': State) returns (b: (nat, nat))
    requires Safe(p, s) && Healthy(s) && Apply(p, s, e) == Some(s')
    ensures Careful(s, e) ==> Healthy(s')
    ensures !Careful(s, e) ==> Doomed(s', b)
  {
    b := (0, 0);
    StepEffect(p, s, e, s');
    if Clean(s, e) {
      StepExclusive(p, s, e);
      b := NewCross(s, e, s');
    } else {
      DirtyKills(p, s, e, s');
      b := Front(s, PendRead(e.chan)).Bank();
    }
  }

  lemma NewCross(s: State, e: Event, s': State) returns (b: (nat, nat))
    requires LatchesSet(s, e, s') && Exclusive(s') && forall b :: !Opposed(s, b)
    requires e.Dispatch? ==> Front(s, Listed(e.chan, e.bank)).Bank() == (e.chan, e.bank)
    requires e.ReadReady? ==> Front(s, PendRead(e.chan)).ctype == READ
    ensures if Crosses(s, e) then Crossed(s', b) else forall b :: !Opposed(s', b)
  {
    b := if e.Dispatch? then (e.chan, e.bank) else (0, 0);
    forall b ensures !Crosses(s, e) ==> !Opposed(s', b) { assert !Opposed(s, b); }
  }

  /** Every step found DL2 free for a finished read, and never put a read and a write of one bank in
      each other's way. */
  ghost predicate CarefulRun(p: Params, es: seq<Event>)
    decreases |es|
  {
    es == [] ||
    (CarefulRun(p, es[..|es| - 1]) &&
     match Run(p, Init(p), es[..|es| - 1])
     case None => true
     case Some(s) => Careful(s, es[|es| - 1]))
  }

  /** Exactly the runs with a step that is not careful end with a doomed bank. */
  lemma {:induction false} DoomedIff(p: Params, es: seq<Event>)
    requires Run(p, Init(p), es).Some?
    ensures var s := Run(p, Init(p), es).value;
            && (CarefulRun(p, es) ==> Healthy(s))
            && ((exists b :: Doomed(s, b)) <==> !CarefulRun(p, es))
  {
    if es == [] {
      InitSafe(p);
    } else {
      var before, e := es[..|es| - 1], es[|es| - 1];
      DoomedIff(p, before);
      RunSafe(p, before);
      var t, s := Run(p, Init(p), before).value, Run(p, Init(p), es).value;
      if CarefulRun(p, before) {
        var b := StepHealthy(p, t, e, s);
      } else {
        var b :| Doomed(t, b);
        StepEffect(p, t, e, s);
        StepDoomed(p, t, e, s, b);
      }
    }
  }

  /** A bank is dead at the end of a run exactly when some finished read found DL2 busy. */
  lemma {:induction false} DeadIffDirty(p: Params, es: seq<Event>)
    requires Run(p, Init(p), es).Some?
    ensures (exists b :: Dead(Run(p, Init(p), es).value, b)) <==> !CleanRun(p, es)
  {
    if es == [] {
    } else {
      var before, e := es[..|es| - 1], es[|es| - 1];
      DeadIffDirty(p, before);
      RunSafe(p, before);
      var t, s := Run(p, Init(p), before).value, Run(p, Init(p), es).value;
      StepEffect(p, t, e, s);
      if CleanRun(p, es) {
        RunExclusive(p, es);
      } else if CleanRun(p, before) {
        RunExclusive(p, before);
        DirtyKills(p, t, e, s);
      } else {
        var b :| Dead(t, b);
        StepDead(p, t, e, s, b);
      }
    }
  }

  // ---- a write on the bus ------------------------------------------------------------------

  /** Every bank keeps latch exclusion until it is dead. */
  ghost predicate BankOk(s: State, b: (nat, nat)) {
    Dead(s, b) || (LatchedAt(true, s.loc, s.dl1, b) && LatchedAt(false, s.loc, s.dl2, b))
  }

  /** One of the two latches of a bank before and after a step: `x` is the command the step works on. */
  lemma LatchedMove(first: bool, loc: map<Sub, Place>, dl: map<(nat, nat), Sub>, b: (nat, nat), x: Sub, to: Place, dl': map<(nat, nat), Sub>)
    requires LatchedAt(first, loc, dl, b) && x in loc
    requires if x.Bank() != b || Owns(first, loc[x], x) == Owns(first, to, x) then (b in dl' <==> b in dl) && (b in dl ==> dl'[b] == dl[b])
             else if Owns(first, to, x) then b !in dl && b in dl' && dl'[b] == x
             else b !in dl'
    ensures LatchedAt(first, loc[x := to], dl', b)
  {}

  lemma LatchedGone(first: bool, loc: map<Sub, Place>, dl: map<(nat, nat), Sub>, b: (nat, nat), x: Sub, dl': map<(nat, nat), Sub>)
    requires LatchedAt(first, loc, dl, b) && x in loc
    requires if x.Bank() != b || !Owns(first, loc[x], x) then (b in dl' <==> b in dl) && (b in dl ==> dl'[b] == dl[b])
             else b !in dl'
    ensures LatchedAt(first, loc - {x}, dl', b)
  {}

  lemma LatchedMore(first: bool, loc: map<Sub, Place>, dl: map<(nat, nat), Sub>, b: (nat, nat), loc': map<Sub, Place>)
    requires LatchedAt(first, loc, dl, b)
    requires forall x :: x in loc ==> x in loc' && loc'[x] == loc[x]
    requires forall x :: x in loc' && x !in loc ==> loc'[x].Listed?
    ensures LatchedAt(first, loc', dl, b)
  {}

  /** The step moves a command, but not a read that would leave DL1 of `b` busy behind it. */
  ghost predicate MovesOn(p: Params, s: State, e: Event, s': State, b: (nat, nat)) {
    && Effect(p, s, e, s') && Shaped(s, e, s') && ShapeOf(s, e).Moved?
    && !(e.ReadReady? && Front(s, PendRead(e.chan)).Bank() == b && b in s.dl2)
  }

  lemma FirstMoved(p: Params, s: State, e: Event, s': State, b: (nat, nat))
    requires MovesOn(p, s, e, s', b) && LatchedAt(true, s.loc, s.dl1, b)
    ensures LatchedAt(true, s'.loc, s'.dl1, b)
  {
    LatchedMove(true, s.loc, s.dl1, b, Front(s, ShapeOf(s, e).from), ShapeOf(s, e).to, s'.dl1);
  }

  lemma SecondMoved(p: Params, s: State, e: Event, s': State, b: (nat, nat))
    requires MovesOn(p, s, e, s', b) && LatchedAt(false, s.loc, s.dl2, b)
    ensures LatchedAt(false, s'.loc, s'.dl2, b)
  {
    LatchedMove(false, s.loc, s.dl2, b, Front(s, ShapeOf(s, e).from), ShapeOf(s, e).to, s'.dl2);
  }

  lemma StepBankMoved(p: Params, s: State, e: Event, s': State, b: (nat, nat))
    requires Effect(p, s, e, s') && Shaped(s, e, s') && ShapeOf(s, e).Moved? && !Dead(s, b) && BankOk(s, b)
    ensures BankOk(s', b)
  {
    if MovesOn(p, s, e, s', b) {
      FirstMoved(p, s, e, s', b);
      SecondMoved(p, s, e, s', b);
    } else {
      ReadyKills(p, s, e, s');
    }
    hide Effect, Shaped, LatchedAt;
  }

  lemma StepBankStill(p: Params, s: State, e: Event, s': State, b: (nat, nat))
    requires Effect(p, s, e, s') && Shaped(s, e, s') && !ShapeOf(s, e).Moved? && !Dead(s, b) && BankOk(s, b)
    ensures BankOk(s', b)
  {
    if ShapeOf(s, e).Retired? {
      var x := Front(s, ShapeOf(s, e).at);
      LatchedGone(true, s.loc, s.dl1, b, x, s'.dl1);
      LatchedGone(false, s.loc, s.dl2, b, x, s'.dl2);
    } else {
      forall x ensures x in s.loc ==> x in s'.loc && s'.loc[x] == s.loc[x] ensures x in s'.loc && x !in s.loc ==> s'.loc[x].Listed? {
        assert Worked(s, e, s', x);
      }
      LatchedMore(true, s.loc, s.dl1, b, s'.loc);
      LatchedMore(false, s.loc, s.dl2, b, s'.loc);
    }
  }

  lemma StepBank(p: Params, s: State, e: Event, s': State, b: (nat, nat))
    requires Safe(p, s) && Apply(p, s, e) == Some(s') && BankOk(s, b)
    ensures BankOk(s', b)
  {
    StepEffect(p, s, e, s');
    StepShape(p, s, e);
    hide *;
    if Dead(s, b) {
      StepDead(p, s, e, s', b);
      BankDead(s', b);
    } else if ShapeOf(s, e).Moved? {
      StepBankMoved(p, s, e, s', b);
    } else {
      StepBankStill(p, s, e, s', b);
    }
  }

  lemma BankDead(s: State, b: (nat, nat))
    requires Dead(s, b)
    ensures BankOk(s, b)
  {}

  lemma {:induction false} RunBanks(p: Params, es: seq<Event>, b: (nat, nat))
    requires Run(p, Init(p), es).Some?
    ensures BankOk(Run(p, Init(p), es).value, b)
  {
    if es != [] {
      var before := es[..|es| - 1];
      RunBanks(p, before, b);
      RunSafe(p, before);
      StepBank(p, Run(p, Init(p), before).value, es[|es| - 1], Run(p, Init(p), es).value, b);
    }
  }

  /** A write of the bank is being programmed. */
  ghost predicate Programming(s: State, b: (nat, nat)) { exists x :: x in s.loc && x.Bank() == b && s.loc[x].PendWrite? }

  /** A write on the bus that finds DL1 busy while no write of its bank is being programmed is in a
      doomed bank. */
  lemma WaitsDoomed(p: Params, s: State, w: Sub)
    requires Safe(p, s) && BankOk(s, w.Bank()) && w in s.loc && w.ctype == WRITE && s.loc[w].BusLong?
    requires w.Bank() in s.dl1 && !Programming(s, w.Bank())
    ensures Doomed(s, w.Bank())
  {
    hide Bounded, Credited, Counted, Reporting;
    var b := w.Bank();
    if !Dead(s, b) {
      var x := s.dl1[b];
      assert x.ctype == READ;
      assert s.dl2[b] == w;
    }
  }

  /** The programmed writes of a channel finish one by one until DL1 of the bank is free. */
  lemma {:induction false} Unblock(p: Params, s: State, w: Sub, x: Sub, k: nat) returns (es: seq<Event>, s': State)
    requires Safe(p, s) && BankOk(s, w.Bank()) && w in s.loc && w.ctype == WRITE && s.loc[w].BusLong?
    requires k < |s.At(PendWrite(w.chan))| && s.At(PendWrite(w.chan))[k] == x && x.Bank() == w.Bank()
    ensures Run(p, s, es) == Some(s') && Safe(p, s') && w in s'.loc && s'.loc[w] == s.loc[w] && w.Bank() !in s'.dl1
    decreases k
  {
    hide Apply, Safe, BankOk;
    var c, e := w.chan, WriteDone(w.chan);
    var t := FirstDone(p, s, w, c);
    RunOne(p, s, e) by { SafeSized(p, s); }
    if k == 0 {
      return [e], t;
    }
    assert t.At(PendWrite(c))[k - 1] == x;
    es, s' := Unblock(p, t, w, x, k - 1);
    RunConcat(p, s, [e], es);
    es := [e] + es;
  }

  lemma SafeSized(p: Params, s: State)
    requires Safe(p, s)
    ensures Sized(p, s)
  {}

  lemma CanWriteDone(p: Params, s: State, c: nat)
    requires Safe(p, s) && s.At(PendWrite(c)) != []
    ensures Apply(p, s, WriteDone(c)).Some?
  {
    FrontFits(p, s, PendWrite(c));
    CountDown(p, s, s.At(PendWrite(c))[0]);
  }

  lemma FirstDone(p: Params, s: State, w: Sub, c: nat) returns (t: State)
    requires Safe(p, s) && BankOk(s, w.Bank()) && w in s.loc && w.ctype == WRITE && s.loc[w].BusLong?
    requires c == w.chan && s.At(PendWrite(c)) != []
    ensures Apply(p, s, WriteDone(c)) == Some(t) && Safe(p, t) && BankOk(t, w.Bank())
    ensures t.At(PendWrite(c)) == s.At(PendWrite(c))[1..] && w in t.loc && t.loc[w] == s.loc[w]
    ensures s.At(PendWrite(c))[0].Bank() == w.Bank() ==> w.Bank() !in t.dl1
  {
    var e := WriteDone(c);
    CanWriteDone(p, s, c);
    t := Apply(p, s, e).value;
    StepSafe(p, s, e);
    StepEffect(p, s, e, t);
    StepShape(p, s, e);
    StepBank(p, s, e, t, w.Bank());
    StepAfter(s, e, t, PendWrite(c));
    hide Apply, Safe, BankOk;
    assert Worked(s, e, t, w);
  }

  /** A write on the bus stays there through every continuation if and only if DL1 of its bank is busy
      and no write of its bank is being programmed. Nothing else of its channel is sent meanwhile. */
  lemma BusWriteStays(p: Params, es: seq<Event>, w: Sub)
    requires Run(p, Init(p), es).Some?
    requires var s := Run(p, Init(p), es).value; w in s.loc && w.ctype == WRITE && s.loc[w].BusLong?
    ensures var s := Run(p, Init(p), es).value;
            (forall more :: Run(p, s, more).Some? ==> w in Run(p, s, more).value.loc && Run(p, s, more).value.loc[w] == s.loc[w])
            <==> w.Bank() in s.dl1 && !Programming(s, w.Bank())
  {
    hide Conserved, Bounded, Credited, Counted, Reporting, Doomed, BankOk, Run;
    var s := Run(p, Init(p), es).value;
    RunSafe(p, es);
    RunBanks(p, es, w.Bank());
    if w.Bank() in s.dl1 && !Programming(s, w.Bank()) {
      WaitsDoomed(p, s, w);
      forall more | Run(p, s, more).Some?
        ensures w in Run(p, s, more).value.loc && Run(p, s, more).value.loc[w] == s.loc[w]
      {
        DoomedForever(p, s, more, w.Bank(), w);
      }
    } else {
      var more := Leaves(p, s, w);
    }
  }

  /** Once DL1 is free a write on the bus moves on. */
  lemma Moves(p: Params, s: State, w: Sub) returns (s': State)
    requires Safe(p, s) && w in s.loc && w.ctype == WRITE && s.loc[w].BusLong? && w.Bank() !in s.dl1
    ensures Apply(p, s, WriteMove(w.chan)) == Some(s') && w in s'.loc && s'.loc[w].PendWrite?
  {
    hide Credited, Counted, Reporting;
    assert w in s.At(s.loc[w]) && s.loc[w] == BusLong(w.chan);
    assert s.At(BusLong(w.chan)) == [w];
    s' := Apply(p, s, WriteMove(w.chan)).value;
  }

  lemma Leaves(p: Params, s: State, w: Sub) returns (es: seq<Event>)
    requires Safe(p, s) && BankOk(s, w.Bank()) && w in s.loc && w.ctype == WRITE && s.loc[w].BusLong?
    requires w.Bank() !in s.dl1 || Programming(s, w.Bank())
    ensures Run(p, s, es).Some? && w in Run(p, s, es).value.loc && Run(p, s, es).value.loc[w] != s.loc[w]
  {
    hide Bounded, Credited, Counted, Reporting, BankOk, Apply;
    var t := s;
    es := [];
    if w.Bank() in s.dl1 {
      var x :| x in s.loc && x.Bank() == w.Bank() && s.loc[x].PendWrite?;
      assert x in s.At(s.loc[x]) && s.loc[x] == PendWrite(w.chan);
      var k :| 0 <= k < |s.At(PendWrite(w.chan))| && s.At(PendWrite(w.chan))[k] == x;
      es, t := Unblock(p, s, w, x, k);
    }
    var r := Moves(p, t, w);
    RunOne(p, t, WriteMove(w.chan));
    RunConcat(p, s, es, [WriteMove(w.chan)]);
    es := es + [WriteMove(w.chan)];
  }
}
