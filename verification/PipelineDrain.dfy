/** When the pipeline can still empty itself: exactly when no bank is doomed. */
module PipelineDrain {
  import opened Common
  import opened Places
  import opened Pipeline
  import opened PipelineSafety
  import opened PipelineStall

  // ---- how far the live commands still have to go ------------------------------------------

  function Left(at: Place): nat {
    match at
    case Listed(_, _) => 8
    case Hand(_) => 7
    case Short(_) => 6
    case BusShort(_) => 5
    case PendRead(_) => 4
    case Long(_) => 3
    case BusLong(_) => 2
    case PendWrite(_) => 1
  }

  ghost function Work(loc: map<Sub, Place>): nat
    decreases |loc|
  {
    if loc == map[] then 0 else
      var x :| x in loc;
      assert |loc - {x}| < |loc| by { assert loc == (loc - {x})[x := loc[x]]; }
      Left(loc[x]) + Work(loc - {x})
  }

  lemma {:induction false} WorkWithout(loc: map<Sub, Place>, x: Sub)
    requires x in loc
    ensures Work(loc) == Left(loc[x]) + Work(loc - {x})
    decreases |loc|
  {
    var y :| y in loc && Work(loc) == Left(loc[y]) + Work(loc - {y});
    if x != y {
      assert |loc - {y}| < |loc| && |loc - {x}| < |loc| by { assert loc == (loc - {y})[y := loc[y]] == (loc - {x})[x := loc[x]]; }
      WorkWithout(loc - {y}, x);
      WorkWithout(loc - {x}, y);
      assert loc - {y} - {x} == loc - {x} - {y};
    }
  }

  lemma WorkMoved(loc: map<Sub, Place>, x: Sub, to: Place)
    requires x in loc && Left(to) < Left(loc[x])
    ensures Work(loc[x := to]) < Work(loc) && Work(loc - {x}) < Work(loc)
  {
    WorkWithout(loc, x);
    WorkWithout(loc[x := to], x);
    assert loc[x := to] - {x} == loc - {x};
  }

  lemma WorkRetired(loc: map<Sub, Place>, x: Sub)
    requires x in loc
    ensures Work(loc - {x}) < Work(loc)
  {
    WorkWithout(loc, x);
  }

  // ---- one step towards the empty pipeline -------------------------------------------------

  /** Nothing of the channel has left its bank lists. */
  predicate Calm(s: State, c: nat) {
    && s.At(Hand(c)) == [] && s.At(Short(c)) == [] && s.At(BusShort(c)) == [] && s.At(PendRead(c)) == []
    && s.At(Long(c)) == [] && s.At(BusLong(c)) == [] && s.At(PendWrite(c)) == []
  }

  /** What is furthest in the pipeline goes first. */
  function Next(s: State, c: nat, b: nat): Event {
    if s.At(PendWrite(c)) != [] then WriteDone(c)
    else if s.At(BusLong(c)) != [] then if Front(s, BusLong(c)).ctype == READ then ReadDone(c) else WriteMove(c)
    else if s.At(BusShort(c)) != [] then ShortDone(c)
    else if s.At(Long(c)) != [] then LongPop(c)
    else if s.At(PendRead(c)) != [] then ReadReady(c)
    else if s.At(Short(c)) != [] then ShortPop(c)
    else if s.At(Hand(c)) != [] then Enqueue(c)
    else Dispatch(c, b)
  }

  predicate Pending(s: State, c: nat, b: nat) { !Calm(s, c) || s.At(Listed(c, b)) != [] }

  lemma FrontOf(p: Params, s: State, at: Place)
    requires Safe(p, s) && s.At(at) != []
    ensures FrontAt(p, s, at)
  {
    FrontFits(p, s, at);
  }

  lemma Standing(p: Params, s: State, x: Sub)
    requires Safe(p, s) && x in s.loc
    ensures s.At(s.loc[x]) != [] && s.loc[x].chan == x.chan && Fits(p, s.loc[x], x)
  {
    assert x in At(s.q, s.loc[x]);
  }

  lemma CanFinish(p: Params, s: State, at: Place)
    requires Safe(p, s) && s.At(at) != []
    ensures Finish(p, s, at).Some?
  {
    FrontFits(p, s, at);
    CountDown(p, s, s.At(at)[0]);
  }

  /** A write on the bus finds DL1 free once no programmed write of its channel is left. */
  lemma CanMove(p: Params, s: State, c: nat)
    requires Safe(p, s) && Healthy(s) && s.At(BusLong(c)) != [] && Front(s, BusLong(c)).ctype == WRITE
    requires s.At(PendWrite(c)) == []
    ensures (c, Front(s, BusLong(c)).bank) !in s.dl1
  {
    hide Credited, Counted, Reporting, Bounded, Kept;
    FrontOf(p, s, BusLong(c));
    var w := Front(s, BusLong(c));
    var b := w.Bank();
    assert Owns(false, s.loc[w], w) && !Opposed(s, b);
    if b in s.dl1 { Standing(p, s, s.dl1[b]); }
  }

  /** A finished read finds DL2 free once the long queue and the bus are empty. */
  lemma CanStore(p: Params, s: State, c: nat)
    requires Safe(p, s) && Healthy(s) && s.At(PendRead(c)) != [] && s.At(Long(c)) == [] && s.At(BusLong(c)) == []
    ensures Front(s, PendRead(c)).Bank() !in s.dl2
  {
    hide Credited, Counted, Reporting, Bounded, Kept;
    FrontOf(p, s, PendRead(c));
    var x := Front(s, PendRead(c));
    var b := x.Bank();
    assert Owns(true, s.loc[x], x) && !Opposed(s, b);
    if b in s.dl2 { Standing(p, s, s.dl2[b]); }
  }

  /** In a calm channel all latches are free. */
  lemma CalmFree(p: Params, s: State, c: nat, b: nat)
    requires Safe(p, s) && Healthy(s) && Calm(s, c)
    ensures (c, b) !in s.dl1 && (c, b) !in s.dl2
  {
    hide Credited, Counted, Reporting, Bounded, Kept;
    if (c, b) in s.dl1 { Standing(p, s, s.dl1[(c, b)]); }
    if (c, b) in s.dl2 { Standing(p, s, s.dl2[(c, b)]); }
  }

  lemma BackRuns(p: Params, s: State, c: nat, b: nat)
    requires Safe(p, s) && Healthy(s) && c < p.chans && b < p.banks
    requires s.At(PendWrite(c)) != [] || s.At(BusLong(c)) != []
    ensures Apply(p, s, Next(s, c, b)).Some? && Careful(s, Next(s, c, b))
  {
    hide Conserved, Credited, Counted, Reporting, Bounded, Healthy;
    if s.At(PendWrite(c)) != [] { CanFinish(p, s, PendWrite(c)); }
    else if Front(s, BusLong(c)).ctype == READ { CanFinish(p, s, BusLong(c)); }
    else { CanMove(p, s, c); }
  }

  lemma FrontRuns(p: Params, s: State, c: nat, b: nat)
    requires Safe(p, s) && Healthy(s) && c < p.chans && b < p.banks && Pending(s, c, b)
    requires s.At(PendWrite(c)) == [] && s.At(BusLong(c)) == [] && p.credit >= 1 && s.due[c] == 0
    ensures Apply(p, s, Next(s, c, b)).Some? && Careful(s, Next(s, c, b))
  {
    if s.At(BusShort(c)) == [] && s.At(Long(c)) == [] {
      if s.At(PendRead(c)) != [] { CanStore(p, s, c); }
      else if s.At(Short(c)) != [] { assert s.credit[c] + Outstanding(p, s, c) == p.credit; }
      else if s.At(Hand(c)) == [] { CalmFree(p, s, c, b); }
    }
    hide Conserved, Credited, Counted, Reporting, Bounded, Healthy;
  }

  lemma NextRuns(p: Params, s: State, c: nat, b: nat)
    requires Safe(p, s) && Healthy(s) && c < p.chans && b < p.banks && Pending(s, c, b)
    requires p.credit >= 1 && s.due[c] == 0
    ensures Apply(p, s, Next(s, c, b)).Some? && Careful(s, Next(s, c, b))
  {
    hide *;
    if s.At(PendWrite(c)) != [] || s.At(BusLong(c)) != [] { BackRuns(p, s, c, b); } else { FrontRuns(p, s, c, b); }
  }

  lemma NextWorks(p: Params, s: State, c: nat, b: nat, s': State)
    requires Safe(p, s) && Pending(s, c, b) && Apply(p, s, Next(s, c, b)) == Some(s')
    ensures Work(s'.loc) < Work(s.loc)
  {
    hide Credited, Counted, Reporting, Bounded, Kept;
    var e := Next(s, c, b);
    StepShape(p, s, e);
    if ShapeOf(s, e).Moved? { FrontFits(p, s, ShapeOf(s, e).from); } else { FrontFits(p, s, ShapeOf(s, e).at); }
    hide Apply, Conserved, Fits, Work;
    if ShapeOf(s, e).Moved? { WorkMoved(s.loc, s.At(ShapeOf(s, e).from)[0], ShapeOf(s, e).to); }
    else { WorkRetired(s.loc, s.At(ShapeOf(s, e).at)[0]); }
  }

  // ---- runs to the empty pipeline ----------------------------------------------------------

  /** Steps of the controller itself: no new command, no poll. */
  predicate Inner(es: seq<Event>) { forall k :: 0 <= k < |es| ==> !es[k].Accept? && !es[k].Poll? }

  /** No live command, free latches, and every completion queued. */
  predicate Drained(s: State) { s.loc == map[] && s.dl1 == map[] && s.dl2 == map[] && s.slotNumQ == [] }

  lemma SameHealthy(s: State, s': State)
    requires Healthy(s) && s'.loc == s.loc && s'.dl1 == s.dl1 && s'.dl2 == s.dl2
    ensures Healthy(s')
  {
    forall b ensures !Opposed(s', b) { assert !Opposed(s, b); }
  }

  /** All bank selects of a channel get their answers. */
  lemma {:induction false} AnswerAll(p: Params, s: State, c: nat) returns (es: seq<Event>, s': State)
    requires Safe(p, s) && Healthy(s) && c < p.chans
    ensures Inner(es) && Run(p, s, es) == Some(s') && Safe(p, s') && Healthy(s') && s'.due[c] == 0
    ensures s'.loc == s.loc && s'.q == s.q
    decreases s.due[c]
  {
    hide Conserved, Bounded, Credited, Counted, Reporting, Latched;
    if s.due[c] == 0 { return [], s; }
    var t := Apply(p, s, Answer(c)).value;
    StepSafe(p, s, Answer(c));
    SameHealthy(s, t);
    es, s' := AnswerAll(p, t, c);
    RunOne(p, s, Answer(c));
    RunConcat(p, s, [Answer(c)], es);
    es := [Answer(c)] + es;
  }

  /** A step towards the empty pipeline while a command is live. */
  lemma Progress(p: Params, s: State) returns (es: seq<Event>, s': State)
    requires Safe(p, s) && Healthy(s) && p.credit >= 1 && s.loc != map[]
    ensures Inner(es) && Run(p, s, es) == Some(s') && Safe(p, s') && Healthy(s') && Work(s'.loc) < Work(s.loc)
  {
    hide Conserved, Bounded, Credited, Counted, Reporting, Healthy, Apply;
    var x :| x in s.loc;
    var c, b := x.chan, x.bank;
    Standing(p, s, x);
    var t;
    es, t := AnswerAll(p, s, c);
    Standing(p, t, x);
    NextRuns(p, t, c, b);
    var e := Next(t, c, b);
    s' := Apply(p, t, e).value;
    StepSafe(p, t, e);
    var _ := StepHealthy(p, t, e, s');
    NextWorks(p, t, c, b, s');
    RunOne(p, t, e);
    RunConcat(p, s, es, [e]);
    es := es + [e];
  }

  lemma {:induction false} ReportAll(p: Params, s: State) returns (es: seq<Event>, s': State)
    requires Safe(p, s) && Healthy(s) && s.loc == map[]
    ensures Inner(es) && Run(p, s, es) == Some(s') && Drained(s')
    decreases |s.slotNumQ|
  {
    hide Conserved, Bounded, Credited, Counted;
    if s.slotNumQ == [] {
      assert s.dl1.Keys == {} && s.dl2.Keys == {};
      return [], s;
    }
    assert s.slotNumQ[0] in s.slotNumQ;
    var t := Apply(p, s, Complete).value;
    StepSafe(p, s, Complete);
    SameHealthy(s, t);
    es, s' := ReportAll(p, t);
    RunOne(p, s, Complete);
    RunConcat(p, s, [Complete], es);
    es := [Complete] + es;
  }

  /** From a healthy state the controller alone can finish every command. */
  lemma {:induction false} Recover(p: Params, s: State) returns (es: seq<Event>, s': State)
    requires Safe(p, s) && Healthy(s) && p.credit >= 1
    ensures Inner(es) && Run(p, s, es) == Some(s') && Drained(s')
    decreases Work(s.loc)
  {
    hide Conserved, Bounded, Credited, Counted, Reporting, Healthy;
    if s.loc == map[] {
      es, s' := ReportAll(p, s);
    } else {
      var first, t := Progress(p, s);
      es, s' := Recover(p, t);
      RunConcat(p, s, first, es);
      es := first + es;
    }
  }

  /** The controller alone can finish everything. */
  ghost predicate CanDrain(p: Params, s: State)
    requires Sized(p, s)
  {
    exists es :: Inner(es) && Run(p, s, es).Some? && Drained(Run(p, s, es).value)
  }

  /** Exactly the careful runs leave the pipeline able to finish everything it holds. After any other
      run no continuation, whatever the host sends, frees all latches and finishes all commands. */
  lemma DrainsIff(p: Params, es: seq<Event>)
    requires p.credit >= 1 && Run(p, Init(p), es).Some?
    ensures var s := Run(p, Init(p), es).value;
            && (CanDrain(p, s) <==> CarefulRun(p, es))
            && (!CarefulRun(p, es) ==> forall more :: Run(p, s, more).Some? ==> !Drained(Run(p, s, more).value))
  {
    hide Conserved, Bounded, Credited, Counted, Reporting, Healthy, Doomed;
    var s := Run(p, Init(p), es).value;
    RunSafe(p, es);
    DoomedIff(p, es);
    if CarefulRun(p, es) {
      var more, s' := Recover(p, s);
    } else {
      var b :| Doomed(s, b);
      forall more | Run(p, s, more).Some? ensures !Drained(Run(p, s, more).value) {
        DoomedStays(p, s, more, b);
      }
    }
  }

  lemma {:induction false} DoomedStays(p: Params, s: State, es: seq<Event>, b: (nat, nat))
    requires Safe(p, s) && Doomed(s, b) && Run(p, s, es).Some?
    ensures var s' := Run(p, s, es).value; Safe(p, s') && Doomed(s', b) && !Drained(s')
    decreases |es|
  {
    if es != [] {
      var before, e := es[..|es| - 1], es[|es| - 1];
      DoomedStays(p, s, before, b);
      var t, s' := Run(p, s, before).value, Run(p, s, es).value;
      StepSafe(p, t, e);
      StepEffect(p, t, e, s');
      StepDoomed(p, t, e, s', b);
    }
  }
}
