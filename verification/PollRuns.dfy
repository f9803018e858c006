/** The host's polls over whole runs of the pipeline. */
module PollRuns {
  import opened Common
  import opened Places
  import opened Pipeline
  import opened PipelineSafety
  import opened PipelineStall
  import opened PipelineDrain
  import opened CompletionDrain

  // ---- how many completions can wait -------------------------------------------------------

  lemma {:induction false} SlotsCount(entries: seq<Entry>)
    requires NoSlotTwice(entries)
    ensures |SlotsIn(entries)| == |entries|
  {
    if entries != [] {
      var n := |entries| - 1;
      SlotsCount(entries[..n]);
      SlotsPut(entries[..n], entries[n]);
      assert entries == entries[..n] + [entries[n]];
      assert entries[n].slot !in SlotsIn(entries[..n]);
    }
  }

  function Below(n: nat): (r: set<int>)
    ensures |r| == n && forall t :: t in r <==> 0 <= t < n
  {
    if n == 0 then {} else Below(n - 1) + {n - 1}
  }

  lemma SubsetCard(a: set<int>, b: set<int>)
    requires a <= b
    ensures |a| <= |b| && (|a| == |b| <==> a == b)
  {
    assert b == a + (b - a);
    assert |b| == |a| + |b - a|;
  }

  predicate AllReported(p: Params, s: State)
    requires Sized(p, s)
  {
    forall t :: 0 <= t < p.slots ==> s.phase[t] == Reported
  }

  /** No more completions wait than there are slots, and as many only when every slot is reported. */
  lemma PendingBound(p: Params, s: State)
    requires Safe(p, s)
    ensures |s.Pending()| <= p.slots && (|s.Pending()| == p.slots <==> AllReported(p, s))
  {
    hide Conserved, Bounded, Credited, Counted, OnceAt, NoDup;
    SlotsCount(s.Pending());
    var all := Below(p.slots);
    SubsetCard(SlotsIn(s.Pending()), all);
    if SlotsIn(s.Pending()) == all {
      forall t | 0 <= t < p.slots ensures s.phase[t] == Reported { assert t in all; }
    }
  }

  // ---- what the host learns over a run -----------------------------------------------------

  /** All that the host decodes in the polls of a run. */
  function HostLog(p: Params, es: seq<Event>): seq<(nat, nat, nat)>
    decreases |es|
  {
    if es == [] then [] else
      var before := es[..|es| - 1];
      HostLog(p, before) +
      match Run(p, Init(p), before)
      case None => []
      case Some(s) => if es[|es| - 1].Poll? then Decoded(Payload(EntryWords(s.Pending()))) else []
  }

  lemma {:induction false} LogSlots(p: Params, es: seq<Event>)
    requires Run(p, Init(p), es).Some?
    ensures forall k :: 0 <= k < |Run(p, Init(p), es).value.log| ==> Run(p, Init(p), es).value.log[k].slot < p.slots
  {
    if es != [] {
      var before, e := es[..|es| - 1], es[|es| - 1];
      LogSlots(p, before);
      RunSafe(p, before);
      var s, s' := Run(p, Init(p), before).value, Run(p, Init(p), es).value;
      StepBooks(p, s, e);
      StepShape(p, s, e);
      hide Run, Apply, Conserved, Counted, Reporting, Bounded, Credited;
    }
  }

  lemma ToldJoin(a: seq<Entry>, b: seq<Entry>)
    ensures ToldAll(a + b) == ToldAll(a) + ToldAll(b)
  {}

  /** Over every run with at most 256 slots the host learns exactly the completions queued so far, each
      once and in order, but for those still waiting. */
  lemma {:induction false} RunDelivers(p: Params, es: seq<Event>)
    requires p.slots <= 256 && Run(p, Init(p), es).Some?
    ensures var s := Run(p, Init(p), es).value; HostLog(p, es) == ToldAll(s.log[..s.drained])
  {
    if es != [] {
      var before, e := es[..|es| - 1], es[|es| - 1];
      RunDelivers(p, before);
      RunSafe(p, before);
      LogSlots(p, before);
      var s, s' := Run(p, Init(p), before).value, Run(p, Init(p), es).value;
      StepTells(p, s, e, s');
      LogNext(p, es, s);
      hide *;
    }
  }

  lemma LogNext(p: Params, es: seq<Event>, s: State)
    requires es != [] && Run(p, Init(p), es[..|es| - 1]) == Some(s)
    ensures HostLog(p, es)
         == HostLog(p, es[..|es| - 1]) + if es[|es| - 1].Poll? then Decoded(Payload(EntryWords(s.Pending()))) else []
  {
    hide Apply, Init, Decoded, Payload, EntryWords;
  }

  lemma StepTells(p: Params, s: State, e: Event, s': State)
    requires p.slots <= 256 && Safe(p, s) && Apply(p, s, e) == Some(s')
    requires forall k :: 0 <= k < |s.log| ==> s.log[k].slot < p.slots
    ensures ToldAll(s'.log[..s'.drained])
         == ToldAll(s.log[..s.drained]) + if e.Poll? then Decoded(Payload(EntryWords(s.Pending()))) else []
  {
    StepBooks(p, s, e);
    LogGrows(p, s, e, s');
    PendingBound(p, s);
    hide Apply, Safe, BooksSet, Decoded, Payload, EntryWords, ToldAll, PollSize;
    if e.Poll? { ToldMore(s.log, s.drained); } else { assert s'.log[..s'.drained] == s.log[..s.drained]; }
  }

  lemma ToldMore(log: seq<Entry>, drained: nat)
    requires drained <= |log| && |log[drained..]| <= 256 && forall k :: 0 <= k < |log| ==> log[k].slot < 256
    ensures ToldAll(log[..drained]) + Decoded(Payload(EntryWords(log[drained..])))
         == ToldAll(log[..drained + PollSize(|log[drained..]|)])
  {
    hide *;
    var n := PollSize(|log[drained..]|);
    PollTells(log[drained..]);
    ToldJoin(log[..drained], log[drained..][..n]);
    assert log[..drained] + log[drained..][..n] == log[..drained + n];
  }

  lemma LogGrows(p: Params, s: State, e: Event, s': State)
    requires Sized(p, s) && BooksSet(s, e, s')
    ensures s.log <= s'.log && (e.Poll? ==> s'.log == s.log && s'.drained == s.drained + PollSize(|s.Pending()|))
    ensures !e.Poll? ==> s'.drained == s.drained
  {}

  // ---- 256 slots ---------------------------------------------------------------------------

  /** A poll takes as many completions as fit its 64 bytes. */
  predicate PollsWell(s: State)
    requires s.drained <= |s.log|
  {
    PollSize(|s.Pending()|) == if |s.Pending()| < 31 then |s.Pending()| else 31
  }

  /** With at most 256 slots, a poll fails exactly when there are 256 and all of them are reported: the
      count byte then reads 0. */
  lemma PollsWellIff(p: Params, s: State)
    requires Safe(p, s) && p.slots <= 256
    ensures PollsWell(s) <==> !(p.slots == 256 && AllReported(p, s))
  {
    hide Conserved, Bounded, Credited, Counted, Reporting;
    PendingBound(p, s);
  }

  /** From there on nothing moves: no command can be accepted, and every poll brings nothing. */
  lemma {:induction false} ReportedForever(p: Params, s: State, es: seq<Event>)
    requires Safe(p, s) && p.slots == 256 && AllReported(p, s) && Run(p, s, es).Some?
    ensures var s' := Run(p, s, es).value;
            Safe(p, s') && AllReported(p, s') && s'.drained == s.drained && s'.accepts == s.accepts && s'.log == s.log
    decreases |es|
  {
    if es != [] {
      var before, e := es[..|es| - 1], es[|es| - 1];
      ReportedForever(p, s, before);
      var t, s' := Run(p, s, before).value, Run(p, s, es).value;
      StepSafe(p, t, e);
      ReportedStep(p, t, e, s');
    }
  }

  lemma FrontQueued(p: Params, s: State)
    requires Safe(p, s) && s.slotNumQ != []
    ensures s.slotNumQ[0] < p.slots && s.phase[s.slotNumQ[0]] == Finished
  {
    assert s.slotNumQ[0] in s.slotNumQ;
  }

  lemma NobodyLeft(p: Params, s: State)
    requires Safe(p, s) && AllReported(p, s)
    ensures s.slotNumQ == [] && forall x :: x !in s.loc
  {
    hide Conserved, Bounded, Credited;
    forall x ensures x !in s.loc {}
    if s.slotNumQ != [] { FrontQueued(p, s); }
  }

  lemma ReportedStep(p: Params, s: State, e: Event, s': State)
    requires Safe(p, s) && p.slots == 256 && AllReported(p, s) && Apply(p, s, e) == Some(s')
    ensures s'.phase == s.phase && s'.drained == s.drained && s'.accepts == s.accepts && s'.log == s.log
  {
    StepBooks(p, s, e);
    StepShape(p, s, e);
    PendingBound(p, s);
    NobodyLeft(p, s);
    if ShapeOf(s, e).Retired? { FrontFits(p, s, ShapeOf(s, e).at); }
    hide Apply, Conserved, Bounded, Credited, Counted, Reporting;
  }

  // ---- reaching 256 ------------------------------------------------------------------------

  /** The host sends one write of one code word per slot. */
  function Writes(n: nat): (es: seq<Event>)
    ensures |es| == n
  {
    seq(n, t requires 0 <= t < n => Accept(t, WRITE, [(0, 0)]))
  }

  lemma {:induction false} WritesRun(p: Params, n: nat)
    requires p.chans >= 1 && p.banks >= 1 && n <= p.slots
    ensures Run(p, Init(p), Writes(n)).Some? && CarefulRun(p, Writes(n))
    ensures forall t :: 0 <= t < p.slots ==> Run(p, Init(p), Writes(n)).value.phase[t] == if t < n then Running else Idle
  {
    if n > 0 {
      hide Apply;
      WritesRun(p, n - 1);
      assert Writes(n)[..n - 1] == Writes(n - 1);
      WriteAccepted(p, Run(p, Init(p), Writes(n - 1)).value, n - 1);
    }
  }

  lemma WriteAccepted(p: Params, s: State, t: nat)
    requires Sized(p, s) && p.chans >= 1 && p.banks >= 1 && t < p.slots && s.phase[t] == Idle
    ensures Apply(p, s, Accept(t, WRITE, [(0, 0)])).Some?
    ensures Apply(p, s, Accept(t, WRITE, [(0, 0)])).value.phase == s.phase[t := Running]
  {}

  /** Steps of the controller neither take nor free a slot. */
  lemma {:induction false} InnerKeeps(p: Params, s: State, es: seq<Event>, t: nat)
    requires Safe(p, s) && Inner(es) && Run(p, s, es).Some? && t < p.slots
    ensures var s' := Run(p, s, es).value; Safe(p, s') && (s'.phase[t] == Idle <==> s.phase[t] == Idle)
    decreases |es|
  {
    if es != [] {
      var before, e := es[..|es| - 1], es[|es| - 1];
      InnerKeeps(p, s, before, t);
      var u := Run(p, s, before).value;
      StepSafe(p, u, e);
      IdleStep(p, u, e, Run(p, s, es).value, t);
    }
  }

  lemma IdleStep(p: Params, s: State, e: Event, s': State, t: nat)
    requires Safe(p, s) && !e.Accept? && !e.Poll? && Apply(p, s, e) == Some(s') && t < p.slots
    ensures Sized(p, s') && (s'.phase[t] == Idle <==> s.phase[t] == Idle)
  {
    StepBooks(p, s, e);
    StepShape(p, s, e);
    if ShapeOf(s, e).Retired? {
      FrontFits(p, s, ShapeOf(s, e).at);
      assert Belongs(s, s.At(ShapeOf(s, e).at)[0]);
    } else if e.Complete? {
      assert s.slotNumQ[0] in s.slotNumQ;
    }
    hide Apply, Conserved, Bounded, Credited, Counted, Reporting;
  }

  /** Once the controller has finished a command in every one of the first `n` slots, that many
      completions wait for the host. */
  lemma ManyWait(p: Params, n: nat) returns (es: seq<Event>)
    requires p.chans >= 1 && p.banks >= 1 && p.credit >= 1 && n <= p.slots
    ensures Run(p, Init(p), es).Some? && |Run(p, Init(p), es).value.Pending()| == n
  {
    WritesRun(p, n);
    RunSafe(p, Writes(n));
    DoomedIff(p, Writes(n));
    var s := Run(p, Init(p), Writes(n)).value;
    var more, s' := Recover(p, s);
    RunConcat(p, Init(p), Writes(n), more);
    es := Writes(n) + more;
    RunSafe(p, es);
    forall t | 0 <= t < p.slots ensures s'.phase[t] == if t < n then Reported else Idle {
      InnerKeeps(p, s, more, t);
      DrainedPhase(p, s', t);
    }
    WaitCount(p, s', n);
  }

  lemma DrainedPhase(p: Params, s: State, t: nat)
    requires Safe(p, s) && Drained(s) && t < p.slots
    ensures s.phase[t] == Idle || s.phase[t] == Reported
  {
    assert CountAt(s, t);
    assert LiveIn(s.loc, t) == {};
    assert t !in s.slotNumQ;
  }

  lemma WaitCount(p: Params, s: State, n: nat)
    requires Safe(p, s) && n <= p.slots && forall t :: 0 <= t < p.slots ==> s.phase[t] == if t < n then Reported else Idle
    ensures |s.Pending()| == n
  {
    hide Conserved, Bounded, Credited, Counted, OnceAt, NoDup;
    SlotsCount(s.Pending());
    assert SlotsIn(s.Pending()) == Below(n);
  }

  /** Exactly with at most 255 slots does every poll of every run take min(size, 31) completions. */
  lemma PollsWellForever(p: Params)
    requires p.chans >= 1 && p.banks >= 1 && p.credit >= 1
    ensures (forall es :: Run(p, Init(p), es).Some? ==> PollsWell(Run(p, Init(p), es).value)) <==> p.slots <= 255
  {
    hide Apply, Conserved, Bounded, Credited, Counted, Reporting;
    if p.slots <= 255 {
      forall es | Run(p, Init(p), es).Some? ensures PollsWell(Run(p, Init(p), es).value) {
        RunSafe(p, es);
        PollsWellIff(p, Run(p, Init(p), es).value);
      }
    } else {
      var es := ManyWait(p, 256);
    }
  }
}
