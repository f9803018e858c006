/** What enters the PCMDQ, and in which order commands are finished and completed, over whole runs. Both
    are read off the run itself: the events, and the entries and queues before and after each. */
module TagHistory {
  import opened Common
  import opened Pool
  import opened TagLifecycle
  import opened TagSafety

  /** What a PCMDQ entry says of its sub-command, and whether it was the first of its command. */
  datatype SubCmd = SubCmd(cmd: CmdType, plba: nat, iTag: nat, first: bool)

  /** A host command as it was fetched, and the tag it was given. */
  datatype HostCmd = HostCmd(op: CmdType, lba: nat, cnt: nat, tag: nat)
  {
    /** Its sub-commands: one per block, the LBAs going up from its own. */
    function Subs(): (r: seq<SubCmd>)
      ensures |r| == cnt
    {
      seq(cnt, j requires 0 <= j < cnt => SubCmd(op, lba + j, tag, j == 0))
    }
  }

  function Now(p: Params, es: seq<Event>): State
    requires Run(p, Init(p), es).Some?
  {
    Run(p, Init(p), es).value
  }

  function Before(p: Params, es: seq<Event>): State
    requires es != [] && Run(p, Init(p), es).Some?
  {
    Now(p, es[..|es| - 1])
  }

  lemma LastStep(p: Params, es: seq<Event>)
    requires es != [] && Run(p, Init(p), es).Some?
    ensures Run(p, Init(p), es[..|es| - 1]).Some? && Apply(p, Before(p, es), es[|es| - 1]) == Some(Now(p, es))
  {}

  /** The host commands fetched; the tag given out is the one that was free. */
  function Commands(p: Params, es: seq<Event>): seq<HostCmd>
    requires Run(p, Init(p), es).Some?
  {
    if es == [] then [] else
      var before, e := Commands(p, es[..|es| - 1]), es[|es| - 1];
      if e.Fetch? then before + [HostCmd(e.op, e.lba, e.cnt, FirstFree(Before(p, es).tagTable))] else before
  }

  /** The entry that was free before an insertion, as it is afterwards. */
  function NewEntry(p: Params, s: State, s': State): PEntry
    requires Sized(p, s')
  {
    var q := FirstFree(s.status);
    if q < p.slots then s'.entries[q] else RESET
  }

  /** The command in hand has not been touched yet. */
  predicate Untouched(s: State) { s.current.Some? && s.current.value.offset == 0 }

  function NewSub(p: Params, s: State, s': State): SubCmd
    requires Sized(p, s')
  {
    var e := NewEntry(p, s, s');
    SubCmd(e.cmd, e.plba, e.iTag, Untouched(s))
  }

  /** The sub-commands inserted into the PCMDQ, in order; their offsets; and which had to wait for room. */
  function Entered(p: Params, es: seq<Event>): seq<SubCmd>
    requires Run(p, Init(p), es).Some?
  {
    if es == [] then [] else
      var before := Entered(p, es[..|es| - 1]);
      if es[|es| - 1].Insert? then before + [NewSub(p, Before(p, es), Now(p, es))] else before
  }

  function Offsets(p: Params, es: seq<Event>): (r: seq<nat>)
    requires Run(p, Init(p), es).Some?
    ensures |r| == |Entered(p, es)|
  {
    if es == [] then [] else
      var before := Offsets(p, es[..|es| - 1]);
      if es[|es| - 1].Insert? then before + [NewEntry(p, Before(p, es), Now(p, es)).cmdOffset] else before
  }

  function Waits(p: Params, es: seq<Event>): (r: seq<bool>)
    requires Run(p, Init(p), es).Some?
    ensures |r| == |Entered(p, es)|
  {
    if es == [] then [] else
      var before := Waits(p, es[..|es| - 1]);
      if es[|es| - 1].Insert? then before + [es[|es| - 1].waited] else before
  }

  function AllSubs(cmds: seq<HostCmd>): seq<SubCmd> {
    if cmds == [] then [] else AllSubs(cmds[..|cmds| - 1]) + cmds[|cmds| - 1].Subs()
  }

  /** What is still to insert of a request: the first is the first of its command if none was inserted. */
  function Rest(r: Request): (subs: seq<SubCmd>)
    ensures |subs| == r.cnt
  {
    seq(r.cnt, j requires 0 <= j < r.cnt => SubCmd(r.op, r.lba + j, r.tag, r.offset == 0 && j == 0))
  }

  function InHand(current: Option<Request>): seq<SubCmd> {
    match current
    case Some(r) => Rest(r)
    case None => []
  }

  function ToCome(requests: seq<Request>): seq<SubCmd> {
    if requests == [] then [] else ToCome(requests[..|requests| - 1]) + Rest(requests[|requests| - 1])
  }

  function ToInsert(s: State): seq<SubCmd> { InHand(s.current) + ToCome(s.requests) }

  lemma ToComePut(requests: seq<Request>, r: Request)
    ensures ToCome(requests + [r]) == ToCome(requests) + Rest(r)
  {
    assert (requests + [r])[..|requests|] == requests;
  }

  lemma {:induction false} ToComeFront(requests: seq<Request>)
    requires requests != []
    ensures ToCome(requests) == Rest(requests[0]) + ToCome(requests[1..])
  {
    hide Rest;
    var n := |requests| - 1;
    if n > 0 {
      ToComeFront(requests[..n]);
      assert requests[1..][..n - 1] == requests[..n][1..];
    }
  }

  lemma RestFront(r: Request)
    requires r.cnt > 0
    ensures Rest(r) == [SubCmd(r.op, r.lba, r.tag, r.offset == 0)] + Rest(r)[1..]
  {}

  lemma RestAfter(r: Request, r': Request)
    requires r.cnt > 0 && r'.offset > 0 && r'.op == r.op && r'.tag == r.tag && r'.lba == r.lba + 1 && r'.cnt == r.cnt - 1
    ensures Rest(r') == Rest(r)[1..]
  {}

  /** What one step does to them. */
  lemma StepToInsert(p: Params, s: State, e: Event)
    requires Safe(p, s) && Apply(p, s, e).Some?
    ensures var s' := Apply(p, s, e).value;
            match e
            case Fetch(op, lba, cnt, _) => ToInsert(s') == ToInsert(s) + HostCmd(op, lba, cnt, FirstFree(s.tagTable)).Subs()
            case Insert(_, _) => [NewSub(p, s, s')] + ToInsert(s') == ToInsert(s)
            case _ => ToInsert(s') == ToInsert(s)
  {
    hide Safe, HostCmd.Subs, NewSub, Fetched, Started, InsertedLinked, UnlinkedHead, Released, Buffered, WithData;
    hide Reported, Completed, ToInsert;
    match e {
      case Fetch(_, _, _, _) => FetchToInsert(p, s, e);
      case Start => StartToInsert(p, s);
      case Insert(_, _) => InsertToInsert(p, s, e);
      case _ => RestToInsert(p, s, e);
    }
  }

  lemma FetchToInsert(p: Params, s: State, e: Event)
    requires Safe(p, s) && e.Fetch? && Apply(p, s, e).Some?
    ensures ToInsert(Apply(p, s, e).value) == ToInsert(s) + HostCmd(e.op, e.lba, e.cnt, FirstFree(s.tagTable)).Subs()
  {
    FreshTag(p, s);
    var r := Request(e.op, e.lba, 0, e.cnt, FirstFree(s.tagTable));
    ToComePut(s.requests, r);
    assert Rest(r) == HostCmd(e.op, e.lba, e.cnt, FirstFree(s.tagTable)).Subs();
  }

  lemma StartToInsert(p: Params, s: State)
    requires Safe(p, s) && Started(p, s).Some?
    ensures ToInsert(Started(p, s).value) == ToInsert(s)
  {
    hide Safe;
    ToComeFront(s.requests);
  }

  /** The new entry has the LBA in hand, the command's type and its tag; the rest of the command follows. */
  lemma InsertToInsert(p: Params, s: State, e: Event)
    requires Safe(p, s) && e.Insert? && Apply(p, s, e).Some?
    ensures [NewSub(p, s, Apply(p, s, e).value)] + ToInsert(Apply(p, s, e).value) == ToInsert(s)
  {
    hide Rest, ToCome, Apply, NewEntry, Allocated, Carried, Chained, Counted, Staged, Aligned, Owned, Booked;
    InsertTakes(p, s, e);
    var s', r := Apply(p, s, e).value, s.current.value;
    RestFront(r);
    if s'.current.Some? { RestAfter(r, s'.current.value); }
  }

  /** The entry an insertion takes is in reset state, and no list ends at it. */
  lemma EntryTaken(p: Params, s: State, b: nat)
    requires Safe(p, s) && s.size != p.slots && b < p.lists
    ensures var q := FirstFree(s.status);
            && q < p.slots && s.entries[q] == RESET
            && (s.table[b].head == -1 || (0 <= s.table[b].tail < p.slots && s.table[b].tail != q))
  {
    FreshEntry(p, s);
    TailBusy(p, s, b);
  }

  lemma InsertTakes(p: Params, s: State, e: Event)
    requires Safe(p, s) && e.Insert? && Apply(p, s, e).Some?
    ensures s.current.Some? && s.current.value.cnt > 0 && s.current.value.tag < p.tags
    ensures var s', r := Apply(p, s, e).value, s.current.value;
            var entry, offset := NewEntry(p, s, s'), if e.waited then 0 else r.offset;
            && entry.cmd == r.op && entry.plba == r.lba && entry.iTag == r.tag && entry.cmdOffset == offset
            && s'.requests == s.requests
            && s'.current == if r.cnt == 1 then None
                             else Some(r.(lba := r.lba + 1, cnt := r.cnt - 1, offset := offset + 1))
  {
    hide Allocated, Carried, Counted, Staged, Aligned, Owned, Booked, Chained, FirstFree;
    EntryTaken(p, s, e.list);
  }

  lemma RestToInsert(p: Params, s: State, e: Event)
    requires Safe(p, s) && Apply(p, s, e).Some? && !e.Fetch? && !e.Start? && !e.Insert?
    ensures ToInsert(Apply(p, s, e).value) == ToInsert(s)
  {
    hide Safe, FirstFree;
  }

  /** What was inserted, what is left of the command in hand and what the queued commands hold are, in
      this order, the sub-commands of all commands fetched. */
  lemma {:induction false} RunConserves(p: Params, es: seq<Event>)
    requires p.buffers <= 0x100 && Run(p, Init(p), es).Some?
    ensures Entered(p, es) + ToInsert(Now(p, es)) == AllSubs(Commands(p, es))
  {
    hide Apply, Safe, HostCmd.Subs, Run, ToInsert, NewSub, FirstFree;
    if es == [] {
      NothingToInsert(p);
    } else {
      var before, e := es[..|es| - 1], es[|es| - 1];
      LastStep(p, es);
      RunConserves(p, before);
      RunSafe(p, before);
      StepToInsert(p, Now(p, before), e);
      if e.Fetch? {
        var c := HostCmd(e.op, e.lba, e.cnt, FirstFree(Now(p, before).tagTable));
        assert (Commands(p, before) + [c])[..|Commands(p, before)|] == Commands(p, before);
      }
    }
  }

  lemma NothingToInsert(p: Params)
    ensures Run(p, Init(p), []).Some? && ToInsert(Now(p, [])) == []
  {}

  // ---- each command's sub-commands ---------------------------------------------------------

  /** How many sub-commands the first `i` commands have. */
  function Base(cmds: seq<HostCmd>, i: nat): nat
    requires i <= |cmds|
  {
    if i == 0 then 0 else Base(cmds, i - 1) + cmds[i - 1].cnt
  }

  lemma {:induction false} SubsAt(cmds: seq<HostCmd>, n: nat, i: nat, j: nat)
    requires i < n <= |cmds| && j < cmds[i].cnt
    ensures |AllSubs(cmds[..n])| == Base(cmds, n)
    ensures Base(cmds, i) + j < |AllSubs(cmds[..n])| && AllSubs(cmds[..n])[Base(cmds, i) + j] == cmds[i].Subs()[j]
  {
    hide HostCmd.Subs;
    assert cmds[..n][..n - 1] == cmds[..n - 1];
    if i < n - 1 { SubsAt(cmds, n - 1, i, j); } else { SubsCount(cmds, i); }
  }

  lemma {:induction false} SubsCount(cmds: seq<HostCmd>, n: nat)
    requires n <= |cmds|
    ensures |AllSubs(cmds[..n])| == Base(cmds, n)
  {
    hide HostCmd.Subs;
    if n > 0 {
      SubsCount(cmds, n - 1);
      assert cmds[..n][..n - 1] == cmds[..n - 1];
    }
  }

  /** In every run, the sub-commands of a fetched command are inserted one after the other, behind those
      of all earlier commands: number `j` has LBA `lba + j`, the command's type and its tag. */
  lemma EachInOrder(p: Params, es: seq<Event>, i: nat, j: nat)
    requires p.buffers <= 0x100 && Run(p, Init(p), es).Some?
    requires i < |Commands(p, es)| && j < Commands(p, es)[i].cnt && Base(Commands(p, es), i) + j < |Entered(p, es)|
    ensures var c := Commands(p, es)[i];
            Entered(p, es)[Base(Commands(p, es), i) + j] == SubCmd(c.op, c.lba + j, c.tag, j == 0)
  {
    hide Run, Init, Apply, Safe, Entered, Commands, ToInsert, AllSubs;
    var cmds := Commands(p, es);
    RunConserves(p, es);
    assert cmds[..|cmds|] == cmds;
    SubsAt(cmds, |cmds|, i, j);
    assert Entered(p, es)[Base(cmds, i) + j] == (Entered(p, es) + ToInsert(Now(p, es)))[Base(cmds, i) + j];
  }

  // ---- offsets -----------------------------------------------------------------------------

  /** Each offset is 0 after a wait and for the first of a command, else one more than the last. */
  ghost predicate Counting(p: Params, es: seq<Event>)
    requires Run(p, Init(p), es).Some?
  {
    forall n :: 0 <= n < |Entered(p, es)| ==> NextOffset(Entered(p, es), Waits(p, es), Offsets(p, es), n)
  }

  predicate NextOffset(subs: seq<SubCmd>, waits: seq<bool>, offsets: seq<nat>, n: nat)
    requires n < |subs| == |waits| == |offsets|
  {
    if waits[n] || subs[n].first then offsets[n] == 0 else n > 0 && offsets[n] == offsets[n - 1] + 1
  }

  /** The offset in hand is the one that comes next. */
  ghost predicate Upcoming(p: Params, es: seq<Event>)
    requires Run(p, Init(p), es).Some?
  {
    var s, offsets := Now(p, es), Offsets(p, es);
    && (forall k :: 0 <= k < |s.requests| ==> s.requests[k].offset == 0)
    && (s.current.Some? && s.current.value.offset > 0 ==>
          offsets != [] && s.current.value.offset == offsets[|offsets| - 1] + 1)
  }

  lemma {:induction false} RunOffsets(p: Params, es: seq<Event>)
    requires p.buffers <= 0x100 && Run(p, Init(p), es).Some?
    ensures Counting(p, es) && Upcoming(p, es)
  {
    hide Apply, Safe, Run, Counting, Upcoming;
    if es == [] {
      NothingCounted(p);
    } else {
      var before, e := es[..|es| - 1], es[|es| - 1];
      LastStep(p, es);
      RunOffsets(p, before);
      RunSafe(p, before);
      if e.Insert? { InsertOffsets(p, es); } else { RestOffsets(p, es); }
    }
  }

  lemma NothingCounted(p: Params)
    ensures Run(p, Init(p), []).Some? && Counting(p, []) && Upcoming(p, [])
  {}

  lemma InsertOffsets(p: Params, es: seq<Event>)
    requires es != [] && Run(p, Init(p), es).Some? && Run(p, Init(p), es[..|es| - 1]).Some?
    requires es[|es| - 1].Insert? && Apply(p, Before(p, es), es[|es| - 1]) == Some(Now(p, es))
    requires Safe(p, Before(p, es)) && Counting(p, es[..|es| - 1]) && Upcoming(p, es[..|es| - 1])
    ensures Counting(p, es) && Upcoming(p, es)
  {
    hide Apply, Safe, Run, NewEntry;
    var before := es[..|es| - 1];
    InsertTakes(p, Before(p, es), es[|es| - 1]);
    forall n | 0 <= n < |Entered(p, es)| ensures NextOffset(Entered(p, es), Waits(p, es), Offsets(p, es), n) {
      if n < |Entered(p, before)| { assert NextOffset(Entered(p, before), Waits(p, before), Offsets(p, before), n); }
    }
  }

  lemma RestOffsets(p: Params, es: seq<Event>)
    requires es != [] && Run(p, Init(p), es).Some? && Run(p, Init(p), es[..|es| - 1]).Some?
    requires !es[|es| - 1].Insert? && Apply(p, Before(p, es), es[|es| - 1]) == Some(Now(p, es))
    requires Counting(p, es[..|es| - 1]) && Upcoming(p, es[..|es| - 1])
    ensures Counting(p, es) && Upcoming(p, es)
  {
    hide Run, Apply, NextOffset;
    var before := es[..|es| - 1];
    RestInHand(p, Before(p, es), es[|es| - 1]);
    assert Entered(p, es) == Entered(p, before) && Offsets(p, es) == Offsets(p, before) && Waits(p, es) == Waits(p, before);
  }

  lemma RestInHand(p: Params, s: State, e: Event)
    requires Sized(p, s) && Apply(p, s, e).Some? && !e.Insert?
    ensures var s' := Apply(p, s, e).value;
            && (s'.current == s.current || (s'.current.Some? && s.requests != [] && s'.current.value == s.requests[0]))
            && forall k :: 0 <= k < |s'.requests| ==> s'.requests[k] in s.requests || s'.requests[k].offset == 0
  {
    hide FirstFree;
  }

  /** The host block a sub-command's data belongs to is found from its offset. It is the right one, the
      number of the sub-command in its command, exactly when since the command's first sub-command none
      had to wait for room; otherwise it is too small. */
  lemma {:induction false} OffsetIff(p: Params, es: seq<Event>, i: nat, j: nat)
    requires p.buffers <= 0x100 && Run(p, Init(p), es).Some?
    requires i < |Commands(p, es)| && j < Commands(p, es)[i].cnt && Base(Commands(p, es), i) + j < |Entered(p, es)|
    ensures var b := Base(Commands(p, es), i);
            && Offsets(p, es)[b + j] <= j
            && (Offsets(p, es)[b + j] == j <==> forall k :: b < k <= b + j ==> !Waits(p, es)[k])
    decreases j
  {
    hide Run, Init, Apply, Safe, Entered, Commands, Offsets, Waits, Base;
    var b := Base(Commands(p, es), i);
    RunOffsets(p, es);
    EachInOrder(p, es, i, j);
    assert NextOffset(Entered(p, es), Waits(p, es), Offsets(p, es), b + j);
    if j > 0 { OffsetIff(p, es, i, j - 1); }
  }

  // ---- the order of completions ------------------------------------------------------------

  /** The tag whose running count a step brings to 0, by the type of its command. */
  function Ends(p: Params, s: State, e: Event, s': State, write: bool): seq<nat>
    requires Sized(p, s')
  {
    if ((write && e.FinishWrite?) || (!write && e.FinishRead?)) && e.q in s.flight then
      var t := s.flight[e.q].tag;
      if t < p.tags && s'.running[t] == 0 then [t] else []
    else []
  }

  /** The tag of the completion TLP that a step queues. */
  function Reports(e: Event, s': State, write: bool): seq<nat> {
    if ((write && e.ReportWrite?) || (!write && e.ReportRead?)) && s'.compQ != [] then [s'.compQ[|s'.compQ| - 1]] else []
  }

  function AllEnds(p: Params, es: seq<Event>, write: bool): seq<nat>
    requires Run(p, Init(p), es).Some?
  {
    if es == [] then [] else
      AllEnds(p, es[..|es| - 1], write) + Ends(p, Before(p, es), es[|es| - 1], Now(p, es), write)
  }

  function AllReports(p: Params, es: seq<Event>, write: bool): seq<nat>
    requires Run(p, Init(p), es).Some?
  {
    if es == [] then [] else AllReports(p, es[..|es| - 1], write) + Reports(es[|es| - 1], Now(p, es), write)
  }

  /** Both types together. */
  function AllTlps(p: Params, es: seq<Event>): seq<nat>
    requires Run(p, Init(p), es).Some?
  {
    if es == [] then [] else
      AllTlps(p, es[..|es| - 1]) + (Reports(es[|es| - 1], Now(p, es), true) + Reports(es[|es| - 1], Now(p, es), false))
  }

  function Unreported(s: State, write: bool): seq<nat> { if write then s.tagQueue else s.dmaActive }

  lemma StepOrder(p: Params, s: State, e: Event, write: bool)
    requires Sized(p, s) && Apply(p, s, e).Some?
    ensures var s' := Apply(p, s, e).value;
            && Reports(e, s', write) + Unreported(s', write) == Unreported(s, write) + Ends(p, s, e, s', write)
            && s'.completed + s'.compQ == s.completed + s.compQ + (Reports(e, s', true) + Reports(e, s', false))
  {
    hide FirstFree, Fetched, Started, InsertedLinked, UnlinkedHead, Released, Buffered, WithData, Reported, Completed;
    var s', none: seq<nat> := Apply(p, s, e).value, [];
    assert Reports(e, s', true) + none == Reports(e, s', true) && none + Reports(e, s', false) == Reports(e, s', false);
    assert s.completed + s.compQ + none == s.completed + s.compQ;
    assert none + Unreported(s', write) == Unreported(s', write) && Unreported(s, write) + none == Unreported(s, write);
    match e {
      case ReportWrite => ReportOrder(p, s, true, write);
      case ReportRead => ReportOrder(p, s, false, write);
      case FinishWrite(_) => FinishOrder(p, s, e, write);
      case FinishRead(_) => FinishOrder(p, s, e, write);
      case _ => OtherOrder(p, s, e);
    }
  }

  lemma FinishOrder(p: Params, s: State, e: Event, write: bool)
    requires Sized(p, s) && (e.FinishWrite? || e.FinishRead?) && Apply(p, s, e).Some?
    ensures var s' := Apply(p, s, e).value;
            && Unreported(s', write) == Unreported(s, write) + Ends(p, s, e, s', write)
            && s'.completed == s.completed && s'.compQ == s.compQ
  {}

  lemma OtherOrder(p: Params, s: State, e: Event)
    requires Sized(p, s) && Apply(p, s, e).Some? && !e.FinishWrite? && !e.FinishRead? && !e.ReportWrite? && !e.ReportRead?
    ensures var s' := Apply(p, s, e).value;
            s'.tagQueue == s.tagQueue && s'.dmaActive == s.dmaActive && s'.completed + s'.compQ == s.completed + s.compQ
  {
    hide FirstFree;
    if e.SendCompletion? { assert s.completed + [s.compQ[0]] + s.compQ[1..] == s.completed + s.compQ; }
  }

  lemma ReportOrder(p: Params, s: State, w: bool, write: bool)
    requires Sized(p, s) && Reported(p, s, w).Some?
    ensures var e, s' := if w then ReportWrite else ReportRead, Reported(p, s, w).value;
            && Reports(e, s', write) + Unreported(s', write) == Unreported(s, write)
            && s'.completed == s.completed && s'.compQ == s.compQ + Reports(e, s', w)
  {
    var t := Unreported(s, w)[0];
    assert [t] + Unreported(s, w)[1..] == Unreported(s, w);
  }

  /** In every run, completion TLPs of writes are queued in the order in which the writes finished, those
      of reads in the order in which the reads finished; and TLPs are sent in the order they were queued. */
  lemma {:induction false} RunOrder(p: Params, es: seq<Event>, write: bool)
    requires p.buffers <= 0x100 && Run(p, Init(p), es).Some?
    ensures AllReports(p, es, write) + Unreported(Now(p, es), write) == AllEnds(p, es, write)
    ensures Now(p, es).completed + Now(p, es).compQ == AllTlps(p, es)
  {
    hide Apply, Run, Ends, Reports, Unreported;
    if es == [] {
      NothingReported(p, write);
    } else {
      var before, s, s', e := es[..|es| - 1], Before(p, es), Now(p, es), es[|es| - 1];
      LastStep(p, es);
      RunOrder(p, before, write);
      StepOrder(p, s, e, write);
      calc {
        AllReports(p, es, write) + Unreported(s', write);
        AllReports(p, before, write) + (Reports(e, s', write) + Unreported(s', write));
        AllReports(p, before, write) + Unreported(s, write) + Ends(p, s, e, s', write);
        AllEnds(p, es, write);
      }
    }
  }

  lemma NothingReported(p: Params, write: bool)
    ensures Run(p, Init(p), []).Some? && Unreported(Now(p, []), write) == []
    ensures Now(p, []).completed == Now(p, []).compQ == []
  {}
}
