/** What every step of the tag lifecycle keeps, and what follows for every run. */
module TagSafety {
  import opened Common
  import opened Places
  import opened Pool
  import opened TagLifecycle

  // ---- membership --------------------------------------------------------------------------

  /** A host queue that is not full leaves a free tag, so the unchecked search succeeds. */
  lemma FreshTag(p: Params, s: State)
    requires Sized(p, s) && Allocated(p, s) && s.hostSize != p.tags
    ensures FirstFree(s.tagTable) < p.tags && s.stage[FirstFree(s.tagTable)] == Idle
  {
    SomeFree(s.tagTable);
  }

  /** A PCMDQ that is not full leaves a free entry, and that entry is in reset state. */
  lemma FreshEntry(p: Params, s: State)
    requires Sized(p, s) && Allocated(p, s) && Carried(p, s) && s.size != p.slots
    ensures FirstFree(s.status) < p.slots && s.entries[FirstFree(s.status)] == RESET && FirstFree(s.status) !in s.flight
    ensures s.status[FirstFree(s.status)] == FREE
  {
    SomeFree(s.status);
  }

  lemma CurrentInserting(p: Params, s: State)
    requires Sized(p, s) && Staged(p, s) && s.current.Some?
    ensures s.current.value.tag < p.tags && s.stage[s.current.value.tag] == Inserting && s.current.value.cnt > 0
    ensures forall t :: 0 <= t < p.tags && s.stage[t] == Inserting ==> t == s.current.value.tag
  {
    assert s.current.value.tag in [s.current.value.tag];
  }

  lemma FrontQueued(p: Params, s: State)
    requires Sized(p, s) && Staged(p, s) && s.requests != []
    ensures s.requests[0].tag < p.tags && s.stage[s.requests[0].tag] == Queued
  {
    assert TagsOf(s.requests)[0] == s.requests[0].tag && s.requests[0].tag in TagsOf(s.requests);
  }

  lemma FrontFinished(p: Params, s: State, write: bool)
    requires Sized(p, s) && Staged(p, s) && (if write then s.tagQueue else s.dmaActive) != []
    ensures var t := (if write then s.tagQueue else s.dmaActive)[0]; 0 <= t < p.tags && s.stage[t] == Finished
  {
    var t := (if write then s.tagQueue else s.dmaActive)[0];
    assert t in s.tagQueue + s.dmaActive by { if write { assert t in s.tagQueue; } else { assert t in s.dmaActive; } }
  }

  lemma FrontDone(p: Params, s: State)
    requires Sized(p, s) && Staged(p, s) && s.doneTags != []
    ensures 0 <= s.doneTags[0] < p.tags && s.stage[s.doneTags[0]] == Done
  {
    assert s.doneTags[0] in s.doneTags;
  }

  /** Steps by what they do: to the tags, to the PCMDQ, to a stage only, or to neither. */
  predicate StageOnly(p: Params, s: State, s': State, t: nat, from: Stage, to: Stage)
    requires Sized(p, s)
  {
    && t < p.tags && s.stage[t] == from && s' == s.(stage := s.stage[t := to], requests := s'.requests, current := s'.current,
         tagQueue := s'.tagQueue, dmaActive := s'.dmaActive, doneTags := s'.doneTags, compQ := s'.compQ)
  }

  lemma StartStage(p: Params, s: State)
    requires Sized(p, s) && Staged(p, s) && Started(p, s).Some?
    ensures s.requests != []
    ensures var t := s.requests[0].tag;
            StageOnly(p, s, Started(p, s).value, t, Queued, if s.requests[0].cnt == 0 then Waiting else Inserting)
  {
    FrontQueued(p, s);
  }

  lemma ReportStage(p: Params, s: State, write: bool)
    requires Sized(p, s) && Staged(p, s) && Reported(p, s, write).Some?
    ensures (if write then s.tagQueue else s.dmaActive) != []
    ensures StageOnly(p, s, Reported(p, s, write).value, (if write then s.tagQueue else s.dmaActive)[0], Finished, Done)
  {
    FrontFinished(p, s, write);
  }

  // ---- allocation --------------------------------------------------------------------------

  lemma FetchAllocated(p: Params, s: State, op: CmdType, lba: nat, cnt: nat, stale: nat)
    requires Sized(p, s) && Allocated(p, s) && Fetched(p, s, op, lba, cnt, stale).Some?
    ensures Allocated(p, Fetched(p, s, op, lba, cnt, stale).value)
  {
    FreshTag(p, s);
    TakeOne(s.tagTable, FirstFree(s.tagTable));
  }

  lemma StartAllocated(p: Params, s: State)
    requires Sized(p, s) && Allocated(p, s) && Staged(p, s) && Started(p, s).Some?
    ensures Allocated(p, Started(p, s).value)
  {
    StartStage(p, s);
  }

  lemma ReportAllocated(p: Params, s: State, write: bool)
    requires Sized(p, s) && Allocated(p, s) && Staged(p, s) && Reported(p, s, write).Some?
    ensures Allocated(p, Reported(p, s, write).value)
  {
    ReportStage(p, s, write);
  }

  lemma InsertAllocated(p: Params, s: State, waited: bool)
    requires Sized(p, s) && Allocated(p, s) && Carried(p, s) && Staged(p, s) && Inserted(p, s, waited).Some?
    ensures Allocated(p, Inserted(p, s, waited).value)
  {
    hide FirstFree;
    FreshEntry(p, s);
    TakeOne(s.status, FirstFree(s.status));
    CurrentInserting(p, s);
  }

  lemma ReleaseAllocated(p: Params, s: State, q: nat)
    requires Sized(p, s) && Allocated(p, s) && Carried(p, s) && q in s.flight && Released(p, s, q).Some?
    ensures Allocated(p, Released(p, s, q).value)
  {
    GiveBack(s.status, q);
    assert FlightOk(p, s, q);
  }

  lemma CompleteAllocated(p: Params, s: State)
    requires Sized(p, s) && Allocated(p, s) && Staged(p, s) && Completed(p, s).Some?
    ensures Allocated(p, Completed(p, s).value)
  {
    FrontDone(p, s);
    GiveBack(s.tagTable, s.doneTags[0]);
  }

  /** Linking only changes one `nextAddr`, the heads and tails, and the lists. */
  lemma LinkedSame(s: State, q: nat, b: nat)
    requires b < |s.table|
    ensures var r := Linked(s, q, b);
            && r == s.(entries := r.entries, table := r.table, lists := r.lists, listOf := r.listOf)
            && |r.entries| == |s.entries| && |r.table| == |s.table|
            && forall k :: 0 <= k < |s.entries| ==> r.entries[k] == s.entries[k].(nextAddr := r.entries[k].nextAddr)
  {}

  lemma LinkedAllocated(p: Params, s: State, waited: bool, b: nat)
    requires Sized(p, s) && InsertedLinked(p, s, waited, b).Some? && Allocated(p, Inserted(p, s, waited).value)
    ensures Allocated(p, InsertedLinked(p, s, waited, b).value)
  {
    hide Inserted, FirstFree;
  }

  /** Unlinking, buffers and data TLPs. */
  predicate Aside(e: Event) { e.Unlink? || e.TakeBuffer? || e.SendData? || e.DataSent? }

  lemma AsideAllocated(p: Params, s: State, e: Event)
    requires Sized(p, s) && Allocated(p, s) && Aside(e) && Apply(p, s, e).Some?
    ensures Allocated(p, Apply(p, s, e).value)
  {}

  lemma StepAllocated(p: Params, s: State, e: Event)
    requires Safe(p, s) && Apply(p, s, e).Some?
    ensures Allocated(p, Apply(p, s, e).value)
  {
    hide Sized, Allocated, Carried, Staged, Counted, Owned, Booked, Aligned, Fetched, Inserted, Linked, Released, Completed, Reported, Started, Buffered;
    match e
    case Fetch(op, lba, cnt, stale) => FetchAllocated(p, s, op, lba, cnt, stale);
    case Start => StartAllocated(p, s);
    case Insert(waited, b) => InsertAllocated(p, s, waited); LinkedAllocated(p, s, waited, b);
    case FinishWrite(q) => ReleaseAllocated(p, s, q);
    case FinishRead(q) => DataSame(p, s, q); ReleaseAllocated(p, WithData(s, q), q);
    case ReportWrite => ReportAllocated(p, s, true);
    case ReportRead => ReportAllocated(p, s, false);
    case SendCompletion => CompleteAllocated(p, s);
    case _ => AsideAllocated(p, s, e);
  }

  lemma DataSame(p: Params, s: State, q: nat)
    requires Sized(p, s) && q in s.flight && s.flight[q].buffer.Some?
    ensures var d := WithData(s, q);
            && Sized(p, d) && d.flight == s.flight && (Allocated(p, s) ==> Allocated(p, d)) && (Carried(p, s) ==> Carried(p, d))
            && (Counted(p, s) ==> Counted(p, d)) && (Staged(p, s) ==> Staged(p, d)) && (Booked(p, s) ==> Booked(p, d))
  {
    var d := WithData(s, q);
    if Carried(p, s) { forall r | r in d.flight ensures FlightOk(p, d, r) { assert FlightOk(p, s, r); } }
    if Counted(p, s) { CountedSame(p, s, d); }
  }

  // ---- PCMDQ entries and flights -----------------------------------------------------------

  /** Flights do not look at stages other than Inserting and Waiting. */
  lemma StageCarried(p: Params, s: State, s': State, t: nat, from: Stage, to: Stage)
    requires Sized(p, s) && Carried(p, s) && StageOnly(p, s, s', t, from, to)
    requires from == Queued || from == Finished
    ensures Sized(p, s') && Carried(p, s')
  {
    forall q | q in s'.flight ensures FlightOk(p, s', q) { assert FlightOk(p, s, q); }
  }

  lemma FetchCarried(p: Params, s: State, op: CmdType, lba: nat, cnt: nat, stale: nat)
    requires Sized(p, s) && Allocated(p, s) && Carried(p, s) && Fetched(p, s, op, lba, cnt, stale).Some?
    ensures Carried(p, Fetched(p, s, op, lba, cnt, stale).value)
  {
    FreshTag(p, s);
    var s' := Fetched(p, s, op, lba, cnt, stale).value;
    forall q | q in s'.flight ensures FlightOk(p, s', q) { assert FlightOk(p, s, q); }
  }

  lemma StartCarried(p: Params, s: State)
    requires Sized(p, s) && Carried(p, s) && Staged(p, s) && Started(p, s).Some?
    ensures Carried(p, Started(p, s).value)
  {
    hide Carried, Started, Staged;
    StartStage(p, s);
    StageCarried(p, s, Started(p, s).value, s.requests[0].tag, Queued, if s.requests[0].cnt == 0 then Waiting else Inserting);
  }

  lemma ReportCarried(p: Params, s: State, write: bool)
    requires Sized(p, s) && Carried(p, s) && Staged(p, s) && Reported(p, s, write).Some?
    ensures Carried(p, Reported(p, s, write).value)
  {
    hide Carried, Reported, Staged;
    ReportStage(p, s, write);
    StageCarried(p, s, Reported(p, s, write).value, (if write then s.tagQueue else s.dmaActive)[0], Finished, Done);
  }

  lemma CompleteCarried(p: Params, s: State)
    requires Sized(p, s) && Carried(p, s) && Staged(p, s) && Completed(p, s).Some?
    ensures Carried(p, Completed(p, s).value)
  {
    FrontDone(p, s);
    var s' := Completed(p, s).value;
    forall q | q in s'.flight ensures FlightOk(p, s', q) { assert FlightOk(p, s, q); }
  }

  /** A READ leaves the type of a reset entry alone, which is READ: every sub-command is stored with
      its command's type. */
  lemma InsertCarried(p: Params, s: State, waited: bool)
    requires Sized(p, s) && Allocated(p, s) && Carried(p, s) && Staged(p, s) && Inserted(p, s, waited).Some?
    ensures Carried(p, Inserted(p, s, waited).value)
  {
    hide FirstFree;
    FreshEntry(p, s);
    CurrentInserting(p, s);
    var s', q := Inserted(p, s, waited).value, FirstFree(s.status);
    forall r | r in s'.flight ensures r < p.slots && FlightOk(p, s', r) {
      if r != q { assert FlightOk(p, s, r); }
    }
  }

  /** What the end of a flight does to entries, flights, counts and stages. */
  lemma ReleaseSets(p: Params, s: State, q: nat)
    requires Sized(p, s) && q in s.flight && Released(p, s, q).Some? && s.flight[q].tag < p.tags && s.running[s.flight[q].tag] >= 1
    ensures var r, t := Released(p, s, q).value, s.flight[q].tag;
            && q < p.slots && r.entries == s.entries[q := RESET] && r.status == s.status[q := FREE] && r.flight == s.flight - {q}
            && r.ops == s.ops && r.running == s.running[t := s.running[t] - 1]
            && r.requests == s.requests && r.current == s.current
            && r.stage == if s.running[t] == 1 then s.stage[t := Finished] else s.stage
  {}

  lemma ReleaseCarried(p: Params, s: State, q: nat)
    requires Sized(p, s) && Carried(p, s) && Counted(p, s) && q in s.flight && Released(p, s, q).Some?
    ensures Carried(p, Released(p, s, q).value)
  {
    var t, s' := s.flight[q].tag, Released(p, s, q).value;
    assert FlightOk(p, s, q) && CountOk(s, t);
    assert q in Carrying(s.flight, t);
    ReleaseSets(p, s, q);
    hide Released, Counted;
    forall r | r in s'.flight ensures FlightOk(p, s', r) {
      assert FlightOk(p, s, r);
      if s.flight[r].tag == t { TwoCarried(s.flight, t, q, r); }
    }
  }

  lemma TwoCarried(flight: map<nat, Flight>, t: nat, q: nat, r: nat)
    requires q in flight && r in flight && q != r && flight[q].tag == flight[r].tag == t
    ensures |Carrying(flight, t)| >= 2
  {
    assert {q, r} <= Carrying(flight, t);
    Subset({q, r}, Carrying(flight, t));
  }

  /** The tail of a list is a busy entry, so its link never lands in a free one. */
  lemma TailBusy(p: Params, s: State, b: nat)
    requires Sized(p, s) && Carried(p, s) && Chained(p, s) && b < p.lists
    ensures s.table[b].head == -1 || (0 <= s.table[b].tail < p.slots && s.status[s.table[b].tail] == BUSY)
  {
    var addrs := At(s.lists, b);
    assert L.Chain(Links(s.entries), s.table[b], addrs);
    if addrs != [] { assert addrs[|addrs| - 1] in addrs; }
  }

  lemma LinkedCarried(p: Params, s: State, waited: bool, b: nat)
    requires Safe(p, s) && InsertedLinked(p, s, waited, b).Some? && Carried(p, Inserted(p, s, waited).value)
    ensures Carried(p, InsertedLinked(p, s, waited, b).value)
  {
    TailBusy(p, s, b);
    var t := Inserted(p, s, waited).value;
    var q := FirstFree(s.status);
    assert t.status == s.status[q := BUSY] && t.table == s.table;
    hide Inserted, FirstFree, Chained, Allocated, Counted, Staged, Aligned, Owned, Booked;
    LinkCarried(p, t, q, b);
  }

  lemma LinkCarried(p: Params, t: State, q: nat, b: nat)
    requires Sized(p, t) && Carried(p, t) && b < p.lists
    requires t.table[b].head == -1 || (0 <= t.table[b].tail < p.slots && t.status[t.table[b].tail] == BUSY)
    ensures Carried(p, Linked(t, q, b))
  {
    var r := Linked(t, q, b);
    LinkedSame(t, q, b);
    forall k | k in r.flight ensures FlightOk(p, r, k) { assert FlightOk(p, t, k); }
    forall k | 0 <= k < p.slots && r.status[k] == FREE ensures r.entries[k] == RESET {
      assert t.entries[k] == RESET && (t.table[b].head == -1 || k != t.table[b].tail);
    }
  }

  lemma AsideCarried(p: Params, s: State, e: Event)
    requires Sized(p, s) && Carried(p, s) && Aside(e) && Apply(p, s, e).Some?
    ensures Carried(p, Apply(p, s, e).value)
  {
    var s' := Apply(p, s, e).value;
    forall q | q in s'.flight ensures FlightOk(p, s', q) { assert FlightOk(p, s, q); }
  }

  lemma StepCarried(p: Params, s: State, e: Event)
    requires Safe(p, s) && Apply(p, s, e).Some?
    ensures Carried(p, Apply(p, s, e).value)
  {
    hide Sized, Allocated, Carried, Staged, Counted, Owned, Booked, Aligned, Fetched, Inserted, Linked, Released, Completed, Reported, Started, Buffered;
    match e
    case Fetch(op, lba, cnt, stale) => FetchCarried(p, s, op, lba, cnt, stale);
    case Start => StartCarried(p, s);
    case Insert(waited, b) => InsertCarried(p, s, waited); LinkedCarried(p, s, waited, b);
    case FinishWrite(q) => ReleaseCarried(p, s, q);
    case FinishRead(q) => DataSame(p, s, q); ReleaseCarried(p, WithData(s, q), q);
    case ReportWrite => ReportCarried(p, s, true);
    case ReportRead => ReportCarried(p, s, false);
    case SendCompletion => CompleteCarried(p, s);
    case _ => AsideCarried(p, s, e);
  }

  // ---- bank lists --------------------------------------------------------------------------

  lemma ChainedSame(p: Params, s: State, s': State)
    requires Sized(p, s) && Sized(p, s') && Chained(p, s)
    requires s'.table == s.table && s'.lists == s.lists && s'.listOf == s.listOf
    requires forall q :: q in s.listOf && q < p.slots ==> s'.entries[q].nextAddr == s.entries[q].nextAddr
    requires forall q :: q in s.listOf ==> q in s'.flight && (q in s.flight ==> s'.flight[q] == s.flight[q])
    ensures Chained(p, s')
  {
    forall b | 0 <= b < p.lists ensures L.Chain(Links(s'.entries), s'.table[b], At(s'.lists, b)) {
      var addrs := At(s.lists, b);
      assert L.Chain(Links(s.entries), s.table[b], addrs);
      forall k | 0 <= k < |addrs| ensures addrs[k] < p.slots && Links(s'.entries)[addrs[k]] == Links(s.entries)[addrs[k]] {
        InList(s.lists, s.listOf, b, k);
        assert s'.entries[addrs[k]].nextAddr == s.entries[addrs[k]].nextAddr;
      }
      L.SameChain(Links(s.entries), Links(s'.entries), s.table[b], addrs);
    }
  }

  lemma InList(lists: map<nat, seq<nat>>, listOf: map<nat, nat>, b: nat, k: nat)
    requires Kept(lists, listOf) && k < |At(lists, b)|
    ensures At(lists, b)[k] in listOf && listOf[At(lists, b)[k]] == b
  {
    assert At(lists, b)[k] in At(lists, b);
  }

  /** The new entry goes to the end of its bank's list; no other list changes. */
  lemma LinkChained(p: Params, s: State, q: nat, b: nat)
    requires Sized(p, s) && Chained(p, s) && b < p.lists
    requires q in s.flight && q !in s.listOf && q < p.slots && s.flight[q].buffer.None?
    ensures Chained(p, Linked(s, q, b))
  {
    var r, list, addrs := Linked(s, q, b), s.table[b], At(s.lists, b);
    var links := Links(s.entries);
    assert L.Chain(links, list, addrs) && NoDup(addrs);
    L.ChainEnds(links, list, addrs);
    L.ChainAppend(links, list, addrs, q);
    assert Links(r.entries) == L.LinkedEntries(links, list, q);
    PutKeeps(s.lists, s.listOf, b, q);
    forall c | 0 <= c < p.lists ensures L.Chain(Links(r.entries), r.table[c], At(r.lists, c)) {
      if c == b {
        assert At(r.lists, b) == addrs + [q];
      } else {
        assert L.Chain(links, s.table[c], At(s.lists, c));
        if addrs != [] { TailElsewhere(s.lists, s.listOf, b, c); }
        L.ChainElsewhere(links, list, q, s.table[c], At(s.lists, c));
      }
    }
  }

  lemma TailElsewhere(lists: map<nat, seq<nat>>, listOf: map<nat, nat>, b: nat, c: nat)
    requires Kept(lists, listOf) && b != c && At(lists, b) != []
    ensures At(lists, b)[|At(lists, b)| - 1] !in At(lists, c)
  {
    var x := At(lists, b)[|At(lists, b)| - 1];
    InList(lists, listOf, b, |At(lists, b)| - 1);
    if x in At(lists, c) {
      var k :| 0 <= k < |At(lists, c)| && At(lists, c)[k] == x;
      InList(lists, listOf, c, k);
    }
  }

  lemma InsertChained(p: Params, s: State, waited: bool, b: nat)
    requires Safe(p, s) && InsertedLinked(p, s, waited, b).Some?
    ensures Chained(p, InsertedLinked(p, s, waited, b).value)
  {
    FreshEntry(p, s);
    hide Allocated, Carried, Counted, Staged, Owned, Booked, Aligned, FirstFree;
    var t, q := Inserted(p, s, waited).value, FirstFree(s.status);
    assert q !in s.listOf;
    ChainedSame(p, s, t);
    assert q in t.flight && t.flight[q].buffer.None?;
    LinkChained(p, t, q, b);
  }

  /** The head that processBankLinkList takes off is the entry that has been longest in its bank's list. */
  lemma UnlinkTakesFront(p: Params, s: State, b: nat)
    requires Safe(p, s) && b < p.lists
    ensures s.table[b].head == -1 <==> At(s.lists, b) == []
    ensures UnlinkedHead(p, s, b).Some? <==> At(s.lists, b) != []
    ensures At(s.lists, b) != [] ==>
              var q, r := At(s.lists, b)[0], UnlinkedHead(p, s, b).value;
              && s.table[b].head == q && q in s.flight && q in s.listOf && q !in r.listOf
              && At(r.lists, b) == At(s.lists, b)[1..] && forall c :: c != b ==> At(r.lists, c) == At(s.lists, c)
  {
    var addrs := At(s.lists, b);
    assert L.Chain(Links(s.entries), s.table[b], addrs);
    if addrs != [] { assert addrs[0] in addrs; }
  }

  lemma UnlinkChained(p: Params, s: State, b: nat)
    requires Safe(p, s) && UnlinkedHead(p, s, b).Some?
    ensures Chained(p, UnlinkedHead(p, s, b).value)
  {
    hide Allocated, Carried, Counted, Staged, Owned, Booked, Aligned;
    var addrs, r := At(s.lists, b), UnlinkedHead(p, s, b).value;
    UnlinkTakesFront(p, s, b);
    assert L.Chain(Links(s.entries), s.table[b], addrs) && NoDup(addrs);
    TakeKeeps(s.lists, s.listOf, b);
    if |addrs| > 1 { assert addrs[0] != addrs[|addrs| - 1]; }
    assert L.Chain(Links(s.entries), r.table[b], addrs[1..]);
    forall c | 0 <= c < p.lists ensures L.Chain(Links(r.entries), r.table[c], At(r.lists, c)) {
      if c != b { assert L.Chain(Links(s.entries), s.table[c], At(s.lists, c)); }
    }
  }

  lemma ReleaseChained(p: Params, s: State, q: nat)
    requires Sized(p, s) && Chained(p, s) && q in s.flight && q !in s.listOf && Released(p, s, q).Some?
    ensures Chained(p, Released(p, s, q).value)
  {
    ChainedSame(p, s, Released(p, s, q).value);
  }

  lemma RestChained(p: Params, s: State, e: Event)
    requires Sized(p, s) && Chained(p, s) && Apply(p, s, e).Some?
    requires !e.Insert? && !e.Unlink? && !e.FinishWrite? && !e.FinishRead?
    ensures Chained(p, Apply(p, s, e).value)
  {
    hide FirstFree, Kept, L.Chain;
    ChainedSame(p, s, Apply(p, s, e).value);
  }

  lemma StepChained(p: Params, s: State, e: Event)
    requires Safe(p, s) && Apply(p, s, e).Some?
    ensures Chained(p, Apply(p, s, e).value)
  {
    hide Sized, Allocated, Carried, Chained, Staged, Counted, Owned, Booked, Aligned, Fetched, Inserted, Linked, Released, Completed, Reported, Started, Buffered;
    match e
    case Insert(waited, b) => InsertChained(p, s, waited, b);
    case Unlink(b) => UnlinkChained(p, s, b);
    case FinishWrite(q) => ReleaseChained(p, s, q);
    case FinishRead(q) => DataChained(p, s, q); ReleaseChained(p, WithData(s, q), q);
    case _ => RestChained(p, s, e);
  }

  lemma DataChained(p: Params, s: State, q: nat)
    requires Sized(p, s) && Chained(p, s) && q in s.flight && s.flight[q].buffer.Some?
    ensures Sized(p, WithData(s, q)) && Chained(p, WithData(s, q)) && WithData(s, q).listOf == s.listOf && WithData(s, q).flight == s.flight
  {
    ChainedSame(p, s, WithData(s, q));
  }

  // ---- running counts ----------------------------------------------------------------------

  lemma {:induction false} LeftNone(requests: seq<Request>, t: nat)
    requires t !in TagsOf(requests)
    ensures LeftIn(requests, t) == 0
  {
    if requests != [] {
      var n := |requests| - 1;
      assert TagsOf(requests)[n] == requests[n].tag;
      forall k | 0 <= k < n ensures TagsOf(requests[..n])[k] != t { assert TagsOf(requests)[k] == requests[k].tag; }
      LeftNone(requests[..n], t);
    }
  }

  lemma LeftPut(requests: seq<Request>, r: Request, t: nat)
    ensures LeftIn(requests + [r], t) == LeftIn(requests, t) + if r.tag == t then r.cnt else 0
  {
    assert (requests + [r])[..|requests|] == requests;
  }

  lemma {:induction false} LeftFront(requests: seq<Request>, t: nat)
    requires requests != []
    ensures LeftIn(requests, t) == LeftIn(requests[1..], t) + if requests[0].tag == t then requests[0].cnt else 0
  {
    var n := |requests| - 1;
    if n > 0 {
      LeftFront(requests[..n], t);
      assert requests[..n][1..] == requests[1..][..n - 1];
    }
  }

  predicate Spent(stage: Stage) { stage == Idle || stage == Finished || stage == Done }

  lemma CountedSame(p: Params, s: State, s': State)
    requires Sized(p, s) && Sized(p, s') && Counted(p, s) && s'.running == s.running
    requires forall t :: 0 <= t < p.tags ==> Left(s', t) == Left(s, t) && Carrying(s'.flight, t) == Carrying(s.flight, t)
    requires forall t :: 0 <= t < p.tags && Spent(s'.stage[t]) ==> Spent(s.stage[t])
    ensures Counted(p, s')
  {
    forall t | 0 <= t < p.tags ensures CountOk(s', t) { assert CountOk(s, t); }
  }

  lemma FetchCounted(p: Params, s: State, op: CmdType, lba: nat, cnt: nat, stale: nat)
    requires Sized(p, s) && Allocated(p, s) && Counted(p, s) && Staged(p, s) && Fetched(p, s, op, lba, cnt, stale).Some?
    ensures Counted(p, Fetched(p, s, op, lba, cnt, stale).value)
  {
    hide FirstFree;
    var s', tag := Fetched(p, s, op, lba, cnt, stale).value, FirstFree(s.tagTable);
    FreshTag(p, s);
    assert tag !in TagsOf(s.requests);
    LeftNone(s.requests, tag);
    NotInserting(p, s, tag);
    forall t | 0 <= t < p.tags ensures CountOk(s', t) {
      assert CountOk(s, t);
      LeftPut(s.requests, Request(op, lba, 0, cnt, tag), t);
    }
  }

  lemma NotInserting(p: Params, s: State, t: nat)
    requires Sized(p, s) && Staged(p, s) && t < p.tags && s.stage[t] != Inserting
    ensures s.current.Some? ==> s.current.value.tag != t
  {
    if s.current.Some? { CurrentInserting(p, s); }
  }

  lemma StartCounted(p: Params, s: State)
    requires Sized(p, s) && Counted(p, s) && Staged(p, s) && Started(p, s).Some?
    ensures Counted(p, Started(p, s).value)
  {
    var s' := Started(p, s).value;
    FrontQueued(p, s);
    forall t | 0 <= t < p.tags ensures Left(s', t) == Left(s, t) { LeftFront(s.requests, t); }
    CountedSame(p, s, s');
  }

  lemma InsertCounted(p: Params, s: State, waited: bool)
    requires Sized(p, s) && Allocated(p, s) && Carried(p, s) && Counted(p, s) && Staged(p, s) && Inserted(p, s, waited).Some?
    ensures Counted(p, Inserted(p, s, waited).value)
  {
    hide FirstFree, Counted, Staged, Allocated, Carried;
    var s', q, r := Inserted(p, s, waited).value, FirstFree(s.status), s.current.value;
    FreshEntry(p, s);
    CurrentInserting(p, s);
    forall t | 0 <= t < p.tags ensures CountOk(s', t) {
      assert CountOk(s, t) by { CountAt(p, s, t); }
      InsertCountOk(p, s, waited, q, r, t);
    }
    AllCounted(p, s');
  }

  lemma CountAt(p: Params, s: State, t: nat)
    requires Sized(p, s) && Counted(p, s) && t < p.tags
    ensures CountOk(s, t)
  {}

  lemma AllCounted(p: Params, s: State)
    requires Sized(p, s) && forall t :: 0 <= t < p.tags ==> CountOk(s, t)
    ensures Counted(p, s)
  {}

  lemma InsertCountOk(p: Params, s: State, waited: bool, q: nat, r: Request, t: nat)
    requires Sized(p, s) && Inserted(p, s, waited).Some? && t < p.tags && CountOk(s, t)
    requires s.current == Some(r) && q == FirstFree(s.status) < p.slots && q !in s.flight
    requires r.tag < p.tags && r.cnt > 0 && s.stage[r.tag] == Inserting
    ensures CountOk(Inserted(p, s, waited).value, t)
  {
    hide FirstFree, LeftIn;
    var s' := Inserted(p, s, waited).value;
    assert Carrying(s'.flight, t) == if t == r.tag then Carrying(s.flight, t) + {q} else Carrying(s.flight, t);
    assert q !in Carrying(s.flight, t);
  }

  lemma ReleaseCounted(p: Params, s: State, q: nat)
    requires Sized(p, s) && Carried(p, s) && Counted(p, s) && q in s.flight && Released(p, s, q).Some?
    ensures Counted(p, Released(p, s, q).value)
    ensures s.flight[q].tag < p.tags && s.running[s.flight[q].tag] >= 1
  {
    var f, s' := s.flight[q], Released(p, s, q).value;
    assert FlightOk(p, s, q) && CountOk(s, f.tag);
    assert q in Carrying(s.flight, f.tag);
    ReleaseSets(p, s, q);
    hide Released, Carried;
    forall t | 0 <= t < p.tags ensures CountOk(s', t) {
      assert CountOk(s, t);
      assert Carrying(s'.flight, t) == if t == f.tag then Carrying(s.flight, t) - {q} else Carrying(s.flight, t);
      assert Left(s', t) == Left(s, t);
    }
  }

  lemma ReportCounted(p: Params, s: State, write: bool)
    requires Sized(p, s) && Counted(p, s) && Staged(p, s) && Reported(p, s, write).Some?
    ensures Counted(p, Reported(p, s, write).value)
  {
    FrontFinished(p, s, write);
    CountedSame(p, s, Reported(p, s, write).value);
  }

  lemma CompleteCounted(p: Params, s: State)
    requires Sized(p, s) && Counted(p, s) && Staged(p, s) && Completed(p, s).Some?
    ensures Counted(p, Completed(p, s).value)
  {
    FrontDone(p, s);
    CountedSame(p, s, Completed(p, s).value);
  }

  lemma AsideCounted(p: Params, s: State, e: Event)
    requires Sized(p, s) && Counted(p, s) && Aside(e) && Apply(p, s, e).Some?
    ensures Counted(p, Apply(p, s, e).value)
  {
    var s' := Apply(p, s, e).value;
    forall t | 0 <= t < p.tags ensures Carrying(s'.flight, t) == Carrying(s.flight, t) {}
    CountedSame(p, s, s');
  }

  lemma LinkedCounted(p: Params, s: State, waited: bool, b: nat)
    requires Sized(p, s) && InsertedLinked(p, s, waited, b).Some? && Counted(p, Inserted(p, s, waited).value)
    ensures Counted(p, InsertedLinked(p, s, waited, b).value)
  {
    var t := Inserted(p, s, waited).value;
    hide Inserted, FirstFree;
    LinkedSame(t, FirstFree(s.status), b);
    CountedSame(p, t, Linked(t, FirstFree(s.status), b));
  }

  lemma StepCounted(p: Params, s: State, e: Event)
    requires Safe(p, s) && Apply(p, s, e).Some?
    ensures Counted(p, Apply(p, s, e).value)
  {
    hide Sized, Allocated, Carried, Staged, Counted, Owned, Booked, Aligned, Fetched, Inserted, Linked, Released, Completed, Reported, Started, Buffered;
    match e
    case Fetch(op, lba, cnt, stale) => FetchCounted(p, s, op, lba, cnt, stale);
    case Start => StartCounted(p, s);
    case Insert(waited, b) => InsertCounted(p, s, waited); LinkedCounted(p, s, waited, b);
    case FinishWrite(q) => ReleaseCounted(p, s, q);
    case FinishRead(q) => DataSame(p, s, q); ReleaseCounted(p, WithData(s, q), q);
    case ReportWrite => ReportCounted(p, s, true);
    case ReportRead => ReportCounted(p, s, false);
    case SendCompletion => CompleteCounted(p, s);
    case _ => AsideCounted(p, s, e);
  }

  // ---- stages ------------------------------------------------------------------------------

  lemma HoldsPut(p: Params, s: State, s': State, xs: seq<nat>, t: nat, stage: Stage)
    requires Sized(p, s) && Sized(p, s') && Holds(p, s, xs, stage) && t < p.tags
    requires s.stage[t] != stage && s'.stage == s.stage[t := stage]
    ensures Holds(p, s', xs + [t], stage)
  {}

  lemma HoldsCut(p: Params, s: State, s': State, xs: seq<nat>, t: nat, ys: seq<nat>, stage: Stage, to: Stage)
    requires Sized(p, s) && Sized(p, s') && Holds(p, s, xs + [t] + ys, stage) && t < p.tags
    requires s'.stage == s.stage[t := to] && to != stage
    ensures Holds(p, s', xs + ys, stage)
  {
    var all, rest := xs + [t] + ys, xs + ys;
    assert all[|xs|] == t;
    forall i | 0 <= i < |rest| ensures rest[i] == all[if i < |xs| then i else i + 1] && rest[i] != t && rest[i] in all {}
    forall u | 0 <= u < p.tags && s'.stage[u] == stage ensures u in rest {
      assert u in all;
      var i :| 0 <= i < |all| && all[i] == u;
      assert rest[if i < |xs| then i else i - 1] == u;
    }
  }

  lemma HoldsOther(p: Params, s: State, s': State, xs: seq<nat>, t: nat, stage: Stage, to: Stage)
    requires Sized(p, s) && Sized(p, s') && Holds(p, s, xs, stage) && t < p.tags
    requires s'.stage == s.stage[t := to] && to != stage && s.stage[t] != stage
    ensures Holds(p, s', xs, stage)
  {}

  /** The parts of Staged. */
  function CurrentTag(s: State): seq<nat> { match s.current case Some(r) => [r.tag] case None => [] }

  ghost predicate Lists(p: Params, s: State)
    requires Sized(p, s)
  {
    && Holds(p, s, TagsOf(s.requests), Queued) && Holds(p, s, CurrentTag(s), Inserting)
    && Holds(p, s, s.tagQueue + s.dmaActive, Finished) && Holds(p, s, s.doneTags, Done)
  }

  ghost predicate Typed(p: Params, s: State)
    requires Sized(p, s)
  {
    && (forall i :: 0 <= i < |s.requests| ==> s.requests[i].tag < p.tags && s.requests[i].op == s.ops[s.requests[i].tag])
    && (s.current.Some? ==> s.current.value.cnt > 0 && s.current.value.tag < p.tags && s.current.value.op == s.ops[s.current.value.tag])
    && (forall t :: t in s.tagQueue ==> 0 <= t < p.tags && s.ops[t] == WRITE)
    && (forall t :: t in s.dmaActive ==> 0 <= t < p.tags && s.ops[t] == READ)
  }

  lemma StagedParts(p: Params, s: State)
    requires Sized(p, s)
    ensures Staged(p, s) <==> Lists(p, s) && Typed(p, s)
  {}

  lemma FetchStaged(p: Params, s: State, op: CmdType, lba: nat, cnt: nat, stale: nat)
    requires Sized(p, s) && Allocated(p, s) && Staged(p, s) && Fetched(p, s, op, lba, cnt, stale).Some?
    ensures Staged(p, Fetched(p, s, op, lba, cnt, stale).value)
  {
    hide FirstFree, Holds;
    var s', tag := Fetched(p, s, op, lba, cnt, stale).value, FirstFree(s.tagTable);
    FreshTag(p, s);
    var r := Request(op, lba, 0, cnt, tag);
    assert TagsOf(s.requests + [r]) == TagsOf(s.requests) + [tag];
    HoldsPut(p, s, s', TagsOf(s.requests), tag, Queued);
    HoldsOther(p, s, s', CurrentTag(s), tag, Inserting, Queued);
    HoldsOther(p, s, s', s.tagQueue + s.dmaActive, tag, Finished, Queued);
    HoldsOther(p, s, s', s.doneTags, tag, Done, Queued);
    FetchTyped(p, s, op, lba, cnt, stale);
    StagedParts(p, s');
  }

  lemma FetchTyped(p: Params, s: State, op: CmdType, lba: nat, cnt: nat, stale: nat)
    requires Sized(p, s) && Allocated(p, s) && Staged(p, s) && Fetched(p, s, op, lba, cnt, stale).Some?
    ensures Typed(p, Fetched(p, s, op, lba, cnt, stale).value)
  {
    hide FirstFree;
    var tag := FirstFree(s.tagTable);
    FreshTag(p, s);
    NotInserting(p, s, tag);
    forall i | 0 <= i < |s.requests| ensures s.requests[i].tag != tag {
      assert TagsOf(s.requests)[i] == s.requests[i].tag && s.requests[i].tag in TagsOf(s.requests);
    }
    forall t | t in s.tagQueue || t in s.dmaActive ensures 0 <= t < p.tags && t != tag { assert t in s.tagQueue + s.dmaActive; }
    forall i | 0 <= i < |s.requests| ensures s.requests[i].tag < p.tags && s.requests[i].op == s.ops[tag := op][s.requests[i].tag] {}
  }

  lemma StartStaged(p: Params, s: State)
    requires Sized(p, s) && Staged(p, s) && Started(p, s).Some?
    ensures Staged(p, Started(p, s).value)
  {
    hide Holds;
    var s', r := Started(p, s).value, s.requests[0];
    FrontQueued(p, s);
    var to := if r.cnt == 0 then Waiting else Inserting;
    assert TagsOf(s.requests) == [] + [r.tag] + TagsOf(s.requests[1..]) && [] + TagsOf(s.requests[1..]) == TagsOf(s.requests[1..]);
    HoldsCut(p, s, s', [], r.tag, TagsOf(s.requests[1..]), Queued, to);
    HoldsOther(p, s, s', s.tagQueue + s.dmaActive, r.tag, Finished, to);
    HoldsOther(p, s, s', s.doneTags, r.tag, Done, to);
    if r.cnt == 0 {
      HoldsOther(p, s, s', [], r.tag, Inserting, to);
    } else {
      HoldsPut(p, s, s', [], r.tag, Inserting);
      assert [] + [r.tag] == [r.tag];
    }
  }

  lemma InsertStaged(p: Params, s: State, waited: bool)
    requires Sized(p, s) && Staged(p, s) && Inserted(p, s, waited).Some?
    ensures Staged(p, Inserted(p, s, waited).value)
  {
    hide Holds, FirstFree;
    var s', r := Inserted(p, s, waited).value, s.current.value;
    CurrentInserting(p, s);
    if FirstFree(s.status) < p.slots && r.cnt == 1 {
      var none: seq<nat> := [];
      assert none + [r.tag] + none == [r.tag] && none + none == none;
      HoldsCut(p, s, s', none, r.tag, none, Inserting, Waiting);
      HoldsOther(p, s, s', TagsOf(s.requests), r.tag, Queued, Waiting);
      HoldsOther(p, s, s', s.tagQueue + s.dmaActive, r.tag, Finished, Waiting);
      HoldsOther(p, s, s', s.doneTags, r.tag, Done, Waiting);
    } else {
      HoldsSame(p, s, s');
    }
  }

  lemma HoldsSame(p: Params, s: State, s': State)
    requires Sized(p, s) && Sized(p, s') && s'.stage == s.stage
    ensures forall xs, stage :: Holds(p, s, xs, stage) ==> Holds(p, s', xs, stage)
  {}

  /** The last sub-command of a tag still under insertion is never the one that brings it to zero. */
  lemma LastIsWaiting(p: Params, s: State, q: nat)
    requires Sized(p, s) && Carried(p, s) && Counted(p, s) && Staged(p, s) && q in s.flight
    ensures s.flight[q].tag < p.tags && s.running[s.flight[q].tag] >= 1
    ensures s.running[s.flight[q].tag] == 1 ==> s.stage[s.flight[q].tag] == Waiting
  {
    var t := s.flight[q].tag;
    assert FlightOk(p, s, q) && CountOk(s, t);
    assert q in Carrying(s.flight, t) && |Carrying(s.flight, t)| >= 1;
    if s.stage[t] == Inserting {
      assert t in CurrentTag(s);
      assert s.current.Some? && s.current.value.tag == t && s.current.value.cnt > 0;
    }
  }

  lemma ReleaseStaged(p: Params, s: State, q: nat)
    requires Sized(p, s) && Carried(p, s) && Counted(p, s) && Staged(p, s) && q in s.flight && Released(p, s, q).Some?
    ensures Staged(p, Released(p, s, q).value)
  {
    hide Holds, Counted;
    var s', f := Released(p, s, q).value, s.flight[q];
    LastIsWaiting(p, s, q);
    assert FlightOk(p, s, q);
    if s.running[f.tag] == 1 {
      FinishLists(p, s, s', f.tag, f.cmd == WRITE);
    } else {
      HoldsSame(p, s, s');
    }
  }

  lemma FinishLists(p: Params, s: State, s': State, t: nat, write: bool)
    requires Sized(p, s) && Sized(p, s') && Lists(p, s) && t < p.tags && s.stage[t] == Waiting && s'.stage == s.stage[t := Finished]
    requires s'.requests == s.requests && s'.current == s.current && s'.doneTags == s.doneTags
    requires if write then s'.tagQueue == s.tagQueue + [t] && s'.dmaActive == s.dmaActive
             else s'.tagQueue == s.tagQueue && s'.dmaActive == s.dmaActive + [t]
    ensures Lists(p, s')
  {
    HoldsOther(p, s, s', TagsOf(s.requests), t, Queued, Finished);
    HoldsOther(p, s, s', CurrentTag(s), t, Inserting, Finished);
    HoldsOther(p, s, s', s.doneTags, t, Done, Finished);
    HoldsPut(p, s, s', s.tagQueue + s.dmaActive, t, Finished);
    if write {
      HoldsSwap(p, s', s.tagQueue, s.dmaActive, t, Finished);
    } else {
      assert s.tagQueue + (s.dmaActive + [t]) == s.tagQueue + s.dmaActive + [t];
    }
  }

  lemma HoldsSwap(p: Params, s: State, xs: seq<nat>, ys: seq<nat>, t: nat, stage: Stage)
    requires Sized(p, s) && Holds(p, s, xs + ys + [t], stage)
    ensures Holds(p, s, xs + [t] + ys, stage)
  {
    var a, b := xs + ys + [t], xs + [t] + ys;
    forall i | 0 <= i < |b| ensures b[i] == a[if i < |xs| then i else if i == |xs| then |a| - 1 else i - 1] {}
    forall u | 0 <= u < p.tags && s.stage[u] == stage ensures u in b {
      assert u in a;
      var i :| 0 <= i < |a| && a[i] == u;
      assert b[if i < |xs| then i else if i == |a| - 1 then |xs| else i + 1] == u;
    }
  }

  lemma ReportStaged(p: Params, s: State, write: bool)
    requires Sized(p, s) && Staged(p, s) && Reported(p, s, write).Some?
    ensures Staged(p, Reported(p, s, write).value)
  {
    hide Holds, Typed;
    FrontFinished(p, s, write);
    StagedParts(p, s);
    var s', t := Reported(p, s, write).value, (if write then s.tagQueue else s.dmaActive)[0];
    HoldsOther(p, s, s', TagsOf(s.requests), t, Queued, Done);
    HoldsOther(p, s, s', CurrentTag(s), t, Inserting, Done);
    HoldsPut(p, s, s', s.doneTags, t, Done);
    ReportFinished(p, s, s', t, write);
    ReportTyped(p, s, write);
    StagedParts(p, s');
  }

  lemma ReportFinished(p: Params, s: State, s': State, t: nat, write: bool)
    requires Sized(p, s) && Sized(p, s') && Holds(p, s, s.tagQueue + s.dmaActive, Finished) && t < p.tags && s'.stage == s.stage[t := Done]
    requires if write then s.tagQueue == [t] + s'.tagQueue && s'.dmaActive == s.dmaActive
             else s'.tagQueue == s.tagQueue && s.dmaActive == [t] + s'.dmaActive
    ensures Holds(p, s', s'.tagQueue + s'.dmaActive, Finished)
  {
    hide Holds;
    var none: seq<nat> := [];
    if write {
      assert s.tagQueue + s.dmaActive == none + [t] + (s'.tagQueue + s.dmaActive);
      HoldsCut(p, s, s', none, t, s'.tagQueue + s.dmaActive, Finished, Done);
      assert none + (s'.tagQueue + s.dmaActive) == s'.tagQueue + s.dmaActive;
    } else {
      assert s.tagQueue + s.dmaActive == s.tagQueue + [t] + s'.dmaActive;
      HoldsCut(p, s, s', s.tagQueue, t, s'.dmaActive, Finished, Done);
    }
  }

  lemma ReportTyped(p: Params, s: State, write: bool)
    requires Sized(p, s) && Typed(p, s) && Reported(p, s, write).Some?
    ensures Typed(p, Reported(p, s, write).value)
  {
    var s' := Reported(p, s, write).value;
    assert forall t :: t in s'.tagQueue ==> t in s.tagQueue;
    assert forall t :: t in s'.dmaActive ==> t in s.dmaActive;
  }

  lemma CompleteStaged(p: Params, s: State)
    requires Sized(p, s) && Staged(p, s) && Completed(p, s).Some?
    ensures Staged(p, Completed(p, s).value)
  {
    hide Holds;
    FrontDone(p, s);
    var s', t := Completed(p, s).value, s.doneTags[0];
    HoldsOther(p, s, s', TagsOf(s.requests), t, Queued, Idle);
    HoldsOther(p, s, s', CurrentTag(s), t, Inserting, Idle);
    HoldsOther(p, s, s', s.tagQueue + s.dmaActive, t, Finished, Idle);
    assert s.doneTags == [] + [t] + s.doneTags[1..] && [] + s.doneTags[1..] == s.doneTags[1..];
    HoldsCut(p, s, s', [], t, s.doneTags[1..], Done, Idle);
  }

  lemma AsideStaged(p: Params, s: State, e: Event)
    requires Sized(p, s) && Staged(p, s) && Aside(e) && Apply(p, s, e).Some?
    ensures Staged(p, Apply(p, s, e).value)
  {
    hide Holds;
    HoldsSame(p, s, Apply(p, s, e).value);
  }

  lemma LinkedStaged(p: Params, s: State, waited: bool, b: nat)
    requires Sized(p, s) && InsertedLinked(p, s, waited, b).Some? && Staged(p, Inserted(p, s, waited).value)
    ensures Staged(p, InsertedLinked(p, s, waited, b).value)
  {
    var t := Inserted(p, s, waited).value;
    hide Inserted, FirstFree, Holds, Linked;
    LinkedSame(t, FirstFree(s.status), b);
    HoldsSame(p, t, Linked(t, FirstFree(s.status), b));
  }

  lemma StepStaged(p: Params, s: State, e: Event)
    requires Safe(p, s) && Apply(p, s, e).Some?
    ensures Staged(p, Apply(p, s, e).value)
  {
    hide Sized, Allocated, Carried, Staged, Counted, Owned, Booked, Aligned, Fetched, Inserted, Linked, Released, Completed, Reported, Started, Buffered;
    match e
    case Fetch(op, lba, cnt, stale) => FetchStaged(p, s, op, lba, cnt, stale);
    case Start => StartStaged(p, s);
    case Insert(waited, b) => InsertStaged(p, s, waited); LinkedStaged(p, s, waited, b);
    case FinishWrite(q) => ReleaseStaged(p, s, q);
    case FinishRead(q) => DataSame(p, s, q); ReleaseStaged(p, WithData(s, q), q);
    case ReportWrite => ReportStaged(p, s, true);
    case ReportRead => ReportStaged(p, s, false);
    case SendCompletion => CompleteStaged(p, s);
    case _ => AsideStaged(p, s, e);
  }

  // ---- side queues and buffers -------------------------------------------------------------

  lemma StepAligned(p: Params, s: State, e: Event)
    requires Sized(p, s) && Aligned(s) && Apply(p, s, e).Some?
    ensures Aligned(Apply(p, s, e).value)
  {
    if e.DataSent? { assert [s.inTx.value] + s.dataQ == s.rdBuffPtrs; }
    if e.FinishRead? {
      var b := s.flight[e.q].buffer.value;
      var front := match s.inTx case Some(x) => [x] case None => [];
      assert front + s.dataQ + [b] == front + (s.dataQ + [b]);
    }
  }

  predicate BuffersSame(s: State, s': State) {
    s'.buffers == s.buffers && s'.rdBuffPtrs == s.rdBuffPtrs
  }

  lemma OwnedSame(p: Params, s: State, s': State)
    requires Sized(p, s) && Sized(p, s') && Owned(p, s) && BuffersSame(s, s')
    requires forall q :: q in s'.flight && s'.flight[q].buffer.Some? ==> q in s.flight && s.flight[q].buffer == s'.flight[q].buffer
    requires forall q :: q in s.flight && s.flight[q].buffer.Some? ==> q in s'.flight && s'.flight[q].buffer == s.flight[q].buffer
    ensures Owned(p, s')
  {
    forall b | 0 <= b < p.buffers && s'.buffers[b] == BUSY ensures HasOwner(s', b) {
      assert HasOwner(s, b);
      if b !in s.rdBuffPtrs {
        var q :| q in s.flight && s.flight[q].buffer == Some(b);
        assert q in s'.flight && s'.flight[q].buffer == Some(b);
      }
    }
  }

  lemma TakeOwned(p: Params, s: State, q: nat)
    requires Sized(p, s) && Owned(p, s) && Buffered(p, s, q).Some? && FirstFree(s.buffers) < 0x100
    ensures Owned(p, Buffered(p, s, q).value)
  {
    hide FirstFree;
    var s', b := Buffered(p, s, q).value, FirstFree(s.buffers);
    assert s.buffers[b] == FREE;
    forall c | 0 <= c < p.buffers && s'.buffers[c] == BUSY ensures HasOwner(s', c) {
      if c == b {
        assert s'.flight[q].buffer == Some(b);
      } else {
        assert HasOwner(s, c);
        if c !in s.rdBuffPtrs {
          var r :| r in s.flight && s.flight[r].buffer == Some(c);
          assert s'.flight[r].buffer == Some(c);
        }
      }
    }
  }

  lemma FewBuffers(p: Params, s: State, q: nat)
    requires Sized(p, s) && p.buffers <= 0x100 && Buffered(p, s, q).Some?
    ensures FirstFree(s.buffers) < 0x100
  {}

  /** A read that takes a buffer becomes its only owner if and only if the free buffer's number fits its
      eight bits; beyond that it gets the number of a buffer that is already taken. */
  lemma TakeOwnedIff(p: Params, s: State, q: nat)
    requires Sized(p, s) && Owned(p, s) && Buffered(p, s, q).Some?
    ensures Owned(p, Buffered(p, s, q).value) <==> FirstFree(s.buffers) < 0x100
  {
    if FirstFree(s.buffers) < 0x100 {
      TakeOwned(p, s, q);
    } else {
      TakeClashes(p, s, q);
    }
  }

  lemma TakeClashes(p: Params, s: State, q: nat)
    requires Sized(p, s) && Owned(p, s) && Buffered(p, s, q).Some? && FirstFree(s.buffers) >= 0x100
    ensures !Owned(p, Buffered(p, s, q).value)
  {
    var s', b := Buffered(p, s, q).value, FirstFree(s.buffers) % 0x100;
    assert s.buffers[b] == BUSY && HasOwner(s, b);
    assert s'.flight[q].buffer == Some(b);
    if b !in s.rdBuffPtrs {
      var r :| r in s.flight && s.flight[r].buffer == Some(b);
      assert r != q && s'.flight[r].buffer == Some(b);
    }
  }

  /** The finished read hands its buffer over to its data TLP. */
  lemma HandOver(p: Params, s: State, q: nat)
    requires Sized(p, s) && Owned(p, s) && q in s.flight && s.flight[q].buffer.Some?
    requires Released(p, WithData(s, q), q).Some?
    ensures Owned(p, Released(p, WithData(s, q), q).value)
  {
    var s', b := Released(p, WithData(s, q), q).value, s.flight[q].buffer.value;
    assert s'.rdBuffPtrs == s.rdBuffPtrs + [b] && s'.buffers == s.buffers && s'.flight == s.flight - {q};
    forall c | 0 <= c < p.buffers && s'.buffers[c] == BUSY ensures HasOwner(s', c) {
      assert HasOwner(s, c);
      if c !in s.rdBuffPtrs {
        var r :| r in s.flight && s.flight[r].buffer == Some(c);
        if r == q { assert c == b && s'.rdBuffPtrs[|s.rdBuffPtrs|] == b; } else { assert s'.flight[r].buffer == Some(c); }
      } else {
        assert c in s'.rdBuffPtrs;
      }
    }
  }

  lemma SentOwned(p: Params, s: State)
    requires Sized(p, s) && Owned(p, s) && Apply(p, s, DataSent).Some?
    ensures Owned(p, Apply(p, s, DataSent).value)
  {
    var s', b := Apply(p, s, DataSent).value, s.rdBuffPtrs[0];
    assert b in s.rdBuffPtrs;
    forall k | 0 <= k < |s'.rdBuffPtrs| ensures s'.rdBuffPtrs[k] != b { assert s.rdBuffPtrs[k + 1] == s'.rdBuffPtrs[k]; }
    assert forall c :: c in s'.rdBuffPtrs ==> c in s.rdBuffPtrs;
    forall c | 0 <= c < p.buffers && s'.buffers[c] == BUSY ensures HasOwner(s', c) {
      assert HasOwner(s, c);
      if c in s.rdBuffPtrs {
        var k :| 0 <= k < |s.rdBuffPtrs| && s.rdBuffPtrs[k] == c;
        assert s'.rdBuffPtrs[k - 1] == c;
      }
    }
  }

  /** A write's flight owns no buffer. */
  lemma WriteOwned(p: Params, s: State, q: nat)
    requires Sized(p, s) && Owned(p, s) && Carried(p, s) && q in s.flight && s.flight[q].cmd == WRITE && Released(p, s, q).Some?
    ensures Owned(p, Released(p, s, q).value)
  {
    assert FlightOk(p, s, q);
    OwnedSame(p, s, Released(p, s, q).value);
  }

  lemma InsertOwned(p: Params, s: State, waited: bool)
    requires Sized(p, s) && Allocated(p, s) && Carried(p, s) && Owned(p, s) && Inserted(p, s, waited).Some?
    ensures Owned(p, Inserted(p, s, waited).value)
  {
    hide FirstFree, Owned;
    FreshEntry(p, s);
    OwnedSame(p, s, Inserted(p, s, waited).value);
  }

  lemma LinkedOwned(p: Params, s: State, waited: bool, b: nat)
    requires Sized(p, s) && InsertedLinked(p, s, waited, b).Some? && Owned(p, Inserted(p, s, waited).value)
    ensures Owned(p, InsertedLinked(p, s, waited, b).value)
  {
    var t := Inserted(p, s, waited).value;
    hide Inserted, FirstFree, Owned, Linked;
    LinkedSame(t, FirstFree(s.status), b);
    OwnedSame(p, t, Linked(t, FirstFree(s.status), b));
  }

  lemma RestOwned(p: Params, s: State, e: Event)
    requires Sized(p, s) && Owned(p, s) && Apply(p, s, e).Some?
    requires e.Fetch? || e.Start? || e.Unlink? || e.ReportWrite? || e.ReportRead? || e.SendData? || e.SendCompletion?
    ensures Owned(p, Apply(p, s, e).value)
  {
    hide Owned;
    OwnedSame(p, s, Apply(p, s, e).value);
  }

  lemma StepOwned(p: Params, s: State, e: Event)
    requires Safe(p, s) && Apply(p, s, e).Some?
    ensures Owned(p, Apply(p, s, e).value)
  {
    hide Sized, Allocated, Carried, Staged, Counted, Owned, Booked, Aligned, Fetched, Inserted, Linked, Released, Completed, Reported, Started, Buffered;
    match e
    case Insert(waited, b) => InsertOwned(p, s, waited); LinkedOwned(p, s, waited, b);
    case TakeBuffer(q) => FewBuffers(p, s, q); TakeOwned(p, s, q);
    case FinishWrite(q) => WriteOwned(p, s, q);
    case FinishRead(q) => HandOver(p, s, q);
    case DataSent => SentOwned(p, s);
    case _ => RestOwned(p, s, e);
  }

  // ---- exactly once ------------------------------------------------------------------------

  lemma CountPut(xs: seq<nat>, x: nat, t: nat)
    ensures Count(xs + [x], t) == Count(xs, t) + if x == t then 1 else 0
  {
    assert (xs + [x])[..|xs|] == xs;
  }

  lemma BookedSame(p: Params, s: State, s': State)
    requires Sized(p, s) && Sized(p, s') && Booked(p, s) && s'.fetched == s.fetched && s'.completed == s.completed
    requires forall t :: 0 <= t < p.tags ==> (s'.stage[t] == Idle <==> s.stage[t] == Idle)
    ensures Booked(p, s')
  {}

  lemma FetchBooked(p: Params, s: State, op: CmdType, lba: nat, cnt: nat, stale: nat)
    requires Sized(p, s) && Allocated(p, s) && Booked(p, s) && Fetched(p, s, op, lba, cnt, stale).Some?
    ensures Booked(p, Fetched(p, s, op, lba, cnt, stale).value)
  {
    FreshTag(p, s);
    var s' := Fetched(p, s, op, lba, cnt, stale).value;
    forall t | 0 <= t < p.tags ensures Count(s'.fetched, t) == Count(s'.completed, t) + if s'.stage[t] == Idle then 0 else 1 {
      CountPut(s.fetched, FirstFree(s.tagTable), t);
    }
  }

  lemma CompleteBooked(p: Params, s: State)
    requires Sized(p, s) && Staged(p, s) && Aligned(s) && Booked(p, s) && Completed(p, s).Some?
    ensures Booked(p, Completed(p, s).value)
  {
    FrontDone(p, s);
    var s' := Completed(p, s).value;
    forall t | 0 <= t < p.tags ensures Count(s'.fetched, t) == Count(s'.completed, t) + if s'.stage[t] == Idle then 0 else 1 {
      CountPut(s.completed, s.compQ[0], t);
    }
  }

  lemma ReleaseBooked(p: Params, s: State, q: nat)
    requires Sized(p, s) && Carried(p, s) && Booked(p, s) && q in s.flight && Released(p, s, q).Some?
    ensures Booked(p, Released(p, s, q).value)
  {
    assert FlightOk(p, s, q);
    BookedSame(p, s, Released(p, s, q).value);
  }

  /** An insertion at most moves a tag from Inserting to Waiting. */
  lemma InsertStages(p: Params, s: State, waited: bool, b: nat)
    requires Sized(p, s) && Staged(p, s) && InsertedLinked(p, s, waited, b).Some?
    ensures var r := InsertedLinked(p, s, waited, b).value;
            && Sized(p, r) && r.running == s.running && r.fetched == s.fetched && r.completed == s.completed
            && forall t :: 0 <= t < p.tags ==> r.stage[t] == s.stage[t] || (s.stage[t] == Inserting && r.stage[t] == Waiting)
  {
    hide FirstFree, Linked;
    CurrentInserting(p, s);
    LinkedSame(Inserted(p, s, waited).value, FirstFree(s.status), b);
  }

  lemma RestBooked(p: Params, s: State, e: Event)
    requires Sized(p, s) && Carried(p, s) && Staged(p, s) && Booked(p, s) && Apply(p, s, e).Some?
    requires !e.Fetch? && !e.SendCompletion? && !e.FinishWrite? && !e.FinishRead?
    ensures Booked(p, Apply(p, s, e).value)
  {
    hide FirstFree, Carried, Staged, Booked, InsertedLinked;
    var s' := Apply(p, s, e).value;
    match e
    case Start => FrontQueued(p, s); BookedSame(p, s, s');
    case Insert(waited, b) => InsertStages(p, s, waited, b); BookedSame(p, s, s');
    case ReportWrite => FrontFinished(p, s, true); BookedSame(p, s, s');
    case ReportRead => FrontFinished(p, s, false); BookedSame(p, s, s');
    case _ => BookedSame(p, s, s');
  }

  lemma StepBooked(p: Params, s: State, e: Event)
    requires Safe(p, s) && Apply(p, s, e).Some?
    ensures Booked(p, Apply(p, s, e).value)
  {
    hide Sized, Allocated, Carried, Staged, Counted, Owned, Booked, Aligned, Fetched, Inserted, Linked, Released, Completed, Reported, Started, Buffered;
    match e
    case Fetch(op, lba, cnt, stale) => FetchBooked(p, s, op, lba, cnt, stale);
    case SendCompletion => CompleteBooked(p, s);
    case FinishWrite(q) => ReleaseBooked(p, s, q);
    case FinishRead(q) => DataSame(p, s, q); ReleaseBooked(p, WithData(s, q), q);
    case _ => RestBooked(p, s, e);
  }

  // ---- every run ---------------------------------------------------------------------------

  lemma StepSafe(p: Params, s: State, e: Event)
    requires Safe(p, s) && Apply(p, s, e).Some?
    ensures Safe(p, Apply(p, s, e).value)
  {
    hide Sized, Allocated, Carried, Chained, Staged, Counted, Owned, Booked, Aligned, Apply;
    StepAllocated(p, s, e);
    StepCarried(p, s, e);
    StepChained(p, s, e);
    StepCounted(p, s, e);
    StepStaged(p, s, e);
    StepAligned(p, s, e);
    StepOwned(p, s, e);
    StepBooked(p, s, e);
  }

  lemma InitSafe(p: Params)
    requires p.buffers <= 0x100
    ensures Safe(p, Init(p))
  {
    var s := Init(p);
    assert Busy(s.tagTable) == {} && Busy(s.status) == {};
    forall t | 0 <= t < p.tags ensures CountOk(s, t) { assert Carrying(s.flight, t) == {}; }
  }

  /** Over every interleaving the tag tables, running counts, PCMDQ entries, buffers and side queues
      agree, and every command is completed at most once. */
  lemma {:induction false} RunSafe(p: Params, es: seq<Event>)
    requires p.buffers <= 0x100 && Run(p, Init(p), es).Some?
    ensures Safe(p, Run(p, Init(p), es).value)
  {
    hide Safe, Apply;
    if es == [] {
      InitSafe(p);
    } else {
      RunSafe(p, es[..|es| - 1]);
      StepSafe(p, Run(p, Init(p), es[..|es| - 1]).value, es[|es| - 1]);
    }
  }

  /** The tag freed with a completion TLP is the tag of the command that TLP completes, and it is no
      longer in use anywhere. */
  lemma FreesItsOwnTag(p: Params, s: State)
    requires Safe(p, s) && Completed(p, s).Some?
    ensures var t, s' := s.compQ[0], Completed(p, s).value;
            && t == s.doneTags[0] && t < p.tags && s'.tagTable[t] == FREE && s.running[t] == 0 && Carrying(s.flight, t) == {}
            && t !in TagsOf(s.requests) && t !in CurrentTag(s) && t !in s.tagQueue + s.dmaActive && t !in s'.doneTags
  {
    FrontDone(p, s);
    var t := s.doneTags[0];
    assert CountOk(s, t);
    assert s.doneTags == [t] + s.doneTags[1..];
  }

  /** The buffer freed after a data TLP is the buffer that TLP was filled from. */
  lemma FreesItsOwnBuffer(p: Params, s: State)
    requires Safe(p, s) && Apply(p, s, DataSent).Some?
    ensures Some(s.rdBuffPtrs[0]) == s.inTx
    ensures forall q :: q in s.flight ==> s.flight[q].buffer != s.inTx
  {
    hide Allocated, Carried, Chained, Counted, Staged, Owned, Booked, FirstFree;
    HeldElsewhere(p, s);
  }

  lemma HeldElsewhere(p: Params, s: State)
    requires Sized(p, s) && Owned(p, s) && s.rdBuffPtrs != []
    ensures forall q :: q in s.flight ==> s.flight[q].buffer != Some(s.rdBuffPtrs[0])
  {
    var b := s.rdBuffPtrs[0];
    assert b in s.rdBuffPtrs;
    forall q | q in s.flight && s.flight[q].buffer.Some? ensures s.flight[q].buffer.value != b {}
  }

  /** In a reachable state the search for a tag succeeds whenever the host queue is not full, and the
      search for an entry whenever the PCMDQ is not full: neither unchecked result is ever stale. */
  lemma SearchesSucceed(p: Params, s: State)
    requires Safe(p, s)
    ensures s.hostSize != p.tags <==> FirstFree(s.tagTable) < p.tags
    ensures s.size != p.slots <==> FirstFree(s.status) < p.slots
    ensures s.hostSize <= p.tags && s.size <= p.slots
  {
    SomeFree(s.tagTable);
    SomeFree(s.status);
  }

  // ---- commands of no sub-command ----------------------------------------------------------

  /** Inserted, nothing in flight, and not finished: no step is left that could finish this tag. */
  ghost predicate Stuck(s: State, t: nat) { t < |s.stage| && s.stage[t] == Waiting && Carrying(s.flight, t) == {} }

  lemma StillStuck(s: State, s': State, t: nat)
    requires Stuck(s, t) && |s'.stage| == |s.stage| && s'.stage[t] == s.stage[t]
    requires forall q :: q in s'.flight && s'.flight[q].tag == t ==> q in s.flight && s.flight[q].tag == t
    ensures Stuck(s', t)
  {
    forall q | q in s'.flight ensures s'.flight[q].tag != t { assert q !in Carrying(s.flight, t); }
  }

  lemma InsertStuck(p: Params, s: State, waited: bool, t: nat)
    requires Sized(p, s) && Staged(p, s) && Stuck(s, t) && Inserted(p, s, waited).Some?
    ensures Stuck(Inserted(p, s, waited).value, t)
  {
    hide FirstFree, Stuck;
    CurrentInserting(p, s);
    assert s.stage[t] == Waiting by { StuckIs(s, t); }
    StillStuck(s, Inserted(p, s, waited).value, t);
  }

  lemma StuckIs(s: State, t: nat)
    requires Stuck(s, t)
    ensures t < |s.stage| && s.stage[t] == Waiting && forall q :: q in s.flight ==> s.flight[q].tag != t
  {
    forall q | q in s.flight ensures s.flight[q].tag != t { assert q !in Carrying(s.flight, t); }
  }

  lemma ReleaseStuck(p: Params, s: State, q: nat, t: nat)
    requires Sized(p, s) && Stuck(s, t) && q in s.flight && Released(p, s, q).Some?
    ensures Stuck(Released(p, s, q).value, t)
  {
    hide Stuck;
    StuckIs(s, t);
    StillStuck(s, Released(p, s, q).value, t);
  }

  lemma RestStuck(p: Params, s: State, e: Event, t: nat)
    requires Sized(p, s) && Allocated(p, s) && Staged(p, s) && Stuck(s, t) && Apply(p, s, e).Some?
    requires !e.Insert? && !e.FinishWrite? && !e.FinishRead?
    ensures Stuck(Apply(p, s, e).value, t)
  {
    hide FirstFree, Stuck, Staged, Allocated;
    StuckIs(s, t);
    var s' := Apply(p, s, e).value;
    match e
    case Fetch(_, _, _, _) => FreshTag(p, s); StillStuck(s, s', t);
    case Start => StartStage(p, s); StillStuck(s, s', t);
    case ReportWrite => ReportStage(p, s, true); StillStuck(s, s', t);
    case ReportRead => ReportStage(p, s, false); StillStuck(s, s', t);
    case SendCompletion => FrontDone(p, s); StillStuck(s, s', t);
    case _ => StillStuck(s, s', t);
  }

  lemma StepStuck(p: Params, s: State, e: Event, t: nat)
    requires Safe(p, s) && Stuck(s, t) && Apply(p, s, e).Some?
    ensures Stuck(Apply(p, s, e).value, t)
  {
    hide Sized, Allocated, Carried, Staged, Counted, Owned, Booked, Aligned, Stuck, Fetched, Inserted, Released, Completed, Reported, Started, Buffered;
    match e
    case Insert(waited, b) => InsertStuck(p, s, waited, t); LinkedStuck(p, s, waited, b, t);
    case FinishWrite(q) => ReleaseStuck(p, s, q, t);
    case FinishRead(q) => DataStuck(s, q, t); DataSame(p, s, q); ReleaseStuck(p, WithData(s, q), q, t);
    case _ => RestStuck(p, s, e, t);
  }

  lemma LinkedStuck(p: Params, s: State, waited: bool, b: nat, t: nat)
    requires Sized(p, s) && InsertedLinked(p, s, waited, b).Some? && Stuck(Inserted(p, s, waited).value, t)
    ensures Stuck(InsertedLinked(p, s, waited, b).value, t)
  {
    hide Linked, Inserted, FirstFree;
    LinkedSame(Inserted(p, s, waited).value, FirstFree(s.status), b);
  }

  lemma DataStuck(s: State, q: nat, t: nat)
    requires Stuck(s, t) && q in s.flight && s.flight[q].buffer.Some?
    ensures Stuck(WithData(s, q), t)
  {}

  /** A stuck tag stays stuck through every continuation: its command never completes, and the tag is
      never free again. */
  lemma {:induction false} StuckForever(p: Params, s: State, es: seq<Event>, t: nat)
    requires Safe(p, s) && Stuck(s, t) && Run(p, s, es).Some?
    ensures var r := Run(p, s, es).value; Safe(p, r) && Stuck(r, t) && t < p.tags && r.tagTable[t] == BUSY
    decreases |es|
  {
    if es != [] {
      StuckForever(p, s, es[..|es| - 1], t);
      StepSafe(p, Run(p, s, es[..|es| - 1]).value, es[|es| - 1]);
      StepStuck(p, Run(p, s, es[..|es| - 1]).value, es[|es| - 1], t);
    }
    StuckBusy(p, Run(p, s, es).value, t);
  }

  lemma StuckBusy(p: Params, s: State, t: nat)
    requires Sized(p, s) && Allocated(p, s) && Stuck(s, t)
    ensures t < p.tags && s.tagTable[t] == BUSY
  {}

  /** A host command with a count of 0 is stuck from the moment it is taken up. */
  lemma ZeroIsStuck(p: Params, s: State)
    requires Safe(p, s) && s.requests != [] && s.requests[0].cnt == 0 && Started(p, s).Some?
    ensures Stuck(Started(p, s).value, s.requests[0].tag)
  {
    hide Counted, Owned, Booked, Aligned, Allocated;
    FrontQueued(p, s);
    var t := s.requests[0].tag;
    forall q | q in s.flight ensures s.flight[q].tag != t { assert FlightOk(p, s, q); }
  }

  /** Every command under way has sub-commands left. */
  ghost predicate Lively(s: State) {
    |s.running| == |s.stage| &&
    forall t :: 0 <= t < |s.stage| && (s.stage[t] == Queued || s.stage[t] == Inserting || s.stage[t] == Waiting) ==> s.running[t] >= 1
  }

  predicate Positive(e: Event) { e.Fetch? ==> e.cnt > 0 }

  lemma LivelySame(p: Params, s: State, s': State)
    requires Sized(p, s) && Sized(p, s') && Lively(s) && s'.running == s.running
    requires forall t :: 0 <= t < p.tags && (s'.stage[t] == Queued || s'.stage[t] == Inserting || s'.stage[t] == Waiting) ==>
               s.stage[t] == Queued || s.stage[t] == Inserting || s.stage[t] == Waiting
    ensures Lively(s')
  {}

  lemma StepLively(p: Params, s: State, e: Event)
    requires Safe(p, s) && Lively(s) && Positive(e) && Apply(p, s, e).Some?
    ensures Lively(Apply(p, s, e).value)
  {
    hide Counted, Carried, Chained, Owned, Booked, Aligned, Allocated, Staged, FirstFree, Lively, InsertedLinked, Released;
    var s' := Apply(p, s, e).value;
    match e
    case Fetch(op, lba, cnt, stale) => FetchLively(p, s, op, lba, cnt, stale);
    case Start => FrontQueued(p, s); LivelySame(p, s, s');
    case Insert(waited, b) => InsertStages(p, s, waited, b); LivelySame(p, s, s');
    case FinishWrite(q) => ReleaseLively(p, s, q);
    case FinishRead(q) => LivelySame(p, s, WithData(s, q)); ReleaseLively(p, WithData(s, q), q);
    case ReportWrite => FrontFinished(p, s, true); LivelySame(p, s, s');
    case ReportRead => FrontFinished(p, s, false); LivelySame(p, s, s');
    case SendCompletion => FrontDone(p, s); LivelySame(p, s, s');
    case _ => LivelySame(p, s, s');
  }

  lemma FetchLively(p: Params, s: State, op: CmdType, lba: nat, cnt: nat, stale: nat)
    requires Sized(p, s) && Lively(s) && cnt > 0 && Fetched(p, s, op, lba, cnt, stale).Some?
    ensures Lively(Fetched(p, s, op, lba, cnt, stale).value)
  {}

  lemma ReleaseLively(p: Params, s: State, q: nat)
    requires Sized(p, s) && Lively(s) && q in s.flight && Released(p, s, q).Some?
    ensures Lively(Released(p, s, q).value)
  {}

  lemma LivelyNotStuck(p: Params, s: State, t: nat)
    requires Safe(p, s) && Lively(s)
    ensures !Stuck(s, t)
  {
    if Stuck(s, t) {
      assert CountOk(s, t);
      LeftNone(s.requests, t) by { assert t !in TagsOf(s.requests); }
      NotInserting(p, s, t);
    }
  }

  /** No tag is ever stuck in a run whose commands all have a count of at least 1. */
  lemma {:induction false} PositiveRuns(p: Params, es: seq<Event>, t: nat)
    requires p.buffers <= 0x100 && Run(p, Init(p), es).Some? && forall k :: 0 <= k < |es| ==> Positive(es[k])
    ensures Lively(Run(p, Init(p), es).value) && !Stuck(Run(p, Init(p), es).value, t)
  {
    RunSafe(p, es);
    if es != [] {
      PositiveRuns(p, es[..|es| - 1], t);
      RunSafe(p, es[..|es| - 1]);
      StepLively(p, Run(p, Init(p), es[..|es| - 1]).value, es[|es| - 1]);
    }
    LivelyNotStuck(p, Run(p, Init(p), es).value, t);
  }
}
