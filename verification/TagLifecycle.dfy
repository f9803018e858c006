/** The PCIe controller's resources as a machine of atomic steps: internal tags and host commands,
    running counts, PCMDQ entries, read buffers, and the side queues that name the owner of each TLP.
    What happens to a sub-command between its PCMDQ entry and its end is one flight: the record
    (queue number, tag, type) the channel managers carry along, once the dispatcher has taken it off
    the list of its bank. */
module TagLifecycle {
  import opened Common
  import opened Places
  import opened Pool
  import L = BankLists

  /** `lists` bank lists: one per channel and code-word bank. */
  datatype Params = Params(tags: nat, slots: nat, buffers: nat, lists: nat)

  /** A host command waiting for, or under, insertion: `cnt` sub-commands are left. */
  datatype Request = Request(op: CmdType, lba: nat, offset: nat, cnt: nat, tag: nat)

  datatype PEntry = PEntry(cmd: CmdType, plba: nat, cmdOffset: nat, iTag: nat, nextAddr: int)

  /** PCMDQueueEntry::reset. */
  const RESET: PEntry := PEntry(READ, 0, 0, 0, -1)

  datatype Flight = Flight(tag: nat, cmd: CmdType, buffer: Option<nat>)

  /** Where a tag stands; Done: its completion TLP is queued. */
  datatype Stage = Idle | Queued | Inserting | Waiting | Finished | Done

  datatype State = State(
    tagTable: seq<Status>, hostStatus: seq<Status>, hostSize: nat, running: seq<nat>, ops: seq<CmdType>,
    requests: seq<Request>, current: Option<Request>,
    entries: seq<PEntry>, status: seq<Status>, size: nat, flight: map<nat, Flight>,
    buffers: seq<Status>, rdBuffPtrs: seq<nat>, dataQ: seq<nat>, inTx: Option<nat>,
    tagQueue: seq<nat>, dmaActive: seq<nat>, doneTags: seq<nat>, compQ: seq<nat>,
    table: seq<L.BankList>, lists: map<nat, seq<nat>>, listOf: map<nat, nat>,   // heads and tails; what they spell out
    stage: seq<Stage>, fetched: seq<nat>, completed: seq<nat>)   // history: tags given out, tags of TLPs sent

  datatype Event =
    | Fetch(op: CmdType, lba: nat, cnt: nat, stale: nat)
    | Start
    | Insert(waited: bool, list: nat)
    | Unlink(list: nat)
    | TakeBuffer(q: nat)
    | FinishWrite(q: nat)
    | FinishRead(q: nat)
    | ReportWrite
    | ReportRead
    | SendData
    | DataSent
    | SendCompletion

  predicate Sized(p: Params, s: State) {
    && |s.tagTable| == |s.hostStatus| == |s.running| == |s.ops| == |s.stage| == p.tags
    && |s.entries| == |s.status| == p.slots && |s.buffers| == p.buffers && |s.table| == p.lists
  }

  // ---- the steps ---------------------------------------------------------------------------

  /** The type `insert` stores: 1 means WRITE, 2 READ, and 0 leaves the entry's type alone. */
  function Stored(op: CmdType, before: CmdType): CmdType { if op == WRITE then WRITE else before }

  /** A command of the host gets a tag. The result of getFreeTag is not looked at: without a free tag
      the variable keeps its old value. */
  function Fetched(p: Params, s: State, op: CmdType, lba: nat, cnt: nat, stale: nat): (r: Option<State>)
    requires Sized(p, s)
    ensures r.Some? ==> Sized(p, r.value)
  {
    var free := FirstFree(s.tagTable);
    var tag := if free < |s.tagTable| then free else stale;
    if s.hostSize == p.tags || tag >= p.tags || cnt > 0xffff then None else
      Some(s.(tagTable := s.tagTable[tag := BUSY], hostStatus := s.hostStatus[tag := BUSY], hostSize := s.hostSize + 1,
              running := s.running[tag := cnt], ops := s.ops[tag := op],
              requests := s.requests + [Request(op, lba, 0, cnt, tag)],
              stage := s.stage[tag := Queued], fetched := s.fetched + [tag]))
  }

  function Started(p: Params, s: State): (r: Option<State>)
    requires Sized(p, s)
    ensures r.Some? ==> Sized(p, r.value)
  {
    if s.current.Some? || s.requests == [] || s.requests[0].tag >= p.tags then None else
      var r := s.requests[0];
      var s' := s.(requests := s.requests[1..]);
      if r.cnt == 0 then Some(s'.(stage := s.stage[r.tag := Waiting]))
      else Some(s'.(current := Some(r), stage := s.stage[r.tag := Inserting]))
  }

  /** One turn of the insertion loop; after a wait for room the offset starts again at 0. */
  function Inserted(p: Params, s: State, waited: bool): (r: Option<State>)
    requires Sized(p, s)
    ensures r.Some? ==> Sized(p, r.value)
  {
    if s.current.None? || s.size == p.slots then None else
      var r := s.current.value;
      var q := FirstFree(s.status);
      if q >= p.slots || r.cnt == 0 || r.tag >= p.tags then None else
        var offset := if waited then 0 else r.offset;
        var cmd := Stored(r.op, s.entries[q].cmd);
        var rest := r.(lba := r.lba + 1, offset := offset + 1, cnt := r.cnt - 1);
        Some(s.(entries := s.entries[q := PEntry(cmd, r.lba, offset, r.tag, -1)], status := s.status[q := BUSY],
                size := s.size + 1, flight := s.flight[q := Flight(r.tag, cmd, None)],
                current := if r.cnt == 1 then None else Some(rest),
                stage := if r.cnt == 1 then s.stage[r.tag := Waiting] else s.stage))
  }

  /** TeraSBankLLMethod: the entry goes to the tail of its bank's list. */
  function Linked(s: State, q: nat, b: nat): (r: State)
    requires b < |s.table|
    ensures |r.entries| == |s.entries| && |r.table| == |s.table|
  {
    var list := s.table[b];
    var entries := if list.head == -1 || list.tail < 0 || list.tail >= |s.entries| then s.entries
                   else s.entries[list.tail := s.entries[list.tail].(nextAddr := q)];
    s.(entries := entries, table := s.table[b := L.LinkedList(list, q)],
       lists := Put(s.lists, b, q), listOf := s.listOf[q := b])
  }

  function InsertedLinked(p: Params, s: State, waited: bool, b: nat): (r: Option<State>)
    requires Sized(p, s)
    ensures r.Some? ==> Sized(p, r.value)
  {
    if b < p.lists && Inserted(p, s, waited).Some? then Some(Linked(Inserted(p, s, waited).value, FirstFree(s.status), b))
    else None
  }

  /** processBankLinkList: the head leaves its list and its command goes on to the channel. */
  function UnlinkedHead(p: Params, s: State, b: nat): (r: Option<State>)
    requires Sized(p, s)
    ensures r.Some? ==> Sized(p, r.value)
  {
    if b < p.lists && 0 <= s.table[b].head < p.slots then
      var list := s.table[b];
      Some(s.(table := s.table[b := if list.head == list.tail then L.BankList(-1, -1)
                                    else L.BankList(s.entries[list.head].nextAddr, list.tail)],
              lists := if At(s.lists, b) != [] then Take(s.lists, b) else s.lists, listOf := s.listOf - {list.head}))
    else None
  }

  /** setQueueFree and updateCnt (16 bits); at zero the command is finished. */
  function Released(p: Params, s: State, q: nat): (r: Option<State>)
    requires Sized(p, s) && q in s.flight
    ensures r.Some? ==> Sized(p, r.value)
  {
    var f := s.flight[q];
    if q >= p.slots || f.tag >= p.tags then None else
      var n := if s.running[f.tag] == 0 then 0xffff else s.running[f.tag] - 1;
      var s' := s.(entries := s.entries[q := RESET], status := s.status[q := FREE],
                   size := if s.size == 0 then 0xffff_ffff else s.size - 1,
                   flight := s.flight - {q}, running := s.running[f.tag := n]);
      if n != 0 then Some(s')
      else if f.cmd == WRITE then Some(s'.(tagQueue := s.tagQueue + [f.tag], stage := s.stage[f.tag := Finished]))
      else Some(s'.(dmaActive := s.dmaActive + [f.tag], stage := s.stage[f.tag := Finished]))
  }

  /** The index of the free buffer is kept in eight bits. */
  function Buffered(p: Params, s: State, q: nat): (r: Option<State>)
    requires Sized(p, s)
    ensures r.Some? ==> Sized(p, r.value)
  {
    var b := FirstFree(s.buffers) % 0x100;
    if q in s.flight && q !in s.listOf && s.flight[q].cmd == READ && s.flight[q].buffer.None? &&
       FirstFree(s.buffers) < p.buffers
    then Some(s.(buffers := s.buffers[b := BUSY], flight := s.flight[q := s.flight[q].(buffer := Some(b))]))
    else None
  }

  /** The data TLP of `q` and the buffer it came from are queued. */
  function WithData(s: State, q: nat): State
    requires q in s.flight && s.flight[q].buffer.Some?
  {
    var b := s.flight[q].buffer.value;
    s.(rdBuffPtrs := s.rdBuffPtrs + [b], dataQ := s.dataQ + [b])
  }

  /** writeCmdDoneThread and readDoneThread: the completion TLP and its tag are queued. */
  function Reported(p: Params, s: State, write: bool): (r: Option<State>)
    requires Sized(p, s)
    ensures r.Some? ==> Sized(p, r.value)
  {
    var from := if write then s.tagQueue else s.dmaActive;
    if from == [] || from[0] >= p.tags then None else
      var t := from[0];
      var s' := s.(doneTags := s.doneTags + [t], compQ := s.compQ + [t], stage := s.stage[t := Done]);
      Some(if write then s'.(tagQueue := from[1..]) else s'.(dmaActive := from[1..]))
  }

  /** The arbiter sends a completion TLP and frees the tag at the front of the side queue. */
  function Completed(p: Params, s: State): (r: Option<State>)
    requires Sized(p, s)
    ensures r.Some? ==> Sized(p, r.value)
  {
    if s.inTx.None? && s.compQ != [] && s.doneTags != [] && s.doneTags[0] < p.tags && s.hostSize > 0 then
      var t := s.doneTags[0];
      Some(s.(compQ := s.compQ[1..], doneTags := s.doneTags[1..], completed := s.completed + [s.compQ[0]],
              hostStatus := s.hostStatus[t := FREE], tagTable := s.tagTable[t := FREE], hostSize := s.hostSize - 1,
              stage := s.stage[t := Idle]))
    else None
  }

  function Apply(p: Params, s: State, e: Event): (r: Option<State>)
    requires Sized(p, s)
    ensures r.Some? ==> Sized(p, r.value)
  {
    match e
    case Fetch(op, lba, cnt, stale) => Fetched(p, s, op, lba, cnt, stale)
    case Start => Started(p, s)
    case Insert(waited, b) => InsertedLinked(p, s, waited, b)
    case Unlink(b) => UnlinkedHead(p, s, b)
    case TakeBuffer(q) => Buffered(p, s, q)
    case FinishWrite(q) => if q in s.flight && q !in s.listOf && s.flight[q].cmd == WRITE then Released(p, s, q) else None
    case FinishRead(q) =>
      if q in s.flight && q !in s.listOf && s.flight[q].cmd == READ && s.flight[q].buffer.Some? then Released(p, WithData(s, q), q)
      else None
    case ReportWrite => Reported(p, s, true)
    case ReportRead => Reported(p, s, false)
    case SendData =>
      if s.inTx.None? && s.dataQ != [] then Some(s.(inTx := Some(s.dataQ[0]), dataQ := s.dataQ[1..])) else None
    case DataSent =>
      if s.inTx.Some? && s.rdBuffPtrs != [] && s.rdBuffPtrs[0] < p.buffers then
        Some(s.(inTx := None, rdBuffPtrs := s.rdBuffPtrs[1..], buffers := s.buffers[s.rdBuffPtrs[0] := FREE]))
      else None
    case SendCompletion => Completed(p, s)
  }

  function Zeros(n: nat): seq<nat> { seq(n, _ => 0) }

  function ResetEntries(n: nat): seq<PEntry> { seq(n, _ => RESET) }

  function Reads(n: nat): seq<CmdType> { seq(n, _ => READ) }

  function Idles(n: nat): seq<Stage> { seq(n, _ => Idle) }

  function EmptyLists(n: nat): seq<L.BankList> { seq(n, _ => L.BankList(-1, -1)) }

  function Init(p: Params): State {
    State(AllFree(p.tags), AllFree(p.tags), 0, Zeros(p.tags), Reads(p.tags),
          [], None, ResetEntries(p.slots), AllFree(p.slots), 0, map[],
          AllFree(p.buffers), [], [], None, [], [], [], [],
          EmptyLists(p.lists), map[], map[], Idles(p.tags), [], [])
  }

  function Run(p: Params, s: State, es: seq<Event>): (r: Option<State>)
    requires Sized(p, s)
    ensures r.Some? ==> Sized(p, r.value)
    decreases |es|
  {
    if es == [] then Some(s) else
      match Run(p, s, es[..|es| - 1])
      case None => None
      case Some(s') => Apply(p, s', es[|es| - 1])
  }

  // ---- the invariants ----------------------------------------------------------------------

  /** The sizes count the busy slots; a tag is busy exactly while its command is under way. */
  ghost predicate Allocated(p: Params, s: State)
    requires Sized(p, s)
  {
    && s.hostStatus == s.tagTable && s.hostSize == |Busy(s.tagTable)| && s.size == |Busy(s.status)|
    && (forall t :: 0 <= t < p.tags ==> (s.stage[t] == Idle <==> s.tagTable[t] == FREE))
  }

  /** A free PCMDQ entry is in reset state; a busy one is the entry of exactly one flight. */
  ghost predicate Carried(p: Params, s: State)
    requires Sized(p, s)
  {
    && (forall q :: 0 <= q < p.slots ==> (s.status[q] == BUSY <==> q in s.flight))
    && (forall q :: q in s.flight ==> q < p.slots && FlightOk(p, s, q))
    && (forall q :: 0 <= q < p.slots && s.status[q] == FREE ==> s.entries[q] == RESET)
  }

  predicate FlightOk(p: Params, s: State, q: nat)
    requires Sized(p, s) && q in s.flight && q < p.slots
  {
    var f := s.flight[q];
    && f.tag < p.tags && f.tag == s.entries[q].iTag && f.cmd == s.entries[q].cmd == s.ops[f.tag]
    && (s.stage[f.tag] == Inserting || s.stage[f.tag] == Waiting)
    && (f.buffer.Some? ==> f.cmd == READ)
  }

  ghost function Carrying(flight: map<nat, Flight>, t: nat): set<nat> { set q | q in flight && flight[q].tag == t }

  /** Sub-commands of tag `t` still to insert. */
  function Left(s: State, t: nat): nat {
    LeftIn(s.requests, t) + match s.current case Some(r) => (if r.tag == t then r.cnt else 0) case None => 0
  }

  function LeftIn(requests: seq<Request>, t: nat): nat {
    if requests == [] then 0 else
      LeftIn(requests[..|requests| - 1], t) + if requests[|requests| - 1].tag == t then requests[|requests| - 1].cnt else 0
  }

  /** The running count of a tag is what is left to insert plus the PCMDQ entries carrying it. */
  ghost predicate Counted(p: Params, s: State)
    requires Sized(p, s)
  {
    forall t :: 0 <= t < p.tags ==> CountOk(s, t)
  }

  ghost predicate CountOk(s: State, t: nat)
    requires t < |s.running| && t < |s.stage|
  {
    && s.running[t] == Left(s, t) + |Carrying(s.flight, t)| <= 0xffff
    && (s.stage[t] == Idle || s.stage[t] == Finished || s.stage[t] == Done ==> s.running[t] == 0)
  }

  function TagsOf(requests: seq<Request>): (r: seq<nat>)
    ensures |r| == |requests|
  {
    seq(|requests|, i requires 0 <= i < |requests| => requests[i].tag)
  }

  /** A queue holds exactly the tags of one stage, each once. */
  ghost predicate Holds(p: Params, s: State, xs: seq<nat>, stage: Stage)
    requires Sized(p, s)
  {
    NoDup(xs) && forall t :: t in xs <==> 0 <= t < p.tags && s.stage[t] == stage
  }

  /** Every tag under way stands in exactly one place. */
  ghost predicate Staged(p: Params, s: State)
    requires Sized(p, s)
  {
    && Holds(p, s, TagsOf(s.requests), Queued)
    && Holds(p, s, match s.current case Some(r) => [r.tag] case None => [], Inserting)
    && Holds(p, s, s.tagQueue + s.dmaActive, Finished)
    && Holds(p, s, s.doneTags, Done)
    && (forall i :: 0 <= i < |s.requests| ==> s.requests[i].tag < p.tags && s.requests[i].op == s.ops[s.requests[i].tag])
    && (s.current.Some? ==> s.current.value.cnt > 0 && s.current.value.tag < p.tags && s.current.value.op == s.ops[s.current.value.tag])
    && (forall t :: t in s.tagQueue ==> 0 <= t < p.tags && s.ops[t] == WRITE)
    && (forall t :: t in s.dmaActive ==> 0 <= t < p.tags && s.ops[t] == READ)
  }

  /** The side queues name the owners of the TLPs, position for position. */
  ghost predicate Aligned(s: State) {
    && s.doneTags == s.compQ
    && s.rdBuffPtrs == (match s.inTx case Some(b) => [b] case None => []) + s.dataQ
  }

  /** A read buffer is busy exactly while one flight, or one data TLP, owns it. */
  ghost predicate Owned(p: Params, s: State)
    requires Sized(p, s)
  {
    && NoDup(s.rdBuffPtrs)
    && (forall b :: b in s.rdBuffPtrs ==> 0 <= b < p.buffers && s.buffers[b] == BUSY)
    && (forall q :: q in s.flight && s.flight[q].buffer.Some? ==>
          s.flight[q].buffer.value < p.buffers && s.buffers[s.flight[q].buffer.value] == BUSY
          && s.flight[q].buffer.value !in s.rdBuffPtrs)
    && (forall q, r :: q in s.flight && r in s.flight && q != r && s.flight[q].buffer.Some? ==> s.flight[q].buffer != s.flight[r].buffer)
    && (forall b :: 0 <= b < p.buffers && s.buffers[b] == BUSY ==> HasOwner(s, b))
  }

  predicate HasOwner(s: State, b: nat) {
    b in s.rdBuffPtrs || exists q :: q in s.flight && s.flight[q].buffer == Some(b)
  }

  /** The links of the PCMDQ entries. */
  function Links(entries: seq<PEntry>): (r: seq<L.CmdEntry>)
    ensures |r| == |entries|
  {
    seq(|entries|, i requires 0 <= i < |entries| => L.CmdEntry(0, entries[i].nextAddr, 0))
  }

  /** Head, tail and links spell out one FIFO per bank. The entries listed are the flights that the
      dispatcher has not taken yet, each in one list, once. */
  ghost predicate Chained(p: Params, s: State)
    requires Sized(p, s)
  {
    && Kept(s.lists, s.listOf)
    && (forall q :: q in s.listOf ==> q in s.flight && q < p.slots && s.listOf[q] < p.lists && s.flight[q].buffer.None?)
    && (forall b :: 0 <= b < p.lists ==> L.Chain(Links(s.entries), s.table[b], At(s.lists, b)))
  }

  function Count(xs: seq<nat>, t: nat): nat {
    if xs == [] then 0 else Count(xs[..|xs| - 1], t) + if xs[|xs| - 1] == t then 1 else 0
  }

  /** Every tag given out was completed once, but for the command still under way. */
  ghost predicate Booked(p: Params, s: State)
    requires Sized(p, s)
  {
    forall t :: 0 <= t < p.tags ==> Count(s.fetched, t) == Count(s.completed, t) + if s.stage[t] == Idle then 0 else 1
  }

  ghost predicate Safe(p: Params, s: State) {
    && Sized(p, s) && Allocated(p, s) && Carried(p, s) && Chained(p, s) && Counted(p, s) && Staged(p, s)
    && Aligned(s) && Owned(p, s) && Booked(p, s) && p.buffers <= 0x100
  }
}
