/** The DIMM controller as a machine of atomic steps (the code between two waits).
    A sub-command moves from its bank list through the dispatcher, the short or long queue, the
    bus and the timed queues until it is counted as done; the steps of all channels, of the host
    and of the completion method may interleave in any order. */
module Pipeline {
  import opened Common
  import opened Places

  /** Code word `idx` of the command in `slot`, bound for one bank of one channel. */
  datatype Sub = Sub(slot: nat, idx: nat, ctype: CmdType, cwCnt: nat, chan: nat, bank: nat)
  {
    function Bank(): (nat, nat) { (chan, bank) }

    function Home(): Place { Listed(chan, bank) }
  }

  datatype Place =
    | Listed(chan: nat, bank: nat)   // linked list of a bank
    | Hand(chan: nat)                // popped by the dispatcher, waiting to enter a queue
    | Short(chan: nat)
    | BusShort(chan: nat)            // read command on the ONFI bus
    | PendRead(chan: nat)            // read under way in the chip
    | Long(chan: nat)
    | BusLong(chan: nat)             // write, or bank select of a finished read, on the bus
    | PendWrite(chan: nat)           // program under way in the chip

  datatype Entry = Entry(slot: nat, ctype: CmdType, cwCnt: nat)

  /** Idle: the host may use the slot. Running: sub-commands are live. Finished: the last
      sub-command of a read is done, its completion is delayed. Reported: the completion is queued. */
  datatype Phase = Idle | Running | Finished | Reported

  datatype Params = Params(chans: nat, banks: nat, slots: nat, credit: nat)

  datatype State = State(
    q: map<Place, seq<Sub>>, loc: map<Sub, Place>,
    dl1: map<(nat, nat), Sub>, dl2: map<(nat, nat), Sub>,   // busy latches with the command that took them
    credit: seq<nat>, due: seq<nat>,                         // per channel: credit, bank selects not yet answered
    cnt: seq<nat>,                                           // running count per slot
    table: seq<Entry>, phase: seq<Phase>,                    // per slot
    slotNumQ: seq<nat>,
    accepts: seq<Entry>, log: seq<Entry>, drained: nat)      // commands accepted; completions queued, of which delivered
  {
    function At(p: Place): seq<Sub> { Places.At(q, p) }

    function Pending(): seq<Entry>
      requires drained <= |log|
    {
      log[drained..]
    }
  }

  datatype Event =
    | Accept(slot: nat, ctype: CmdType, homes: seq<(nat, nat)>)
    | Dispatch(chan: nat, bank: nat)
    | Enqueue(chan: nat)
    | ShortPop(chan: nat)
    | ShortDone(chan: nat)
    | ReadReady(chan: nat)
    | LongPop(chan: nat)
    | WriteMove(chan: nat)
    | ReadDone(chan: nat)
    | WriteDone(chan: nat)
    | Answer(chan: nat)
    | Complete
    | Poll

  // ---- the steps ---------------------------------------------------------------------------

  function Shift(s: State, from: Place, to: Place): State
    requires s.At(from) != []
  {
    s.(q := Move(s.q, from, to), loc := s.loc[s.At(from)[0] := to])
  }

  function Retire(s: State, from: Place): State
    requires s.At(from) != []
  {
    s.(q := Take(s.q, from), loc := s.loc - {s.At(from)[0]})
  }

  function SubsOf(slot: nat, ctype: CmdType, homes: seq<(nat, nat)>): (subs: seq<Sub>)
    ensures |subs| == |homes|
  {
    seq(|homes|, i requires 0 <= i < |homes| => Sub(slot, i, ctype, |homes|, homes[i].0, homes[i].1))
  }

  /** Linking the code words of a command one after the other. */
  function LinkAll(q: map<Place, seq<Sub>>, subs: seq<Sub>): map<Place, seq<Sub>> {
    if subs == [] then q else
      var n := |subs| - 1;
      Put(LinkAll(q, subs[..n]), subs[n].Home(), subs[n])
  }

  function LocateAll(loc: map<Sub, Place>, subs: seq<Sub>): map<Sub, Place> {
    if subs == [] then loc else
      var n := |subs| - 1;
      LocateAll(loc, subs[..n])[subs[n] := subs[n].Home()]
  }

  /** IntermediateCmdQueueManager::update. */
  function Update(cnt: nat, cwCnt: nat): int { if cnt == 0 then cwCnt - 1 else cnt - 1 }

  function Push(s: State, slot: nat): State
    requires slot < |s.table| && slot < |s.phase|
  {
    s.(log := s.log + [Entry(slot, s.table[slot].ctype, s.table[slot].cwCnt)], phase := s.phase[slot := Reported])
  }

  /** Count a finished sub-command; the one that brings the count to zero completes its slot. */
  function Count(s: State, x: Sub): State
    requires x.slot < |s.cnt| && x.slot < |s.table| && x.slot < |s.phase| && Update(s.cnt[x.slot], x.cwCnt) >= 0
  {
    var c := Update(s.cnt[x.slot], x.cwCnt);
    var s' := s.(cnt := s.cnt[x.slot := c]);
    if c != 0 then s'
    else if x.ctype == WRITE then Push(s', x.slot)
    else s'.(slotNumQ := s.slotNumQ + [x.slot], phase := s.phase[x.slot := Finished])
  }

  /** How many entries one poll of the completion queue pops; the 8-bit count reads 256 as 0. */
  function PollSize(size: nat): (n: nat)
    ensures n <= size && n <= 31
  {
    if size % 256 == 0 then 0 else if size < 31 then size else 31
  }

  function SlotsIn(entries: seq<Entry>): set<nat> { set e | e in entries :: e.slot }

  function Freed(phase: seq<Phase>, slots: set<nat>): (r: seq<Phase>)
    ensures |r| == |phase|
  {
    seq(|phase|, i requires 0 <= i < |phase| => if i in slots then Idle else phase[i])
  }

  predicate Sized(p: Params, s: State) {
    && |s.credit| == |s.due| == p.chans
    && |s.cnt| == |s.table| == |s.phase| == p.slots
    && s.drained <= |s.log|
  }

  function Apply(p: Params, s: State, e: Event): (r: Option<State>)
    requires Sized(p, s)
    ensures r.Some? ==> Sized(p, r.value)
  {
    match e
    case Accept(slot, ctype, homes) =>
      if slot < p.slots && s.phase[slot] == Idle && homes != [] &&
         (forall i :: 0 <= i < |homes| ==> homes[i].0 < p.chans && homes[i].1 < p.banks)
      then
        var subs, entry := SubsOf(slot, ctype, homes), Entry(slot, ctype, |homes|);
        Some(s.(q := LinkAll(s.q, subs), loc := LocateAll(s.loc, subs), accepts := s.accepts + [entry],
                table := s.table[slot := entry], phase := s.phase[slot := Running]))
      else None
    case Dispatch(c, b) =>
      if c < p.chans && b < p.banks && s.At(Listed(c, b)) != [] && s.At(Hand(c)) == [] then
        var x := s.At(Listed(c, b))[0];
        if x.ctype == READ && (c, b) !in s.dl1 then
          Some(Shift(s, Listed(c, b), Hand(c)).(dl1 := s.dl1[(c, b) := x]))
        else if x.ctype == WRITE && (c, b) !in s.dl2 then
          Some(Shift(s, Listed(c, b), Hand(c)).(dl2 := s.dl2[(c, b) := x]))
        else None
      else None
    case Enqueue(c) =>
      if c < p.chans && s.At(Hand(c)) != [] then
        if s.At(Hand(c))[0].ctype == READ && |s.At(Short(c))| < p.banks then Some(Shift(s, Hand(c), Short(c)))
        else if s.At(Hand(c))[0].ctype == WRITE && |s.At(Long(c))| < p.banks then Some(Shift(s, Hand(c), Long(c)))
        else None
      else None
    case ShortPop(c) =>
      if c < p.chans && s.At(Short(c)) != [] && s.At(BusShort(c)) == [] && s.At(BusLong(c)) == [] && s.credit[c] > 0
      then Some(Shift(s, Short(c), BusShort(c)).(credit := s.credit[c := s.credit[c] - 1]))
      else None
    case ShortDone(c) =>
      if c < p.chans && s.At(BusShort(c)) != [] then Some(Shift(s, BusShort(c), PendRead(c))) else None
    case ReadReady(c) =>
      if c < p.chans && s.At(PendRead(c)) != [] && |s.At(Long(c))| < p.banks then
        var x := s.At(PendRead(c))[0];
        var s' := Shift(s, PendRead(c), Long(c));
        if (c, x.bank) in s.dl2 then Some(s')
        else Some(s'.(dl1 := s.dl1 - {(c, x.bank)}, dl2 := s.dl2[(c, x.bank) := x]))
      else None
    case LongPop(c) =>
      if c < p.chans && s.At(Long(c)) != [] && s.At(BusShort(c)) == [] && s.At(BusLong(c)) == [] then
        var s' := Shift(s, Long(c), BusLong(c));
        if s.At(Long(c))[0].ctype == READ then Some(s'.(due := s.due[c := s.due[c] + 1])) else Some(s')
      else None
    case WriteMove(c) =>
      if c < p.chans && s.At(BusLong(c)) != [] && s.At(BusLong(c))[0].ctype == WRITE then
        var x := s.At(BusLong(c))[0];
        if (c, x.bank) in s.dl1 then None
        else Some(Shift(s, BusLong(c), PendWrite(c)).(dl1 := s.dl1[(c, x.bank) := x], dl2 := s.dl2 - {(c, x.bank)}))
      else None
    case ReadDone(c) =>
      if c < p.chans && s.At(BusLong(c)) != [] && s.At(BusLong(c))[0].ctype == READ then
        Finish(p, s, BusLong(c))
      else None
    case WriteDone(c) =>
      if c < p.chans && s.At(PendWrite(c)) != [] then Finish(p, s, PendWrite(c)) else None
    case Answer(c) =>
      if c < p.chans && s.due[c] > 0 then
        Some(s.(credit := s.credit[c := s.credit[c] + 1], due := s.due[c := s.due[c] - 1]))
      else None
    case Complete =>
      if s.slotNumQ != [] && s.slotNumQ[0] < p.slots then Some(Push(s.(slotNumQ := s.slotNumQ[1..]), s.slotNumQ[0]))
      else None
    case Poll =>
      var n := PollSize(|s.Pending()|);
      Some(s.(drained := s.drained + n, phase := Freed(s.phase, SlotsIn(s.Pending()[..n]))))
  }

  /** A sub-command leaves the pipeline: its latch is released and it is counted. */
  function Finish(p: Params, s: State, from: Place): (r: Option<State>)
    requires Sized(p, s) && s.At(from) != []
    ensures r.Some? ==> Sized(p, r.value)
  {
    var x := s.At(from)[0];
    if x.slot < p.slots && Update(s.cnt[x.slot], x.cwCnt) >= 0 then
      var s' := Count(Retire(s, from), x);
      if from.BusLong? then Some(s'.(dl2 := s.dl2 - {(from.chan, x.bank)}))
      else Some(s'.(dl1 := s.dl1 - {(from.chan, x.bank)}))
    else None
  }

  function Init(p: Params): State {
    State(map[], map[], map[], map[], seq(p.chans, _ => p.credit), seq(p.chans, _ => 0),
          seq(p.slots, _ => 0), seq(p.slots, _ => Entry(0, READ, 0)), seq(p.slots, _ => Idle), [], [], [], 0)
  }

  /** A run: every event enabled in turn. */
  function Run(p: Params, s: State, es: seq<Event>): (r: Option<State>)
    requires Sized(p, s)
    ensures r.Some? ==> Sized(p, r.value)
    decreases |es|
  {
    if es == [] then Some(s) else
      match Run(p, s, es[..|es| - 1])
      case None => None
      case Some(s') => Apply(p, s', es[|es| - 1])
  }
}
