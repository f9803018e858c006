/** The order in which the sub-commands of one bank are done. Reads and writes take different ways
    through a channel and several of one bank may be under way at once; yet over every run they finish in
    the order they were accepted, so that none ever overtakes an earlier one of its bank. */
module PipelineOrder {
  import opened Common
  import opened Places
  import opened Pipeline
  import opened PipelineSafety
  import opened PipelineStall

  // ---- histories ---------------------------------------------------------------------------

  function Now(p: Params, es: seq<Event>): State
    requires Run(p, Init(p), es).Some?
  {
    Run(p, Init(p), es).value
  }

  function Before(p: Params, es: seq<Event>): State
    requires es != [] && Run(p, Init(p), es).Some?
  {
    Now(p, es[..|es| - 1])
  }

  /** The sub-commands of bank `b` that a step accepts, takes off the list, or finishes. */
  function Accepts(e: Event, b: (nat, nat)): seq<Sub> {
    if e.Accept? then Bound(SubsOf(e.slot, e.ctype, e.homes), Listed(b.0, b.1)) else []
  }

  function Leaves(s: State, e: Event, b: (nat, nat)): seq<Sub> {
    if e.Dispatch? && (e.chan, e.bank) == b then [Front(s, Listed(b.0, b.1))] else []
  }

  function Finishes(s: State, e: Event, b: (nat, nat)): seq<Sub> {
    if e.ReadDone? && Front(s, BusLong(e.chan)).Bank() == b then [Front(s, BusLong(e.chan))]
    else if e.WriteDone? && Front(s, PendWrite(e.chan)).Bank() == b then [Front(s, PendWrite(e.chan))]
    else []
  }

  /** All of them over a run, in order. */
  function Accepted(p: Params, es: seq<Event>, b: (nat, nat)): seq<Sub>
    requires Run(p, Init(p), es).Some?
  {
    if es == [] then [] else Accepted(p, es[..|es| - 1], b) + Accepts(es[|es| - 1], b)
  }

  function Left(p: Params, es: seq<Event>, b: (nat, nat)): seq<Sub>
    requires Run(p, Init(p), es).Some?
  {
    if es == [] then [] else Left(p, es[..|es| - 1], b) + Leaves(Before(p, es), es[|es| - 1], b)
  }

  function Completed(p: Params, es: seq<Event>, b: (nat, nat)): seq<Sub>
    requires Run(p, Init(p), es).Some?
  {
    if es == [] then [] else Completed(p, es[..|es| - 1], b) + Finishes(Before(p, es), es[|es| - 1], b)
  }

  // ---- the sub-commands of one bank in a queue ---------------------------------------------

  predicate Match(x: Sub, b: (nat, nat), t: Option<CmdType>) { x.Bank() == b && (t == None || t == Some(x.ctype)) }

  function Of(subs: seq<Sub>, b: (nat, nat), t: Option<CmdType>): seq<Sub> {
    if subs == [] then [] else
      Of(subs[..|subs| - 1], b, t) + if Match(subs[|subs| - 1], b, t) then [subs[|subs| - 1]] else []
  }

  lemma OfPut(subs: seq<Sub>, x: Sub, b: (nat, nat), t: Option<CmdType>)
    ensures Of(subs + [x], b, t) == Of(subs, b, t) + if Match(x, b, t) then [x] else []
  {
    assert (subs + [x])[..|subs|] == subs;
  }

  lemma {:induction false} OfFront(subs: seq<Sub>, b: (nat, nat), t: Option<CmdType>)
    requires subs != []
    ensures Of(subs, b, t) == (if Match(subs[0], b, t) then [subs[0]] else []) + Of(subs[1..], b, t)
  {
    var n := |subs| - 1;
    if n > 0 {
      OfFront(subs[..n], b, t);
      assert subs[1..][..n - 1] == subs[..n][1..];
    }
  }

  lemma {:induction false} OfMembers(subs: seq<Sub>, b: (nat, nat), t: Option<CmdType>)
    ensures forall x :: x in Of(subs, b, t) <==> x in subs && Match(x, b, t)
  {
    if subs != [] {
      var n := |subs| - 1;
      OfMembers(subs[..n], b, t);
      assert subs == subs[..n] + [subs[n]];
    }
  }

  lemma FirstMember(xs: seq<Sub>)
    ensures xs == [] || xs[0] in xs
  {}

  lemma Empty(xs: seq<Sub>)
    requires forall x :: x !in xs
    ensures xs == []
  {
    FirstMember(xs);
  }

  lemma {:induction false} OfOnce(subs: seq<Sub>, b: (nat, nat), t: Option<CmdType>, w: Sub)
    requires NoDup(subs) && forall x :: x in Of(subs, b, t) ==> x == w
    ensures |Of(subs, b, t)| <= 1
  {
    if subs != [] {
      var n := |subs| - 1;
      OfMembers(subs[..n], b, t);
      OfMembers(subs, b, t);
      forall x | x in Of(subs[..n], b, t) ensures x == w { assert x in Of(subs, b, t); }
      OfOnce(subs[..n], b, t, w);
      if Match(subs[n], b, t) {
        assert subs[n] in Of(subs, b, t) && subs[n] !in subs[..n];
        Empty(Of(subs[..n], b, t));
      }
    }
  }

  function From(s: State, e: Event): Option<Place> {
    match ShapeOf(s, e)
    case Moved(from, _) => Some(from)
    case Retired(at) => Some(at)
    case _ => None
  }

  function To(s: State, e: Event): Option<Place> {
    match ShapeOf(s, e)
    case Moved(_, to) => Some(to)
    case _ => None
  }

  /** The command a step works on. */
  function Worker(s: State, e: Event): Sub {
    match From(s, e)
    case Some(from) => Front(s, from)
    case None => Front(s, Hand(0))
  }

  /** What a step does to the part of a queue that belongs to bank `b`. */
  lemma Segment(s: State, e: Event, s': State, at: Place, b: (nat, nat), t: Option<CmdType>)
    requires Shaped(s, e, s') && !at.Listed?
    ensures var f, f', x := Of(s.At(at), b, t), Of(s'.At(at), b, t), Worker(s, e);
            && (To(s, e) == Some(at) && Match(x, b, t) ==> f' == f + [x])
            && (From(s, e) == Some(at) && Match(x, b, t) ==> f == [x] + f')
            && (!Match(x, b, t) || (To(s, e) != Some(at) && From(s, e) != Some(at)) ==> f' == f)
  {
    StepAfter(s, e, s', at);
    var x := Worker(s, e);
    if To(s, e) == Some(at) {
      OfPut(s.At(at), x, b, t);
    } else if From(s, e) == Some(at) {
      OfFront(s.At(at), b, t);
    }
  }

  // ---- under way ---------------------------------------------------------------------------

  /** The sub-commands of bank `b` in some places, the first place first. */
  function Line(s: State, places: seq<Place>, b: (nat, nat), t: Option<CmdType>): seq<Sub> {
    if places == [] then [] else
      Line(s, places[..|places| - 1], b, t) + Of(s.At(places[|places| - 1]), b, t)
  }

  ghost predicate Row(places: seq<Place>) { NoDup(places) && forall k :: 0 <= k < |places| ==> !places[k].Listed? }

  lemma {:induction false} LineSame(s: State, e: Event, s': State, places: seq<Place>, b: (nat, nat), t: Option<CmdType>)
    requires Shaped(s, e, s') && Row(places)
    requires Match(Worker(s, e), b, t) ==> forall at :: at in places ==> From(s, e) != Some(at) && To(s, e) != Some(at)
    ensures Line(s', places, b, t) == Line(s, places, b, t)
  {
    hide Shaped, Of, Match;
    if places != [] {
      var n := |places| - 1;
      assert forall at :: at in places[..n] ==> at in places;
      LineSame(s, e, s', places[..n], b, t);
      Segment(s, e, s', places[n], b, t);
    }
  }

  /** Into the last place. */
  lemma LineTail(s: State, e: Event, s': State, places: seq<Place>, b: (nat, nat), t: Option<CmdType>)
    requires Shaped(s, e, s') && Row(places) && places != [] && Match(Worker(s, e), b, t)
    requires To(s, e) == Some(places[|places| - 1]) && forall at :: at in places ==> From(s, e) != Some(at)
    ensures Line(s', places, b, t) == Line(s, places, b, t) + [Worker(s, e)]
  {
    hide Shaped, Of, Match;
    var n := |places| - 1;
    LineSame(s, e, s', places[..n], b, t);
    Segment(s, e, s', places[n], b, t);
  }

  /** Out of the first place. */
  lemma {:induction false} LineHead(s: State, e: Event, s': State, places: seq<Place>, b: (nat, nat), t: Option<CmdType>)
    requires Shaped(s, e, s') && Row(places) && places != [] && Match(Worker(s, e), b, t)
    requires From(s, e) == Some(places[0]) && forall at :: at in places ==> To(s, e) != Some(at)
    ensures Line(s, places, b, t) == [Worker(s, e)] + Line(s', places, b, t)
  {
    hide Shaped, Of, Match;
    var n := |places| - 1;
    assert forall at :: at in places[..n] ==> at in places;
    Segment(s, e, s', places[n], b, t);
    if n > 0 { LineHead(s, e, s', places[..n], b, t); }
    HeadJoins(s, s', places, b, t, Worker(s, e));
  }

  lemma HeadJoins(s: State, s': State, places: seq<Place>, b: (nat, nat), t: Option<CmdType>, x: Sub)
    requires places != []
    requires var n := |places| - 1;
             var f, f' := Of(s.At(places[n]), b, t), Of(s'.At(places[n]), b, t);
             if n == 0 then f == [x] + f' else f' == f && Line(s, places[..n], b, t) == [x] + Line(s', places[..n], b, t)
    ensures Line(s, places, b, t) == [x] + Line(s', places, b, t)
  {
    hide Of;
    var n := |places| - 1;
    var pre, pre', f' := Line(s, places[..n], b, t), Line(s', places[..n], b, t), Of(s'.At(places[n]), b, t);
    assert if n == 0 then pre == pre' == [] else pre + f' == [x] + (pre' + f');
  }

  /** From one place to the one before it. */
  lemma {:induction false} LineSlide(s: State, e: Event, s': State, places: seq<Place>, b: (nat, nat), t: Option<CmdType>, i: nat)
    requires Shaped(s, e, s') && Row(places) && i + 1 < |places| && Match(Worker(s, e), b, t)
    requires From(s, e) == Some(places[i + 1]) && To(s, e) == Some(places[i])
    ensures Line(s', places, b, t) == Line(s, places, b, t)
  {
    hide Shaped, Of, Match;
    var n := |places| - 1;
    if i + 1 < n {
      LineSlide(s, e, s', places[..n], b, t, i);
    } else {
      assert places[..n][i] == places[i];
      LineTail(s, e, s', places[..n], b, t);
    }
    Segment(s, e, s', places[n], b, t);
  }

  const R: Option<CmdType> := Some(READ)
  const W: Option<CmdType> := Some(WRITE)

  /** The way of a read, from its end to its beginning; of a write; and what both have in common. */
  function ReadWay(c: nat): seq<Place> { [BusLong(c), Long(c), PendRead(c), BusShort(c), Short(c), Hand(c)] }

  function WriteWay(c: nat): seq<Place> { [PendWrite(c), BusLong(c), Long(c), Hand(c)] }

  function LongWay(c: nat): seq<Place> { [BusLong(c), Long(c)] }

  lemma Ways(c: nat)
    ensures Row(ReadWay(c)) && Row(WriteWay(c)) && Row(LongWay(c))
    ensures forall at :: at in ReadWay(c) <==> at.chan == c && !at.Listed? && !at.PendWrite?
    ensures forall at :: at in WriteWay(c) <==> at.chan == c && (at.PendWrite? || at.BusLong? || at.Long? || at.Hand?)
    ensures forall at :: at in LongWay(c) <==> at.chan == c && (at.BusLong? || at.Long?)
    ensures |ReadWay(c)| == 6 && ReadWay(c)[0] == BusLong(c) && ReadWay(c)[1] == Long(c) && ReadWay(c)[2] == PendRead(c)
    ensures ReadWay(c)[3] == BusShort(c) && ReadWay(c)[4] == Short(c) && ReadWay(c)[5] == Hand(c)
    ensures |WriteWay(c)| == 4 && WriteWay(c)[0] == PendWrite(c) && WriteWay(c)[1] == BusLong(c)
    ensures WriteWay(c)[2] == Long(c) && WriteWay(c)[3] == Hand(c)
    ensures |LongWay(c)| == 2 && LongWay(c)[0] == BusLong(c) && LongWay(c)[1] == Long(c)
  {}

  /** The reads, and the writes, of bank `b` under way, the foremost first. */
  function Rds(s: State, b: (nat, nat)): seq<Sub> { Line(s, ReadWay(b.0), b, R) }

  function Wrs(s: State, b: (nat, nat)): seq<Sub> { Line(s, WriteWay(b.0), b, W) }

  /** Both, bound for the bus. */
  function Queue(s: State, b: (nat, nat)): seq<Sub> { Line(s, LongWay(b.0), b, None) }

  lemma WorkerFits(p: Params, s: State, e: Event, s': State)
    requires Safe(p, s) && Apply(p, s, e) == Some(s')
    ensures Shaped(s, e, s') && LatchesSet(s, e, s')
    ensures var x, from := Worker(s, e), From(s, e);
            from.Some? ==> x in s.loc && s.loc[x] == from.value && Fits(p, from.value, x)
    ensures To(s, e).Some? ==> Fits(p, To(s, e).value, Worker(s, e))
    ensures e.ReadDone? ==> Worker(s, e).ctype == READ
  {
    hide Apply, Bounded, Credited, Counted, Reporting;
    StepShape(p, s, e);
    StepLatches(p, s, e);
    if From(s, e).Some? { FrontFits(p, s, From(s, e).value); }
    if To(s, e).Some? { MoveFits(p, s, e, s'); }
  }

  /** Where the command a step works on comes from and where it goes. */
  predicate Routed(s: State, e: Event) {
    var x, from, to := Worker(s, e), From(s, e), To(s, e);
    match e
    case Dispatch(c, b) => from == Some(Listed(c, b)) && to == Some(Hand(c)) && x.Bank() == (c, b)
    case Enqueue(c) => from == Some(Hand(c)) && to == Some(if x.ctype == READ then Short(c) else Long(c)) && x.chan == c
    case ShortPop(c) => from == Some(Short(c)) && to == Some(BusShort(c)) && x.chan == c && x.ctype == READ
    case ShortDone(c) => from == Some(BusShort(c)) && to == Some(PendRead(c)) && x.chan == c && x.ctype == READ
    case ReadReady(c) => from == Some(PendRead(c)) && to == Some(Long(c)) && x.chan == c && x.ctype == READ
    case LongPop(c) => from == Some(Long(c)) && to == Some(BusLong(c)) && x.chan == c
    case WriteMove(c) => from == Some(BusLong(c)) && to == Some(PendWrite(c)) && x.chan == c && x.ctype == WRITE
    case ReadDone(c) => from == Some(BusLong(c)) && to == None && x.chan == c && x.ctype == READ
    case WriteDone(c) => from == Some(PendWrite(c)) && to == None && x.chan == c && x.ctype == WRITE
    case _ => from == None && to == None
  }

  lemma Route(p: Params, s: State, e: Event, s': State)
    requires Safe(p, s) && Apply(p, s, e) == Some(s')
    ensures Shaped(s, e, s') && Routed(s, e) && LatchesSet(s, e, s')
  {
    hide Apply, Safe, Conserved, Shaped;
    WorkerFits(p, s, e, s');
    ToHand(p, s, e, s');
    hide LatchesSet, Front;
  }

  lemma ToHand(p: Params, s: State, e: Event, s': State)
    requires Safe(p, s) && Apply(p, s, e) == Some(s')
    ensures var x := Worker(s, e);
            e.Enqueue? ==> x == Front(s, Hand(e.chan)) && To(s, e) == Some(if x.ctype == READ then Short(e.chan) else Long(e.chan))
  {
    SafeSized(p, s);
    hide Safe;
    StepShape(p, s, e);
  }

  /** The parts of a step that touch a way, and those that do not. */
  lemma ReadsSame(s: State, e: Event, s': State, b: (nat, nat))
    requires Shaped(s, e, s') && Row(ReadWay(b.0))
    requires !Match(Worker(s, e), b, R) || From(s, e) == None
    ensures Rds(s', b) == Rds(s, b)
  {
    hide Shaped, Row, Line, Worker, Match, ReadWay;
    LineSame(s, e, s', ReadWay(b.0), b, R);
  }

  lemma WritesSame(s: State, e: Event, s': State, b: (nat, nat))
    requires Shaped(s, e, s') && Row(WriteWay(b.0))
    requires !Match(Worker(s, e), b, W) || From(s, e) == None
    ensures Wrs(s', b) == Wrs(s, b)
  {
    hide Shaped, Row, Line, Worker, Match, WriteWay;
    LineSame(s, e, s', WriteWay(b.0), b, W);
  }

  /** What a step does to the reads under way. */
  lemma StepReads(s: State, e: Event, s': State, b: (nat, nat))
    requires Shaped(s, e, s') && Routed(s, e)
    ensures var x := Worker(s, e);
            if e.Dispatch? && Match(x, b, R) then Rds(s', b) == Rds(s, b) + [x]
            else if e.ReadDone? && Match(x, b, R) then Rds(s, b) == [x] + Rds(s', b)
            else Rds(s', b) == Rds(s, b)
  {
    Ways(b.0);
    hide Of, Shaped, Line, Row, ReadWay, WriteWay, LongWay, Front, From, To, Worker, Fits, ShapeOf;
    var ps := ReadWay(b.0);
    if !Match(Worker(s, e), b, R) || From(s, e) == None {
      ReadsSame(s, e, s', b);
    } else if e.Dispatch? {
      LineTail(s, e, s', ps, b, R);
    } else if e.ReadDone? {
      LineHead(s, e, s', ps, b, R);
    } else {
      LineSlide(s, e, s', ps, b, R, ReadIndex(e));
    }
  }

  /** The place a read moves to, counted from the end of its way; and a write. */
  function ReadIndex(e: Event): nat {
    match e
    case Enqueue(_) => 4
    case ShortPop(_) => 3
    case ShortDone(_) => 2
    case ReadReady(_) => 1
    case _ => 0
  }

  function WriteIndex(e: Event): nat {
    match e
    case Enqueue(_) => 2
    case LongPop(_) => 1
    case _ => 0
  }

  /** And to the writes. */
  lemma StepWrites(s: State, e: Event, s': State, b: (nat, nat))
    requires Shaped(s, e, s') && Routed(s, e)
    ensures var x := Worker(s, e);
            if e.Dispatch? && Match(x, b, W) then Wrs(s', b) == Wrs(s, b) + [x]
            else if e.WriteDone? && Match(x, b, W) then Wrs(s, b) == [x] + Wrs(s', b)
            else Wrs(s', b) == Wrs(s, b)
  {
    Ways(b.0);
    hide Of, Shaped, Line, Row, ReadWay, WriteWay, LongWay, Front, From, To, Worker, Fits, ShapeOf;
    var ps := WriteWay(b.0);
    if !Match(Worker(s, e), b, W) || From(s, e) == None {
      WritesSame(s, e, s', b);
    } else if e.Dispatch? {
      LineTail(s, e, s', ps, b, W);
    } else if e.WriteDone? {
      LineHead(s, e, s', ps, b, W);
    } else {
      LineSlide(s, e, s', ps, b, W, WriteIndex(e));
    }
  }

  /** And to both. */
  lemma StepQueue(s: State, e: Event, s': State, b: (nat, nat))
    requires Shaped(s, e, s') && Routed(s, e)
    ensures var x := Worker(s, e);
            if x.Bank() == b && (e.WriteMove? || e.ReadDone?) then Queue(s, b) == [x] + Queue(s', b)
            else Queue(s, b) <= Queue(s', b)
  {
    Ways(b.0);
    hide Of, Shaped, Line, Row, ReadWay, WriteWay, LongWay, Front, From, To, Worker, Fits, ShapeOf;
    var ps, x := LongWay(b.0), Worker(s, e);
    if x.Bank() != b || From(s, e) == None || e.Dispatch? || e.ShortPop? || e.ShortDone? || e.WriteDone?
       || (e.Enqueue? && x.ctype == READ) {
      LineSame(s, e, s', ps, b, None);
    } else {
      match e {
        case LongPop(_) => LineSlide(s, e, s', ps, b, None, 0);
        case WriteMove(_) => LineHead(s, e, s', ps, b, None);
        case ReadDone(_) => LineHead(s, e, s', ps, b, None);
        case _ => LineTail(s, e, s', ps, b, None);
      }
    }
  }

  // ---- who is under way --------------------------------------------------------------------

  lemma {:induction false} LineHolds(p: Params, s: State, places: seq<Place>, b: (nat, nat), t: Option<CmdType>)
    requires Safe(p, s)
    ensures forall x :: x in Line(s, places, b, t) <==> x in s.loc && s.loc[x] in places && Match(x, b, t)
  {
    hide Bounded, Credited, Counted, Reporting, Fits, Of, Match;
    if places != [] {
      var n := |places| - 1;
      LineHolds(p, s, places[..n], b, t);
      OfMembers(s.At(places[n]), b, t);
      assert places == places[..n] + [places[n]];
    }
  }

  /** One command does not stand in a line twice. */
  lemma {:induction false} LineOnce(p: Params, s: State, places: seq<Place>, b: (nat, nat), t: Option<CmdType>, w: Sub)
    requires Safe(p, s) && Row(places) && forall x :: x in Line(s, places, b, t) ==> x == w
    ensures |Line(s, places, b, t)| <= 1
  {
    hide Bounded, Credited, Counted, Reporting, Fits, Of, Match;
    if places != [] {
      var n := |places| - 1;
      var pre, f := Line(s, places[..n], b, t), Of(s.At(places[n]), b, t);
      assert Line(s, places, b, t) == pre + f;
      assert forall x :: x in pre ==> x in Line(s, places, b, t);
      assert forall x :: x in f ==> x in Line(s, places, b, t);
      LineOnce(p, s, places[..n], b, t, w);
      OfOnce(s.At(places[n]), b, t, w);
      LineHolds(p, s, places[..n], b, t);
      OfMembers(s.At(places[n]), b, t);
      if pre != [] {
        assert pre[0] in pre;
        assert s.loc[w] in places[..n] && s.loc[w] != places[n];
        Empty(f);
      }
    }
  }

  /** A write of the bank is being programmed. */
  predicate Programs(s: State, b: (nat, nat)) { Of(s.At(PendWrite(b.0)), b, W) != [] }

  lemma ProgramOwns(p: Params, s: State, b: (nat, nat))
    requires Safe(p, s) && BankOk(s, b) && Programs(s, b)
    ensures b in s.dl1
  {
    hide Bounded, Credited, Counted, Reporting, Fits, Of;
    OfMembers(s.At(PendWrite(b.0)), b, W);
    var x := Of(s.At(PendWrite(b.0)), b, W)[0];
    assert x in s.At(PendWrite(b.0)) && Match(x, b, W);
  }

  /** While DL1 is free, a write under way is alone: it holds DL2 and is queued for the bus. */
  lemma WriteAlone(p: Params, s: State, b: (nat, nat)) returns (w: Sub)
    requires Safe(p, s) && BankOk(s, b) && b !in s.dl1 && s.At(Hand(b.0)) == [] && Wrs(s, b) != []
    ensures Wrs(s, b) == [w] && Rds(s, b) == [] && b in s.dl2
    ensures Queue(s, b) != [] && Queue(s, b)[0].ctype == WRITE
  {
    hide Bounded, Credited, Counted, Reporting, Fits, Of, Line, Row, ReadWay, WriteWay, LongWay;
    Ways(b.0);
    w := Wrs(s, b)[0];
    LineHolds(p, s, WriteWay(b.0), b, W);
    LineHolds(p, s, ReadWay(b.0), b, R);
    LineHolds(p, s, LongWay(b.0), b, None);
    assert w in Wrs(s, b);
    forall x | x in Wrs(s, b) ensures x == w && s.loc[x] in LongWay(b.0) && b in s.dl2 && s.dl2[b] == x {
      assert x in s.At(s.loc[x]);
    }
    LineOnce(p, s, WriteWay(b.0), b, W, w);
    NoReads(p, s, b, w);
    assert w in Queue(s, b);
    var z := Queue(s, b)[0];
    assert z in Queue(s, b) && (z.ctype == READ ==> z in Rds(s, b));
  }

  /** While DL1 is free and a write holds DL2, no read of the bank is under way. */
  lemma NoReads(p: Params, s: State, b: (nat, nat), w: Sub)
    requires Safe(p, s) && BankOk(s, b) && b !in s.dl1
    requires w in s.loc && w.Bank() == b && w.ctype == WRITE && Owns(false, s.loc[w], w)
    ensures Rds(s, b) == []
  {
    hide Bounded, Credited, Counted, Reporting, Fits, Of, Line, Row, ReadWay, WriteWay, LongWay;
    Ways(b.0);
    LineHolds(p, s, ReadWay(b.0), b, R);
    forall x | x in s.loc && Match(x, b, R) ensures s.loc[x] !in ReadWay(b.0) {
      assert !Owns(true, s.loc[x], x) && s.dl2[b] == w;
    }
    Empty(Rds(s, b));
  }

  // ---- the order ---------------------------------------------------------------------------

  /** Those taken off the list are those finished, then those under way: the reads before the writes; or
      one write before one read, both latches of the bank busy and the write foremost at the bus. */
  ghost predicate Ordered(s: State, b: (nat, nat), done: seq<Sub>, left: seq<Sub>) {
    || left == done + (Rds(s, b) + Wrs(s, b))
    || (left == done + (Wrs(s, b) + Rds(s, b)) && |Rds(s, b)| == |Wrs(s, b)| == 1 && Barred(s, b))
  }

  predicate Barred(s: State, b: (nat, nat)) {
    b in s.dl1 && b in s.dl2 && Queue(s, b) != [] && Queue(s, b)[0].ctype == WRITE
  }

  ghost predicate InOrder(s: State, b: (nat, nat), done: seq<Sub>, left: seq<Sub>) {
    Ordered(s, b, done, left) && (Programs(s, b) ==> Rds(s, b) == [])
  }

  /** One step, seen from bank `b`. */
  ghost predicate Seen(p: Params, s: State, e: Event, s': State, b: (nat, nat)) {
    && Safe(p, s) && Apply(p, s, e) == Some(s') && BankOk(s, b) && Shaped(s, e, s') && Routed(s, e) && LatchesSet(s, e, s')
  }

  /** Nobody starts programming but the write that leaves the bus. */
  lemma StepPrograms(s: State, e: Event, s': State, b: (nat, nat))
    requires Shaped(s, e, s') && Routed(s, e)
    ensures Programs(s', b) ==> Programs(s, b) || (e.WriteMove? && Worker(s, e).Bank() == b)
    ensures e.WriteDone? && Worker(s, e).Bank() == b ==> Programs(s, b)
  {
    hide Shaped, Of, Front, Worker;
    Segment(s, e, s', PendWrite(b.0), b, W);
  }

  lemma DispatchOrder(p: Params, s: State, e: Event, s': State, b: (nat, nat), done: seq<Sub>, left: seq<Sub>)
    requires Seen(p, s, e, s', b) && InOrder(s, b, done, left) && e.Dispatch? && (e.chan, e.bank) == b
    ensures InOrder(s', b, done, left + [Worker(s, e)])
  {
    hide Safe, Apply, BankOk, Shaped, LatchesSet, InOrder, Rds, Wrs, Queue, Programs, Worker, From, To;
    HandFree(p, s, e);
    StepReads(s, e, s', b);
    StepWrites(s, e, s', b);
    StepQueue(s, e, s', b);
    StepPrograms(s, e, s', b);
    Latching(s, e, s');
    if Worker(s, e).ctype == READ {
      DispatchRead(p, s, e, s', b, done, left);
    } else {
      DispatchWrite(s, e, s', b, done, left);
    }
  }

  lemma DispatchRead(p: Params, s: State, e: Event, s': State, b: (nat, nat), done: seq<Sub>, left: seq<Sub>)
    requires Safe(p, s) && BankOk(s, b) && InOrder(s, b, done, left) && s.At(Hand(b.0)) == []
    requires Worker(s, e).ctype == READ && b !in s.dl1 && b in s'.dl1 && s'.dl2 == s.dl2
    requires Rds(s', b) == Rds(s, b) + [Worker(s, e)] && Wrs(s', b) == Wrs(s, b)
    requires Queue(s, b) <= Queue(s', b) && (Programs(s', b) ==> Programs(s, b))
    ensures InOrder(s', b, done, left + [Worker(s, e)])
  {
    hide Safe, Rds, Wrs, Queue, Programs, BankOk, Worker;
    if Programs(s, b) { ProgramOwns(p, s, b); }
    if Wrs(s, b) != [] {
      var w := WriteAlone(p, s, b);
      assert done + (Rds(s, b) + Wrs(s, b)) + [Worker(s, e)] == done + (Wrs(s', b) + Rds(s', b));
    } else {
      assert done + (Rds(s, b) + Wrs(s, b)) + [Worker(s, e)] == done + (Rds(s', b) + Wrs(s', b));
    }
  }

  lemma DispatchWrite(s: State, e: Event, s': State, b: (nat, nat), done: seq<Sub>, left: seq<Sub>)
    requires InOrder(s, b, done, left) && Worker(s, e).ctype == WRITE && b !in s.dl2
    requires Wrs(s', b) == Wrs(s, b) + [Worker(s, e)] && Rds(s', b) == Rds(s, b)
    requires Programs(s', b) ==> Programs(s, b)
    ensures InOrder(s', b, done, left + [Worker(s, e)])
  {
    hide Rds, Wrs, Queue, Programs, Worker;
    assert done + (Rds(s, b) + Wrs(s, b)) + [Worker(s, e)] == done + (Rds(s, b) + (Wrs(s, b) + [Worker(s, e)]));
  }

  lemma HandFree(p: Params, s: State, e: Event)
    requires Safe(p, s) && Apply(p, s, e).Some? && e.Dispatch?
    ensures s.At(Hand(e.chan)) == []
  {}

  /** The latch the dispatcher takes was free. */
  lemma Latching(s: State, e: Event, s': State)
    requires Routed(s, e) && LatchesSet(s, e, s') && e.Dispatch?
    ensures var b := (e.chan, e.bank);
            if Worker(s, e).ctype == READ then b !in s.dl1 && b in s'.dl1 && s'.dl2 == s.dl2 else b !in s.dl2
  {}

  lemma ReadDoneOrder(s: State, e: Event, s': State, b: (nat, nat), done: seq<Sub>, left: seq<Sub>)
    requires Shaped(s, e, s') && Routed(s, e) && InOrder(s, b, done, left) && e.ReadDone? && Worker(s, e).Bank() == b
    ensures InOrder(s', b, done + [Worker(s, e)], left)
  {
    StepReads(s, e, s', b);
    StepWrites(s, e, s', b);
    StepQueue(s, e, s', b);
    StepPrograms(s, e, s', b);
    hide Shaped, Rds, Wrs, Queue, Programs, Worker;
    var x := Worker(s, e);
    assert done + ([x] + Rds(s', b) + Wrs(s', b)) == done + [x] + (Rds(s', b) + Wrs(s', b));
  }

  lemma WriteDoneOrder(s: State, e: Event, s': State, b: (nat, nat), done: seq<Sub>, left: seq<Sub>)
    requires Shaped(s, e, s') && Routed(s, e) && InOrder(s, b, done, left) && e.WriteDone? && Worker(s, e).Bank() == b
    ensures InOrder(s', b, done + [Worker(s, e)], left)
  {
    StepReads(s, e, s', b);
    StepWrites(s, e, s', b);
    StepPrograms(s, e, s', b);
    hide Shaped, Rds, Wrs, Queue, Programs, Worker;
    var x, none: seq<Sub> := Worker(s, e), [];
    assert done + (none + ([x] + Wrs(s', b))) == done + [x] + (none + Wrs(s', b));
  }

  lemma WriteMoveOrder(p: Params, s: State, e: Event, s': State, b: (nat, nat), done: seq<Sub>, left: seq<Sub>)
    requires Seen(p, s, e, s', b) && InOrder(s, b, done, left) && e.WriteMove? && Worker(s, e).Bank() == b
    ensures InOrder(s', b, done, left)
  {
    WorkerFits(p, s, e, s');
    StepReads(s, e, s', b);
    StepWrites(s, e, s', b);
    NoReads(p, s, b, Worker(s, e));
    hide Safe, Apply, Shaped, Rds, Wrs, Queue, Programs, BankOk;
  }

  /** All other steps leave the order alone. */
  lemma OtherOrder(s: State, e: Event, s': State, b: (nat, nat), done: seq<Sub>, left: seq<Sub>)
    requires Shaped(s, e, s') && Routed(s, e) && LatchesSet(s, e, s') && InOrder(s, b, done, left)
    requires (e.Dispatch? || e.ReadDone? || e.WriteDone? || e.WriteMove?) ==> Worker(s, e).Bank() != b
    ensures InOrder(s', b, done, left)
  {
    StepReads(s, e, s', b);
    StepWrites(s, e, s', b);
    StepQueue(s, e, s', b);
    StepPrograms(s, e, s', b);
    hide Shaped, Rds, Wrs, Queue, Programs;
  }

  lemma Told(s: State, e: Event, b: (nat, nat))
    requires Routed(s, e)
    ensures Leaves(s, e, b) == if e.Dispatch? && (e.chan, e.bank) == b then [Worker(s, e)] else []
    ensures Finishes(s, e, b) == if (e.ReadDone? || e.WriteDone?) && Worker(s, e).Bank() == b then [Worker(s, e)] else []
    ensures e.Dispatch? ==> Worker(s, e).Bank() == (e.chan, e.bank)
  {}

  lemma StepOrder(p: Params, s: State, e: Event, s': State, b: (nat, nat), done: seq<Sub>, left: seq<Sub>)
    requires Safe(p, s) && Apply(p, s, e) == Some(s') && BankOk(s, b) && InOrder(s, b, done, left)
    ensures InOrder(s', b, done + Finishes(s, e, b), left + Leaves(s, e, b))
  {
    hide Safe, Apply, BankOk, Shaped, LatchesSet, Routed, InOrder, Finishes, Leaves, Worker;
    Route(p, s, e, s');
    Told(s, e, b);
    assert done + [] == done && left + [] == left;
    if e.Dispatch? && (e.chan, e.bank) == b {
      DispatchOrder(p, s, e, s', b, done, left);
    } else if e.ReadDone? && Worker(s, e).Bank() == b {
      ReadDoneOrder(s, e, s', b, done, left);
    } else if e.WriteDone? && Worker(s, e).Bank() == b {
      WriteDoneOrder(s, e, s', b, done, left);
    } else if e.WriteMove? && Worker(s, e).Bank() == b {
      WriteMoveOrder(p, s, e, s', b, done, left);
    } else {
      OtherOrder(s, e, s', b, done, left);
    }
  }

  // ---- runs --------------------------------------------------------------------------------

  lemma LastStep(p: Params, es: seq<Event>)
    requires es != [] && Run(p, Init(p), es).Some?
    ensures Run(p, Init(p), es[..|es| - 1]).Some? && Apply(p, Before(p, es), es[|es| - 1]) == Some(Now(p, es))
  {}

  lemma {:induction false} RunInOrder(p: Params, es: seq<Event>, b: (nat, nat))
    requires Run(p, Init(p), es).Some?
    ensures InOrder(Now(p, es), b, Completed(p, es, b), Left(p, es, b))
  {
    hide Apply, Safe, BankOk, InOrder, Run, Finishes, Leaves;
    if es == [] {
      NothingUnderWay(p, b);
    } else {
      var before := es[..|es| - 1];
      LastStep(p, es);
      RunInOrder(p, before, b);
      RunSafe(p, before);
      RunBanks(p, before, b);
      StepOrder(p, Before(p, es), es[|es| - 1], Now(p, es), b, Completed(p, before, b), Left(p, before, b));
    }
  }

  lemma NothingUnderWay(p: Params, b: (nat, nat))
    ensures Run(p, Init(p), []).Some? && InOrder(Now(p, []), b, [], [])
  {
    Nowhere(Now(p, []), ReadWay(b.0), b, R);
    Nowhere(Now(p, []), WriteWay(b.0), b, W);
  }

  lemma {:induction false} Nowhere(s: State, places: seq<Place>, b: (nat, nat), t: Option<CmdType>)
    requires forall at :: s.At(at) == []
    ensures Line(s, places, b, t) == []
  {
    if places != [] { Nowhere(s, places[..|places| - 1], b, t); }
  }

  /** The list of a bank is a queue: what was taken off it, and then what it still holds, is what was
      accepted for the bank, in that order. */
  lemma {:induction false} ListOrder(p: Params, es: seq<Event>, b: (nat, nat))
    requires Run(p, Init(p), es).Some?
    ensures Left(p, es, b) + Now(p, es).At(Listed(b.0, b.1)) == Accepted(p, es, b)
  {
    hide Apply, Safe, Run, Leaves, Accepts;
    if es == [] {
      NothingUnderWay(p, b);
      EmptyList(p, b);
    } else {
      LastStep(p, es);
      var before, s, s', e, at := es[..|es| - 1], Before(p, es), Now(p, es), es[|es| - 1], Listed(b.0, b.1);
      ListOrder(p, before, b);
      RunSafe(p, before);
      StepList(p, s, e, s', b);
      calc {
        Left(p, es, b) + s'.At(at);
        Left(p, before, b) + (Leaves(s, e, b) + s'.At(at));
        Left(p, before, b) + s.At(at) + Accepts(e, b);
        Accepted(p, es, b);
      }
    }
  }

  lemma EmptyList(p: Params, b: (nat, nat))
    ensures Run(p, Init(p), []).Some? && Now(p, []).At(Listed(b.0, b.1)) == []
  {}

  lemma StepList(p: Params, s: State, e: Event, s': State, b: (nat, nat))
    requires Safe(p, s) && Apply(p, s, e) == Some(s')
    ensures Leaves(s, e, b) + s'.At(Listed(b.0, b.1)) == s.At(Listed(b.0, b.1)) + Accepts(e, b)
  {
    SafeSized(p, s);
    hide Apply, Safe, LinkAll, LocateAll, Bound, SubsOf;
    StepShape(p, s, e);
    if e.Accept? {
      LinkAppends(s.q, SubsOf(e.slot, e.ctype, e.homes), Listed(b.0, b.1));
    } else {
      ListShrinks(s, e, s', Listed(b.0, b.1));
    }
  }

  lemma ListShrinks(s: State, e: Event, s': State, at: Place)
    requires Shaped(s, e, s') && !e.Accept? && at.Listed?
    ensures if e.Dispatch? && Listed(e.chan, e.bank) == at then s.At(at) == [Front(s, at)] + s'.At(at) else s'.At(at) == s.At(at)
  {
    match ShapeOf(s, e) {
      case Moved(from, to) => if from == at { assert [s.At(at)[0]] + s.At(at)[1..] == s.At(at); }
      case _ =>
    }
  }

  /** Over every run, also one that spoils the bank: the sub-commands of a bank that are finished, reads
      and writes alike, are the first of those accepted for it, in the order they were accepted. */
  lemma BankOrder(p: Params, es: seq<Event>, b: (nat, nat))
    requires Run(p, Init(p), es).Some?
    ensures Completed(p, es, b) <= Left(p, es, b) <= Accepted(p, es, b)
  {
    hide Rds, Wrs, Barred, Completed, Left, Accepted, Run, Init;
    RunInOrder(p, es, b);
    ListOrder(p, es, b);
    var done, left, all := Completed(p, es, b), Left(p, es, b), Accepted(p, es, b);
    assert done == left[..|done|] && left == all[..|left|];
  }

  // ---- the order of completions ------------------------------------------------------------

  /** The slot of a read whose last sub-command a step finishes; and the slot a delayed completion is
      queued for. */
  function Ends(s: State, e: Event, s': State): seq<nat> {
    if e.ReadDone? then
      var t := Front(s, BusLong(e.chan)).slot;
      if t < |s'.phase| && s'.phase[t] == Finished then [t] else []
    else []
  }

  function Delayed(e: Event, s': State): seq<nat> {
    if e.Complete? && s'.log != [] then [s'.log[|s'.log| - 1].slot] else []
  }

  function AllEnds(p: Params, es: seq<Event>): seq<nat>
    requires Run(p, Init(p), es).Some?
  {
    if es == [] then [] else AllEnds(p, es[..|es| - 1]) + Ends(Before(p, es), es[|es| - 1], Now(p, es))
  }

  function AllDelayed(p: Params, es: seq<Event>): seq<nat>
    requires Run(p, Init(p), es).Some?
  {
    if es == [] then [] else AllDelayed(p, es[..|es| - 1]) + Delayed(es[|es| - 1], Now(p, es))
  }

  lemma StepDelays(p: Params, s: State, e: Event, s': State)
    requires Safe(p, s) && Apply(p, s, e) == Some(s')
    ensures Delayed(e, s') + s'.slotNumQ == s.slotNumQ + Ends(s, e, s')
  {
    SafeSized(p, s);
    hide Safe, Apply, Shaped, LatchesSet, From, To;
    Route(p, s, e, s');
    StepBooks(p, s, e);
    if e.ReadDone? || e.WriteDone? { WorkerRuns(p, s, e, s'); }
    if e.Complete? { assert [s.slotNumQ[0]] + s.slotNumQ[1..] == s.slotNumQ; }
  }

  lemma WorkerRuns(p: Params, s: State, e: Event, s': State)
    requires Safe(p, s) && Apply(p, s, e) == Some(s') && (e.ReadDone? || e.WriteDone?)
    ensures Worker(s, e).slot < |s.phase| && s.phase[Worker(s, e).slot] == Running
  {
    WorkerFits(p, s, e, s');
    assert Belongs(s, Worker(s, e));
  }

  /** The delayed completions of reads are queued in the order in which the reads were finished. */
  lemma {:induction false} ReadsInOrder(p: Params, es: seq<Event>)
    requires Run(p, Init(p), es).Some?
    ensures AllDelayed(p, es) + Now(p, es).slotNumQ == AllEnds(p, es)
  {
    hide Apply, Safe, Run, Ends, Delayed;
    if es == [] {
      NothingDelayed(p);
    } else {
      var before, s, s', e := es[..|es| - 1], Before(p, es), Now(p, es), es[|es| - 1];
      LastStep(p, es);
      ReadsInOrder(p, before);
      RunSafe(p, before);
      StepDelays(p, s, e, s');
      calc {
        AllDelayed(p, es) + s'.slotNumQ;
        AllDelayed(p, before) + (Delayed(e, s') + s'.slotNumQ);
        AllDelayed(p, before) + s.slotNumQ + Ends(s, e, s');
        AllEnds(p, es);
      }
    }
  }

  lemma NothingDelayed(p: Params)
    ensures Run(p, Init(p), []).Some? && Now(p, []).slotNumQ == []
  {}
}
