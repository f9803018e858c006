/** The data path of one channel of the memory chip: emulation cache, data latch 2, data latch 1 and
    the memory file. A code word is `n` pages in consecutive banks, wrapping around to bank 0 of the
    next page number; each latch holds one page per die and bank. */
module MemoryChip {
  import opened FileManager
  import opened Words
  import opened Rows

  datatype Status = FREE | BUSY

  type Page = seq<nat>

  /** `n` is mCodeWordBankNum, the pages of a code word. */
  datatype Chip = Chip(s: Shape, n: nat, chan: nat)
  {
    predicate Valid() { s.Valid() && s.Addressable() && 1 <= n <= s.bankNum && chan < s.chanNum }

    function Latches(): nat { s.numDie * s.bankNum }

    /** bankIndex + numDie * mBankNum. */
    function LatchNo(die: nat, bank: nat): nat { bank + die * s.bankNum }
  }

  /** Where a code word starts. */
  datatype Start = Start(die: nat, bank: nat, page: nat)
  {
    predicate In(c: Chip) { die < c.s.numDie && bank < c.s.bankNum && page < c.s.pageNum }

    /** The bank and page number of piece `k <= n`, with the wrap-around of the loops. */
    function Bank(c: Chip, k: nat): nat
      requires bank + k < 2 * c.s.bankNum
    {
      if bank + k < c.s.bankNum then bank + k else bank + k - c.s.bankNum
    }

    function PageNo(c: Chip, k: nat): nat {
      if bank + k < c.s.bankNum then page else if page + 1 >= c.s.pageNum then 0 else page + 1
    }

    function Latch(c: Chip, k: nat): (r: nat)
      requires c.Valid() && In(c) && k < c.n
      ensures r < c.Latches()
    {
      InRow(die, c.s.numDie, c.s.bankNum, Bank(c, k));
      c.LatchNo(die, Bank(c, k))
    }

    function Where(c: Chip, k: nat): (r: Location)
      requires c.Valid() && In(c) && k < c.n
      ensures r.In(c.s)
    {
      Location(c.chan, PageNo(c, k), die, Bank(c, k))
    }

    /** The latches and the pages of the first `k` pieces. */
    function Touched(c: Chip, k: nat): set<nat>
      requires c.Valid() && In(c) && k <= c.n
    {
      if k == 0 then {} else Touched(c, k - 1) + {Latch(c, k - 1)}
    }

    function Rewritten(c: Chip, k: nat): set<Location>
      requires c.Valid() && In(c) && k <= c.n
    {
      if k == 0 then {} else Rewritten(c, k - 1) + {Where(c, k - 1)}
    }
  }

  lemma InRow(x: nat, a: nat, b: nat, lo: nat)
    requires x < a && lo < b
    ensures lo + x * b < a * b
  {
    assert (x + 1) * b <= a * b;
    assert (x + 1) * b == x * b + b;
  }

  /** Different dies and banks have different latches. */
  lemma LatchesApart(c: Chip, die: nat, bank: nat, die': nat, bank': nat)
    requires bank < c.s.bankNum && bank' < c.s.bankNum
    ensures c.LatchNo(die, bank) == c.LatchNo(die', bank') <==> die == die' && bank == bank'
  {
    if c.LatchNo(die, bank) == c.LatchNo(die', bank') { SplitDigit(die, die', c.s.bankNum, bank, bank'); }
  }

  /** Where a page lies among those of its channel and die. */
  function Position(s: Shape, p: Location): nat { p.page * s.bankNum + p.bank }

  /** The position `k` behind that of the first piece; behind the last comes the first. */
  function Nth(c: Chip, at: Start, k: nat): nat
    requires c.Valid()
  {
    (at.page * c.s.bankNum + at.bank + k) % (c.s.pageNum * c.s.bankNum)
  }

  /** Piece `k` of a code word lies on its own channel and die, at the `k`th position from its start. */
  lemma PiecePlace(c: Chip, at: Start, k: nat)
    requires c.Valid() && at.In(c) && k < c.n
    ensures var p := at.Where(c, k);
            && p.chan == c.chan && p.die == at.die && Position(c.s, p) == Nth(c, at, k)
            && at.Latch(c, k) == c.LatchNo(at.die, p.bank)
  {
    var B, P := c.s.bankNum, c.s.pageNum;
    RowSplit(at.page, P, B);
    if at.bank + k < B {
      SmallMod(at.page * B + at.bank + k, P * B);
    } else if at.page + 1 < P {
      RowSplit(at.page + 1, P, B);
      SmallMod((at.page + 1) * B + (at.bank + k - B), P * B);
    } else {
      RowSplit(0, P, B);
      WrapMod(at.bank + k - B, P * B);
    }
  }

  lemma RowSplit(x: nat, p: nat, b: nat)
    requires x < p
    ensures (x + 1) * b == x * b + b <= p * b
  {
    MulMonotone(x + 1, p, b);
    Distribute(x, 1, b);
  }

  lemma SmallMod(x: nat, m: nat)
    requires x < m
    ensures x % m == x
  {}

  lemma WrapMod(x: nat, m: nat)
    requires x < m
    ensures (m + x) % m == x
  {}

  /** A place is fixed by channel, die and position. */
  lemma PlacesApart(s: Shape, p: Location, q: Location)
    requires p.In(s) && q.In(s)
    ensures p == q <==> p.chan == q.chan && p.die == q.die && Position(s, p) == Position(s, q)
  {
    if Position(s, p) == Position(s, q) { SplitDigit(p.page, q.page, s.bankNum, p.bank, q.bank); }
  }

  datatype Device = Device(
    cache: seq<Page>, dl1: seq<Page>, dl2: seq<Page>, st1: seq<Status>, st2: seq<Status>,
    file: imap<Location, Page>,
    waiting: seq<nat>, held: seq<nat>)   // latches to move up from DL1 to DL2; the one whose turn waits for DL2
  {
    ghost predicate Valid(c: Chip) {
      && |cache| == c.n && |dl1| == |dl2| == |st1| == |st2| == c.Latches()
      && (forall p: Location :: p in file <==> p.In(c.s))
      && (forall k :: 0 <= k < |cache| ==> |cache[k]| == c.s.pageSize)
      && (forall i :: 0 <= i < |dl1| ==> |dl1[i]| == c.s.pageSize)
      && (forall i :: 0 <= i < |dl2| ==> |dl2[i]| == c.s.pageSize)
      && (forall p: Location :: p.In(c.s) ==> |file[p]| == c.s.pageSize)
      && (forall k :: 0 <= k < |waiting| ==> waiting[k] < c.Latches())
      && |held| <= 1 && (held != [] ==> held[0] < c.Latches())
    }
  }

  // ---- one turn of each loop ---------------------------------------------------------------

  ghost predicate Ready(c: Chip, d: Device, at: Start, k: nat) { c.Valid() && d.Valid(c) && at.In(c) && k < c.n }

  /** What a write of piece k stores: the cache's page, or what a busy DL2 still holds. */
  ghost function Content(c: Chip, d: Device, at: Start, k: nat): Page
    requires Ready(c, d, at, k)
  {
    if d.st2[at.Latch(c, k)] == FREE then d.cache[k] else d.dl2[at.Latch(c, k)]
  }

  /** copyDataFromEmulationCache, copyDataFromPhyDataLatch2, copyDataFromPhyDataLatch1: the page passes
      both latches and leaves them free. */
  ghost function Passed(d: Device, i: nat, page: Page): Device
    requires i < |d.dl1| && i < |d.dl2| && i < |d.st1| && i < |d.st2|
  {
    d.(dl1 := d.dl1[i := page], dl2 := d.dl2[i := page], st1 := d.st1[i := FREE], st2 := d.st2[i := FREE])
  }

  /** The copies and the file. */
  ghost function WriteOne(c: Chip, d: Device, at: Start, k: nat): (r: Device)
    requires Ready(c, d, at, k)
    ensures r.Valid(c)
  {
    var page := Content(c, d, at, k);
    Passed(d, at.Latch(c, k), page).(file := d.file[at.Where(c, k) := page])
  }

  /** The file and copyDataToDataLatch1. */
  ghost function ReadOne(c: Chip, d: Device, at: Start, k: nat): (r: Device)
    requires Ready(c, d, at, k)
    ensures r.Valid(c)
  {
    var i := at.Latch(c, k);
    var d' := d.(waiting := d.waiting + [i]);
    if d.st1[i] == FREE then d'.(dl1 := d.dl1[i := d.file[at.Where(c, k)]], st1 := d.st1[i := BUSY]) else d'
  }

  /** The test of phyDl2WriteThread: the page moves up if DL2 is free and DL1 holds one. */
  ghost function Raise(c: Chip, d: Device, i: nat): (r: Device)
    requires d.Valid(c) && i < c.Latches()
    ensures r.Valid(c)
  {
    if d.st2[i] == FREE && d.st1[i] == BUSY then
      d.(dl2 := d.dl2[i := d.dl1[i]], st2 := d.st2[i := BUSY], st1 := d.st1[i := FREE])
    else d
  }

  /** phyDl2WriteThread with DL2 of the bank at the front free. */
  ghost function MoveUp(c: Chip, d: Device): (r: Device)
    requires d.Valid(c) && d.waiting != []
    ensures r.Valid(c) && r.waiting == d.waiting[1..] && r.held == d.held
  {
    Raise(c, d.(waiting := d.waiting[1..]), d.waiting[0])
  }

  /** With DL2 busy the bank has left the queue and waits for a free event. */
  ghost function Held(c: Chip, d: Device): (r: Device)
    requires d.Valid(c) && d.waiting != []
    ensures r.Valid(c)
  {
    d.(waiting := d.waiting[1..], held := [d.waiting[0]])
  }

  /** The event is shared by the channel's banks; after it the test is made once. */
  ghost function Woken(c: Chip, d: Device): (r: Device)
    requires d.Valid(c) && d.held != []
    ensures r.Valid(c)
  {
    Raise(c, d.(held := []), d.held[0])
  }

  /** A page waiting in DL1 moves up on the wake exactly when its own DL2 has become free. Otherwise it
      stays in DL1 and its turn is over. */
  lemma WokenRaises(c: Chip, d: Device)
    requires d.Valid(c) && d.held != [] && d.st1[d.held[0]] == BUSY
    ensures var i, r := d.held[0], Woken(c, d);
            && r.held == [] && r.waiting == d.waiting
            && (r.st1[i] == FREE && r.dl2[i] == d.dl1[i] <==> d.st2[i] == FREE)
            && (d.st2[i] == BUSY ==> r == d.(held := []))
  {}

  /** A bank whose turn meets a busy DL2 is not lost: it is kept aside, the rest keep their order, and
      pages, latches and file stay. */
  lemma HeldKeeps(c: Chip, d: Device)
    requires d.Valid(c) && d.waiting != []
    ensures var r := Held(c, d);
            r.held + r.waiting == d.waiting && r == d.(held := r.held, waiting := r.waiting) && |r.held| == 1
  {}

  /** copyDataToEmulationCache. */
  ghost function GatherOne(c: Chip, d: Device, at: Start, k: nat): (r: Device)
    requires Ready(c, d, at, k)
    ensures r.Valid(c)
  {
    var i := at.Latch(c, k);
    if d.st2[i] == BUSY then d.(cache := d.cache[k := d.dl2[i]], st2 := d.st2[i := FREE]) else d
  }

  // ---- whole loops -------------------------------------------------------------------------

  ghost predicate Begun(c: Chip, d: Device, at: Start, k: nat) { c.Valid() && d.Valid(c) && at.In(c) && k <= c.n }

  ghost function WriteAll(c: Chip, d: Device, at: Start, k: nat): (r: Device)
    requires Begun(c, d, at, k)
    ensures r.Valid(c)
  {
    if k == 0 then d else WriteOne(c, WriteAll(c, d, at, k - 1), at, k - 1)
  }

  ghost function ReadAll(c: Chip, d: Device, at: Start, k: nat): (r: Device)
    requires Begun(c, d, at, k)
    ensures r.Valid(c) && |r.waiting| == |d.waiting| + k
  {
    if k == 0 then d else ReadOne(c, ReadAll(c, d, at, k - 1), at, k - 1)
  }

  ghost function MoveAll(c: Chip, d: Device, k: nat): (r: Device)
    requires d.Valid(c) && k <= |d.waiting|
    ensures r.Valid(c) && r.waiting == d.waiting[k..]
  {
    if k == 0 then d else MoveUp(c, MoveAll(c, d, k - 1))
  }

  ghost function GatherAll(c: Chip, d: Device, at: Start, k: nat): (r: Device)
    requires Begun(c, d, at, k)
    ensures r.Valid(c)
  {
    if k == 0 then d else GatherOne(c, GatherAll(c, d, at, k - 1), at, k - 1)
  }

  // ---- what each loop achieves -------------------------------------------------------------

  /** No code word meets a latch or a page twice. */
  lemma {:induction false} Distinct(c: Chip, at: Start, j: nat, k: nat)
    requires c.Valid() && at.In(c) && j <= k < c.n
    ensures at.Latch(c, k) !in at.Touched(c, j) && at.Where(c, k) !in at.Rewritten(c, j)
  {
    if j > 0 { Distinct(c, at, j - 1, k); }
  }

  lemma {:induction false} Has(c: Chip, at: Start, j: nat, k: nat)
    requires c.Valid() && at.In(c) && j < k <= c.n
    ensures at.Latch(c, j) in at.Touched(c, k) && at.Where(c, j) in at.Rewritten(c, k)
    decreases k
  {
    if j < k - 1 { Has(c, at, j, k - 1); }
  }

  /** Latch `i` is as it was. */
  predicate SameAt(d: Device, d': Device, i: nat) {
    i < |d.dl1| && i < |d'.dl1| && i < |d.dl2| && i < |d'.dl2| && i < |d.st1| && i < |d'.st1| && i < |d.st2| && i < |d'.st2| &&
    d'.dl1[i] == d.dl1[i] && d'.dl2[i] == d.dl2[i] && d'.st1[i] == d.st1[i] && d'.st2[i] == d.st2[i]
  }

  ghost predicate Untouched(c: Chip, d: Device, d': Device, at: Start, k: nat)
    requires c.Valid() && at.In(c) && k <= c.n
  {
    forall i: nat :: i < c.Latches() && i !in at.Touched(c, k) ==> SameAt(d, d', i)
  }

  ghost predicate Stored(c: Chip, d: Device, d': Device, at: Start, j: nat)
    requires Ready(c, d, at, j) && d'.Valid(c)
  {
    var i, page := at.Latch(c, j), Content(c, d, at, j);
    && d'.st1[i] == FREE && d'.st2[i] == FREE && d'.dl1[i] == page && d'.dl2[i] == page
    && d'.file[at.Where(c, j)] == page
  }

  ghost predicate Written(c: Chip, d: Device, d': Device, at: Start, k: nat)
    requires Begun(c, d, at, k) && d'.Valid(c)
  {
    && d'.cache == d.cache && d'.waiting == d.waiting && d'.held == d.held && Untouched(c, d, d', at, k)
    && (forall j :: 0 <= j < k ==> Stored(c, d, d', at, j))
    && (forall p: Location :: p.In(c.s) && p !in at.Rewritten(c, k) ==> d'.file[p] == d.file[p])
  }

  /** Writing the first k pieces stores them and leaves all else alone. */
  lemma {:induction false} WriteAllWrites(c: Chip, d: Device, at: Start, k: nat)
    requires Begun(c, d, at, k)
    ensures Written(c, d, WriteAll(c, d, at, k), at, k)
  {
    hide Written, WriteOne, Device.Valid, Chip.Valid;
    if k == 0 {
      NothingWritten(c, d, at);
    } else {
      WriteAllWrites(c, d, at, k - 1);
      WriteOneMore(c, d, WriteAll(c, d, at, k - 1), at, k - 1);
    }
  }

  lemma NothingWritten(c: Chip, d: Device, at: Start)
    requires Begun(c, d, at, 0)
    ensures Written(c, d, d, at, 0)
  {}

  lemma WriteOneMore(c: Chip, d: Device, d1: Device, at: Start, k: nat)
    requires Ready(c, d, at, k) && d1.Valid(c) && Written(c, d, d1, at, k)
    ensures Written(c, d, WriteOne(c, d1, at, k), at, k + 1)
  {
    var d2 := WriteOne(c, d1, at, k);
    Distinct(c, at, k, k);
    assert SameAt(d, d1, at.Latch(c, k));
    forall j | 0 <= j < k + 1 ensures Stored(c, d, d2, at, j) {
      if j < k {
        assert Stored(c, d, d1, at, j);
        Has(c, at, j, k);
      }
    }
    forall i: nat | i < c.Latches() && i !in at.Touched(c, k + 1) ensures SameAt(d, d2, i) { assert SameAt(d, d1, i); }
  }

  /** After reading the first k pieces they wait for DL2, and DL1 holds them where it was free. */
  ghost predicate Fetched(c: Chip, d: Device, d': Device, at: Start, k: nat)
    requires Begun(c, d, at, k) && d'.Valid(c)
  {
    && d'.cache == d.cache && d'.file == d.file && d'.held == d.held && Untouched(c, d, d', at, k)
    && |d'.waiting| == |d.waiting| + k && d.waiting <= d'.waiting
    && (forall j :: 0 <= j < k ==> FetchedPiece(c, d, d', at, j))
  }

  ghost predicate FetchedPiece(c: Chip, d: Device, d': Device, at: Start, j: nat)
    requires Ready(c, d, at, j) && d'.Valid(c)
  {
    var i := at.Latch(c, j);
    && |d.waiting| + j < |d'.waiting| && d'.waiting[|d.waiting| + j] == i && d'.st1[i] == BUSY
    && d'.dl1[i] == (if d.st1[i] == FREE then d.file[at.Where(c, j)] else d.dl1[i])
    && d'.st2[i] == d.st2[i] && d'.dl2[i] == d.dl2[i]
  }

  ghost predicate AllFree(c: Chip, d: Device, at: Start)
    requires c.Valid() && d.Valid(c) && at.In(c)
  {
    forall j :: 0 <= j < c.n ==> d.st1[at.Latch(c, j)] == FREE && d.st2[at.Latch(c, j)] == FREE
  }

  lemma {:induction false} ReadAllFetches(c: Chip, d: Device, at: Start, k: nat)
    requires Begun(c, d, at, k)
    ensures Fetched(c, d, ReadAll(c, d, at, k), at, k)
  {
    if k > 0 {
      ReadAllFetches(c, d, at, k - 1);
      ReadOneMore(c, d, ReadAll(c, d, at, k - 1), at, k - 1);
    }
  }

  lemma ReadOneMore(c: Chip, d: Device, d1: Device, at: Start, k: nat)
    requires Ready(c, d, at, k) && d1.Valid(c) && Fetched(c, d, d1, at, k)
    ensures Fetched(c, d, ReadOne(c, d1, at, k), at, k + 1)
  {
    var d2 := ReadOne(c, d1, at, k);
    Distinct(c, at, k, k);
    assert SameAt(d, d1, at.Latch(c, k));
    forall j | 0 <= j < k + 1 ensures FetchedPiece(c, d, d2, at, j) {
      if j < k {
        assert FetchedPiece(c, d, d1, at, j);
        Has(c, at, j, k);
      }
    }
    forall i: nat | i < c.Latches() && i !in at.Touched(c, k + 1) ensures SameAt(d, d2, i) { assert SameAt(d, d1, i); }
  }

  /** After k moves the first k pieces have passed from a busy DL1 to a free DL2; any other stays. */
  ghost predicate Raised(c: Chip, d: Device, d': Device, at: Start, k: nat)
    requires Begun(c, d, at, k) && d'.Valid(c)
  {
    && d'.cache == d.cache && d'.file == d.file && d'.held == d.held && Untouched(c, d, d', at, k)
    && (forall j :: 0 <= j < k ==> RaisedPiece(c, d, d', at, j))
  }

  ghost predicate RaisedPiece(c: Chip, d: Device, d': Device, at: Start, j: nat)
    requires Ready(c, d, at, j) && d'.Valid(c)
  {
    var i := at.Latch(c, j);
    if d.st1[i] == BUSY && d.st2[i] == FREE then
      d'.st1[i] == FREE && d'.st2[i] == BUSY && d'.dl2[i] == d.dl1[i] && d'.dl1[i] == d.dl1[i]
    else SameAt(d, d', i)
  }

  /** The banks of the code word, and no other, wait for their turn. */
  ghost predicate Queued(c: Chip, d: Device, at: Start)
    requires c.Valid() && d.Valid(c) && at.In(c)
  {
    |d.waiting| == c.n && forall j :: 0 <= j < c.n ==> d.waiting[j] == at.Latch(c, j)
  }

  /** The code word waits in DL1, its DL2 free. */
  ghost predicate Loaded(c: Chip, d: Device, at: Start)
    requires c.Valid() && d.Valid(c) && at.In(c)
  {
    Queued(c, d, at) && forall j :: 0 <= j < c.n ==> d.st1[at.Latch(c, j)] == BUSY && d.st2[at.Latch(c, j)] == FREE
  }

  lemma {:induction false} MoveAllRaises(c: Chip, d: Device, at: Start, k: nat)
    requires Begun(c, d, at, k) && Queued(c, d, at)
    ensures Raised(c, d, MoveAll(c, d, k), at, k)
  {
    if k > 0 {
      MoveAllRaises(c, d, at, k - 1);
      MoveOneMore(c, d, MoveAll(c, d, k - 1), at, k - 1);
    }
  }

  lemma MoveOneMore(c: Chip, d: Device, d1: Device, at: Start, k: nat)
    requires Ready(c, d, at, k) && Queued(c, d, at) && d1.Valid(c) && Raised(c, d, d1, at, k) && d1.waiting == d.waiting[k..]
    ensures Raised(c, d, MoveUp(c, d1), at, k + 1)
  {
    var d2 := MoveUp(c, d1);
    Distinct(c, at, k, k);
    assert d1.waiting[0] == at.Latch(c, k);
    assert SameAt(d, d1, at.Latch(c, k));
    forall j | 0 <= j < k + 1 ensures RaisedPiece(c, d, d2, at, j) {
      if j < k {
        assert RaisedPiece(c, d, d1, at, j);
        Has(c, at, j, k);
      }
    }
    forall i: nat | i < c.Latches() && i !in at.Touched(c, k + 1) ensures SameAt(d, d2, i) { assert SameAt(d, d1, i); }
  }

  /** After gathering the first k pieces the cache holds those that were in DL2, and their DL2 is free. */
  ghost predicate Gathered(c: Chip, d: Device, d': Device, at: Start, k: nat)
    requires Begun(c, d, at, k) && d'.Valid(c)
  {
    && d'.file == d.file && d'.waiting == d.waiting && d'.held == d.held && Untouched(c, d, d', at, k)
    && d'.st1 == d.st1 && d'.dl1 == d.dl1 && d'.dl2 == d.dl2
    && (forall j :: k <= j < c.n ==> d'.cache[j] == d.cache[j])
    && (forall j :: 0 <= j < k ==> GatheredPiece(c, d, d', at, j))
  }

  ghost predicate GatheredPiece(c: Chip, d: Device, d': Device, at: Start, j: nat)
    requires Ready(c, d, at, j) && d'.Valid(c)
  {
    var i := at.Latch(c, j);
    d'.st2[i] == FREE && d'.cache[j] == if d.st2[i] == BUSY then d.dl2[i] else d.cache[j]
  }

  ghost predicate Filled(c: Chip, d: Device, at: Start)
    requires c.Valid() && d.Valid(c) && at.In(c)
  {
    forall j :: 0 <= j < c.n ==> d.st2[at.Latch(c, j)] == BUSY
  }

  lemma {:induction false} GatherAllGathers(c: Chip, d: Device, at: Start, k: nat)
    requires Begun(c, d, at, k)
    ensures Gathered(c, d, GatherAll(c, d, at, k), at, k)
  {
    if k > 0 {
      GatherAllGathers(c, d, at, k - 1);
      GatherOneMore(c, d, GatherAll(c, d, at, k - 1), at, k - 1);
    }
  }

  lemma GatherOneMore(c: Chip, d: Device, d1: Device, at: Start, k: nat)
    requires Ready(c, d, at, k) && d1.Valid(c) && Gathered(c, d, d1, at, k)
    ensures Gathered(c, d, GatherOne(c, d1, at, k), at, k + 1)
  {
    var d2 := GatherOne(c, d1, at, k);
    Distinct(c, at, k, k);
    assert SameAt(d, d1, at.Latch(c, k));
    forall j | 0 <= j < k + 1 ensures GatheredPiece(c, d, d2, at, j) {
      if j < k {
        assert GatheredPiece(c, d, d1, at, j);
        Has(c, at, j, k);
      }
    }
    forall i: nat | i < c.Latches() && i !in at.Touched(c, k + 1) ensures SameAt(d, d2, i) { assert SameAt(d, d1, i); }
  }

  // ---- two pages of one bank ---------------------------------------------------------------

  /** Whatever happens to cache, file, queue and other latches in the meantime: a page in DL1 that met a
      busy DL2 is in DL2, and DL1 free, once that DL2 has been freed and the wait is over. */
  lemma HeldThenWoken(c: Chip, d: Device, freed: Device)
    requires d.Valid(c) && d.waiting != [] && freed.Valid(c)
    requires var i := d.waiting[0];
             && d.st1[i] == BUSY && d.st2[i] == BUSY && freed.held == Held(c, d).held
             && freed.dl1[i] == d.dl1[i] && freed.st1[i] == BUSY && freed.st2[i] == FREE
    ensures var i, r := d.waiting[0], Woken(c, freed);
            && r.dl2[i] == d.dl1[i] && r.st2[i] == BUSY && r.st1[i] == FREE && r.held == []
            && r.waiting == freed.waiting && r.cache == freed.cache && r.file == freed.file
            && forall j: nat :: j < c.Latches() && j != i ==> SameAt(freed, r, j)
  {}

  /** Two pages of one bank, the second read while the first is still in DL2: the turn of the bank waits,
      the gather delivers the first page, the wait ends, and the next gather delivers the second. */
  lemma BothPagesArrive(c: Chip, d: Device, at: Start, k: nat)
    requires Begun(c, d, at, c.n) && k < c.n && d.waiting != [] && d.waiting[0] == at.Latch(c, k)
    requires d.st1[at.Latch(c, k)] == BUSY && d.st2[at.Latch(c, k)] == BUSY
    ensures var i := at.Latch(c, k);
            var first := GatherAll(c, Held(c, d), at, c.n);
            && first.held == [i] && first.cache[k] == d.dl2[i]
            && var second := GatherAll(c, Woken(c, first), at, c.n);
               && second.cache[k] == d.dl1[i] && second.st1[i] == FREE && second.st2[i] == FREE
               && second.held == [] && second.waiting == d.waiting[1..] && second.file == d.file
  {
    hide Chip.Valid, Untouched, Start.Latch, Start.Where, GatherAll;
    var held := Held(c, d);
    var first := GatherAll(c, held, at, c.n);
    GatherAllGathers(c, held, at, c.n);
    assert GatheredPiece(c, held, first, at, k);
    var woken := Woken(c, first);
    HeldThenWoken(c, d, first);
    GatherAllGathers(c, woken, at, c.n);
    assert GatheredPiece(c, woken, GatherAll(c, woken, at, c.n), at, k);
  }

  // ---- which pages and latches that is -----------------------------------------------------

  /** The page that piece `k` of a code word must be: on its channel and die, `k` positions from the start. */
  predicate IsPiece(c: Chip, at: Start, k: nat, p: Location)
    requires c.Valid()
  {
    p.In(c.s) && p.chan == c.chan && p.die == at.die && Position(c.s, p) == Nth(c, at, k)
  }

  lemma PieceIs(c: Chip, at: Start, k: nat, p: Location)
    requires c.Valid() && at.In(c) && k < c.n && p.In(c.s)
    ensures IsPiece(c, at, k, p) <==> p == at.Where(c, k)
    ensures IsPiece(c, at, k, p) ==> c.LatchNo(at.die, p.bank) == at.Latch(c, k)
  {
    PiecePlace(c, at, k);
    PlacesApart(c.s, p, at.Where(c, k));
  }

  /** A write stores piece `k` there: the cache's page, or what DL2 of that die and bank still held. */
  lemma WritesPiece(c: Chip, d: Device, at: Start, k: nat, p: Location)
    requires Begun(c, d, at, c.n) && k < c.n && IsPiece(c, at, k, p)
    ensures var i, r := c.LatchNo(at.die, p.bank), WriteAll(c, d, at, c.n);
            && i < c.Latches() && r.file[p] == (if d.st2[i] == FREE then d.cache[k] else d.dl2[i])
            && r.st1[i] == FREE && r.st2[i] == FREE
  {
    hide Position, Nth, Chip.LatchNo;
    PieceIs(c, at, k, p);
    WriteAllWrites(c, d, at, c.n);
    assert Stored(c, d, WriteAll(c, d, at, c.n), at, k);
  }

  /** Every other page stays, those of other channels and dies among them. */
  lemma WriteSpares(c: Chip, d: Device, at: Start, p: Location)
    requires Begun(c, d, at, c.n) && p.In(c.s) && forall k :: 0 <= k < c.n ==> !IsPiece(c, at, k, p)
    ensures WriteAll(c, d, at, c.n).file[p] == d.file[p]
  {
    WriteAllWrites(c, d, at, c.n);
    if p in at.Rewritten(c, c.n) {
      var j := RewrittenBy(c, at, c.n, p);
      PieceIs(c, at, j, p);
    }
  }

  lemma OtherDieSpared(c: Chip, d: Device, at: Start, p: Location)
    requires Begun(c, d, at, c.n) && p.In(c.s) && (p.chan != c.chan || p.die != at.die)
    ensures WriteAll(c, d, at, c.n).file[p] == d.file[p]
  {
    WriteSpares(c, d, at, p);
  }

  /** A read brings the page from there into DL1 of that die and bank, unless that is busy. */
  lemma ReadsPiece(c: Chip, d: Device, at: Start, k: nat, p: Location)
    requires Begun(c, d, at, c.n) && k < c.n && IsPiece(c, at, k, p)
    ensures var i, r := c.LatchNo(at.die, p.bank), ReadAll(c, d, at, c.n);
            && i < c.Latches() && r.dl1[i] == (if d.st1[i] == FREE then d.file[p] else d.dl1[i]) && r.st1[i] == BUSY
            && |d.waiting| + k < |r.waiting| && r.waiting[|d.waiting| + k] == i
            && r.st2 == d.st2 && r.dl2 == d.dl2
  {
    hide Position, Nth, Chip.LatchNo, Start.Latch, Start.Where, Chip.Valid;
    PieceIs(c, at, k, p);
    ReadAllFetches(c, d, at, c.n);
    assert FetchedPiece(c, d, ReadAll(c, d, at, c.n), at, k);
    ReadKeepsDl2(c, d, at, c.n);
  }

  lemma {:induction false} ReadKeepsDl2(c: Chip, d: Device, at: Start, k: nat)
    requires Begun(c, d, at, k)
    ensures ReadAll(c, d, at, k).st2 == d.st2 && ReadAll(c, d, at, k).dl2 == d.dl2
  {
    hide Chip.Valid, Start.Latch, Start.Where, Device.Valid;
    if k > 0 { ReadKeepsDl2(c, d, at, k - 1); }
  }

  // ---- the round trip ----------------------------------------------------------------------

  /** phyDl2WriteThread has nothing to do. */
  predicate AtRest(d: Device) { d.waiting == [] && d.held == [] }

  /** Write the code word in the cache, read it back into DL1, move it to DL2, gather it. */
  ghost function RoundTrip(c: Chip, d: Device, at: Start): (r: Device)
    requires Begun(c, d, at, c.n) && AtRest(d)
    ensures r.Valid(c)
  {
    WriteAllWrites(c, d, at, c.n);
    var written := WriteAll(c, d, at, c.n);
    assert AllFree(c, written, at) by { WrittenFree(c, d, written, at); }
    ReadAllFetches(c, written, at, c.n);
    GatherAll(c, MoveAll(c, ReadAll(c, written, at, c.n), c.n), at, c.n)
  }

  lemma WrittenFree(c: Chip, d: Device, d1: Device, at: Start)
    requires Begun(c, d, at, c.n) && d1.Valid(c) && Written(c, d, d1, at, c.n)
    ensures AllFree(c, d1, at)
  {
    forall j | 0 <= j < c.n ensures d1.st1[at.Latch(c, j)] == FREE && d1.st2[at.Latch(c, j)] == FREE {
      assert Stored(c, d, d1, at, j);
    }
  }

  lemma FetchedLoaded(c: Chip, d: Device, d1: Device, at: Start)
    requires Begun(c, d, at, c.n) && d.waiting == [] && AllFree(c, d, at) && d1.Valid(c) && Fetched(c, d, d1, at, c.n)
    ensures Loaded(c, d1, at)
  {
    hide Chip.Valid, Untouched, Start.Latch, Start.Where;
    forall j | 0 <= j < c.n
      ensures d1.waiting[j] == at.Latch(c, j) && d1.st1[at.Latch(c, j)] == BUSY && d1.st2[at.Latch(c, j)] == FREE
    {
      assert FetchedPiece(c, d, d1, at, j);
    }
  }

  lemma RaisedFilled(c: Chip, d: Device, d1: Device, at: Start)
    requires Begun(c, d, at, c.n) && Loaded(c, d, at) && d1.Valid(c) && Raised(c, d, d1, at, c.n)
    ensures Filled(c, d1, at)
  {
    hide Chip.Valid, Untouched, Start.Latch, Start.Where;
    forall j | 0 <= j < c.n ensures d1.st2[at.Latch(c, j)] == BUSY { assert RaisedPiece(c, d, d1, at, j); }
  }

  /** What comes back is what was stored; all latches of the code word end free, no other latch and no
      other page changes. */
  lemma RoundTripReturns(c: Chip, d: Device, at: Start)
    requires Begun(c, d, at, c.n) && AtRest(d)
    ensures var r := RoundTrip(c, d, at);
            && (forall k :: 0 <= k < c.n ==> r.cache[k] == Content(c, d, at, k))
            && AllFree(c, r, at) && AtRest(r) && Untouched(c, d, r, at, c.n)
            && (forall p: Location :: p.In(c.s) && p !in at.Rewritten(c, c.n) ==> r.file[p] == d.file[p])
  {
    var n := c.n;
    WriteAllWrites(c, d, at, n);
    var d1 := WriteAll(c, d, at, n);
    WrittenFree(c, d, d1, at);
    ReadAllFetches(c, d1, at, n);
    var d2 := ReadAll(c, d1, at, n);
    FetchedLoaded(c, d1, d2, at);
    MoveAllRaises(c, d2, at, n);
    var d3 := MoveAll(c, d2, n);
    RaisedFilled(c, d2, d3, at);
    GatherAllGathers(c, d3, at, n);
    Combine(c, d, d1, d2, d3, GatherAll(c, d3, at, n), at);
  }

  lemma Combine(c: Chip, d: Device, d1: Device, d2: Device, d3: Device, d4: Device, at: Start)
    requires Begun(c, d, at, c.n) && AtRest(d) && d1.Valid(c) && d2.Valid(c) && d3.Valid(c) && d4.Valid(c)
    requires Written(c, d, d1, at, c.n) && Fetched(c, d1, d2, at, c.n)
    requires Raised(c, d2, d3, at, c.n) && d3.waiting == [] && Gathered(c, d3, d4, at, c.n)
    ensures forall k :: 0 <= k < c.n ==> d4.cache[k] == Content(c, d, at, k)
    ensures AllFree(c, d4, at) && AtRest(d4) && Untouched(c, d, d4, at, c.n)
    ensures forall p: Location :: p.In(c.s) && p !in at.Rewritten(c, c.n) ==> d4.file[p] == d.file[p]
  {
    forall k | 0 <= k < c.n
      ensures d4.cache[k] == Content(c, d, at, k) && d4.st1[at.Latch(c, k)] == FREE && d4.st2[at.Latch(c, k)] == FREE
    {
      assert Stored(c, d, d1, at, k);
      assert FetchedPiece(c, d1, d2, at, k);
      assert RaisedPiece(c, d2, d3, at, k);
      assert GatheredPiece(c, d3, d4, at, k);
    }
    forall i: nat | i < c.Latches() && i !in at.Touched(c, c.n) ensures SameAt(d, d4, i) {
      assert SameAt(d, d1, i) && SameAt(d1, d2, i) && SameAt(d2, d3, i) && SameAt(d3, d4, i);
    }
  }

  /** The round trip returns the code word in the cache exactly when DL2 of each of its banks is free
      before the write, or holds the same page already. */
  lemma RoundTripIff(c: Chip, d: Device, at: Start)
    requires Begun(c, d, at, c.n) && AtRest(d)
    ensures RoundTrip(c, d, at).cache == d.cache
       <==> forall k :: 0 <= k < c.n ==> d.st2[at.Latch(c, k)] == FREE || d.dl2[at.Latch(c, k)] == d.cache[k]
  {
    hide RoundTrip, Untouched, AllFree;
    RoundTripReturns(c, d, at);
    var r := RoundTrip(c, d, at);
    if forall k :: 0 <= k < c.n ==> d.st2[at.Latch(c, k)] == FREE || d.dl2[at.Latch(c, k)] == d.cache[k] {
      forall k | 0 <= k < c.n ensures r.cache[k] == d.cache[k] { assert r.cache[k] == Content(c, d, at, k); }
    } else {
      var k :| 0 <= k < c.n && !(d.st2[at.Latch(c, k)] == FREE || d.dl2[at.Latch(c, k)] == d.cache[k]);
      assert r.cache[k] == Content(c, d, at, k);
    }
  }

  // ---- bytes and pages ---------------------------------------------------------------------

  /** The bytes of a code word cut into pages. */
  function Cut(data: seq<nat>, size: nat, n: nat): (r: seq<Page>)
    requires |data| == n * size
    ensures |r| == n && forall k :: 0 <= k < n ==> |r[k]| == size
  {
    if n == 0 then [] else
      assert n * size == (n - 1) * size + size;
      Cut(data[..(n - 1) * size], size, n - 1) + [data[(n - 1) * size..]]
  }

  lemma {:induction false} CutJoins(data: seq<nat>, size: nat, n: nat)
    requires |data| == n * size
    ensures Flat(Cut(data, size, n)) == data
  {
    if n > 0 {
      var m := (n - 1) * size;
      assert n * size == m + size;
      CutJoins(data[..m], size, n - 1);
      FlatPut(Cut(data[..m], size, n - 1), data[m..]);
      assert data == data[..m] + data[m..];
    }
  }

  lemma FlatPut(rows: seq<Row>, row: Row)
    ensures Flat(rows + [row]) == Flat(rows) + row
  {
    assert (rows + [row])[..|rows|] == rows;
  }

  /** With free latches, the host's bytes come back unchanged. */
  lemma BytesReturn(c: Chip, d: Device, at: Start, data: seq<nat>)
    requires Begun(c, d, at, c.n) && AtRest(d) && AllFree(c, d, at)
    requires |data| == c.n * c.s.pageSize && d.cache == Cut(data, c.s.pageSize, c.n)
    ensures Flat(RoundTrip(c, d, at).cache) == data && AllFree(c, RoundTrip(c, d, at), at)
  {
    hide RoundTrip;
    RoundTripReturns(c, d, at);
    RoundTripIff(c, d, at);
    CutJoins(data, c.s.pageSize, c.n);
  }

  // ---- runs of code-word writes and reads --------------------------------------------------

  datatype Op = Store(at: Start, pages: seq<Page>) | Fetch(at: Start)

  predicate OpOk(c: Chip, op: Op) {
    op.at.In(c) && (op.Store? ==> |op.pages| == c.n && forall k :: 0 <= k < c.n ==> |op.pages[k]| == c.s.pageSize)
  }

  /** Between two commands. */
  ghost predicate Quiet(c: Chip, d: Device) {
    c.Valid() && d.Valid(c) && AtRest(d) && forall i :: 0 <= i < c.Latches() ==> d.st1[i] == FREE && d.st2[i] == FREE
  }

  /** Load and write a code word; or read it into DL1, move it to DL2 and gather it. */
  ghost function Do(c: Chip, d: Device, op: Op): (r: Device)
    requires c.Valid() && d.Valid(c) && OpOk(c, op)
    ensures r.Valid(c)
  {
    match op
    case Store(at, pages) => WriteAll(c, d.(cache := pages), at, c.n)
    case Fetch(at) => GatherAll(c, MoveAll(c, ReadAll(c, d, at, c.n), c.n), at, c.n)
  }

  /** The pages of a code word put into a page store. */
  ghost function PutPages(c: Chip, store: imap<Location, Page>, at: Start, pages: seq<Page>, k: nat): imap<Location, Page>
    requires c.Valid() && at.In(c) && k <= c.n == |pages|
  {
    if k == 0 then store else PutPages(c, store, at, pages, k - 1)[at.Where(c, k - 1) := pages[k - 1]]
  }

  /** Page k of the code word is the last one put there; pages of other places stay. */
  lemma {:induction false} PutPagesAt(c: Chip, store: imap<Location, Page>, at: Start, pages: seq<Page>, k: nat)
    requires c.Valid() && at.In(c) && k <= c.n == |pages|
    ensures forall j :: 0 <= j < k ==> at.Where(c, j) in PutPages(c, store, at, pages, k) && PutPages(c, store, at, pages, k)[at.Where(c, j)] == pages[j]
    ensures forall p :: p !in at.Rewritten(c, k) ==>
              (p in PutPages(c, store, at, pages, k) <==> p in store) && (p in store ==> PutPages(c, store, at, pages, k)[p] == store[p])
  {
    if k > 0 {
      PutPagesAt(c, store, at, pages, k - 1);
      Distinct(c, at, k - 1, k - 1);
      forall j | 0 <= j < k - 1 ensures at.Where(c, j) != at.Where(c, k - 1) { Has(c, at, j, k - 1); }
    }
  }

  /** Writing a code word over free latches puts its pages into the file. */
  lemma WriteStores(c: Chip, d: Device, d1: Device, at: Start)
    requires Begun(c, d, at, c.n) && AllFree(c, d, at) && d1.Valid(c) && Written(c, d, d1, at, c.n)
    ensures d1.file == PutPages(c, d.file, at, d.cache, c.n)
  {
    var store := PutPages(c, d.file, at, d.cache, c.n);
    PutPagesAt(c, d.file, at, d.cache, c.n);
    forall p ensures p in d1.file <==> p in store ensures p in store ==> d1.file[p] == store[p] {
      if p in at.Rewritten(c, c.n) {
        var j := RewrittenBy(c, at, c.n, p);
        assert Stored(c, d, d1, at, j);
      }
    }
  }

  lemma {:induction false} RewrittenBy(c: Chip, at: Start, k: nat, p: Location) returns (j: nat)
    requires c.Valid() && at.In(c) && k <= c.n && p in at.Rewritten(c, k)
    ensures j < k && p == at.Where(c, j)
  {
    if p == at.Where(c, k - 1) { j := k - 1; } else { j := RewrittenBy(c, at, k - 1, p); }
  }

  lemma StoreQuiet(c: Chip, d: Device, at: Start, pages: seq<Page>)
    requires Quiet(c, d) && OpOk(c, Store(at, pages))
    ensures var r := Do(c, d, Store(at, pages)); Quiet(c, r) && r.file == PutPages(c, d.file, at, pages, c.n)
  {
    var d0 := d.(cache := pages);
    var r := WriteAll(c, d0, at, c.n);
    WriteAllWrites(c, d0, at, c.n);
    WriteStores(c, d0, r, at);
    forall i | 0 <= i < c.Latches() ensures r.st1[i] == FREE && r.st2[i] == FREE {
      if i in at.Touched(c, c.n) {
        var j := TouchedBy(c, at, c.n, i);
        assert Stored(c, d0, r, at, j);
      } else {
        assert SameAt(d0, r, i);
      }
    }
  }

  lemma {:induction false} TouchedBy(c: Chip, at: Start, k: nat, i: nat) returns (j: nat)
    requires c.Valid() && at.In(c) && k <= c.n && i in at.Touched(c, k)
    ensures j < k && i == at.Latch(c, j)
  {
    if i == at.Latch(c, k - 1) { j := k - 1; } else { j := TouchedBy(c, at, k - 1, i); }
  }

  lemma FetchQuiet(c: Chip, d: Device, at: Start)
    requires Quiet(c, d) && OpOk(c, Fetch(at))
    ensures var r := Do(c, d, Fetch(at));
            Quiet(c, r) && r.file == d.file && forall k :: 0 <= k < c.n ==> r.cache[k] == d.file[at.Where(c, k)]
  {
    var n := c.n;
    ReadAllFetches(c, d, at, n);
    var d2 := ReadAll(c, d, at, n);
    FetchedLoaded(c, d, d2, at);
    MoveAllRaises(c, d2, at, n);
    var d3 := MoveAll(c, d2, n);
    RaisedFilled(c, d2, d3, at);
    GatherAllGathers(c, d3, at, n);
    FetchCombine(c, d, d2, d3, GatherAll(c, d3, at, n), at);
  }

  lemma FetchCombine(c: Chip, d: Device, d2: Device, d3: Device, d4: Device, at: Start)
    requires Quiet(c, d) && at.In(c) && d2.Valid(c) && d3.Valid(c) && d4.Valid(c)
    requires Fetched(c, d, d2, at, c.n) && Raised(c, d2, d3, at, c.n) && d3.waiting == [] && Gathered(c, d3, d4, at, c.n)
    ensures Quiet(c, d4) && d4.file == d.file && forall k :: 0 <= k < c.n ==> d4.cache[k] == d.file[at.Where(c, k)]
  {
    forall k | 0 <= k < c.n
      ensures d4.cache[k] == d.file[at.Where(c, k)] && d4.st1[at.Latch(c, k)] == FREE && d4.st2[at.Latch(c, k)] == FREE
    {
      assert FetchedPiece(c, d, d2, at, k);
      assert RaisedPiece(c, d2, d3, at, k);
      assert GatheredPiece(c, d3, d4, at, k);
    }
    forall i: nat | i < c.Latches() ensures d4.st1[i] == FREE && d4.st2[i] == FREE {
      if i in at.Touched(c, c.n) {
        var j := TouchedBy(c, at, c.n, i);
      } else {
        assert SameAt(d, d2, i) && SameAt(d2, d3, i) && SameAt(d3, d4, i);
      }
    }
  }

  ghost predicate OpsOk(c: Chip, ops: seq<Op>) { forall k :: 0 <= k < |ops| ==> OpOk(c, ops[k]) }

  /** The page store that a run of commands amounts to. */
  ghost function StoreAfter(c: Chip, store: imap<Location, Page>, ops: seq<Op>): imap<Location, Page>
    requires c.Valid() && OpsOk(c, ops)
    decreases |ops|
  {
    if ops == [] then store else
      var before, op := StoreAfter(c, store, ops[..|ops| - 1]), ops[|ops| - 1];
      match op
      case Store(at, pages) => PutPages(c, before, at, pages, c.n)
      case Fetch(_) => before
  }

  ghost function After(c: Chip, d: Device, ops: seq<Op>): (r: Device)
    requires c.Valid() && d.Valid(c) && OpsOk(c, ops)
    ensures r.Valid(c)
    decreases |ops|
  {
    if ops == [] then d else Do(c, After(c, d, ops[..|ops| - 1]), ops[|ops| - 1])
  }

  /** Over every run of code-word writes and reads the memory file is the page store. */
  lemma {:induction false} RunStores(c: Chip, d: Device, ops: seq<Op>)
    requires Quiet(c, d) && OpsOk(c, ops)
    ensures Quiet(c, After(c, d, ops)) && After(c, d, ops).file == StoreAfter(c, d.file, ops)
  {
    hide Device.Valid, Chip.Valid, Do, PutPages;
    if ops != [] {
      var before, op := ops[..|ops| - 1], ops[|ops| - 1];
      RunStores(c, d, before);
      match op {
        case Store(at, pages) => StoreQuiet(c, After(c, d, before), at, pages);
        case Fetch(at) => FetchQuiet(c, After(c, d, before), at);
      }
    }
  }

  /** A read after any run gives, page by page, what the run last wrote there, or what the file held. */
  lemma ReadReturns(c: Chip, d: Device, ops: seq<Op>, at: Start, k: nat)
    requires Quiet(c, d) && OpsOk(c, ops) && at.In(c) && k < c.n
    ensures var p, store := at.Where(c, k), StoreAfter(c, d.file, ops);
            p in store && Do(c, After(c, d, ops), Fetch(at)).cache[k] == store[p]
  {
    RunStores(c, d, ops);
    FetchQuiet(c, After(c, d, ops), at);
  }

  // ---- the device --------------------------------------------------------------------------

  class TeraSMemoryDevice {
    const c: Chip
    const mCacheMemory: FileManager
    const mEmulationDataCache: array<Page>
    const mPhysicalDataLatch1: array<Page>
    const mPhysicalDataLatch2: array<Page>
    const mDataLatch1Status: array<Status>
    const mDataLatch2Status: array<Status>
    var mReadQueue: seq<nat>   // mReadBankIndexQueue and mReadNumDieQueue, as latch numbers
    var held: seq<nat>         // the latch whose turn waits for mPhyDL2FreeEvent

    ghost predicate Apart()
      reads this
    {
      && mEmulationDataCache != mPhysicalDataLatch1 && mEmulationDataCache != mPhysicalDataLatch2
      && mPhysicalDataLatch1 != mPhysicalDataLatch2 && mDataLatch1Status != mDataLatch2Status
      && mCacheMemory.s == c.s
    }

    ghost predicate Valid()
      reads this, mCacheMemory, mEmulationDataCache, mPhysicalDataLatch1, mPhysicalDataLatch2, mDataLatch1Status, mDataLatch2Status
    {
      c.Valid() && Apart() && mCacheMemory.Valid() && View().Valid(c)
    }

    ghost function View(): Device
      requires mCacheMemory.Valid()
      reads this, mCacheMemory, mEmulationDataCache, mPhysicalDataLatch1, mPhysicalDataLatch2, mDataLatch1Status, mDataLatch2Status
    {
      Device(mEmulationDataCache[..], mPhysicalDataLatch1[..], mPhysicalDataLatch2[..],
             mDataLatch1Status[..], mDataLatch2Status[..], mCacheMemory.Contents(), mReadQueue, held)
    }

    constructor (c: Chip, file: FileManager)
      requires c.Valid() && file.Valid() && file.s == c.s
      ensures Valid() && this.c == c && mCacheMemory == file && mReadQueue == [] && held == []
      ensures forall i :: 0 <= i < c.Latches() ==> View().st1[i] == FREE && View().st2[i] == FREE
      ensures fresh(mEmulationDataCache) && fresh(mPhysicalDataLatch1) && fresh(mPhysicalDataLatch2)
      ensures fresh(mDataLatch1Status) && fresh(mDataLatch2Status)
    {
      this.c, mCacheMemory, mReadQueue, held := c, file, [], [];
      mEmulationDataCache := new Page[c.n](_ => seq(c.s.pageSize, _ => 0));
      mPhysicalDataLatch1 := new Page[c.Latches()](_ => seq(c.s.pageSize, _ => 0));
      mPhysicalDataLatch2 := new Page[c.Latches()](_ => seq(c.s.pageSize, _ => 0));
      mDataLatch1Status := new Status[c.Latches()](_ => FREE);
      mDataLatch2Status := new Status[c.Latches()](_ => FREE);
    }

    method MoveDataToEmulation(dataPtr: seq<nat>)
      requires Valid() && |dataPtr| == c.n * c.s.pageSize
      modifies mEmulationDataCache
      ensures Valid() && View() == old(View()).(cache := Cut(dataPtr, c.s.pageSize, c.n))
    {
      var pages := Cut(dataPtr, c.s.pageSize, c.n);
      forall k | 0 <= k < c.n { mEmulationDataCache[k] := pages[k]; }
      assert mEmulationDataCache[..] == pages;
    }

    method MoveDataFromEmulation() returns (dataPtr: seq<nat>)
      requires Valid()
      ensures dataPtr == Flat(View().cache)
    {
      dataPtr := [];
      for k := 0 to mEmulationDataCache.Length
        invariant dataPtr == Flat(mEmulationDataCache[..k])
      {
        assert mEmulationDataCache[..k + 1][..k] == mEmulationDataCache[..k];
        dataPtr := dataPtr + mEmulationDataCache[k];
      }
      assert mEmulationDataCache[..mEmulationDataCache.Length] == mEmulationDataCache[..];
    }

    /** writeMemory. */
    method WriteMemory(at: Start)
      requires Valid() && at.In(c)
      modifies mCacheMemory, mPhysicalDataLatch1, mPhysicalDataLatch2, mDataLatch1Status, mDataLatch2Status
      ensures Valid() && View() == WriteAll(c, old(View()), at, c.n)
    {
      hide WriteOne, Device.Valid, View;
      var dataPtr := seq(c.s.pageSize, _ => 0);
      var codeWordCount, cwBankIndex, bankIndex, pageIndex := c.n, 0, at.bank, at.page;
      while codeWordCount > 0
        invariant cwBankIndex + codeWordCount == c.n && |dataPtr| == c.s.pageSize
        invariant bankIndex == at.Bank(c, cwBankIndex) && pageIndex == at.PageNo(c, cwBankIndex)
        invariant Valid() && View() == WriteAll(c, old(View()), at, cwBankIndex)
      {
        dataPtr := WritePiece(at, cwBankIndex, bankIndex, pageIndex, dataPtr);
        bankIndex := bankIndex + 1;
        if bankIndex >= c.s.bankNum {
          bankIndex := 0;
          pageIndex := pageIndex + 1;
          if pageIndex >= c.s.pageNum { pageIndex, bankIndex := 0, 0; }
        }
        codeWordCount, cwBankIndex := codeWordCount - 1, cwBankIndex + 1;
      }
    }

    /** One turn of writeMemory. */
    method WritePiece(at: Start, cwBankIndex: nat, bankIndex: nat, pageIndex: nat, buffer: Page) returns (dataPtr: Page)
      requires Valid() && Ready(c, View(), at, cwBankIndex) && |buffer| == c.s.pageSize
      requires bankIndex == at.Bank(c, cwBankIndex) && pageIndex == at.PageNo(c, cwBankIndex)
      modifies mCacheMemory, mPhysicalDataLatch1, mPhysicalDataLatch2, mDataLatch1Status, mDataLatch2Status
      ensures Valid() && View() == WriteOne(c, old(View()), at, cwBankIndex) && |dataPtr| == c.s.pageSize
    {
      InRow(at.die, c.s.numDie, c.s.bankNum, bankIndex);
      dataPtr := PassPiece(cwBankIndex, c.LatchNo(at.die, bankIndex), buffer);
      mCacheMemory.WriteMemory(Location(c.chan, pageIndex, at.die, bankIndex), dataPtr);
    }

    method PassPiece(k: nat, i: nat, buffer: Page) returns (dataPtr: Page)
      requires Valid() && k < c.n && i < c.Latches()
      modifies mPhysicalDataLatch1, mPhysicalDataLatch2, mDataLatch1Status, mDataLatch2Status
      ensures Valid() && dataPtr == if old(View()).st2[i] == FREE then old(View()).cache[k] else old(View()).dl2[i]
      ensures View() == Passed(old(View()), i, dataPtr)
    {
      CopyDataFromEmulationCache(k, i);
      CopyDataFromPhyDataLatch2(i);
      dataPtr := CopyDataFromPhyDataLatch1(i, buffer);
    }

    method CopyDataFromEmulationCache(k: nat, i: nat)
      requires Valid() && k < c.n && i < c.Latches()
      modifies mPhysicalDataLatch2, mDataLatch2Status
      ensures Valid()
      ensures var d := old(View());
              View() == if d.st2[i] == FREE then d.(dl2 := d.dl2[i := d.cache[k]], st2 := d.st2[i := BUSY]) else d
    {
      if mDataLatch2Status[i] == FREE {
        mPhysicalDataLatch2[i] := mEmulationDataCache[k];
        mDataLatch2Status[i] := BUSY;
      }
    }

    method CopyDataFromPhyDataLatch2(i: nat)
      requires Valid() && i < c.Latches()
      modifies mPhysicalDataLatch1, mDataLatch1Status, mDataLatch2Status
      ensures Valid()
      ensures var d := old(View());
              View() == d.(dl1 := d.dl1[i := d.dl2[i]], st1 := d.st1[i := BUSY], st2 := d.st2[i := FREE])
    {
      mPhysicalDataLatch1[i] := mPhysicalDataLatch2[i];
      mDataLatch1Status[i] := BUSY;
      mDataLatch2Status[i] := FREE;
    }

    /** The caller's buffer stays as it is unless DL1 is busy. */
    method CopyDataFromPhyDataLatch1(i: nat, buffer: Page) returns (dataPtr: Page)
      requires Valid() && i < c.Latches()
      modifies mDataLatch1Status
      ensures Valid() && dataPtr == if old(View()).st1[i] == BUSY then View().dl1[i] else buffer
      ensures View() == old(View()).(st1 := old(View()).st1[i := FREE])
    {
      dataPtr := buffer;
      if mDataLatch1Status[i] == BUSY {
        dataPtr := mPhysicalDataLatch1[i];
        mDataLatch1Status[i] := FREE;
      }
    }

    /** readMemory. */
    method ReadMemory(at: Start)
      requires Valid() && at.In(c)
      modifies this, mPhysicalDataLatch1, mDataLatch1Status
      ensures Valid() && View() == ReadAll(c, old(View()), at, c.n)
    {
      hide ReadOne, Device.Valid, View;
      var codeWordCount, cwBankIndex, bankIndex, pageIndex := c.n, 0, at.bank, at.page;
      while codeWordCount > 0
        invariant cwBankIndex + codeWordCount == c.n
        invariant bankIndex == at.Bank(c, cwBankIndex) && pageIndex == at.PageNo(c, cwBankIndex)
        invariant Valid() && View() == ReadAll(c, old(View()), at, cwBankIndex)
      {
        ReadPiece(at, cwBankIndex, bankIndex, pageIndex);
        bankIndex := bankIndex + 1;
        if bankIndex >= c.s.bankNum {
          bankIndex := 0;
          pageIndex := pageIndex + 1;
          if pageIndex >= c.s.pageNum { pageIndex, bankIndex := 0, 0; }
        }
        codeWordCount, cwBankIndex := codeWordCount - 1, cwBankIndex + 1;
      }
    }

    /** One turn of readMemory. */
    method ReadPiece(at: Start, cwBankIndex: nat, bankIndex: nat, pageIndex: nat)
      requires Valid() && Ready(c, View(), at, cwBankIndex)
      requires bankIndex == at.Bank(c, cwBankIndex) && pageIndex == at.PageNo(c, cwBankIndex)
      modifies this, mPhysicalDataLatch1, mDataLatch1Status
      ensures Valid() && View() == ReadOne(c, old(View()), at, cwBankIndex)
    {
      InRow(at.die, c.s.numDie, c.s.bankNum, bankIndex);
      var i := c.LatchNo(at.die, bankIndex);
      var dataPtr := mCacheMemory.ReadMemory(Location(c.chan, pageIndex, at.die, bankIndex));
      CopyDataToDataLatch1(dataPtr, i);
      mReadQueue := mReadQueue + [i];
    }

    method CopyDataToDataLatch1(dataPtr: Page, i: nat)
      requires Valid() && i < c.Latches() && |dataPtr| == c.s.pageSize
      modifies mPhysicalDataLatch1, mDataLatch1Status
      ensures Valid()
      ensures var d := old(View());
              View() == if d.st1[i] == FREE then d.(dl1 := d.dl1[i := dataPtr], st1 := d.st1[i := BUSY]) else d
    {
      if mDataLatch1Status[i] == FREE {
        mPhysicalDataLatch1[i] := dataPtr;
        mDataLatch1Status[i] := BUSY;
      }
    }

    /** phyDl2WriteThread takes the next bank; with its DL2 busy it waits. */
    method PhyDl2Write() returns (waits: bool)
      requires Valid() && mReadQueue != [] && held == []
      modifies this, mPhysicalDataLatch2, mDataLatch1Status, mDataLatch2Status
      ensures Valid() && waits == (old(View()).st2[old(mReadQueue)[0]] == BUSY)
      ensures View() == if waits then Held(c, old(View())) else MoveUp(c, old(View()))
      ensures held + mReadQueue == if waits then old(mReadQueue) else old(mReadQueue)[1..]
    {
      var i := mReadQueue[0];
      assert i in mReadQueue;
      mReadQueue := mReadQueue[1..];
      waits := mDataLatch2Status[i] == BUSY;
      if waits { held := [i]; } else { TestOnce(i); }
    }

    /** The wait ends: the test is made, whoever freed its DL2. */
    method PhyDl2Wake()
      requires Valid() && held != []
      modifies this, mPhysicalDataLatch2, mDataLatch1Status, mDataLatch2Status
      ensures Valid() && View() == Woken(c, old(View()))
    {
      var i := held[0];
      held := [];
      TestOnce(i);
    }

    method TestOnce(i: nat)
      requires Valid() && i < c.Latches()
      modifies mPhysicalDataLatch2, mDataLatch1Status, mDataLatch2Status
      ensures Valid() && View() == Raise(c, old(View()), i)
    {
      if mDataLatch2Status[i] == FREE && mDataLatch1Status[i] == BUSY {
        mPhysicalDataLatch2[i] := mPhysicalDataLatch1[i];
        mDataLatch2Status[i] := BUSY;
        mDataLatch1Status[i] := FREE;
      }
    }

    /** The loop of memReadMethod: the pages in DL2 are gathered into the cache. */
    method GatherCodeWord(at: Start)
      requires Valid() && at.In(c)
      modifies mEmulationDataCache, mDataLatch2Status
      ensures Valid() && View() == GatherAll(c, old(View()), at, c.n)
    {
      hide GatherOne, Device.Valid, View;
      var cwBankNum := at.bank;
      for cwIndex := 0 to c.n
        invariant cwBankNum == at.Bank(c, cwIndex)
        invariant Valid() && View() == GatherAll(c, old(View()), at, cwIndex)
      {
        GatherPiece(at, cwIndex, cwBankNum);
        cwBankNum := cwBankNum + 1;
        if cwBankNum >= c.s.bankNum { cwBankNum := 0; }
      }
    }

    /** One turn of it. */
    method GatherPiece(at: Start, cwIndex: nat, cwBankNum: nat)
      requires Valid() && Ready(c, View(), at, cwIndex) && cwBankNum == at.Bank(c, cwIndex)
      modifies mEmulationDataCache, mDataLatch2Status
      ensures Valid() && View() == GatherOne(c, old(View()), at, cwIndex)
    {
      InRow(at.die, c.s.numDie, c.s.bankNum, cwBankNum);
      CopyDataToEmulationCache(c.LatchNo(at.die, cwBankNum), cwIndex);
    }

    method CopyDataToEmulationCache(i: nat, k: nat)
      requires Valid() && i < c.Latches() && k < c.n
      modifies mEmulationDataCache, mDataLatch2Status
      ensures Valid()
      ensures var d := old(View());
              View() == if d.st2[i] == BUSY then d.(cache := d.cache[k := d.dl2[i]], st2 := d.st2[i := FREE]) else d
    {
      if mDataLatch2Status[i] == BUSY {
        mEmulationDataCache[k] := mPhysicalDataLatch2[i];
        mDataLatch2Status[i] := FREE;
      }
    }
  }
}
