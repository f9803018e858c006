/** A host command entering the PCMD queue: inserted, replicated, and its code words linked one by
    one behind the commands already waiting for their banks. */
module ControllerAccept {
  import opened Common
  import opened Words
  import opened Geometry
  import opened Codec
  import opened Hops
  import opened CommandQueue
  import opened Places
  import opened Pipeline
  import opened PipelineSafety
  import opened BankLists
  import opened Refinement
  import opened ControllerSteps

  /** A command word as the host writes it for `slot`. */
  predicate HostCmd(g: Geometry, slot: nat, word: nat) {
    var L := g.LbaBits();
    && slot < g.numSlot && word < Pow2(L + 19)
    && Bits(word, L + 11, 8) == slot && Bits(word, L + 9, 2) < 2
    && 1 <= Bits(word, 0, 9) <= Pow2(g.addrShifter)
  }

  /** The channel and bank TeraSBankLLMethod reads from each replica. */
  function Homes(g: Geometry, word: nat, n: nat): (r: seq<(nat, nat)>)
    requires g.numDie >= 1 && g.LbaBits() <= 22
    ensures |r| == n
  {
    seq(n, i requires 0 <= i < n =>
      (HostChan(g, Replica(g.LbaBits(), word, i)), HostBank(g, Replica(g.LbaBits(), word, i))))
  }

  /** The code words of the command. */
  function CodeWords(g: Geometry, slot: nat, word: nat): seq<Sub>
    requires g.numDie >= 1 && g.LbaBits() <= 22
  {
    SubsOf(slot, TypeOf(Bits(word, g.LbaBits() + 9, 2)), Homes(g, word, Bits(word, 0, 9)))
  }

  /** insertCommand and replicateCommand wrote the slot's entries and no other. */
  ghost predicate Filled(g: Geometry, entries: seq<CmdEntry>, entries': seq<CmdEntry>, slot: nat, word: nat, n: nat)
    requires g.LbaBits() <= 22
  {
    var base := Up(slot, g.addrShifter);
    && |entries'| == |entries| && base + n <= |entries|
    && (forall i :: 0 <= i < n ==> entries'[base + i].cmd == Replica(g.LbaBits(), word, i))
    && (forall k :: 0 <= k < |entries| && !(base <= k < base + n) ==> entries'[k] == entries[k])
  }

  // ---- the replicas decode to the code words -----------------------------------------------

  /** From the host's request to the dispatcher: channel and active word of code word `i` together are
      the LBA `lba + i` modulo the capacity, page included. */
  lemma WholeAddress(g: Geometry, write: bool, lba: nat, slot: nat, cwCount: nat, i: nat, queueAddr: int)
    requires g.Widths() && g.LbaBits() <= 22 && slot < 256 && cwCount < 512
    ensures var word := Replica(g.LbaBits(), HostWord(g, write, lba, slot, cwCount), i);
            Cat(Unpack(g.ActiveBits(), CreateActive(g, word, queueAddr)).lba, g.chanBits, HostChan(g, word)) == (lba + i) % Pow2(g.LbaBits())
  {
    hide Or, And, Up, Shl, Shr, Pow2, Mask, Cat, HostWord, Replica, CreateActive, HostChan, Geometry.Widths;
    var L, w := g.LbaBits(), HostWord(g, write, lba, slot, cwCount);
    HostDecodes(g, write, lba, slot, cwCount);
    ReplicaDecodes(L, w, i);
    ActiveAddress(g, Replica(L, w, i), queueAddr);
    AndMask(lba, L);
    AndMask(And(lba, Mask(L)) + i, L);
    ModAdd(lba, i, Pow2(L));
  }

  lemma ModAdd(x: nat, i: nat, m: nat)
    requires m > 0
    ensures (x % m + i) % m == (x + i) % m
  {
    var q := x / m;
    assert x == q * m + x % m;
    Divided(x % m + i, m, (x % m + i) / m, (x % m + i) % m);
    var t := (x % m + i) / m;
    assert x + i == q * m + (t * m + (x % m + i) % m);
    assert q * m + t * m == (q + t) * m;
    Divided(x + i, m, q + t, (x % m + i) % m);
  }

  lemma ReplicaBits(g: Geometry, slot: nat, word: nat, i: nat)
    requires Sound(g) && HostCmd(g, slot, word)
    ensures var r, L := Replica(g.LbaBits(), word, i), g.LbaBits();
            Bits(r, L + 11, 8) == slot && Bits(r, L + 9, 2) == Bits(word, L + 9, 2) && Bits(r, 0, 9) == Bits(word, 0, 9)
  {
    ReplicaDecodes(g.LbaBits(), word, i);
  }

  lemma HostIsWord(g: Geometry, r: nat, x: Sub)
    requires Sound(g) && x.idx < 256
    requires Bits(r, g.LbaBits() + 11, 8) == x.slot && Bits(r, g.LbaBits() + 9, 2) < 2
    requires TypeOf(Bits(r, g.LbaBits() + 9, 2)) == x.ctype && Bits(r, 0, 9) == x.cwCnt
    requires HostChan(g, r) == x.chan && HostBank(g, r) == x.bank
    ensures HostIs(g, r, x)
  {
    hide Is, Bits, HostBank, BankOf, HostChan;
    var key := HostKey(g, r, Addr(g, x));
    assert BankOf(g, key.lba) == x.bank by { HostBankIsKey(g, r); }
    assert key.queue == x.idx by { QueueNumIs(g, x.slot, x.idx); }
    KeyIs(g, key, x);
  }

  lemma KeyIs(g: Geometry, key: Fields, x: Sub)
    requires g.numDie >= 1 && key.ctype < 2 && TypeOf(key.ctype) == x.ctype
    requires key.slot == x.slot && key.queue == x.idx && key.cwCnt == x.cwCnt && BankOf(g, key.lba) == x.bank
    ensures Is(g, x.chan, key, x)
  {}

  lemma CodeWordIs(g: Geometry, slot: nat, word: nat, i: nat, r: nat)
    requires Sound(g) && HostCmd(g, slot, word) && i < Bits(word, 0, 9) && r == Replica(g.LbaBits(), word, i)
    ensures HostIs(g, r, CodeWords(g, slot, word)[i])
  {
    ReplicaBits(g, slot, word, i);
    assert i < 256 by { Pow2Monotone(g.addrShifter, 8); Sizes(); }
    HostIsWord(g, r, CodeWords(g, slot, word)[i]);
  }

  lemma HomesInRange(g: Geometry, word: nat, n: nat)
    requires Sound(g)
    ensures forall i :: 0 <= i < n ==> Homes(g, word, n)[i].0 < g.ChanNum() && Homes(g, word, n)[i].1 < g.CodeWordNum()
  {
    forall i | 0 <= i < n ensures Homes(g, word, n)[i].0 < g.ChanNum() && Homes(g, word, n)[i].1 < g.CodeWordNum() {
      var r := Replica(g.LbaBits(), word, i);
      BitsBound(Bits(r, 9, g.LbaBits()), 0, g.chanBits);
      HostBankIsKey(g, r);
      BankInRange(g, Bits(r, 9 + g.chanBits, g.PendingBits()));
    }
  }

  // ---- filling the slot's entries ----------------------------------------------------------

  lemma AddrOther(g: Geometry, x: Sub, slot: nat, i: nat)
    requires x.slot != slot && x.idx < Pow2(g.addrShifter) && i < Pow2(g.addrShifter)
    ensures Addr(g, x) != Up(slot, g.addrShifter) + i
  {
    if Addr(g, x) == Up(slot, g.addrShifter) + i { UpInjective(g, x, Sub(slot, i, READ, 0, 0, 0)); }
  }

  lemma FilledElsewhere(g: Geometry, entries: seq<CmdEntry>, entries': seq<CmdEntry>, slot: nat, word: nat, n: nat, x: Sub)
    requires g.LbaBits() <= 22 && Filled(g, entries, entries', slot, word, n) && n <= Pow2(g.addrShifter)
    requires x.slot != slot && x.idx < Pow2(g.addrShifter) && Addr(g, x) < |entries|
    ensures entries'[Addr(g, x)] == entries[Addr(g, x)]
  {
    var base, a := Up(slot, g.addrShifter), Addr(g, x);
    if base <= a < base + n { AddrOther(g, x, slot, a - base); }
  }

  /** Filling an idle slot leaves every list alone. */
  lemma FillKeeps(g: Geometry, m: State, entries: seq<CmdEntry>, entries': seq<CmdEntry>, table: Table, slot: nat, word: nat, n: nat)
    requires Sound(g) && Kept(m.q, m.loc) && Small(g, m.loc) && Lists(g, entries, table, m.q)
    requires Filled(g, entries, entries', slot, word, n) && n <= Pow2(g.addrShifter)
    requires forall x :: x in m.loc ==> x.slot != slot
    ensures Lists(g, entries', table, m.q)
  {
    forall x | x in m.loc && Addr(g, x) < |entries| ensures entries'[Addr(g, x)] == entries[Addr(g, x)] {
      FilledElsewhere(g, entries, entries', slot, word, n, x);
    }
    RewriteIdle(g, entries, entries', table, m.q, m.loc);
    forall c, b | 0 <= c < g.ChanNum() && 0 <= b < g.CodeWordNum() ensures ListWords(g, entries', At(m.q, Listed(c, b))) {
      var subs := At(m.q, Listed(c, b));
      assert ListWords(g, entries, subs);
      forall k | 0 <= k < |subs| ensures HostIs(g, entries'[Addr(g, subs[k])].cmd, subs[k]) {
        StandsAt(m.q, m.loc, Listed(c, b), k);
      }
    }
  }

  // ---- linking -----------------------------------------------------------------------------

  /** After `k` turns of the linking loop. */
  ghost predicate LinkedUpTo(g: Geometry, q: map<Place, seq<Sub>>, subs: seq<Sub>, k: nat,
                             before: seq<CmdEntry>, entries: seq<CmdEntry>, table: Table)
  {
    && k <= |subs| && |entries| == |before| && (forall i :: 0 <= i < |entries| ==> entries[i].cmd == before[i].cmd)
    && AllChains(g, entries, table, LinkAll(q, subs[..k]))
  }

  /** The new code words may be linked behind the live ones. */
  ghost predicate Linkable(g: Geometry, q: map<Place, seq<Sub>>, loc: map<Sub, Place>, subs: seq<Sub>, size: nat) {
    && Kept(q, loc) && NoDup(subs) && (forall x :: x in subs ==> x !in loc) && Apart(g, LocateAll(loc, subs))
    && (forall i :: 0 <= i < |subs| ==> subs[i].chan < g.ChanNum() && subs[i].bank < g.CodeWordNum() && Addr(g, subs[i]) < size)
  }

  lemma LinkTurn(g: Geometry, q: map<Place, seq<Sub>>, loc: map<Sub, Place>, subs: seq<Sub>, k: nat,
                 before: seq<CmdEntry>, entries: seq<CmdEntry>, table: Table)
    requires Linkable(g, q, loc, subs, |before|) && k < |subs| && LinkedUpTo(g, q, subs, k, before, entries, table)
    ensures subs[k].chan < |table| && subs[k].bank < |table[subs[k].chan]|
    ensures var x := subs[k];
            var list := table[x.chan][x.bank];
            && (list.head == -1 || 0 <= list.tail < |entries|)
            && LinkedUpTo(g, q, subs, k + 1, before, LinkedEntries(entries, list, Addr(g, x)),
                          SetList(table, x.chan, x.bank, LinkedList(list, Addr(g, x))))
  {
    hide Chain, Addrs, LinkedList, Up, Apart, Kept;
    var x, pre := subs[k], subs[..k];
    LinkKeeps(q, loc, pre);
    Located(loc, pre);
    ApartBefore(g, loc, pre, subs);
    LinkStep(g, entries, table, LinkAll(q, pre), LocateAll(loc, pre), x);
    assert subs[..k + 1][..k] == pre && subs[..k + 1][k] == x;
  }

  lemma ApartBefore(g: Geometry, loc: map<Sub, Place>, pre: seq<Sub>, subs: seq<Sub>)
    requires Apart(g, LocateAll(loc, subs)) && (forall x :: x in pre ==> x in subs)
    ensures Apart(g, LocateAll(loc, pre))
  {
    Located(loc, pre);
    Located(loc, subs);
  }

  lemma AcceptLinkable(g: Geometry, m: State, e: Event, size: nat)
    requires Sound(g) && Safe(P(g), m) && Small(g, m.loc) && e.Accept? && Apply(P(g), m, e).Some?
    requires |e.homes| <= Pow2(g.addrShifter) && size == Up(g.numSlot, g.addrShifter)
    ensures Linkable(g, m.q, m.loc, SubsOf(e.slot, e.ctype, e.homes), size)
    ensures Small(g, LocateAll(m.loc, SubsOf(e.slot, e.ctype, e.homes)))
  {
    hide Counted, Reporting, Credited, Bounded, Apart, Pow2, Up;
    var subs := SubsOf(e.slot, e.ctype, e.homes);
    Fresh(P(g), m, e);
    AcceptApart(g, m, e.slot, e.ctype, e.homes);
    forall i | 0 <= i < |subs| ensures Addr(g, subs[i]) < size { AddrInRange(g, subs[i]); }
  }

  lemma AcceptApart(g: Geometry, m: State, slot: nat, ctype: CmdType, homes: seq<(nat, nat)>)
    requires Sized(P(g), m) && Counted(P(g), m) && Small(g, m.loc) && LiveIn(m.loc, slot) == {}
    requires slot < g.numSlot && |homes| <= Pow2(g.addrShifter)
    ensures Apart(g, LocateAll(m.loc, SubsOf(slot, ctype, homes))) && Small(g, LocateAll(m.loc, SubsOf(slot, ctype, homes)))
  {
    hide Counted, Pow2, Up;
    var subs := SubsOf(slot, ctype, homes);
    Located(m.loc, subs);
    LiveApart(g, m);
    NoneLive(m.loc, slot);
    var loc' := LocateAll(m.loc, subs);
    forall x, y | x in loc' && y in loc' && Addr(g, x) == Addr(g, y) ensures x == y { UpInjective(g, x, y); }
  }

  // ---- the step ----------------------------------------------------------------------------

  lemma {:induction false} BoundIn(subs: seq<Sub>, at: Place, x: Sub)
    requires x in Bound(subs, at)
    ensures x in subs && x.Home() == at
  {
    var n := |subs| - 1;
    if x in Bound(subs[..n], at) { BoundIn(subs[..n], at, x); }
  }

  /** All lists, old and new code words alike, read back right. */
  lemma LinkedWords(g: Geometry, q: map<Place, seq<Sub>>, subs: seq<Sub>, before: seq<CmdEntry>, entries: seq<CmdEntry>, table: Table, table0: Table)
    requires g.numDie >= 1 && Lists(g, before, table0, q) && LinkedUpTo(g, q, subs, |subs|, before, entries, table)
    requires forall i :: 0 <= i < |subs| ==> Addr(g, subs[i]) < |before| && HostIs(g, before[Addr(g, subs[i])].cmd, subs[i])
    ensures Lists(g, entries, table, LinkAll(q, subs))
  {
    assert subs[..|subs|] == subs;
    hide LinkAll, HostIs, AllChains;
    forall c, b | 0 <= c < g.ChanNum() && 0 <= b < g.CodeWordNum()
      ensures ListWords(g, entries, At(LinkAll(q, subs), Listed(c, b)))
    {
      assert ListWords(g, before, At(q, Listed(c, b)));
      ListedWords(g, q, subs, before, entries, Listed(c, b));
    }
  }

  lemma ListedWords(g: Geometry, q: map<Place, seq<Sub>>, subs: seq<Sub>, before: seq<CmdEntry>, entries: seq<CmdEntry>, at: Place)
    requires g.numDie >= 1 && |entries| == |before| && forall k :: 0 <= k < |entries| ==> entries[k].cmd == before[k].cmd
    requires forall i :: 0 <= i < |subs| ==> Addr(g, subs[i]) < |before| && HostIs(g, before[Addr(g, subs[i])].cmd, subs[i])
    requires ListWords(g, before, At(q, at))
    ensures ListWords(g, entries, At(LinkAll(q, subs), at))
  {
    hide LinkAll, HostIs;
    LinkAppends(q, subs, at);
    forall x | x in Bound(subs, at) ensures Addr(g, x) < |before| && HostIs(g, before[Addr(g, x)].cmd, x) {
      BoundIn(subs, at, x);
    }
  }

  lemma AcceptStands(u: Setup, m: State, d: Data, slot: nat, word: nat, before: seq<CmdEntry>,
                     entries: seq<CmdEntry>, table: Table, m': State)
    requires Stands(u, m, d) && HostCmd(u.g, slot, word) && |d.entries| == Up(u.g.numSlot, u.g.addrShifter)
    requires Filled(u.g, d.entries, before, slot, word, Bits(word, 0, 9))
    requires LinkedUpTo(u.g, m.q, CodeWords(u.g, slot, word), Bits(word, 0, 9), before, entries, table)
    requires var e := Accept(slot, TypeOf(Bits(word, u.g.LbaBits() + 9, 2)), Homes(u.g, word, Bits(word, 0, 9)));
             Apply(P(u.g), m, e) == Some(m')
    ensures Stands(u, m', d.(entries := entries, table := table, slots := d.slots[slot :=
                     Entry(slot, TypeOf(Bits(word, u.g.LbaBits() + 9, 2)), Bits(word, 0, 9))]))
  {
    hide Pow2, Up, Bits, Homes, LinkedUpTo, Filled, Lists, ChanOk, Small, Conserved, Bounded, Credited, Counted, Reporting;
    var n := Bits(word, 0, 9);
    var e := Accept(slot, TypeOf(Bits(word, u.g.LbaBits() + 9, 2)), Homes(u.g, word, n));
    var subs := CodeWords(u.g, slot, word);
    StepSafe(P(u.g), m, e);
    StepShape(P(u.g), m, e);
    OtherChans(u.g, m, e, m', d.chans, d.chans);
    StepCreditSet(P(u.g), m, e);
    StepBooks(P(u.g), m, e);
    AcceptLinkable(u.g, m, e, |d.entries|);
    AcceptLists(u.g, m, d.entries, d.table, slot, word, before, entries, table);
  }

  lemma FilledWords(g: Geometry, entries: seq<CmdEntry>, before: seq<CmdEntry>, slot: nat, word: nat)
    requires Sound(g) && HostCmd(g, slot, word) && Filled(g, entries, before, slot, word, Bits(word, 0, 9))
    ensures var subs := CodeWords(g, slot, word);
            forall i :: 0 <= i < |subs| ==> Addr(g, subs[i]) < |before| && HostIs(g, before[Addr(g, subs[i])].cmd, subs[i])
  {
    var subs := CodeWords(g, slot, word);
    forall i | 0 <= i < |subs| ensures Addr(g, subs[i]) < |before| && HostIs(g, before[Addr(g, subs[i])].cmd, subs[i]) {
      assert Addr(g, subs[i]) == Up(slot, g.addrShifter) + i;
      var r := before[Up(slot, g.addrShifter) + i].cmd;
      assert r == Replica(g.LbaBits(), word, i);
      CodeWordIs(g, slot, word, i, r);
    }
  }

  lemma AcceptLists(g: Geometry, m: State, entries0: seq<CmdEntry>, table0: Table, slot: nat, word: nat, before: seq<CmdEntry>,
                    entries: seq<CmdEntry>, table: Table)
    requires Sound(g) && Safe(P(g), m) && Small(g, m.loc) && Lists(g, entries0, table0, m.q)
    requires HostCmd(g, slot, word) && m.phase[slot] == Idle
    requires Filled(g, entries0, before, slot, word, Bits(word, 0, 9))
    requires LinkedUpTo(g, m.q, CodeWords(g, slot, word), Bits(word, 0, 9), before, entries, table)
    ensures Lists(g, entries, table, LinkAll(m.q, CodeWords(g, slot, word)))
  {
    var n, subs := Bits(word, 0, 9), CodeWords(g, slot, word);
    forall x | x in m.loc ensures x.slot != slot { assert Belongs(m, x); }
    FillKeeps(g, m, entries0, before, table0, slot, word, n);
    FilledWords(g, entries0, before, slot, word);
    LinkedWords(g, m.q, subs, before, entries, table, table0);
  }
}
