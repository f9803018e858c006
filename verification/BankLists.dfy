/** The linked lists of the banks. All lists share one array of command entries: a list is a head, a
    tail and the `nextAddr` fields of its entries. They represent one FIFO of sub-commands per
    channel and bank. */
module BankLists {
  import opened Words
  import opened Geometry
  import opened Places
  import opened Pipeline

  datatype CmdEntry = CmdEntry(cmd: nat, nextAddr: int, time: nat)

  datatype BankList = BankList(head: int, tail: int)

  type Table = seq<seq<BankList>>

  /** The PCMDQ address of a sub-command: `(slot << mAddrShifter) + index`. */
  function Addr(g: Geometry, x: Sub): nat { Up(x.slot, g.addrShifter) + x.idx }

  function Addrs(g: Geometry, subs: seq<Sub>): (r: seq<nat>)
    ensures |r| == |subs|
  {
    seq(|subs|, k requires 0 <= k < |subs| => Addr(g, subs[k]))
  }

  /** Head, tail and links spell out exactly `addrs`; an empty list has head and tail -1. */
  ghost predicate Chain(entries: seq<CmdEntry>, list: BankList, addrs: seq<nat>) {
    && (forall k :: 0 <= k < |addrs| ==> addrs[k] < |entries|)
    && if addrs == [] then list.head == -1 && list.tail == -1
       else && list.head == addrs[0] && list.tail == addrs[|addrs| - 1]
            && forall k :: 0 <= k < |addrs| - 1 ==> entries[addrs[k]].nextAddr == addrs[k + 1]
  }

  ghost predicate TableSized(g: Geometry, table: Table) {
    |table| == g.ChanNum() && forall c :: 0 <= c < |table| ==> |table[c]| == g.CodeWordNum()
  }

  /** Every bank's list represents its place in the pipeline. */
  ghost predicate AllChains(g: Geometry, entries: seq<CmdEntry>, table: Table, q: map<Place, seq<Sub>>) {
    && TableSized(g, table)
    && forall c, b :: 0 <= c < g.ChanNum() && 0 <= b < g.CodeWordNum() ==>
         Chain(entries, table[c][b], Addrs(g, At(q, Listed(c, b))))
  }

  /** No two live sub-commands share an entry. */
  ghost predicate Apart(g: Geometry, loc: map<Sub, Place>) {
    forall x, y :: x in loc && y in loc && Addr(g, x) == Addr(g, y) ==> x == y
  }

  function SetList(table: Table, c: nat, b: nat, list: BankList): (r: Table)
    requires c < |table| && b < |table[c]|
    ensures |r| == |table| && (forall i :: 0 <= i < |r| ==> |r[i]| == |table[i]|)
    ensures r[c][b] == list
    ensures forall i, j :: 0 <= i < |r| && 0 <= j < |r[i]| && (i != c || j != b) ==> r[i][j] == table[i][j]
  {
    table[c := table[c][b := list]]
  }

  /** One turn of the linking loop. */
  function LinkedList(list: BankList, addr: nat): BankList {
    if list.head == -1 then BankList(addr, addr) else BankList(list.head, addr)
  }

  function LinkedEntries(entries: seq<CmdEntry>, list: BankList, addr: nat): (r: seq<CmdEntry>)
    requires list.head == -1 || 0 <= list.tail < |entries|
    ensures |r| == |entries| && (forall k :: 0 <= k < |r| ==> r[k].cmd == entries[k].cmd)
  {
    if list.head == -1 then entries else entries[list.tail := entries[list.tail].(nextAddr := addr)]
  }

  lemma ChainEnds(entries: seq<CmdEntry>, list: BankList, addrs: seq<nat>)
    requires Chain(entries, list, addrs)
    ensures list.head == -1 <==> list.tail == -1
    ensures list.head == -1 <==> addrs == []
    ensures addrs != [] ==> 0 <= list.tail < |entries|
  {}

  lemma ChainAppend(entries: seq<CmdEntry>, list: BankList, addrs: seq<nat>, a: nat)
    requires Chain(entries, list, addrs) && a < |entries| && NoDup(addrs)
    requires list.head == -1 || 0 <= list.tail < |entries|
    ensures Chain(LinkedEntries(entries, list, a), LinkedList(list, a), addrs + [a])
  {
    ChainEnds(entries, list, addrs);
  }

  /** Linking elsewhere leaves a list alone as long as it does not own the rewritten entry. */
  lemma ChainElsewhere(entries: seq<CmdEntry>, other: BankList, a: nat, list: BankList, addrs: seq<nat>)
    requires Chain(entries, list, addrs)
    requires other.head == -1 || (0 <= other.tail < |entries| && other.tail !in addrs)
    ensures Chain(LinkedEntries(entries, other, a), list, addrs)
  {}

  lemma AddrsApart(g: Geometry, q: map<Place, seq<Sub>>, loc: map<Sub, Place>, at: Place, other: Place)
    requires Kept(q, loc) && Apart(g, loc)
    ensures NoDup(Addrs(g, At(q, at)))
    ensures at != other ==> forall a :: a in Addrs(g, At(q, at)) ==> a !in Addrs(g, At(q, other))
  {
    var s, t := At(q, at), At(q, other);
    forall j, k | 0 <= j < k < |s| ensures Addr(g, s[j]) != Addr(g, s[k]) {
      StandsAt(q, loc, at, j);
      StandsAt(q, loc, at, k);
      assert NoDup(s) && s[j] != s[k];
    }
    if at != other {
      forall j, k | 0 <= j < |s| && 0 <= k < |t| ensures Addr(g, s[j]) != Addr(g, t[k]) {
        StandsAt(q, loc, at, j);
        StandsAt(q, loc, other, k);
      }
    }
  }

  lemma StandsAt(q: map<Place, seq<Sub>>, loc: map<Sub, Place>, at: Place, k: nat)
    requires Kept(q, loc) && k < |At(q, at)|
    ensures At(q, at)[k] in loc && loc[At(q, at)[k]] == at
  {
    assert At(q, at)[k] in At(q, at);
  }

  /** Linking one sub-command appends it to its bank's list and changes no other list. */
  lemma LinkStep(g: Geometry, entries: seq<CmdEntry>, table: Table, q: map<Place, seq<Sub>>, loc: map<Sub, Place>, x: Sub)
    requires AllChains(g, entries, table, q) && Kept(q, loc) && Apart(g, loc)
    requires x.chan < g.ChanNum() && x.bank < g.CodeWordNum() && Addr(g, x) < |entries|
    ensures var list := table[x.chan][x.bank];
            && (list.head == -1 || 0 <= list.tail < |entries|)
            && AllChains(g, LinkedEntries(entries, list, Addr(g, x)),
                         SetList(table, x.chan, x.bank, LinkedList(list, Addr(g, x))), Put(q, x.Home(), x))
  {
    var home := x.Home();
    var list := table[x.chan][x.bank];
    var addrs := Addrs(g, At(q, home));
    assert Chain(entries, list, addrs);
    ChainEnds(entries, list, addrs);
    AddrsApart(g, q, loc, home, home);
    ChainAppend(entries, list, addrs, Addr(g, x));
    assert addrs + [Addr(g, x)] == Addrs(g, At(Put(q, home, x), home));
    forall c, b | 0 <= c < g.ChanNum() && 0 <= b < g.CodeWordNum() && Listed(c, b) != home
      ensures Chain(LinkedEntries(entries, list, Addr(g, x)), table[c][b], Addrs(g, At(q, Listed(c, b))))
    {
      AddrsApart(g, q, loc, home, Listed(c, b));
      if addrs != [] { assert list.tail in addrs; }
      ChainElsewhere(entries, list, Addr(g, x), table[c][b], Addrs(g, At(q, Listed(c, b))));
    }
  }

  /** processBankLinkList: the front leaves its list, and no other list changes. */
  function Unlinked(entries: seq<CmdEntry>, list: BankList): BankList
    requires 0 <= list.head < |entries|
  {
    if list.head == list.tail then BankList(-1, -1) else BankList(entries[list.head].nextAddr, list.tail)
  }

  lemma UnlinkStep(g: Geometry, entries: seq<CmdEntry>, table: Table, q: map<Place, seq<Sub>>, loc: map<Sub, Place>, c: nat, b: nat)
    requires AllChains(g, entries, table, q) && Kept(q, loc) && Apart(g, loc)
    requires c < g.ChanNum() && b < g.CodeWordNum() && At(q, Listed(c, b)) != []
    ensures 0 <= table[c][b].head < |entries| && table[c][b].head == Addr(g, At(q, Listed(c, b))[0])
    ensures AllChains(g, entries, SetList(table, c, b, Unlinked(entries, table[c][b])), Take(q, Listed(c, b)))
  {
    var subs := At(q, Listed(c, b));
    var addrs := Addrs(g, subs);
    assert Chain(entries, table[c][b], addrs);
    AddrsApart(g, q, loc, Listed(c, b), Listed(c, b));
    assert Addrs(g, subs[1..]) == addrs[1..];
    if |addrs| > 1 { assert addrs[0] != addrs[|addrs| - 1]; }
    assert Chain(entries, Unlinked(entries, table[c][b]), addrs[1..]);
  }

  /** Rewriting the entries of a slot with no live sub-command leaves every list alone. */
  lemma RewriteIdle(g: Geometry, entries: seq<CmdEntry>, entries': seq<CmdEntry>, table: Table, q: map<Place, seq<Sub>>, loc: map<Sub, Place>)
    requires AllChains(g, entries, table, q) && Kept(q, loc) && |entries'| == |entries|
    requires forall x :: x in loc && Addr(g, x) < |entries| ==> entries'[Addr(g, x)] == entries[Addr(g, x)]
    ensures AllChains(g, entries', table, q)
  {
    forall c, b | 0 <= c < g.ChanNum() && 0 <= b < g.CodeWordNum()
      ensures Chain(entries', table[c][b], Addrs(g, At(q, Listed(c, b))))
    {
      var subs := At(q, Listed(c, b));
      var addrs := Addrs(g, subs);
      assert Chain(entries, table[c][b], addrs);
      forall k | 0 <= k < |addrs| ensures addrs[k] < |entries| && entries'[addrs[k]] == entries[addrs[k]] {
        StandsAt(q, loc, Listed(c, b), k);
      }
      SameChain(entries, entries', table[c][b], addrs);
    }
  }

  lemma SameChain(entries: seq<CmdEntry>, entries': seq<CmdEntry>, list: BankList, addrs: seq<nat>)
    requires Chain(entries, list, addrs) && |entries'| == |entries|
    requires forall k :: 0 <= k < |addrs| ==> addrs[k] < |entries| && entries'[addrs[k]] == entries[addrs[k]]
    ensures Chain(entries', list, addrs)
  {}
}
