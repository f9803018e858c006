/** The transaction pool: one doubly linked list of access nodes, split by a cursor. Nodes before the
    cursor are empty, nodes from the cursor on hold free payloads; `free_list` is the first free node
    and `empties` the node just before it. */
module TransManager {
  import opened Common


  /** A generic payload; its contents play no part in the pool. */
  class Payload {
    constructor () {}
  }

  class Access {
    var trans: Payload?
    var next: Access?
    var prev: Access?

    constructor ()
      ensures trans == null && next == null && prev == null
    {
      trans, next, prev := null, null, null;
    }
  }

  class TransManager {
    var free_list: Access?
    var empties: Access?
    // The list, numbered along its links; `lo` moves down as nodes are put in front.
    ghost var nodes: map<int, Access>
    ghost var index: map<Access, int>
    ghost var lo: int
    ghost var hi: int
    ghost var cursor: int
    ghost var pool: Pool<Payload>          // the free payloads, the one to be reused next first
    ghost var calls: seq<Call<Payload>>    // all calls so far

    ghost function NodeAt(i: int): Access?
      reads this
    {
      if i in nodes then nodes[i] else null
    }

    ghost predicate Numbered()
      reads this
    {
      && lo <= cursor <= hi && (forall i :: i in nodes <==> lo <= i < hi)
      && (forall i {:trigger nodes[i]} :: i in nodes ==> nodes[i] in index && index[nodes[i]] == i)
    }

    /** The fields spell out one doubly linked list. */
    ghost predicate Linked()
      reads this, nodes.Values
    {
      && (forall i {:trigger nodes[i].next} :: i in nodes ==> nodes[i].next == NodeAt(i + 1))
      && (forall i {:trigger nodes[i].prev} :: i in nodes ==> nodes[i].prev == NodeAt(i - 1))
    }

    ghost predicate Split()
      reads this
    {
      free_list == NodeAt(cursor) && empties == NodeAt(cursor - 1)
    }

    /** The nodes from the cursor on hold the free payloads. */
    ghost predicate Holds()
      reads this, nodes.Values
    {
      && |pool.stack| == hi - cursor
      && (forall i {:trigger nodes[i].trans} :: i in nodes && 0 <= i - cursor < |pool.stack| ==> nodes[i].trans == pool.stack[i - cursor])
    }

    /** The pool is what the calls so far make of an empty one. */
    ghost predicate Followed()
      reads this
    {
      Exec(Empty(), calls) == Some(pool)
    }

    ghost predicate Valid()
      reads this, nodes.Values
    {
      Numbered() && Linked() && Split() && Holds() && Followed()
    }

    constructor ()
      ensures Valid() && calls == [] && nodes == map[]
    {
      free_list, empties := null, null;
      nodes, index, lo, hi, cursor, pool, calls := map[], map[], 0, 0, 0, Empty(), [];
    }

    /** The most recently freed payload, or a new one when none is free. */
    method Allocate() returns (ptr: Payload)
      requires Valid()
      modifies this`free_list, this`empties, this`cursor, this`pool, this`calls
      ensures Valid() && calls == old(calls) + [Allocated(ptr)] && Step(old(pool), Allocated(ptr)) == Some(pool)
      ensures old(pool).stack == [] ==> fresh(ptr)
    {
      hide Exec;
      if free_list != null {
        ptr := free_list.trans;
        empties := free_list;
        free_list := free_list.next;
        cursor := cursor + 1;
      } else {
        ptr := new Payload();
      }
      Called(pool, calls, Allocated(ptr));
      pool, calls := Step(pool, Allocated(ptr)).value, calls + [Allocated(ptr)];
    }

    /** The payload goes on top; an empty node is reused, or a new one put in front. */
    method Free(trans: Payload)
      requires Valid() && trans in pool.inUse
      modifies this, nodes.Values
      ensures Valid() && calls == old(calls) + [Freed(trans)] && Step(old(pool), Freed(trans)) == Some(pool)
      ensures hi - lo == old(hi - lo) + if old(cursor) == old(lo) then 1 else 0
      ensures forall i :: i in old(nodes) ==> i in nodes && nodes[i] == old(nodes[i])
      ensures forall i :: i in nodes && i !in old(nodes) ==> fresh(nodes[i])
    {
      if empties == null {
        NewNode();
      }
      Push(trans);
    }

    /** The node before the cursor takes the payload. */
    method Push(trans: Payload)
      requires Valid() && trans in pool.inUse && empties != null
      modifies this`free_list, this`empties, this`cursor, this`pool, this`calls, empties`trans
      ensures Valid() && calls == old(calls) + [Freed(trans)] && Step(old(pool), Freed(trans)) == Some(pool)
    {
      hide Exec;
      Called(pool, calls, Freed(trans));
      free_list := empties;
      free_list.trans := trans;
      empties := free_list.prev;
      cursor := cursor - 1;
      pool, calls := Step(pool, Freed(trans)).value, calls + [Freed(trans)];
      assert Linked() && Split();
      assert Holds();
    }

    /** A new empty node in front of the list. */
    method NewNode()
      requires Numbered() && Linked() && Split() && empties == null
      modifies this`empties, this`nodes, this`index, this`lo, nodes.Values
      ensures Numbered() && Linked() && Split()
      ensures empties != null && old(lo) == old(cursor) && lo == old(lo) - 1
      ensures fresh(empties) && nodes == old(nodes)[lo := empties]
      ensures forall i {:trigger nodes[i].trans} :: i in old(nodes) ==> nodes[i].trans == old(nodes[i].trans)
    {
      ghost var before := nodes;
      var node := FrontNode();
      assert forall i {:trigger before[i]} :: i in before ==> before[i] != node;
      empties := node;
      lo := lo - 1;
      nodes, index := nodes[lo := node], index[node := lo];
      assert forall i {:trigger nodes[i]} :: i in before ==> nodes[i] == before[i];
    }

    /** The node itself, linked to the first of the list. */
    method FrontNode() returns (node: Access)
      requires Numbered() && cursor == lo && free_list == NodeAt(lo)
      modifies nodes.Values
      ensures fresh(node) && node.next == free_list && node.prev == null
      ensures forall i {:trigger nodes[i].trans} :: i in nodes ==> nodes[i].trans == old(nodes[i].trans)
      ensures forall i {:trigger nodes[i].next} :: i in nodes ==> nodes[i].next == old(nodes[i].next)
      ensures forall i {:trigger nodes[i].prev} :: i in nodes ==> nodes[i].prev == if i == lo then node else old(nodes[i].prev)
    {
      node := new Access();
      node.next := free_list;
      node.prev := null;
      if free_list != null {
        assert free_list == nodes[lo];
        free_list.prev := node;
      }
    }
  }

  // ---- runs of the pool --------------------------------------------------------------------

  /** The pool as a stack of free payloads; `made` are the payloads ever created. */
  datatype Pool<T> = Pool(stack: seq<T>, inUse: set<T>, made: set<T>)

  /** Calls with the payload they return or take. */
  datatype Call<T> = Allocated(ptr: T) | Freed(trans: T)

  /** The top of the stack is reused; with an empty stack a payload is made. Only payloads in use are
      freed. */
  function Step<T>(p: Pool<T>, c: Call<T>): Option<Pool<T>> {
    match c
    case Allocated(t) =>
      if p.stack != [] then
        if t == p.stack[0] then Some(Pool(p.stack[1..], p.inUse + {t}, p.made)) else None
      else if t in p.made then None
      else Some(Pool([], p.inUse + {t}, p.made + {t}))
    case Freed(t) => if t in p.inUse then Some(Pool([t] + p.stack, p.inUse - {t}, p.made)) else None
  }

  function Exec<T>(p: Pool<T>, calls: seq<Call<T>>): Option<Pool<T>>
    decreases |calls|
  {
    if calls == [] then Some(p) else
      match Exec(p, calls[..|calls| - 1])
      case None => None
      case Some(p') => Step(p', calls[|calls| - 1])
  }

  function Empty<T>(): Pool<T> { Pool([], {}, {}) }

  /** The largest number of payloads in use at any moment. */
  function Peak<T(==)>(calls: seq<Call<T>>): nat {
    if calls == [] then 0 else
      var before := Peak(calls[..|calls| - 1]);
      var now := match Exec(Empty(), calls) case Some(p) => |p.inUse| case None => 0;
      if before < now then now else before
  }

  /** No payload is free twice, none is free and in use, none is lost. */
  ghost predicate Sound<T>(p: Pool<T>) {
    && (forall i, j :: 0 <= i < j < |p.stack| ==> p.stack[i] != p.stack[j])
    && (forall i :: 0 <= i < |p.stack| ==> p.stack[i] !in p.inUse && p.stack[i] in p.made)
    && p.inUse <= p.made && |p.stack| + |p.inUse| == |p.made|
  }

  lemma StepSound<T>(p: Pool<T>, c: Call<T>)
    requires Sound(p) && Step(p, c).Some?
    ensures Sound(Step(p, c).value)
  {
    if c.Allocated? && p.stack != [] {
      assert forall i :: 0 < i < |p.stack| ==> p.stack[i] != p.stack[0];
    } else if c.Freed? {
      assert |p.inUse - {c.trans}| == |p.inUse| - 1;
    }
  }

  /** Over every run of calls the pool is sound, and it has made exactly as many payloads as were ever
      in use at once. */
  lemma {:induction false} PoolRuns<T>(calls: seq<Call<T>>)
    requires Exec(Empty(), calls).Some?
    ensures var p := Exec(Empty(), calls).value; Sound(p) && |p.made| == Peak(calls)
  {
    if calls != [] {
      var before, c := calls[..|calls| - 1], calls[|calls| - 1];
      PoolRuns(before);
      StepSound(Exec(Empty(), before).value, c);
    }
  }

  lemma Called<T>(p: Pool<T>, calls: seq<Call<T>>, c: Call<T>)
    requires Exec(Empty(), calls) == Some(p)
    ensures Exec(Empty(), calls + [c]) == Step(p, c)
  {
    assert (calls + [c])[..|calls|] == calls;
  }

  // ---- last in, first out ------------------------------------------------------------------

  /** Frees minus allocations. */
  function Depth<T>(calls: seq<Call<T>>): int {
    if calls == [] then 0 else
      Depth(calls[..|calls| - 1]) + if calls[|calls| - 1].Freed? then 1 else -1
  }

  /** Every allocation takes back a payload freed within the sequence. */
  ghost predicate Nested<T>(calls: seq<Call<T>>)
    decreases |calls|
  {
    calls == [] || (Nested(calls[..|calls| - 1]) && Depth(calls) >= 0)
  }

  /** `r` is `p` with the payloads `top` freed. */
  ghost predicate Lent<T>(p: Pool<T>, r: Pool<T>, top: seq<T>) {
    && r.stack == top + p.stack && r.made == p.made
    && p.inUse == r.inUse + (set t | t in top) && (forall t :: t in top ==> t !in r.inUse)
  }

  lemma LendMore<T>(p: Pool<T>, r: Pool<T>, top: seq<T>, t: T)
    requires Lent(p, r, top) && t in r.inUse
    ensures Lent(p, Pool([t] + r.stack, r.inUse - {t}, r.made), [t] + top)
  {
    assert [t] + r.stack == [t] + top + p.stack;
  }

  lemma TakeBack<T>(p: Pool<T>, r: Pool<T>, top: seq<T>)
    requires Lent(p, r, top) && Sound(r) && top != []
    ensures r.stack != [] && r.stack[0] == top[0]
    ensures Lent(p, Pool(r.stack[1..], r.inUse + {top[0]}, r.made), top[1..])
  {
    assert r.stack[1..] == top[1..] + p.stack;
    assert top == [top[0]] + top[1..];
    forall k | 0 <= k < |top[1..]| ensures top[1..][k] != top[0] { assert r.stack[k + 1] != r.stack[0]; }
  }

  /** Nested calls only work on what they freed themselves, on top of the stack they found. */
  lemma {:induction false} NestedKeeps<T>(p: Pool<T>, calls: seq<Call<T>>) returns (top: seq<T>)
    requires Sound(p) && Nested(calls) && Exec(p, calls).Some?
    ensures |top| == Depth(calls) && Lent(p, Exec(p, calls).value, top) && Sound(Exec(p, calls).value)
  {
    hide Lent, Sound;
    if calls == [] {
      NothingLent(p);
      return [];
    }
    var before, c := calls[..|calls| - 1], calls[|calls| - 1];
    top := NestedKeeps(p, before);
    var r := Exec(p, before).value;
    StepSound(r, c);
    if c.Freed? {
      LendMore(p, r, top, c.trans);
      top := [c.trans] + top;
    } else {
      TakeBack(p, r, top);
      top := top[1..];
    }
  }

  lemma NothingLent<T>(p: Pool<T>)
    ensures Lent(p, p, [])
  {}

  /** A balanced sequence of frees and allocations leaves the pool as it was. */
  lemma BalancedKeeps<T>(p: Pool<T>, calls: seq<Call<T>>)
    requires Sound(p) && Nested(calls) && Depth(calls) == 0 && Exec(p, calls).Some?
    ensures Exec(p, calls) == Some(p)
  {
    var top := NestedKeeps(p, calls);
    var r := Exec(p, calls).value;
    assert r.stack == p.stack;
    assert r.inUse == p.inUse;
  }

  /** Last in, first out: after a free and any balanced sequence of frees and allocations, the next
      allocation returns what was freed. */
  lemma LifoReuse<T>(p: Pool<T>, t: T, calls: seq<Call<T>>, ptr: T)
    requires Sound(p) && t in p.inUse && Nested(calls) && Depth(calls) == 0
    requires Exec(Step(p, Freed(t)).value, calls + [Allocated(ptr)]).Some?
    ensures ptr == t && Exec(Step(p, Freed(t)).value, calls + [Allocated(ptr)]) == Some(p)
  {
    var q, all := Step(p, Freed(t)).value, calls + [Allocated(ptr)];
    assert all[..|all| - 1] == calls;
    StepSound(p, Freed(t));
    BalancedKeeps(q, calls);
    assert q.stack[1..] == p.stack && p.inUse - {t} + {t} == p.inUse;
  }
}
