/** The timed queue of pending commands: a multimap from due time to word, kept in insertion order
    among equal keys. */
module TimedQueue {

  datatype Timed = Timed(due: nat, word: nat)

  ghost predicate Sorted(q: seq<Timed>) {
    forall i, j :: 0 <= i < j < |q| ==> q[i].due <= q[j].due
  }

  /** Multimap insertion: behind every entry that is not later. */
  function Insert(q: seq<Timed>, x: Timed): seq<Timed> {
    if q == [] || q[|q| - 1].due <= x.due then q + [x] else Insert(q[..|q| - 1], x) + [q[|q| - 1]]
  }

  /** All words with one due time, in queue order. */
  function DueAt(q: seq<Timed>, due: nat): seq<Timed> {
    if q == [] then [] else
      DueAt(q[..|q| - 1], due) + if q[|q| - 1].due == due then [q[|q| - 1]] else []
  }

  lemma {:induction false} InsertAdds(q: seq<Timed>, x: Timed)
    ensures multiset(Insert(q, x)) == multiset(q) + multiset{x}
  {
    if q == [] || q[|q| - 1].due <= x.due {
    } else {
      InsertAdds(q[..|q| - 1], x);
      assert q == q[..|q| - 1] + [q[|q| - 1]];
    }
  }

  lemma InsertMembers(q: seq<Timed>, x: Timed, y: Timed)
    requires y in Insert(q, x)
    ensures y in q || y == x
  {
    InsertAdds(q, x);
    assert y in multiset(Insert(q, x));
  }

  lemma {:induction false} InsertSorts(q: seq<Timed>, x: Timed)
    requires Sorted(q)
    ensures Sorted(Insert(q, x))
  {
    if q == [] || q[|q| - 1].due <= x.due {
    } else {
      var n := |q| - 1;
      InsertSorts(q[..n], x);
      var r := Insert(q[..n], x);
      forall i | 0 <= i < |r| ensures r[i].due <= q[n].due { InsertMembers(q[..n], x, r[i]); }
    }
  }

  lemma DueAtPut(q: seq<Timed>, y: Timed, due: nat)
    ensures DueAt(q + [y], due) == DueAt(q, due) + if y.due == due then [y] else []
  {
    assert (q + [y])[..|q|] == q;
  }

  /** Insertion is stable: for each due time, `x` comes last and the others keep their order. */
  lemma {:induction false} InsertStable(q: seq<Timed>, x: Timed, due: nat)
    ensures DueAt(Insert(q, x), due) == DueAt(q, due) + if x.due == due then [x] else []
  {
    hide DueAt;
    if q == [] || q[|q| - 1].due <= x.due {
      DueAtPut(q, x, due);
    } else {
      var n := |q| - 1;
      InsertStable(q[..n], x, due);
      DueAtPut(Insert(q[..n], x), q[n], due);
      assert q == q[..n] + [q[n]];
      DueAtPut(q[..n], q[n], due);
    }
  }

  /** The words in release order: by due time, and among equal due times in notify order, as
      `AllSorted` and `AllStable` show. */
  function InsertAll(xs: seq<Timed>): seq<Timed> {
    if xs == [] then [] else Insert(InsertAll(xs[..|xs| - 1]), xs[|xs| - 1])
  }

  lemma {:induction false} AllSorted(xs: seq<Timed>)
    ensures Sorted(InsertAll(xs)) && multiset(InsertAll(xs)) == multiset(xs)
  {
    hide Sorted, Insert;
    if xs == [] {
      assert Sorted([]) by { EmptySorted(); }
    } else {
      var n := |xs| - 1;
      AllSorted(xs[..n]);
      InsertSorts(InsertAll(xs[..n]), xs[n]);
      InsertAdds(InsertAll(xs[..n]), xs[n]);
      assert xs == xs[..n] + [xs[n]];
    }
  }

  lemma EmptySorted()
    ensures Sorted([])
  {}

  lemma {:induction false} AllStable(xs: seq<Timed>, due: nat)
    ensures DueAt(InsertAll(xs), due) == DueAt(xs, due)
  {
    hide Insert;
    if xs != [] {
      var n := |xs| - 1;
      AllStable(xs[..n], due);
      InsertStable(InsertAll(xs[..n]), xs[n], due);
    }
  }

  class PendingCmdQueueManager {
    var mCmdQueue: seq<Timed>

    ghost predicate Valid() reads this { Sorted(mCmdQueue) && forall k :: 0 <= k < |mCmdQueue| ==> mCmdQueue[k].word != 0 }

    constructor ()
      ensures Valid() && mCmdQueue == []
    {
      mCmdQueue := [];
    }

    /** notify: due after `t`. */
    method Notify(value: nat, t: nat, now: nat)
      requires Valid() && value != 0
      modifies this
      ensures Valid() && mCmdQueue == Insert(old(mCmdQueue), Timed(now + t, value))
    {
      InsertSorts(mCmdQueue, Timed(now + t, value));
      ghost var q := mCmdQueue;
      mCmdQueue := Insert(mCmdQueue, Timed(now + t, value));
      forall k | 0 <= k < |mCmdQueue| ensures mCmdQueue[k].word != 0 {
        InsertMembers(q, Timed(now + t, value), mCmdQueue[k]);
      }
    }

    /** popCommand: the front word once it is due, else 0. */
    method PopCommand(now: nat) returns (value: nat)
      requires Valid()
      ensures value != 0 <==> mCmdQueue != [] && mCmdQueue[0].due <= now
      ensures value != 0 ==> value == mCmdQueue[0].word
    {
      if mCmdQueue == [] { return 0; }
      if mCmdQueue[0].due <= now { return mCmdQueue[0].word; }
      return 0;
    }

    method Erase()
      requires Valid() && mCmdQueue != []
      modifies this
      ensures Valid() && mCmdQueue == old(mCmdQueue)[1..]
    {
      mCmdQueue := mCmdQueue[1..];
    }
  }

  // ---- runs --------------------------------------------------------------------------------

  /** One call at clock reading `at`: a word is notified with its delay, or the front is popped and
      erased if it is due. */
  datatype Call = Notified(at: nat, delay: nat, word: nat) | Polled(at: nat)

  /** The queue, all that was notified, what was released, and the clock at each release. */
  datatype Log = Log(q: seq<Timed>, notified: seq<Timed>, released: seq<Timed>, times: seq<nat>)

  function Exec(calls: seq<Call>): Log {
    if calls == [] then Log([], [], [], []) else
      var l := Exec(calls[..|calls| - 1]);
      match calls[|calls| - 1]
      case Notified(at, delay, w) =>
        l.(q := Insert(l.q, Timed(at + delay, w)), notified := l.notified + [Timed(at + delay, w)])
      case Polled(at) =>
        if l.q != [] && l.q[0].due <= at then Log(l.q[1..], l.notified, l.released + [l.q[0]], l.times + [at]) else l
  }

  ghost predicate ClockRuns(calls: seq<Call>) {
    forall i, j :: 0 <= i < j < |calls| ==> calls[i].at <= calls[j].at
  }

  function Clock(calls: seq<Call>): nat { if calls == [] then 0 else calls[|calls| - 1].at }

  /** What was released was due by then, and no release lies ahead of the clock. */
  ghost predicate OnTime(l: Log, now: nat) {
    |l.times| == |l.released| && forall k :: 0 <= k < |l.released| ==> l.released[k].due <= l.times[k] <= now
  }

  /** What nothing in `r` is later than goes in behind all of `r`. */
  lemma {:induction false} InsertBehind(r: seq<Timed>, q: seq<Timed>, x: Timed)
    requires forall k :: 0 <= k < |r| ==> r[k].due <= x.due
    ensures Insert(r + q, x) == r + Insert(q, x)
  {
    if q == [] {
      assert r + [] == r;
    } else if q[|q| - 1].due > x.due {
      InsertBehind(r, q[..|q| - 1], x);
      assert (r + q)[..|r + q| - 1] == r + q[..|q| - 1];
    }
  }

  ghost predicate Ordered(l: Log, now: nat) { l.released + l.q == InsertAll(l.notified) && OnTime(l, now) }

  lemma NotifyOrdered(l: Log, now: nat, x: Timed)
    requires Ordered(l, now) && now <= x.due
    ensures Ordered(l.(q := Insert(l.q, x), notified := l.notified + [x]), now)
  {
    hide Insert;
    InsertBehind(l.released, l.q, x);
    assert (l.notified + [x])[..|l.notified|] == l.notified;
  }

  lemma PollOrdered(l: Log, at: nat)
    requires Ordered(l, at) && l.q != [] && l.q[0].due <= at
    ensures Ordered(Log(l.q[1..], l.notified, l.released + [l.q[0]], l.times + [at]), at)
  {
    hide InsertAll;
    assert l.released + [l.q[0]] + l.q[1..] == l.released + l.q;
  }

  lemma {:induction false} RunOrdered(calls: seq<Call>)
    requires ClockRuns(calls)
    ensures Ordered(Exec(calls), Clock(calls))
  {
    hide Ordered, Insert, InsertAll;
    if calls == [] {
      NothingYet();
    } else {
      var before, call := calls[..|calls| - 1], calls[|calls| - 1];
      RunOrdered(before);
      var l := Exec(before);
      assert before != [] ==> Clock(before) <= call.at;
      Later(l, Clock(before), call.at);
      match call {
        case Notified(at, delay, w) => NotifyOrdered(l, at, Timed(at + delay, w));
        case Polled(at) => if l.q != [] && l.q[0].due <= at { PollOrdered(l, at); }
      }
    }
  }

  lemma NothingYet()
    ensures Ordered(Log([], [], [], []), 0)
  {}

  lemma Later(l: Log, now: nat, later: nat)
    requires Ordered(l, now) && now <= later
    ensures Ordered(l, later)
  {}

  /** With any delays, however notifications and polls interleave: what was released, followed by what
      is still queued, is all that was notified, sorted by due time and in notify order among equal due
      times; and nothing was released before it was due. */
  lemma ReleaseOrder(calls: seq<Call>, due: nat)
    requires ClockRuns(calls)
    ensures var l := Exec(calls);
            var all := l.released + l.q;
            && Sorted(all) && multiset(all) == multiset(l.notified) && DueAt(all, due) == DueAt(l.notified, due)
            && OnTime(l, Clock(calls))
  {
    RunOrdered(calls);
    AllSorted(Exec(calls).notified);
    AllStable(Exec(calls).notified, due);
  }

  /** With one fixed delay that order is the order of the notifications. */
  lemma FixedDelayFifo(calls: seq<Call>, delay: nat)
    requires ClockRuns(calls) && forall k :: 0 <= k < |calls| && calls[k].Notified? ==> calls[k].delay == delay
    ensures Exec(calls).released + Exec(calls).q == Exec(calls).notified
  {
    RunOrdered(calls);
    NotifiedSorted(calls, delay);
    SortedStays(Exec(calls).notified);
  }

  lemma {:induction false} NotifiedSorted(calls: seq<Call>, delay: nat)
    requires ClockRuns(calls) && forall k :: 0 <= k < |calls| && calls[k].Notified? ==> calls[k].delay == delay
    ensures var xs := Exec(calls).notified;
            Sorted(xs) && forall k :: 0 <= k < |xs| ==> xs[k].due <= Clock(calls) + delay
  {
    if calls != [] {
      var before := calls[..|calls| - 1];
      NotifiedSorted(before, delay);
      assert Clock(before) <= Clock(calls);
    }
  }

  lemma {:induction false} SortedStays(xs: seq<Timed>)
    requires Sorted(xs)
    ensures InsertAll(xs) == xs
  {
    if xs != [] {
      SortedStays(xs[..|xs| - 1]);
      LatestAppends(xs[..|xs| - 1], xs[|xs| - 1]);
    }
  }

  lemma LatestAppends(q: seq<Timed>, x: Timed)
    requires forall k :: 0 <= k < |q| ==> q[k].due <= x.due
    ensures Insert(q, x) == q + [x]
  {}
}
