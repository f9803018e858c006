/** Pools of numbered slots: PCMDQ entries, host commands, internal tags and read buffers are all
    allocated by searching a status table for its first free slot. */
module Pool {

  datatype Status = FREE | BUSY

  function AllFree(n: nat): seq<Status> { seq(n, _ => FREE) }

  function Busy(status: seq<Status>): set<nat> { set i | 0 <= i < |status| && status[i] == BUSY }

  /** The first free slot, or the size of the table when none is free. */
  function FirstFree(status: seq<Status>): (r: nat)
    ensures r <= |status| && (forall j :: 0 <= j < r ==> status[j] == BUSY)
    ensures r < |status| ==> status[r] == FREE
  {
    FreeFrom(status, 0)
  }

  function FreeFrom(status: seq<Status>, i: nat): (r: nat)
    requires i <= |status|
    ensures i <= r <= |status| && (forall j :: i <= j < r ==> status[j] == BUSY)
    ensures r < |status| ==> status[r] == FREE
    decreases |status| - i
  {
    if i == |status| then i else
      match status[i]
      case FREE => i
      case BUSY => FreeFrom(status, i + 1)
  }

  /** The search loop of getFreeQueueAddr, getFreeTag and getFreeBuffPtr. */
  method GetFree(status: seq<Status>) returns (found: bool, index: nat)
    ensures found <==> exists i :: 0 <= i < |status| && status[i] == FREE
    ensures found ==> index == FirstFree(status) < |status|
    ensures !found ==> FirstFree(status) == |status|
  {
    index := 0;
    while index < |status|
      invariant index <= |status| && forall j :: 0 <= j < index ==> status[j] == BUSY
    {
      if status[index] == FREE {
        found := true;
        return;
      }
      index := index + 1;
    }
    found := false;
  }

  function UpTo(n: nat): set<nat> { if n == 0 then {} else UpTo(n - 1) + {n - 1} }

  lemma {:induction false} Range(n: nat)
    ensures |UpTo(n)| == n && forall i: nat :: i in UpTo(n) <==> i < n
  {
    if n > 0 { Range(n - 1); }
  }

  /** A table with fewer busy slots than entries has a free one, and only then. */
  lemma SomeFree(status: seq<Status>)
    ensures |Busy(status)| <= |status|
    ensures |Busy(status)| < |status| <==> FirstFree(status) < |status|
  {
    var all := UpTo(|status|);
    Range(|status|);
    Subset(Busy(status), all);
    var r := FirstFree(status);
    if r < |status| {
      assert r in all && r !in Busy(status);
      Subset(Busy(status), all - {r});
    } else {
      assert Busy(status) == all;
    }
  }

  lemma {:induction false} Subset(x: set<nat>, y: set<nat>)
    requires x <= y
    ensures |x| <= |y|
    decreases |x|
  {
    if x != {} {
      var i :| i in x;
      Subset(x - {i}, y - {i});
    }
  }

  lemma TakeOne(status: seq<Status>, i: nat)
    requires i < |status| && status[i] == FREE
    ensures Busy(status[i := BUSY]) == Busy(status) + {i} && |Busy(status[i := BUSY])| == |Busy(status)| + 1
  {
    assert Busy(status[i := BUSY]) == Busy(status) + {i};
  }

  lemma GiveBack(status: seq<Status>, i: nat)
    requires i < |status| && status[i] == BUSY
    ensures Busy(status[i := FREE]) == Busy(status) - {i} && |Busy(status[i := FREE])| == |Busy(status)| - 1
    ensures |Busy(status)| >= 1
  {
    assert Busy(status[i := FREE]) == Busy(status) - {i} && i in Busy(status);
  }
}
