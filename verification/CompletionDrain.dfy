/** The completion queue and the host's polls of it. */
module CompletionDrain {
  import opened Common
  import opened Hops
  import opened Pipeline

  /** A 16-bit word in memory, low byte first. */
  function BytesOf(word: nat): seq<nat> { [word % 0x100, word / 0x100 % 0x100] }

  function AllBytes(words: seq<nat>): (r: seq<nat>)
    ensures |r| == 2 * |words|
  {
    if words == [] then [] else AllBytes(words[..|words| - 1]) + BytesOf(words[|words| - 1])
  }

  class CompletionQueueManager {
    var mCompletionQueue: seq<nat>

    constructor ()
      ensures mCompletionQueue == []
    {
      mCompletionQueue := [];
    }

    method PushCommand(value: nat)
      modifies this
      ensures mCompletionQueue == old(mCompletionQueue) + [value]
    {
      mCompletionQueue := mCompletionQueue + [value];
    }

    /** readCompletionQueue_mode0: count byte, then the popped entries, zero-padded. The count is the
        queue size cast to eight bits; nothing is popped when it reads 0. */
    method ReadCompletionQueue(length: nat) returns (dataPtr: seq<nat>)
      requires length == 64
      modifies this
      ensures var n := PollSize(|old(mCompletionQueue)|);
              && mCompletionQueue == old(mCompletionQueue)[n..]
              && dataPtr == [|old(mCompletionQueue)| % 0x100] + AllBytes(old(mCompletionQueue)[..n]) + seq(62 - 2 * n, _ => 0)
    {
      ghost var q := mCompletionQueue;
      var count := |mCompletionQueue| % 0x100;
      var data := seq(length, _ => 0);
      if count != 0 {
        var dataIndex := 0;
        ghost var k := 0;
        while dataIndex < length - 2
          invariant dataIndex == 2 * k && k <= 31 && k <= |q|
          invariant mCompletionQueue == q[k..] && |data| == 64
          invariant data == AllBytes(q[..k]) + seq(64 - 2 * k, _ => 0)
          invariant mCompletionQueue != [] || dataIndex >= length - 2
        {
          var tempVal := mCompletionQueue[0];
          data := data[dataIndex := tempVal % 0x100][dataIndex + 1 := tempVal / 0x100 % 0x100];
          mCompletionQueue := mCompletionQueue[1..];
          assert q[..k + 1][..k] == q[..k] && q[..k + 1][k] == tempVal;
          k := k + 1;
          dataIndex := dataIndex + 2;
          if mCompletionQueue == [] { break; }
        }
        assert k == PollSize(|q|);
      }
      dataPtr := [count] + data[..length - 2];
    }
  }

  // ---- the host's side ---------------------------------------------------------------------

  /** getCompletionQueue: the count byte bounds what the host looks at. */
  function ValidCount(payload: seq<nat>): nat
    requires |payload| == 63
  {
    if payload[0] >= 31 then 31 else payload[0]
  }

  /** readCompletionQueueData: entry k starts at byte 1 + 2k. */
  function HostEntry(payload: seq<nat>, k: nat): nat
    requires |payload| == 63 && k < 31
  {
    payload[1 + 2 * k] + 0x100 * payload[2 + 2 * k]
  }

  /** What a poll hands to the host. */
  function Payload(queue: seq<nat>): (r: seq<nat>)
    ensures |r| == 63
  {
    var n := PollSize(|queue|);
    [|queue| % 0x100] + AllBytes(queue[..n]) + seq(62 - 2 * n, _ => 0)
  }

  lemma {:induction false} BytesAt(words: seq<nat>, k: nat)
    requires k < |words|
    ensures AllBytes(words)[2 * k] == words[k] % 0x100 && AllBytes(words)[2 * k + 1] == words[k] / 0x100 % 0x100
  {
    if k < |words| - 1 { BytesAt(words[..|words| - 1], k); }
  }

  lemma EntryAt(queue: seq<nat>, k: nat)
    requires k < PollSize(|queue|) && queue[k] < 0x1_0000
    ensures HostEntry(Payload(queue), k) == queue[k]
  {
    var n := PollSize(|queue|);
    var bytes := AllBytes(queue[..n]);
    BytesAt(queue[..n], k);
    assert Payload(queue)[1 + 2 * k] == bytes[2 * k] && Payload(queue)[2 + 2 * k] == bytes[2 * k + 1];
    TwoBytes(queue[k]);
  }

  lemma TwoBytes(w: nat)
    requires w < 0x1_0000
    ensures w % 0x100 + 0x100 * (w / 0x100 % 0x100) == w
  {}

  // ---- the packed completions --------------------------------------------------------------

  function EntryWord(e: Entry): nat {
    CompletionEntry(if e.ctype == WRITE then 1 else 0, e.slot, e.cwCnt)
  }

  /** The completion queue holds the packed words of these completions. */
  function EntryWords(entries: seq<Entry>): (r: seq<nat>)
    ensures |r| == |entries|
  {
    if entries == [] then [] else EntryWords(entries[..|entries| - 1]) + [EntryWord(entries[|entries| - 1])]
  }

  lemma {:induction false} DropWords(entries: seq<Entry>, n: nat)
    requires n <= |entries|
    ensures EntryWords(entries[n..]) == EntryWords(entries)[n..]
  {
    hide EntryWord;
    if n < |entries| {
      var k := |entries| - 1;
      DropWords(entries[..k], n);
      assert entries[n..][..k - n] == entries[..k][n..];
    }
  }

  lemma {:induction false} WordAt(entries: seq<Entry>, k: nat)
    requires k < |entries|
    ensures EntryWords(entries)[k] == EntryWord(entries[k])
  {
    if k < |entries| - 1 { WordAt(entries[..|entries| - 1], k); }
  }

  /** What a completion tells the host: type, slot, and the count modulo 128. */
  function Told(e: Entry): (nat, nat, nat) { (if e.ctype == WRITE then 1 else 0, e.slot, e.cwCnt % 128) }

  function ToldAll(entries: seq<Entry>): seq<(nat, nat, nat)> {
    seq(|entries|, k requires 0 <= k < |entries| => Told(entries[k]))
  }

  /** readCompletionQueueData for all the entries getCompletionQueue finds. */
  function Decoded(payload: seq<nat>): seq<(nat, nat, nat)>
    requires |payload| == 63
  {
    seq(ValidCount(payload), k requires 0 <= k < ValidCount(payload) => EntryFields(HostEntry(payload, k)))
  }

  lemma CountByte(queue: seq<nat>)
    requires |queue| <= 256
    ensures ValidCount(Payload(queue)) == PollSize(|queue|)
  {
    hide AllBytes;
  }

  lemma OneTold(entries: seq<Entry>, k: nat)
    requires k < PollSize(|entries|) && entries[k].slot < 256
    ensures EntryFields(HostEntry(Payload(EntryWords(entries)), k)) == Told(entries[k])
  {
    hide CompletionEntry, EntryFields, Payload, HostEntry, EntryWords;
    var e := entries[k];
    WordAt(entries, k);
    CompletionEntryDecodes(if e.ctype == WRITE then 1 else 0, e.slot, e.cwCnt);
    EntryAt(EntryWords(entries), k);
  }

  /** A poll of at most 256 completions tells the host exactly those it pops. */
  lemma PollTells(entries: seq<Entry>)
    requires |entries| <= 256 && forall k :: 0 <= k < |entries| ==> entries[k].slot < 256
    ensures Decoded(Payload(EntryWords(entries))) == ToldAll(entries[..PollSize(|entries|)])
  {
    var payload, n := Payload(EntryWords(entries)), PollSize(|entries|);
    CountByte(EntryWords(entries));
    hide *;
    DecodedAt(payload);
    ToldAt(entries[..n]);
    forall k | 0 <= k < n ensures Decoded(payload)[k] == ToldAll(entries[..n])[k] { OneTold(entries, k); }
  }

  lemma DecodedAt(payload: seq<nat>)
    requires |payload| == 63
    ensures |Decoded(payload)| == ValidCount(payload) <= 31
    ensures forall k :: 0 <= k < ValidCount(payload) ==> Decoded(payload)[k] == EntryFields(HostEntry(payload, k))
  {}

  lemma ToldAt(entries: seq<Entry>)
    ensures |ToldAll(entries)| == |entries|
    ensures forall k :: 0 <= k < |entries| ==> ToldAll(entries)[k] == Told(entries[k])
  {}
}
