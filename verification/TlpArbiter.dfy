/** The four TLP queues and the rotating token that serves them. */
module TlpArbiter {
  import opened Shares

  datatype TLPQueueType = MEM_READ_CMD_Q | MEM_READ_DATA_Q | MEM_WRITE_DATA_Q | MEM_WRITE_COMP_Q | NONE

  /** The queue the token stands for. */
  function Turn(token: nat): TLPQueueType {
    match token
    case 0 => MEM_READ_CMD_Q
    case 1 => MEM_READ_DATA_Q
    case 2 => MEM_WRITE_DATA_Q
    case 3 => MEM_WRITE_COMP_Q
    case _ => NONE
  }

  function Number(qType: TLPQueueType): nat {
    match qType
    case MEM_READ_CMD_Q => 0
    case MEM_READ_DATA_Q => 1
    case MEM_WRITE_DATA_Q => 2
    case MEM_WRITE_COMP_Q => 3
    case NONE => 4
  }

  /** The four queues by number; an element names one TLP. */
  datatype Arbiter = Arbiter(token: nat, queues: seq<seq<nat>>)
  {
    predicate Valid() { token < 4 && |queues| == 4 }
  }

  datatype Act = Push(qType: nat, tlp: nat) | Call

  function Step(a: Arbiter, act: Act): (r: Arbiter)
    requires a.Valid()
    ensures r.Valid()
  {
    match act
    case Push(q, tlp) => if q < 4 then a.(queues := a.queues[q := a.queues[q] + [tlp]]) else a
    case Call =>
      var t := a.token;
      Arbiter((t + 1) % 4, if a.queues[t] == [] then a.queues else a.queues[t := a.queues[t][1..]])
  }

  /** What one call of the arbiter does: the token moves on by one; `r` is NONE exactly when the queue it
      stood at is empty, and otherwise names that queue, which loses its front. No other queue changes. */
  predicate Served(a: Arbiter, a': Arbiter, r: TLPQueueType)
    requires a.Valid()
  {
    && a' == Step(a, Call) && a'.Valid() && a'.token == (a.token + 1) % 4
    && (r == NONE <==> a.queues[a.token] == []) && (r != NONE ==> Number(r) == a.token)
    && (r != NONE ==> a.queues[a.token][1..] == a'.queues[a.token])
    && (forall q :: 0 <= q < 4 && q != Number(r) ==> a'.queues[q] == a.queues[q])
  }

  function Exec(a: Arbiter, acts: seq<Act>): (r: Arbiter)
    requires a.Valid()
    ensures r.Valid()
  {
    if acts == [] then a else Step(Exec(a, acts[..|acts| - 1]), acts[|acts| - 1])
  }

  /** The TLPs sent from queue `q`, in order. */
  function Sent(a: Arbiter, acts: seq<Act>, q: nat): seq<nat>
    requires a.Valid() && q < 4
  {
    if acts == [] then [] else
      var before, b := Sent(a, acts[..|acts| - 1], q), Exec(a, acts[..|acts| - 1]);
      if acts[|acts| - 1].Call? && b.token == q && b.queues[q] != [] then before + [b.queues[q][0]] else before
  }

  function Pushed(acts: seq<Act>, q: nat): seq<nat> {
    if acts == [] then [] else
      var before, last := Pushed(acts[..|acts| - 1], q), acts[|acts| - 1];
      if last.Push? && last.qType == q then before + [last.tlp] else before
  }

  function Calls(acts: seq<Act>): nat {
    if acts == [] then 0 else Calls(acts[..|acts| - 1]) + if acts[|acts| - 1].Call? then 1 else 0
  }

  /** Each queue is a FIFO: what was sent, then what is left, is what was there and what was pushed. */
  lemma {:induction false} Fifo(a: Arbiter, acts: seq<Act>, q: nat)
    requires a.Valid() && q < 4
    ensures Sent(a, acts, q) + Exec(a, acts).queues[q] == a.queues[q] + Pushed(acts, q)
  {
    if acts != [] {
      var before := acts[..|acts| - 1];
      Fifo(a, before, q);
      var b := Exec(a, before);
      if acts[|acts| - 1].Push? {
        assert a.queues[q] + (Pushed(before, q) + [acts[|acts| - 1].tlp]) == a.queues[q] + Pushed(before, q) + [acts[|acts| - 1].tlp];
      } else if b.token == q && b.queues[q] != [] {
        assert Sent(a, before, q) + [b.queues[q][0]] + b.queues[q][1..] == Sent(a, before, q) + b.queues[q];
      }
    }
  }

  lemma {:induction false} TokenAt(a: Arbiter, acts: seq<Act>)
    requires a.Valid()
    ensures Exec(a, acts).token == (a.token + Calls(acts)) % 4
  {
    if acts != [] { TokenAt(a, acts[..|acts| - 1]); }
  }

  /** The token visits `q` once in four calls; a visit sends unless the queue is empty, and the TLPs
      that were there at first are not overtaken. */
  lemma {:induction false} SentBounds(a: Arbiter, acts: seq<Act>, q: nat)
    requires a.Valid() && q < 4
    ensures var visits := Share(a.token, Calls(acts), 4, q);
            && |Sent(a, acts, q)| <= visits
            && (|Sent(a, acts, q)| >= visits || |Sent(a, acts, q)| >= |a.queues[q]|)
  {
    if acts != [] {
      var before := acts[..|acts| - 1];
      SentBounds(a, before, q);
      TokenAt(a, before);
      Fifo(a, before, q);
      assert |Sent(a, before, q)| + |Exec(a, before).queues[q]| == |a.queues[q]| + |Pushed(before, q)|;
    }
  }

  /** How many calls until the token stands at `q`. */
  function Wait(token: nat, q: nat): nat
    requires q < 4
  {
    Ahead(token, 4, q)
  }

  /** A TLP at position k of queue q is sent by the call number 4k + wait + 1, not earlier and not
      later, whatever is pushed meanwhile: within 4(k + 1) calls. */
  lemma BoundedService(a: Arbiter, acts: seq<Act>, q: nat, k: nat)
    requires a.Valid() && q < 4 && k < |a.queues[q]|
    ensures |Sent(a, acts, q)| > k <==> Calls(acts) >= 4 * k + Wait(a.token, q) + 1
    ensures |Sent(a, acts, q)| > k ==> Sent(a, acts, q)[k] == a.queues[q][k]
    ensures 4 * k + Wait(a.token, q) + 1 <= 4 * (k + 1)
  {
    SentBounds(a, acts, q);
    ShareIs(a.token, Calls(acts), 4, q);
    Fifo(a, acts, q);
    if |Sent(a, acts, q)| > k {
      assert Sent(a, acts, q)[k] == (Sent(a, acts, q) + Exec(a, acts).queues[q])[k];
    }
  }

  /** Queue `q` is not empty at any moment of the run. */
  ghost predicate StaysNonEmpty(a: Arbiter, acts: seq<Act>, q: nat)
    requires a.Valid() && q < 4
  {
    forall n :: 0 <= n <= |acts| ==> Exec(a, acts[..n]).queues[q] != []
  }

  lemma {:induction false} AlwaysSends(a: Arbiter, acts: seq<Act>, q: nat)
    requires a.Valid() && q < 4 && StaysNonEmpty(a, acts, q)
    ensures |Sent(a, acts, q)| == Share(a.token, Calls(acts), 4, q)
  {
    if acts != [] {
      var before := acts[..|acts| - 1];
      forall n | 0 <= n <= |before| ensures Exec(a, before[..n]).queues[q] != [] { assert before[..n] == acts[..n]; }
      AlwaysSends(a, before, q);
      TokenAt(a, before);
    }
  }

  /** Two queues that stay non-empty are served equally often, to within one. */
  lemma FairService(a: Arbiter, acts: seq<Act>, q: nat, r: nat)
    requires a.Valid() && q < 4 && r < 4 && StaysNonEmpty(a, acts, q) && StaysNonEmpty(a, acts, r)
    ensures -1 <= |Sent(a, acts, q)| - |Sent(a, acts, r)| <= 1
  {
    AlwaysSends(a, acts, q);
    AlwaysSends(a, acts, r);
    SharesEven(a.token, Calls(acts), 4, q, r);
  }

  // ---- the queues and the token in the controller ------------------------------------------

  class TLPManager {
    var mMemRdCmdQueue: seq<nat>
    var mMemRdDataQueue: seq<nat>
    var mMemWriteDataQueue: seq<nat>
    var mMemWriteCompletionQueue: seq<nat>
    const mSize: nat

    function Queues(): (r: seq<seq<nat>>)
      reads this
      ensures |r| == 4 && r[0] == mMemRdCmdQueue && r[1] == mMemRdDataQueue
      ensures r[2] == mMemWriteDataQueue && r[3] == mMemWriteCompletionQueue
    {
      [mMemRdCmdQueue, mMemRdDataQueue, mMemWriteDataQueue, mMemWriteCompletionQueue]
    }

    constructor (size: nat)
      ensures Queues() == [[], [], [], []] && mSize == size
    {
      mSize := size;
      mMemRdCmdQueue, mMemRdDataQueue, mMemWriteDataQueue, mMemWriteCompletionQueue := [], [], [], [];
    }

    method PushTLP(qType: TLPQueueType, data: nat) returns (ok: bool)
      modifies this
      ensures ok <==> qType != NONE
      ensures Queues() == if ok then old(Queues())[Number(qType) := old(Queues())[Number(qType)] + [data]] else old(Queues())
    {
      ok := true;
      match qType
      case MEM_READ_CMD_Q => mMemRdCmdQueue := mMemRdCmdQueue + [data];
      case MEM_READ_DATA_Q => mMemRdDataQueue := mMemRdDataQueue + [data];
      case MEM_WRITE_DATA_Q => mMemWriteDataQueue := mMemWriteDataQueue + [data];
      case MEM_WRITE_COMP_Q => mMemWriteCompletionQueue := mMemWriteCompletionQueue + [data];
      case NONE => ok := false;
    }

    method PopTLP(qType: TLPQueueType) returns (data: nat)
      requires qType != NONE && Queues()[Number(qType)] != []
      modifies this
      ensures data == old(Queues())[Number(qType)][0]
      ensures Queues() == old(Queues())[Number(qType) := old(Queues())[Number(qType)][1..]]
    {
      match qType
      case MEM_READ_CMD_Q => data, mMemRdCmdQueue := mMemRdCmdQueue[0], mMemRdCmdQueue[1..];
      case MEM_READ_DATA_Q => data, mMemRdDataQueue := mMemRdDataQueue[0], mMemRdDataQueue[1..];
      case MEM_WRITE_DATA_Q => data, mMemWriteDataQueue := mMemWriteDataQueue[0], mMemWriteDataQueue[1..];
      case MEM_WRITE_COMP_Q => data, mMemWriteCompletionQueue := mMemWriteCompletionQueue[0], mMemWriteCompletionQueue[1..];
    }

    method IsEmpty(qType: TLPQueueType) returns (isEmpty: bool)
      requires qType != NONE
      ensures isEmpty <==> Queues()[Number(qType)] == []
    {
      match qType
      case MEM_READ_CMD_Q => isEmpty := |mMemRdCmdQueue| == 0;
      case MEM_READ_DATA_Q => isEmpty := |mMemRdDataQueue| == 0;
      case MEM_WRITE_DATA_Q => isEmpty := |mMemWriteDataQueue| == 0;
      case MEM_WRITE_COMP_Q => isEmpty := |mMemWriteCompletionQueue| == 0;
    }

    method IsFull(qType: TLPQueueType) returns (isFull: bool)
      requires qType != NONE
      ensures isFull <==> |Queues()[Number(qType)]| == mSize
    {
      match qType
      case MEM_READ_CMD_Q => isFull := |mMemRdCmdQueue| == mSize;
      case MEM_READ_DATA_Q => isFull := |mMemRdDataQueue| == mSize;
      case MEM_WRITE_DATA_Q => isFull := |mMemWriteDataQueue| == mSize;
      case MEM_WRITE_COMP_Q => isFull := |mMemWriteCompletionQueue| == mSize;
    }
  }

  class TokenArbiter {
    const mTLPQueueMgr: TLPManager
    var mArbiterToken: nat

    function Model(): Arbiter
      reads this, mTLPQueueMgr
    {
      Arbiter(mArbiterToken, mTLPQueueMgr.Queues())
    }

    constructor (queues: TLPManager)
      ensures mTLPQueueMgr == queues && mArbiterToken == 0
    {
      mTLPQueueMgr := queues;
      mArbiterToken := 0;
    }

    /** queueArbiter: the queue to serve, if the token stands at one that has a TLP. */
    method QueueArbiter() returns (r: TLPQueueType)
      requires mArbiterToken < 4
      modifies this
      ensures mArbiterToken == (old(mArbiterToken) + 1) % 4
      ensures r == if mTLPQueueMgr.Queues()[old(mArbiterToken)] == [] then NONE else Turn(old(mArbiterToken))
    {
      r := Turn(mArbiterToken);
      var empty := mTLPQueueMgr.IsEmpty(r);
      if empty { r := NONE; }
      mArbiterToken := mArbiterToken + 1;
      if mArbiterToken > 3 { mArbiterToken := 0; }
    }

    /** One turn of arbiterThread: the call and the pop it leads to are one step of the model. */
    method Arbitrate() returns (r: TLPQueueType, tlp: nat)
      requires Model().Valid()
      modifies this, mTLPQueueMgr
      ensures Model().Valid() && Model() == Step(old(Model()), Call)
      ensures r == if old(Model()).queues[old(mArbiterToken)] == [] then NONE else Turn(old(mArbiterToken))
      ensures r != NONE ==> tlp == old(Model()).queues[old(mArbiterToken)][0]
    {
      r := QueueArbiter();
      tlp := 0;
      if r != NONE { tlp := mTLPQueueMgr.PopTLP(r); }
    }
  }
}
