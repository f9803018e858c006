/** The data buffer: 64-byte rows, read and written by whole blocks (one per slot) on the host's side
    and by code words (one per PCMDQ entry) on the channels' side. */
module DataBuffer {
  import opened Rows
  import opened Words

  const WIDTH: nat := 64

  /** The first `n` rows of a byte string. */
  function RowsOf(data: seq<nat>, n: nat): (r: seq<Row>)
    requires WIDTH * n <= |data|
    ensures |r| == n && forall i :: 0 <= i < n ==> |r[i]| == WIDTH
  {
    seq(n, i requires 0 <= i < n => data[WIDTH * i..WIDTH * i + WIDTH])
  }

  /** The buffer after `n` rows of data were copied to row `a`. */
  function Stored(rows: seq<Row>, a: nat, data: seq<nat>, n: nat): (r: seq<Row>)
    requires a + n <= |rows| && WIDTH * n <= |data|
    ensures |r| == |rows|
  {
    rows[..a] + RowsOf(data, n) + rows[a + n..]
  }

  class DataBufferManager {
    const cwShift: nat      // log2(mCodeWordSize) - 6
    const blockShift: nat   // log2(mBlockSize) - 6
    const mDataBuffer: array<Row>

    ghost predicate Valid() reads this, mDataBuffer {
      forall k :: 0 <= k < mDataBuffer.Length ==> |mDataBuffer[k]| == WIDTH
    }

    constructor (blockShift: nat, cwShift: nat, queueSize: nat)
      ensures Valid() && this.blockShift == blockShift && this.cwShift == cwShift
      ensures fresh(mDataBuffer) && mDataBuffer.Length == Up(queueSize, cwShift)
    {
      this.blockShift, this.cwShift := blockShift, cwShift;
      mDataBuffer := new Row[Up(queueSize, cwShift)](_ => seq(WIDTH, _ => 0));
    }

    /** writeBlockData: whole rows only, a remainder of fewer than 64 bytes is not copied. */
    method WriteBlockData(slotNum: nat, dataPtr: seq<nat>)
      requires Valid() && Up(slotNum, blockShift) + |dataPtr| / WIDTH <= mDataBuffer.Length
      modifies mDataBuffer
      ensures Valid() && mDataBuffer[..] == Stored(old(mDataBuffer[..]), Up(slotNum, blockShift), dataPtr, |dataPtr| / WIDTH)
    {
      CopyIn(Up(slotNum, blockShift), dataPtr, |dataPtr| / WIDTH);
    }

    method WriteCWData(cmdQueueNum: nat, dataPtr: seq<nat>)
      requires Valid() && Up(cmdQueueNum, cwShift) + Up(1, cwShift) <= mDataBuffer.Length
      requires WIDTH * Up(1, cwShift) <= |dataPtr|
      modifies mDataBuffer
      ensures Valid() && mDataBuffer[..] == Stored(old(mDataBuffer[..]), Up(cmdQueueNum, cwShift), dataPtr, Up(1, cwShift))
    {
      CopyIn(Up(cmdQueueNum, cwShift), dataPtr, Up(1, cwShift));
    }

    /** readBlockData: fills the caller's buffer row by row, and leaves a remainder as it is. */
    method ReadBlockData(slotNum: nat, dataPtr: array<nat>)
      requires Valid() && Up(slotNum, blockShift) + dataPtr.Length / WIDTH <= mDataBuffer.Length
      modifies dataPtr
      ensures var a, n := Up(slotNum, blockShift), dataPtr.Length / WIDTH;
              dataPtr[..] == Flat(mDataBuffer[a..a + n]) + old(dataPtr[WIDTH * n..])
    {
      CopyOut(Up(slotNum, blockShift), dataPtr, dataPtr.Length / WIDTH);
    }

    method ReadCWData(cmdQueueNum: nat, dataPtr: array<nat>)
      requires Valid() && Up(cmdQueueNum, cwShift) + Up(1, cwShift) <= mDataBuffer.Length
      requires WIDTH * Up(1, cwShift) <= dataPtr.Length
      modifies dataPtr
      ensures var a, n := Up(cmdQueueNum, cwShift), Up(1, cwShift);
              dataPtr[..] == Flat(mDataBuffer[a..a + n]) + old(dataPtr[WIDTH * n..])
    {
      CopyOut(Up(cmdQueueNum, cwShift), dataPtr, Up(1, cwShift));
    }

    /** The copying loops. */
    method CopyIn(address: nat, dataPtr: seq<nat>, n: nat)
      requires Valid() && address + n <= mDataBuffer.Length && WIDTH * n <= |dataPtr|
      modifies mDataBuffer
      ensures Valid() && mDataBuffer[..] == Stored(old(mDataBuffer[..]), address, dataPtr, n)
    {
      for dataIndex := 0 to n
        invariant Valid()
        invariant forall k :: 0 <= k < dataIndex ==> mDataBuffer[address + k] == RowsOf(dataPtr, n)[k]
        invariant forall k :: 0 <= k < mDataBuffer.Length && !(address <= k < address + dataIndex) ==>
                    mDataBuffer[k] == old(mDataBuffer[k])
      {
        mDataBuffer[address + dataIndex] := dataPtr[dataIndex * WIDTH..dataIndex * WIDTH + WIDTH];
      }
      assert forall k :: address <= k < address + n ==> mDataBuffer[k] == RowsOf(dataPtr, n)[k - address] by {
        forall k | address <= k < address + n ensures mDataBuffer[k] == RowsOf(dataPtr, n)[k - address] {
          assert mDataBuffer[address + (k - address)] == RowsOf(dataPtr, n)[k - address];
        }
      }
    }

    method CopyOut(address: nat, dataPtr: array<nat>, n: nat)
      requires Valid() && address + n <= mDataBuffer.Length && WIDTH * n <= dataPtr.Length
      modifies dataPtr
      ensures dataPtr[..] == Flat(mDataBuffer[address..address + n]) + old(dataPtr[WIDTH * n..])
    {
      hide Flat;
      ghost var rows := mDataBuffer[address..address + n];
      FlatEmpty();
      for dataIndex := 0 to n
        invariant dataPtr[..WIDTH * dataIndex] == Flat(rows[..dataIndex])
        invariant dataPtr[WIDTH * dataIndex..] == old(dataPtr[WIDTH * dataIndex..])
      {
        CopyRow(dataPtr, WIDTH * dataIndex, mDataBuffer[address + dataIndex]);
        FlatNext(rows, dataIndex);
      }
      assert rows[..n] == rows;
      assert dataPtr[..] == dataPtr[..WIDTH * n] + dataPtr[WIDTH * n..];
    }
  }

  /** memcpy of one row. */
  method CopyRow(dst: array<nat>, at: nat, row: Row)
    requires at + |row| <= dst.Length
    modifies dst
    ensures dst[..at + |row|] == old(dst[..at]) + row
    ensures dst[at + |row|..] == old(dst[at + |row|..])
  {
    forall k | 0 <= k < |row| { dst[at + k] := row[k]; }
  }

  // ---- the code-word view ------------------------------------------------------------------

  /** The bytes of code word `q`, `S` being the code word's row shift. */
  function CodeWord(rows: seq<Row>, S: nat, q: nat): seq<nat>
    requires Up(q, S) + Up(1, S) <= |rows|
  {
    Flat(rows[Up(q, S)..Up(q, S) + Up(1, S)])
  }

  lemma {:induction false} FlatRows(data: seq<nat>, n: nat)
    requires WIDTH * n <= |data|
    ensures Flat(RowsOf(data, n)) == data[..WIDTH * n]
  {
    if n > 0 {
      FlatRows(data, n - 1);
      assert RowsOf(data, n)[..n - 1] == RowsOf(data, n - 1);
    }
  }

  /** A slice of what was stored is the same slice of the data. */
  lemma StoredSlice(rows: seq<Row>, a: nat, data: seq<nat>, n: nat, i: nat, k: nat)
    requires a + n <= |rows| && WIDTH * n <= |data| && i + k <= n
    ensures Flat(Stored(rows, a, data, n)[a + i..a + i + k]) == data[WIDTH * i..WIDTH * (i + k)]
  {
    var sub := data[WIDTH * i..];
    forall j | 0 <= j < k ensures RowsOf(data, n)[i + j] == RowsOf(sub, k)[j] {
      assert data[WIDTH * (i + j)..WIDTH * (i + j) + WIDTH] == sub[WIDTH * j..WIDTH * j + WIDTH];
    }
    assert Stored(rows, a, data, n)[a + i..a + i + k] == RowsOf(sub, k);
    FlatRows(sub, k);
  }

  lemma StoredElsewhere(rows: seq<Row>, a: nat, data: seq<nat>, n: nat, from: nat, to: nat)
    requires a + n <= |rows| && WIDTH * n <= |data| && from <= to <= |rows|
    requires to <= a || a + n <= from
    ensures Stored(rows, a, data, n)[from..to] == rows[from..to]
  {}

  /** Code word i of the block of `slot` starts i code words into it. */
  lemma CodeWordPlace(slot: nat, i: nat, S: nat, T: nat)
    ensures Up(Up(slot, T) + i, S) == Up(slot, T + S) + Up(i, S)
    ensures Up(i + 1, S) == Up(i, S) + Up(1, S)
  {
    UpPlus(Up(slot, T), i, S);
    UpUp(slot, T, S);
    UpPlus(i, 1, S);
  }

  lemma UpMonotone(x: nat, y: nat, n: nat)
    requires x <= y
    ensures Up(x, n) <= Up(y, n)
  {
    UpPlus(x, y - x, n);
  }

  /** Piece `i` of a block. */
  function Piece(data: seq<nat>, S: nat, i: nat): seq<nat> {
    if WIDTH * (Up(i, S) + Up(1, S)) <= |data| then data[WIDTH * Up(i, S)..WIDTH * (Up(i, S) + Up(1, S))] else []
  }

  /** A block written through its slot reads back piece by piece as the code words at
      `(slot << mAddrShifter) + i`; every other code word is untouched. */
  lemma BlockThenCodeWord(rows: seq<Row>, S: nat, T: nat, slot: nat, data: seq<nat>, n: nat, q: nat)
    requires |data| == WIDTH * Up(n, S) && Up(slot, T + S) + Up(n, S) <= |rows| && Up(q, S) + Up(1, S) <= |rows|
    ensures var base := Up(slot, T);
            CodeWord(Stored(rows, Up(slot, T + S), data, Up(n, S)), S, q)
              == if base <= q < base + n then Piece(data, S, q - base) else CodeWord(rows, S, q)
  {
    hide Flat, Stored, Up;
    var base, a := Up(slot, T), Up(slot, T + S);
    CodeWordPlace(slot, 0, S, T);
    UpPlus(0, 0, S);
    if base <= q < base + n {
      var i := q - base;
      CodeWordPlace(slot, i, S, T);
      UpMonotone(i + 1, n, S);
      StoredSlice(rows, a, data, Up(n, S), Up(i, S), Up(1, S));
    } else {
      CodeWordPlace(slot, n, S, T);
      UpPlus(q, 1, S);
      if q < base { UpMonotone(q + 1, base, S); } else { UpMonotone(base + n, q, S); }
      StoredElsewhere(rows, a, data, Up(n, S), Up(q, S), Up(q, S) + Up(1, S));
    }
  }

  /** A code word reads back as written, and writing it changes no other. */
  lemma CodeWordThenCodeWord(rows: seq<Row>, S: nat, p: nat, data: seq<nat>, q: nat)
    requires |data| == WIDTH * Up(1, S) && Up(p, S) + Up(1, S) <= |rows| && Up(q, S) + Up(1, S) <= |rows|
    ensures CodeWord(Stored(rows, Up(p, S), data, Up(1, S)), S, q) == if q == p then data else CodeWord(rows, S, q)
  {
    hide Flat, Stored, Up;
    UpPlus(p, 1, S);
    UpPlus(q, 1, S);
    if q == p {
      StoredSlice(rows, Up(p, S), data, Up(1, S), 0, Up(1, S));
    } else {
      if q < p { UpMonotone(q + 1, p, S); } else { UpMonotone(p + 1, q, S); }
      StoredElsewhere(rows, Up(p, S), data, Up(1, S), Up(q, S), Up(q, S) + Up(1, S));
    }
  }

  function Concat(parts: seq<seq<nat>>): seq<nat> {
    if parts == [] then [] else Concat(parts[..|parts| - 1]) + parts[|parts| - 1]
  }

  /** The code words stored one after the other at `q`, `q + 1`, ... */
  function WriteAll(rows: seq<Row>, S: nat, q: nat, parts: seq<seq<nat>>): (r: seq<Row>)
    requires Parts(rows, S, q, parts)
    ensures |r| == |rows|
  {
    if parts == [] then rows else
      var n := |parts| - 1;
      (UpMonotone(q + n, q + n + 1, S);
       UpPlus(q + n, 1, S);
       Stored(WriteAll(rows, S, q, parts[..n]), Up(q + n, S), parts[n], Up(1, S)))
  }

  predicate Parts(rows: seq<Row>, S: nat, q: nat, parts: seq<seq<nat>>) {
    Up(q + |parts|, S) <= |rows| && forall i :: 0 <= i < |parts| ==> |parts[i]| == WIDTH * Up(1, S)
  }

  lemma LastWrite(rows: seq<Row>, S: nat, q: nat, parts: seq<seq<nat>>)
    requires Parts(rows, S, q, parts) && parts != []
    ensures var n := |parts| - 1;
            && Parts(rows, S, q, parts[..n]) && Up(q, S) <= Up(q + n, S)
            && Up(q + |parts|, S) == Up(q + n, S) + Up(1, S) && |parts[n]| == WIDTH * Up(1, S)
            && WriteAll(rows, S, q, parts) == Stored(WriteAll(rows, S, q, parts[..n]), Up(q + n, S), parts[n], Up(1, S))
  {
    hide Up, Stored;
    var n := |parts| - 1;
    UpPlus(q + n, 1, S);
    UpMonotone(q, q + n, S);
  }

  /** Code words written one by one read back through the slot as the concatenated block. */
  lemma {:induction false} CodeWordsThenBlock(rows: seq<Row>, S: nat, q: nat, parts: seq<seq<nat>>)
    requires Parts(rows, S, q, parts)
    ensures Up(q, S) <= Up(q + |parts|, S)
    ensures Flat(WriteAll(rows, S, q, parts)[Up(q, S)..Up(q + |parts|, S)]) == Concat(parts)
  {
    UpMonotone(q, q + |parts|, S);
    hide Flat, Stored, Up, WriteAll, Parts;
    if parts == [] {
      assert Flat(WriteAll(rows, S, q, parts)[Up(q, S)..Up(q, S)]) == [] by { FlatEmpty(); }
    } else {
      var n := |parts| - 1;
      LastWrite(rows, S, q, parts);
      CodeWordsThenBlock(rows, S, q, parts[..n]);
      LastPart(WriteAll(rows, S, q, parts[..n]), Up(q, S), Up(q + n, S), Up(1, S), parts[n]);
    }
  }

  lemma LastPart(rows: seq<Row>, from: nat, a: nat, n: nat, data: seq<nat>)
    requires from <= a && a + n <= |rows| && |data| == WIDTH * n
    ensures Flat(Stored(rows, a, data, n)[from..a + n]) == Flat(rows[from..a]) + data
  {
    var rows' := Stored(rows, a, data, n);
    assert rows'[from..a + n] == rows'[from..a] + rows'[a..a + n];
    FlatJoin(rows'[from..a], rows'[a..a + n]);
    StoredSlice(rows, a, data, n, 0, n);
    StoredElsewhere(rows, a, data, n, from, a);
  }

  /** Two slots never share a row. */
  lemma SlotsApart(slot: nat, other: nat, S: nat, T: nat, n: nat)
    requires slot < other && n <= Pow2(T)
    ensures Up(slot, T + S) + Up(n, S) <= Up(other, T + S)
  {
    UpIsProduct(1, T);
    UpUp(1, T, S);
    UpMonotone(n, Up(1, T), S);
    UpPlus(slot, 1, T + S);
    UpMonotone(slot + 1, other, T + S);
  }
}
