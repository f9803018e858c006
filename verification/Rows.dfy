/** Memory handled in rows (or pages): the bytes are the rows one after the other. */
module Rows {

  type Row = seq<nat>

  function Flat(rows: seq<Row>): seq<nat> {
    if rows == [] then [] else Flat(rows[..|rows| - 1]) + rows[|rows| - 1]
  }

  lemma FlatEmpty()
    ensures Flat([]) == []
  {}

  lemma FlatNext(rows: seq<Row>, k: nat)
    requires k < |rows|
    ensures Flat(rows[..k + 1]) == Flat(rows[..k]) + rows[k]
  {
    assert rows[..k + 1][..k] == rows[..k];
  }

  lemma {:induction false} FlatJoin(x: seq<Row>, y: seq<Row>)
    ensures Flat(x + y) == Flat(x) + Flat(y)
  {
    if y == [] {
      assert x + y == x;
    } else {
      var n := |y| - 1;
      FlatJoin(x, y[..n]);
      assert (x + y)[..|x| + n] == x + y[..n];
    }
  }
}
