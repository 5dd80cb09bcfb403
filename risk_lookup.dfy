/**
 * The server's start-up fill of the risk table: every row of the risk layer
 * (u, v, k, risk probability) is stored under (u, v, k) and under the reversed
 * direction (v, u, k), a later row overwriting an earlier one.
 */
module RiskLookup {
  import opened Backend

  datatype RiskRow = RiskRow(u: Node, v: Node, k: Key, risk: real)

  function Forward(row: RiskRow): EdgeId { EdgeId(row.u, row.v, row.k) }
  function Backward(row: RiskRow): EdgeId { EdgeId(row.v, row.u, row.k) }
  function Reversed(id: EdgeId): EdgeId { EdgeId(id.v, id.u, id.k) }

  /** Whether a row writes the entry `id`. */
  predicate Writes(row: RiskRow, id: EdgeId) {
    id == Forward(row) || id == Backward(row)
  }

  /** The table after the rows have been inserted in order. After each insert
      both directions of the row just inserted hold that row's value. */
  function TableOf(rows: seq<RiskRow>): (t: map<EdgeId, real>)
    ensures rows != [] ==> var last := rows[|rows| - 1];
              Forward(last) in t && t[Forward(last)] == last.risk
              && Backward(last) in t && t[Backward(last)] == last.risk
  {
    if rows == [] then map[]
    else
      var last := rows[|rows| - 1];
      TableOf(rows[..|rows| - 1])[Forward(last) := last.risk][Backward(last) := last.risk]
  }

  /** The table is symmetric: an entry and its reverse are both present and equal. */
  lemma {:induction false} TableSymmetric(rows: seq<RiskRow>, id: EdgeId)
    requires id in TableOf(rows)
    ensures Reversed(id) in TableOf(rows) && TableOf(rows)[Reversed(id)] == TableOf(rows)[id]
  {
    var n := |rows| - 1;
    var last := rows[n];
    if !Writes(last, id) {
      TableSymmetric(rows[..n], id);
    }
  }

  /** The keys are exactly the entries some row writes. */
  lemma {:induction false} TableKeys(rows: seq<RiskRow>, id: EdgeId)
    ensures id in TableOf(rows) <==> exists i :: 0 <= i < |rows| && Writes(rows[i], id)
  {
    if rows != [] {
      var n := |rows| - 1;
      TableKeys(rows[..n], id);
      if exists i :: 0 <= i < n && Writes(rows[..n][i], id) {
        var i :| 0 <= i < n && Writes(rows[..n][i], id);
        assert Writes(rows[i], id);
      }
      if exists i :: 0 <= i < |rows| && Writes(rows[i], id) {
        var i :| 0 <= i < |rows| && Writes(rows[i], id);
        if i < n {
          assert Writes(rows[..n][i], id);
        }
      }
    }
  }

  /** Each entry holds the value of the last row that writes it. */
  lemma {:induction false} LastWriterWins(rows: seq<RiskRow>, i: nat, id: EdgeId)
    requires i < |rows| && Writes(rows[i], id)
    requires forall j :: i < j < |rows| ==> !Writes(rows[j], id)
    ensures id in TableOf(rows) && TableOf(rows)[id] == rows[i].risk
  {
    var n := |rows| - 1;
    if i < n {
      assert forall j :: i < j < n ==> rows[..n][j] == rows[j];
      LastWriterWins(rows[..n], i, id);
    }
  }

  /** The start-up loop. */
  method FillRiskLookup(rows: seq<RiskRow>) returns (lookup: map<EdgeId, real>)
    ensures lookup == TableOf(rows)
  {
    lookup := map[];
    for i := 0 to |rows|
      invariant lookup == TableOf(rows[..i])
    {
      var r := rows[i];
      assert rows[..i + 1][..i] == rows[..i];
      var val := r.risk;
      lookup := lookup[EdgeId(r.u, r.v, r.k) := val];
      lookup := lookup[EdgeId(r.v, r.u, r.k) := val];
    }
    assert rows[..|rows|] == rows;
  }
}
