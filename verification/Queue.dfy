/** Queue rows: tracked-state eligibility, identity, and grouping by download. */
module Queue {
  import opened Types

  predicate RowEligible(q: QueueRow) {
    q.downloadID != "" && q.status == "completed"
    && (q.trackedState == "importBlocked" || q.trackedState == "importFailed" || q.trackedState == "importPending")
  }

  predicate Eligible(rows: seq<QueueRow>) {
    rows != [] && forall q :: q in rows ==> RowEligible(q)
  }

  function OrZero(x: Option<int>): int {
    match x
    case Some(v) => v
    case None => 0
  }

  function KeyOfRow(q: QueueRow): RowKey {
    RowKey(q.downloadID, q.client, q.outputPath, q.title, OrZero(q.seriesID), OrZero(q.episodeID))
  }

  /** The identity of a group of rows. The service hashes the fully sorted keys, so order is immaterial. */
  function QueueIdentity(rows: seq<QueueRow>): multiset<RowKey> {
    if rows == [] then multiset{} else multiset{KeyOfRow(rows[0])} + QueueIdentity(rows[1..])
  }

  /** The rows of one download, in queue order. */
  function RowsOf(queue: seq<QueueRow>, id: string): seq<QueueRow> {
    if queue == [] then []
    else
      var r := RowsOf(queue[..|queue| - 1], id);
      if queue[|queue| - 1].downloadID == id then r + [queue[|queue| - 1]] else r
  }

  /** They are exactly the rows of the download, in the order of the queue. */
  lemma {:induction false} RowsOfAt(queue: seq<QueueRow>, id: string) returns (at: seq<int>)
    ensures |at| == |RowsOf(queue, id)| && forall i, j :: 0 <= i < j < |at| ==> at[i] < at[j]
    ensures forall i :: 0 <= i < |at| ==> 0 <= at[i] < |queue| && RowsOf(queue, id)[i] == queue[at[i]]
    ensures forall k :: 0 <= k < |queue| ==> (k in at <==> queue[k].downloadID == id)
  {
    if queue == [] {
      at := [];
    } else {
      var n := |queue| - 1;
      at := RowsOfAt(queue[..n], id);
      if queue[n].downloadID == id {
        at := at + [n];
        assert n in at;
      }
    }
  }

  /** Groups tracked rows by download; rows without a download identity belong to none. */
  method Group(queue: seq<QueueRow>) returns (g: map<string, seq<QueueRow>>)
    ensures forall id :: id in g <==> id != "" && RowsOf(queue, id) != []
    ensures forall id :: id in g ==> g[id] == RowsOf(queue, id)
  {
    g := map[];
    for i := 0 to |queue|
      invariant forall id :: id in g <==> id != "" && RowsOf(queue[..i], id) != []
      invariant forall id :: id in g ==> g[id] == RowsOf(queue[..i], id)
    {
      assert queue[..i + 1][..i] == queue[..i];
      var q := queue[i];
      if q.downloadID != "" {
        var rows := if q.downloadID in g then g[q.downloadID] else [];
        g := g[q.downloadID := rows + [q]];
      }
    }
    assert queue[..|queue|] == queue;
  }
}
