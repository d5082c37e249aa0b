/** Complete reads: paginated lists from an arbitrary server, and the queue read built on them. */
module Pages {
  import opened Types
  import Rejections

  const PAGE_SIZE := 100
  const QUEUE_PAGES := 1000
  const TRIES := 3

  datatype Page<T> = Page(page: Option<int>, size: Option<int>, total: Option<int>, records: Option<seq<T>>)

  datatype Fault = RequestFailed | InvalidPage | ChangingTotal | BadIdentity | TotalExceeded | ShortPage | LimitExceeded

  datatype Listing<T> = Listed(rows: seq<T>) | Failed(fault: Fault)

  /** The answers of a server to the requests for pages 1, 2, 3, and so on. */
  type Server<!T> = nat -> Read<Page<T>>

  predicate PageOK<T>(p: Page<T>, n: nat, maxPages: nat) {
    && p.page == Some(n) && p.size == Some(PAGE_SIZE) && p.total.Some? && 0 <= p.total.value <= maxPages * PAGE_SIZE
    && p.records.Some? && |p.records.value| <= PAGE_SIZE
  }

  /** Pages 1 to k were all answered and well formed. */
  predicate Answered<T>(server: Server<T>, maxPages: nat, k: nat) {
    forall n :: 1 <= n <= k ==> server(n).Got? && PageOK(server(n).value, n, maxPages)
  }

  /** The records of pages 1 to k, in order. */
  function Records<T>(server: Server<T>, maxPages: nat, k: nat): seq<T>
    requires Answered(server, maxPages, k)
  {
    if k == 0 then [] else Records(server, maxPages, k - 1) + server(k).value.records.value
  }

  predicate Identified<T>(rows: seq<T>, id: T -> int) {
    (forall i :: 0 <= i < |rows| ==> id(rows[i]) > 0) && (forall i, j :: 0 <= i < j < |rows| ==> id(rows[i]) != id(rows[j]))
  }

  /** Pages 1 to k are one complete list: every page reports the same total, every page but the last is full,
      identities are positive and distinct, and the records reach the total at page k and not before. */
  predicate Complete<T>(server: Server<T>, maxPages: nat, id: T -> int, k: nat) {
    && 1 <= k <= maxPages && Answered(server, maxPages, k)
    && (forall n :: 1 <= n <= k ==> server(n).value.total == server(1).value.total)
    && (forall n :: 1 <= n < k ==> |server(n).value.records.value| == PAGE_SIZE)
    && Identified(Records(server, maxPages, k), id)
    && |Records(server, maxPages, k)| == server(1).value.total.value
    && (forall n :: 1 <= n < k ==> |Records(server, maxPages, n)| < server(1).value.total.value)
  }

  /** What the first k pages must be for reading to go on. */
  predicate Partial<T>(server: Server<T>, maxPages: nat, id: T -> int, k: nat) {
    && Answered(server, maxPages, k)
    && (forall n :: 1 <= n <= k ==>
          && server(n).value.total == server(1).value.total && |server(n).value.records.value| == PAGE_SIZE
          && |Records(server, maxPages, n)| < server(1).value.total.value)
    && Identified(Records(server, maxPages, k), id)
    && |Records(server, maxPages, k)| == k * PAGE_SIZE
  }

  lemma {:induction false} RecordsExtend<T>(server: Server<T>, maxPages: nat, k: nat, n: nat)
    requires Answered(server, maxPages, k) && n <= k
    ensures Records(server, maxPages, n) <= Records(server, maxPages, k)
  {
    if n < k {
      RecordsExtend(server, maxPages, k - 1, n);
    }
  }

  lemma IdentifiedPrefix<T>(s: seq<T>, t: seq<T>, id: T -> int)
    requires s <= t && Identified(t, id)
    ensures Identified(s, id)
  {
    assert forall i :: 0 <= i < |s| ==> s[i] == t[i];
  }

  /** A complete list of k pages leaves nothing else for shorter readings to have found. */
  lemma CompleteIsPartial<T>(server: Server<T>, maxPages: nat, id: T -> int, k: nat, n: nat)
    requires Complete(server, maxPages, id, k) && n < k
    ensures Partial(server, maxPages, id, n)
  {
    RecordsExtend(server, maxPages, k, n);
    IdentifiedPrefix(Records(server, maxPages, n), Records(server, maxPages, k), id);
    FullPages(server, maxPages, n);
  }

  lemma {:induction false} FullPages<T>(server: Server<T>, maxPages: nat, n: nat)
    requires Answered(server, maxPages, n) && forall m :: 1 <= m <= n ==> |server(m).value.records.value| == PAGE_SIZE
    ensures |Records(server, maxPages, n)| == n * PAGE_SIZE
  {
    if n > 0 {
      FullPages(server, maxPages, n - 1);
    }
  }

  /** If some list is complete, no page up to its last is refused. */
  lemma Refuted<T>(server: Server<T>, maxPages: nat, id: T -> int, n: nat)
    requires 1 <= n && Partial(server, maxPages, id, n - 1)
    requires !Partial(server, maxPages, id, n) && !Complete(server, maxPages, id, n)
    ensures forall k: nat :: !Complete(server, maxPages, id, k)
  {
    forall k: nat ensures !Complete(server, maxPages, id, k) {
      if Complete(server, maxPages, id, k) {
        if n < k {
          CompleteIsPartial(server, maxPages, id, k, n);
        }
      }
    }
  }

  /** Reading never runs out of pages: full pages up to the limit would exceed every acceptable total. */
  lemma StaysBelowLimit<T>(server: Server<T>, maxPages: nat, id: T -> int, n: nat)
    requires Partial(server, maxPages, id, n)
    ensures n == 0 || n < maxPages
  {
    if n > 0 {
      assert |Records(server, maxPages, n)| < server(1).value.total.value;
    }
  }

  lemma IdentifiedAppend<T>(rows: seq<T>, x: T, id: T -> int, ids: set<int>)
    requires Identified(rows, id) && ids == set i | 0 <= i < |rows| :: id(rows[i])
    ensures Identified(rows + [x], id) <==> id(x) > 0 && id(x) !in ids
    ensures ids + {id(x)} == set i | 0 <= i < |rows + [x]| :: id((rows + [x])[i])
  {
    var t := rows + [x];
    assert forall i :: 0 <= i < |rows| ==> t[i] == rows[i];
    assert t[|rows|] == x;
    if id(x) in ids {
      var i :| 0 <= i < |rows| && id(rows[i]) == id(x);
      assert id(t[i]) == id(t[|rows|]);
    }
    forall y ensures y in ids + {id(x)} <==> y in set i | 0 <= i < |t| :: id(t[i]) {
      if y in ids {
        var i :| 0 <= i < |rows| && id(rows[i]) == y;
        assert id(t[i]) == y;
      }
      if y == id(x) {
        assert id(t[|rows|]) == y;
      }
    }
  }

  /** One page's records join the rest, unless an identity is not positive or was seen before. */
  method Join<T(0)>(rows: seq<T>, records: seq<T>, id: T -> int, seen: set<int>) returns (ok: bool, all: seq<T>,
                ids: set<int>)
    requires Identified(rows, id) && seen == set i | 0 <= i < |rows| :: id(rows[i])
    ensures ok == Identified(rows + records, id)
    ensures ok ==> all == rows + records && ids == set i | 0 <= i < |all| :: id(all[i])
  {
    all, ids := rows, seen;
    for k := 0 to |records|
      invariant all == rows + records[..k] && Identified(all, id) && ids == set i | 0 <= i < |all| :: id(all[i])
    {
      var rid := id(records[k]);
      assert rows + records[..k + 1] == all + [records[k]];
      IdentifiedAppend(all, records[k], id, ids);
      if rid <= 0 || rid in ids {
        assert all + [records[k]] <= rows + records;
        if Identified(rows + records, id) {
          IdentifiedPrefix(all + [records[k]], rows + records, id);
        }
        return false, all, ids;
      }
      ids := ids + {rid};
      all := all + [records[k]];
    }
    assert records[..|records|] == records;
    ok := true;
  }

  /** Reads pages until their records reach the total they all report. */
  method ReadAll<T(0)>(server: Server<T>, maxPages: nat, id: T -> int) returns (r: Listing<T>)
    ensures r.Listed? ==> exists k: nat :: Complete(server, maxPages, id, k) && r.rows == Records(server, maxPages, k)
    ensures r.Failed? ==> forall k: nat :: !Complete(server, maxPages, id, k)
    ensures r == Failed(LimitExceeded) ==> maxPages == 0
  {
    var all: seq<T> := [];
    var seen: set<int> := {};
    var total := -1;
    for n := 1 to maxPages + 1
      invariant Partial(server, maxPages, id, n - 1)
      invariant all == Records(server, maxPages, n - 1) && seen == set i | 0 <= i < |all| :: id(all[i])
      invariant total == if n == 1 then -1 else server(1).value.total.value
    {
      var answer := server(n);
      if answer.Unavailable? {
        Refuted(server, maxPages, id, n);
        return Failed(RequestFailed);
      }
      var p := answer.value;
      if !PageOK(p, n, maxPages) {
        Refuted(server, maxPages, id, n);
        return Failed(InvalidPage);
      }
      if total < 0 {
        total := p.total.value;
      }
      if total != p.total.value {
        Refuted(server, maxPages, id, n);
        return Failed(ChangingTotal);
      }
      assert Records(server, maxPages, n) == all + p.records.value;
      var ok, joined, ids := Join(all, p.records.value, id, seen);
      if !ok {
        Refuted(server, maxPages, id, n);
        return Failed(BadIdentity);
      }
      all, seen := joined, ids;
      if |all| > total {
        Refuted(server, maxPages, id, n);
        return Failed(TotalExceeded);
      }
      if |all| == total {
        assert Complete(server, maxPages, id, n);
        return Listed(all);
      }
      if |p.records.value| != PAGE_SIZE {
        Refuted(server, maxPages, id, n);
        return Failed(ShortPage);
      }
    }
    StaysBelowLimit(server, maxPages, id, maxPages);
    r := Failed(LimitExceeded);
  }

  /** There is at most one complete list, so a success says everything about what was read. */
  lemma CompleteUnique<T>(server: Server<T>, maxPages: nat, id: T -> int, j: nat, k: nat)
    requires Complete(server, maxPages, id, j) && Complete(server, maxPages, id, k)
    ensures j == k
  {
  }

  /** A complete list has exactly the reported number of records, all with different identities. */
  lemma CompleteCounts<T>(server: Server<T>, maxPages: nat, id: T -> int, k: nat)
    requires Complete(server, maxPages, id, k)
    ensures var rows := Records(server, maxPages, k);
            && |rows| == server(1).value.total.value == |set i | 0 <= i < |rows| :: id(rows[i])|
            && (k - 1) * PAGE_SIZE <= |rows| <= k * PAGE_SIZE
  {
    CompleteIsPartial(server, maxPages, id, k, k - 1);
    CountIdentities(Records(server, maxPages, k), id);
  }

  lemma {:induction false} CountIdentities<T>(rows: seq<T>, id: T -> int)
    requires Identified(rows, id)
    ensures |set i | 0 <= i < |rows| :: id(rows[i])| == |rows|
  {
    if rows != [] {
      var n := |rows| - 1;
      IdentifiedPrefix(rows[..n], rows, id);
      CountIdentities(rows[..n], id);
      assert (set i | 0 <= i < |rows| :: id(rows[i])) == (set i | 0 <= i < n :: id(rows[..n][i])) + {id(rows[n])};
      assert id(rows[n]) !in (set i | 0 <= i < n :: id(rows[..n][i]));
    }
  }

  // ---------------------------------------------------------------- the queue

  function RowID(q: QueueRow): int { q.id }

  /** Rows without a download identity are only those that no client has taken yet. */
  predicate RowOK(q: QueueRow) {
    && !(q.seriesID.Some? && q.seriesID.value < 0) && !(q.episodeID.Some? && q.episodeID.value < 0)
    && (Rejections.Blank(q.downloadID) ==>
          q.trackedState == "" && (q.status == "delay" || q.status == "downloadClientUnavailable" || q.status == "fallback"))
  }

  /** One attempt at the queue yields these rows. */
  predicate Yields(server: Server<QueueRow>, rows: seq<QueueRow>) {
    exists k :: 0 <= k <= QUEUE_PAGES && Complete(server, QUEUE_PAGES, RowID, k) && rows == Records(server, QUEUE_PAGES, k)
  }

  predicate Fails(server: Server<QueueRow>) {
    forall k :: 0 <= k <= QUEUE_PAGES ==> !Complete(server, QUEUE_PAGES, RowID, k)
  }

  /** Try n is made and succeeds: every try before it failed and was not cancelled. */
  predicate Reaches(servers: nat -> Server<QueueRow>, cancelled: nat -> bool, n: nat) {
    n < TRIES && !Fails(servers(n)) && forall m :: 0 <= m < n ==> Fails(servers(m)) && !cancelled(m)
  }

  method AllIdentified(rows: seq<QueueRow>) returns (ok: bool)
    ensures ok <==> forall q :: q in rows ==> RowOK(q)
  {
    hide RowOK;
    for k := 0 to |rows|
      invariant forall q :: q in rows[..k] ==> RowOK(q)
    {
      assert rows[..k + 1] == rows[..k] + [rows[k]] && rows[k] in rows;
      if !RowOK(rows[k]) { return false; }
    }
    assert rows[..|rows|] == rows;
    ok := true;
  }

  /** What one try at the queue comes to. */
  lemma TryOutcome(server: Server<QueueRow>, r: Listing<QueueRow>)
    requires r.Listed? ==> exists k: nat :: Complete(server, QUEUE_PAGES, RowID, k) && r.rows == Records(server, QUEUE_PAGES, k)
    requires r.Failed? ==> forall k: nat :: !Complete(server, QUEUE_PAGES, RowID, k)
    ensures if r.Listed? then !Fails(server) && Yields(server, r.rows) else Fails(server)
  {
    hide Records;
    if r.Listed? {
      var k: nat :| Complete(server, QUEUE_PAGES, RowID, k) && r.rows == Records(server, QUEUE_PAGES, k);
      WithinPages(server, k);
    }
  }

  lemma WithinPages(server: Server<QueueRow>, k: nat)
    requires Complete(server, QUEUE_PAGES, RowID, k)
    ensures k <= QUEUE_PAGES
  {
    hide Records;
  }

  /** At most three tries at a complete queue; one complete queue with an unidentified row is an error at once.
      Each try meets a server of its own choosing. */
  method ReadQueue(servers: nat -> Server<QueueRow>, cancelled: nat -> bool) returns (r: Read<seq<QueueRow>>)
    ensures r.Got? ==> (forall q :: q in r.value ==> RowOK(q)) && exists n :: Reaches(servers, cancelled, n) && Yields(servers(n), r.value)
    ensures r.Unavailable? ==>
      forall n, rows :: Reaches(servers, cancelled, n) && Yields(servers(n), rows) ==> exists q :: q in rows && !RowOK(q)
  {
    hide RowOK, Fails, Yields, Complete, Records;
    for n := 0 to TRIES
      invariant forall m :: 0 <= m < n ==> Fails(servers(m)) && !cancelled(m)
    {
      var listing := ReadAll(servers(n), QUEUE_PAGES, RowID);
      TryOutcome(servers(n), listing);
      if listing.Listed? {
        var rows := listing.rows;
        assert Reaches(servers, cancelled, n) && Yields(servers(n), rows);
        OneYield(servers, cancelled, n, rows);
        var ok := AllIdentified(rows);
        return if ok then Got(rows) else Unavailable;
      }
      if cancelled(n) { return Unavailable; }
    }
    r := Unavailable;
  }

  lemma OneYield(servers: nat -> Server<QueueRow>, cancelled: nat -> bool, n: nat, rows: seq<QueueRow>)
    requires Reaches(servers, cancelled, n) && Yields(servers(n), rows)
    ensures forall m, other :: Reaches(servers, cancelled, m) && Yields(servers(m), other) ==> other == rows
  {
    forall m, other | Reaches(servers, cancelled, m) && Yields(servers(m), other) ensures other == rows {
      assert m == n;
      var j :| 0 <= j <= QUEUE_PAGES && Complete(servers(n), QUEUE_PAGES, RowID, j) && rows == Records(servers(n), QUEUE_PAGES, j);
      var k :| 0 <= k <= QUEUE_PAGES && Complete(servers(n), QUEUE_PAGES, RowID, k) && other == Records(servers(n), QUEUE_PAGES, k);
      CompleteUnique(servers(n), QUEUE_PAGES, RowID, j, k);
    }
  }
}
