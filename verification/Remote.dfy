/** What the service cannot foresee: its clock, and a remote instance that may answer anything, with everything that was
    asked and answered as ghost history. */
module Remote {
  import opened Types
  import opened State
  import opened Outcomes
  import Policy

  /** The machine's clock. */
  class Clock {
    var time: Time

    constructor (start: Time)
      ensures time == start
    {
      time := start;
    }

    method Now() returns (t: Time)
      modifies this
      ensures t == time > old(time)
    {
      var reading: Time := *;
      time := if reading > time then reading else time + 1;
      t := time;
    }
  }

  /** The current state of an episode for a replacement search: its series, whether episode and series are
      monitored (a missing series state is None), and whether its file is acceptable. */
  datatype Target = Target(seriesID: int, episodeMonitored: bool, seriesMonitored: Option<bool>, acceptable: bool)

  /** One question with its answer. */
  datatype Reading =
    | VersionRead(version: Read<bool>)
    | QueueRead(queue: Read<seq<QueueRow>>)
    | DownloadRead(id: string, seen: Read<Policy.Observation>)
    | EvidenceRead(about: Attempt, evidence: Reads)
    | EpisodeRead(eid: int, target: Read<Target>)
    | AnswerRead(sent: Attempt, reply: Read<int>)
    | CancelRead(cancelled: bool)

  /** The remote instance, and cancellation: every answer is possible at any time. `said` is everything that was asked
      and answered, and `sent` every mutation that was transmitted. */
  class Sonarr {
    ghost var said: seq<Reading>
    ghost var sent: seq<Attempt>

    constructor ()
      ensures said == [] && sent == []
    {
      said, sent := [], [];
    }

    method Version() returns (r: Read<bool>)
      modifies this`said
      ensures said == old(said) + [VersionRead(r)]
    {
      r := *;
      said := said + [VersionRead(r)];
    }

    method Queue() returns (r: Read<seq<QueueRow>>)
      modifies this`said
      ensures said == old(said) + [QueueRead(r)]
    {
      r := *;
      said := said + [QueueRead(r)];
    }

    /** Everything read about one eligible download. */
    method Observe(id: string, rows: seq<QueueRow>, queue: seq<QueueRow>) returns (r: Read<Policy.Observation>)
      modifies this`said
      ensures said == old(said) + [DownloadRead(id, r)]
      ensures r.Got? ==> r.value.downloadID == id && r.value.rows == rows && r.value.queue == queue
    {
      r := *;
      if r.Got? {
        r := Got(r.value.(downloadID := id, rows := rows, queue := queue));
      }
      said := said + [DownloadRead(id, r)];
    }

    /** The evidence about one attempt. */
    method Evidence(a: Attempt) returns (r: Reads)
      modifies this`said
      ensures ReadsFor(a, r) && said == old(said) + [EvidenceRead(a, r)]
    {
      r := *;
      if |r.currents| != |a.decision.episodeIDs| {
        r := r.(currents := seq(|a.decision.episodeIDs|, _ => Unavailable));
      }
      said := said + [EvidenceRead(a, r)];
    }

    method Episode(eid: int) returns (r: Read<Target>)
      modifies this`said
      ensures said == old(said) + [EpisodeRead(eid, r)]
    {
      r := *;
      said := said + [EpisodeRead(eid, r)];
    }

    /** Transmits a mutation. The answer is an acknowledgement with a command, or nothing certain. */
    method Send(a: Attempt) returns (r: Read<int>)
      modifies this
      ensures said == old(said) + [AnswerRead(a, r)] && sent == old(sent) + [a]
    {
      r := *;
      said, sent := said + [AnswerRead(a, r)], sent + [a];
    }

    method Cancelled() returns (b: bool)
      modifies this`said
      ensures said == old(said) + [CancelRead(b)]
    {
      b := *;
      said := said + [CancelRead(b)];
    }
  }

  // ---------------------------------------------------------------- what was heard

  /** The answer came between the two moments. */
  ghost predicate Heard(before: seq<Reading>, after: seq<Reading>, x: Reading) {
    before <= after && x in after[|before|..]
  }

  lemma HeardOne(before: seq<Reading>, x: Reading)
    ensures Heard(before, before + [x], x)
  {
    assert (before + [x])[|before|..] == [x];
  }

  lemma HeardLater(before: seq<Reading>, after: seq<Reading>, x: Reading)
    requires Heard(before, after, x)
    ensures before <= after
  {
  }

  /** What was heard within a span was heard within every longer one. */
  lemma HeardWithin(a: seq<Reading>, b: seq<Reading>, c: seq<Reading>, d: seq<Reading>)
    requires a <= b <= c <= d
    ensures forall x :: Heard(b, c, x) ==> Heard(a, d, x)
  {
    forall x | Heard(b, c, x) ensures Heard(a, d, x) {
      var k :| 0 <= k < |c[|b|..]| && c[|b|..][k] == x;
      assert d[|a|..][|b| + k - |a|] == x;
    }
  }

  // ---------------------------------------------------------------- targets of a search

  /** Episode and series are monitored, and no acceptable file is there. */
  predicate Lacking(t: Target) {
    t.seriesMonitored == Some(true) && t.episodeMonitored && !t.acceptable
  }

  /** The episodes whose series and own monitoring ask for a file they do not acceptably have. */
  function Wanted(episodes: seq<int>, found: seq<Target>): seq<int>
    requires |episodes| == |found|
  {
    if episodes == [] then []
    else
      var n := |episodes| - 1;
      var rest := Wanted(episodes[..n], found[..n]);
      if Lacking(found[n]) then rest + [episodes[n]] else rest
  }

  /** They are exactly the monitored ones without an acceptable file, in their order. */
  lemma {:induction false} WantedAt(episodes: seq<int>, found: seq<Target>) returns (at: seq<int>)
    requires |episodes| == |found|
    ensures Picks(episodes, found, Wanted(episodes, found), at)
  {
    hide Picks;
    if episodes == [] {
      at := [];
      NothingPicked();
    } else {
      var n := |episodes| - 1;
      at := WantedAt(episodes[..n], found[..n]);
      PicksMore(episodes, found, Wanted(episodes[..n], found[..n]), at);
      if Lacking(found[n]) {
        at := at + [n];
      }
    }
  }

  /** The positions are, in order, exactly those of the episodes that lack a file, and these are the episodes there. */
  predicate Picks(episodes: seq<int>, found: seq<Target>, wanted: seq<int>, at: seq<int>) {
    && |at| == |wanted| && |found| == |episodes| && (forall i, j :: 0 <= i < j < |at| ==> at[i] < at[j])
    && (forall i :: 0 <= i < |at| ==> 0 <= at[i] < |episodes| && wanted[i] == episodes[at[i]])
    && forall k :: 0 <= k < |episodes| ==>
         (k in at <==> found[k].seriesMonitored == Some(true) && found[k].episodeMonitored && !found[k].acceptable)
  }

  lemma NothingPicked()
    ensures Picks([], [], [], [])
  {
  }

  lemma PicksMore(episodes: seq<int>, found: seq<Target>, rest: seq<int>, at: seq<int>)
    requires |episodes| == |found| > 0 && Picks(episodes[..|episodes| - 1], found[..|episodes| - 1], rest, at)
    ensures var n := |episodes| - 1;
            if Lacking(found[n]) then Picks(episodes, found, rest + [episodes[n]], at + [n]) else Picks(episodes, found, rest, at)
  {
    var n := |episodes| - 1;
    assert n in at + [n] && n !in at;
    assert forall k :: 0 <= k < n ==> found[..n][k] == found[k] && (k in at + [n] <==> k in at);
  }

  /** Every one of the episodes was read, as found, and each lies in the scope. */
  ghost predicate TargetsRead(c: Config, before: seq<Reading>, after: seq<Reading>, episodes: seq<int>,
                              found: seq<Target>) {
    && |found| == |episodes|
    && forall k :: 0 <= k < |found| ==>
         && Heard(before, after, EpisodeRead(episodes[k], Got(found[k])))
         && Policy.SeriesAllowed(c, found[k].seriesID) && found[k].seriesMonitored.Some?
  }

  lemma NothingFound(c: Config, before: seq<Reading>, after: seq<Reading>)
    ensures TargetsRead(c, before, after, [], []) && Wanted([], []) == []
  {
  }

  lemma TargetsWithin(c: Config, a: seq<Reading>, b: seq<Reading>, d: seq<Reading>, e: seq<Reading>, episodes: seq<int>,
                      found: seq<Target>)
    requires a <= b <= d <= e && TargetsRead(c, b, d, episodes, found)
    ensures TargetsRead(c, a, e, episodes, found)
  {
    hide Heard, Policy.SeriesAllowed;
    HeardWithin(a, b, d, e);
  }

  lemma OneFound(c: Config, before: seq<Reading>, mid: seq<Reading>, after: seq<Reading>, episodes: seq<int>, j: nat,
                 found: seq<Target>, t: Target)
    requires before <= mid <= after && j < |episodes| && TargetsRead(c, before, mid, episodes[..j], found)
    requires Heard(before, after, EpisodeRead(episodes[j], Got(t)))
    requires Policy.SeriesAllowed(c, t.seriesID) && t.seriesMonitored.Some?
    ensures TargetsRead(c, before, after, episodes[..j + 1], found + [t])
    ensures Wanted(episodes[..j + 1], found + [t]) == Wanted(episodes[..j], found) + (if Lacking(t) then [episodes[j]] else [])
  {
    hide Heard, Policy.SeriesAllowed;
    TargetsWithin(c, before, before, mid, after, episodes[..j], found);
    assert episodes[..j + 1][..j] == episodes[..j] && (found + [t])[..j] == found;
    forall k | 0 <= k < |found + [t]|
      ensures Heard(before, after, EpisodeRead(episodes[..j + 1][k], Got((found + [t])[k])))
    {
      if k < j {
        assert episodes[..j][k] == episodes[k];
      }
    }
  }
}
