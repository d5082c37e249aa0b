/** Waiting is never fabricated: recorded waits are bounded by what the scans behind them really observed. */
module Waits {
  import opened Types
  import opened State
  import opened Queue
  import opened Waiting
  import opened System
  import opened Outcomes
  import Policy

  // ---------------------------------------------------------------- what scans observed

  predicate Sees(e: Event, id: string) {
    e.Complete? && id in e.sights
  }

  predicate RejectedIn(e: Event, id: string) {
    Sees(e, id) && e.sights[id].Rejected()
  }

  /** The last scan in which the download was queued. */
  function LastSighting(h: seq<Event>, id: string): (r: Option<Event>)
    ensures r.Some? ==> r.value in h && Sees(r.value, id)
  {
    if h == [] then None
    else if Sees(h[|h| - 1], id) then Some(h[|h| - 1])
    else LastSighting(h[..|h| - 1], id)
  }

  /** The download is queued as it last was: eligible, and under the same identity. */
  predicate Unchanged(h: seq<Event>, sight: Sight, id: string) {
    var p := LastSighting(h, id);
    && p.Some? && Eligible(sight.rows) && Eligible(p.value.sights[id].rows)
    && QueueIdentity(p.value.sights[id].rows) == QueueIdentity(sight.rows)
  }

  /** The real time between two successive scans that both saw the download, at most two polls apart, capped at
      one poll; anything in between breaks the pair. */
  function Pair(c: Config, a: Event, b: Event, id: string): Duration {
    if Sees(a, id) && Sees(b, id) && 0 < b.now - a.now <= 2 * c.pollInterval then Min(b.now - a.now, c.pollInterval) else 0
  }

  /** The eligible time of a download under its present identity: the pairs since it last became eligible under it. */
  function Streak(c: Config, h: seq<Event>, id: string): (r: Duration)
    ensures c.pollInterval > 0 ==> r >= 0
  {
    if h == [] then 0
    else
      var n := |h| - 1;
      if !Sees(h[n], id) then Streak(c, h[..n], id)
      else if !Unchanged(h[..n], h[n].sights[id], id) then 0
      else Streak(c, h[..n], id) + Pair(c, h[n - 1], h[n], id)
  }

  /** When the rejection of the download was last observed; 0 if never, or not since it cleared, since the download
      changed, or since a failed scan. */
  function RejectedSince(h: seq<Event>, id: string): Time {
    if h == [] then 0
    else
      var n := |h| - 1;
      if h[n].Gap? then 0
      else if !Sees(h[n], id) then RejectedSince(h[..n], id)
      else if RejectedIn(h[n], id) then h[n].now
      else if h[n].sights[id].view.Some? || !Unchanged(h[..n], h[n].sights[id], id) then 0
      else RejectedSince(h[..n], id)
  }

  /** The rejected time of a download under its present identity: pairs of successive rejected observations at most
      two polls apart, capped at one poll, since the rejection last began. A failed scan breaks a pair. */
  function RejectedStreak(c: Config, h: seq<Event>, id: string): (r: Duration)
    ensures c.pollInterval > 0 ==> r >= 0
  {
    if h == [] then 0
    else
      var n := |h| - 1;
      if !Sees(h[n], id) then RejectedStreak(c, h[..n], id)
      else if !Unchanged(h[..n], h[n].sights[id], id) then 0
      else if h[n].sights[id].view.None? then RejectedStreak(c, h[..n], id)
      else if !RejectedIn(h[n], id) then 0
      else RejectedStreak(c, h[..n], id) + RejectedPair(c, RejectedSince(h[..n], id), h[n].now)
  }

  function RejectedPair(c: Config, since: Time, now: Time): Duration {
    if since != 0 && 0 < now - since <= 2 * c.pollInterval then Min(c.pollInterval, now - since) else 0
  }

  /** The observed time that counts towards the removal of a download. */
  function CleanupStreak(c: Config, h: seq<Event>, id: string): Duration {
    if h != [] && RejectedIn(h[|h| - 1], id) then RejectedStreak(c, h, id) else Streak(c, h, id)
  }

  /** The time between two successive scans that both saw the download eligible under one identity. */
  function EligiblePair(c: Config, a: Event, b: Event, id: string): Duration {
    if Sees(a, id) && Sees(b, id) && Eligible(a.sights[id].rows) && Eligible(b.sights[id].rows)
       && QueueIdentity(a.sights[id].rows) == QueueIdentity(b.sights[id].rows)
    then Pair(c, a, b, id) else 0
  }

  /** All such time in everything that happened; a failed scan or a restart breaks a pair. */
  function Observed(c: Config, scans: seq<Event>, id: string): (r: Duration)
    ensures c.pollInterval > 0 ==> r >= 0
  {
    if |scans| < 2 then 0
    else Observed(c, scans[..|scans| - 1], id) + EligiblePair(c, scans[|scans| - 2], scans[|scans| - 1], id)
  }

  predicate Ascending(h: seq<Event>) {
    forall i, j :: 0 <= i < j < |h| && h[i].Complete? && h[j].Complete? ==> h[i].now < h[j].now
  }

  // ---------------------------------------------------------------- one more event

  lemma GrownSighting(h: seq<Event>, e: Event, id: string)
    ensures LastSighting(h + [e], id) == if Sees(e, id) then Some(e) else LastSighting(h, id)
    ensures RejectedSince(h + [e], id) ==
      if e.Gap? then 0
      else if !Sees(e, id) then RejectedSince(h, id)
      else if RejectedIn(e, id) then e.now
      else if e.sights[id].view.Some? || !Unchanged(h, e.sights[id], id) then 0
      else RejectedSince(h, id)
  {
    hide Unchanged;
    assert (h + [e])[..|h|] == h;
  }

  lemma GrownStreaks(c: Config, h: seq<Event>, e: Event, id: string)
    ensures !Sees(e, id) ==> Streak(c, h + [e], id) == Streak(c, h, id) && RejectedStreak(c, h + [e], id) == RejectedStreak(c, h, id)
    ensures Sees(e, id) && !Unchanged(h, e.sights[id], id) ==> Streak(c, h + [e], id) == 0 && RejectedStreak(c, h + [e], id) == 0
    ensures Sees(e, id) && Unchanged(h, e.sights[id], id) ==>
      && h != [] && Streak(c, h + [e], id) == Streak(c, h, id) + Pair(c, h[|h| - 1], e, id)
      && RejectedStreak(c, h + [e], id) ==
           if e.sights[id].view.None? then RejectedStreak(c, h, id)
           else if !RejectedIn(e, id) then 0
           else RejectedStreak(c, h, id) + RejectedPair(c, RejectedSince(h, id), e.now)
  {
    hide RejectedSince, RejectedPair, Pair, Eligible, QueueIdentity;
    var more := h + [e];
    assert more[..|h|] == h && more[|h|] == e;
    assert h != [] ==> more[|h| - 1] == h[|h| - 1];
  }

  // ---------------------------------------------------------------- what a record may claim

  /** The record of a download against the events its data has gone through. */
  predicate Backed(c: Config, h: seq<Event>, id: string, i: Issue) {
    var p := LastSighting(h, id);
    && p.Some? && i.lastSeen == p.value.now && i.identity == QueueIdentity(p.value.sights[id].rows)
    && (i.eligible ==> Eligible(p.value.sights[id].rows))
    && 0 <= i.elapsed <= Streak(c, h, id)
    && (i.rejectedLastSeen == 0 || i.rejectedLastSeen == RejectedSince(h, id))
    && 0 <= i.rejectedElapsed <= RejectedStreak(c, h, id)
  }

  ghost predicate AllBacked(c: Config, h: seq<Event>, issues: map<string, Issue>) {
    forall id :: id in issues ==> Backed(c, h, id, issues[id])
  }

  /** The record holds what the scan at this instant read of the download. */
  predicate AsSeen(i: Issue, sight: Sight, now: Time) {
    && i.lastSeen == now && i.eligible == Eligible(sight.rows) && i.identity == QueueIdentity(sight.rows)
    && (sight.Rejected() ==> i.rejected && i.rejectedLastSeen == now)
  }

  /** There is a previous scan exactly if the last event is one, and the records agree with what it read. */
  predicate Fresh(s: Sys) {
    && (s.previous != 0 <==> s.seen != [] && s.seen[|s.seen| - 1].Complete?)
    && (s.previous != 0 ==>
          && s.seen[|s.seen| - 1].now == s.previous
          && (forall id :: id in s.mem.data.issues && Viewed(s.seen[|s.seen| - 1], id) ==>
                s.mem.data.issues[id].rejected == RejectedIn(s.seen[|s.seen| - 1], id))
          && (forall id :: id in s.mem.data.issues && Sees(s.seen[|s.seen| - 1], id) ==>
                AsSeen(s.mem.data.issues[id], s.seen[|s.seen| - 1].sights[id], s.previous)))
  }

  ghost predicate Traced(s: Sys) {
    && Ascending(s.seen) && Ascending(s.saved) && Ascending(s.scans)
    && (forall e :: e in s.seen ==> e in s.scans) && (forall e :: e in s.saved ==> e in s.scans)
  }

  /** Every scan left only decisions that can be acted on. */
  ghost predicate Sensible(c: Config, h: seq<Event>) {
    forall e, id :: e in h && Viewed(e, id) ==>
      e.sights[id].view.value.Coherent() && Policy.InScope(c, e.sights[id].rows, e.sights[id].view.value.decision)
  }

  ghost predicate WaitInv(c: Config, s: Sys) {
    && Traced(s) && Sensible(c, s.seen) && Sensible(c, s.saved) && Fresh(s)
    && AllBacked(c, s.seen, s.mem.data.issues) && AllBacked(c, s.saved, s.disk.data.issues)
    && (forall t :: t in s.log ==> Waited(c, t))
    && (s.phase.Armed? ==> Waited(c, s.phase.tx))
  }

  /** The action is the one that the last scan before it decided, within the configured scope, and if it removes a
      blocked download that scan read the rejection. */
  predicate Followed(c: Config, t: Tx) {
    var a, h, id := t.attempt, t.seen, t.attempt.downloadID;
    && h != [] && Viewed(h[|h| - 1], id) && a.kind == a.decision.kind
    && Agrees(a.decision, h[|h| - 1].sights[id].view.value.decision)
    && Shown(a.decision) && (forall q :: q in h[|h| - 1].sights[id].rows ==> Policy.ClientAllowed(c, q.client))
    && Policy.SeriesInScope(c, a.decision) && (a.kind.RemoveBlocked? ==> RejectedIn(h[|h| - 1], id))
  }

  /** Unless it overrode waiting, the action had its configured wait of really observed time: an import of
      eligible time, a removal of rejected time if that scan read a rejection and otherwise of eligible time. */
  predicate Ripe(c: Config, t: Tx) {
    var a, id := t.attempt, t.attempt.downloadID;
    || a.waitOverride
    || (if a.kind.Import? then c.recoveryWait <= Streak(c, t.seen, id)
        else CleanupWait(c, Some(a.decision)) <= CleanupStreak(c, t.seen, id))
  }

  predicate Waited(c: Config, t: Tx) {
    t.attempt.kind.Search? || (Followed(c, t) && Ripe(c, t))
  }

  // ---------------------------------------------------------------- scans

  /** The record a scan starts from. */
  function Prior(s: Sys, id: string, now: Time): Issue {
    if id in s.mem.data.issues then s.mem.data.issues[id] else NewIssue(id, now)
  }

  function Next(c: Config, s: Sys, now: Time, sight: Sight, id: string): Issue {
    Advance(c, s.previous, now, Prior(s, id, now), sight, HasUnresolved(s.mem.data, id))
  }

  /** A record that does not start over is of a download that is queued as it last was. */
  lemma KeptUnchanged(c: Config, h: seq<Event>, id: string, i: Issue, sight: Sight)
    requires Backed(c, h, id, i) && Eligible(sight.rows) && i.eligible && QueueIdentity(sight.rows) == i.identity
    ensures Unchanged(h, sight, id)
  {
    hide Eligible, QueueIdentity, Streak, RejectedStreak, RejectedSince, LastSighting;
  }

  lemma OnlyLast(h: seq<Event>, k: nat)
    requires Ascending(h) && k < |h| && h[k].Complete? && h[|h| - 1].Complete?
    ensures h[k].now == h[|h| - 1].now <==> k == |h| - 1
  {
  }

  /** A download that was last seen at the instant of the last scan was seen by it. */
  lemma SightedLast(h: seq<Event>, id: string)
    requires Ascending(h) && h != [] && h[|h| - 1].Complete?
    requires LastSighting(h, id).Some? && LastSighting(h, id).value.now == h[|h| - 1].now
    ensures Sees(h[|h| - 1], id)
  {
    var p := LastSighting(h, id).value;
    var k :| 0 <= k < |h| && h[k] == p;
    OnlyLast(h, k);
  }

  lemma FreshLast(s: Sys)
    requires Fresh(s) && s.previous != 0
    ensures s.seen != [] && s.seen[|s.seen| - 1].Complete? && s.seen[|s.seen| - 1].now == s.previous
  {
  }

  /** The eligible clock of one record after a scan. */
  lemma NextElapsed(c: Config, s: Sys, now: Time, sights: map<string, Sight>, id: string)
    requires WaitInv(c, s) && c.pollInterval > 0 && id in sights
    ensures 0 <= Next(c, s, now, sights[id], id).elapsed <= Streak(c, s.seen + [Complete(now, sights)], id)
  {
    hide Advance, Eligible, QueueIdentity, Streak, RejectedStreak, RejectedSince, LastSighting, Unchanged, Fresh;
    hide Ascending, HasUnresolved, Waited;
    var e, i := Complete(now, sights), Prior(s, id, now);
    AdvancesElapsed(c, s.previous, now, i, sights[id], HasUnresolved(s.mem.data, id));
    GrownStreaks(c, s.seen, e, id);
    if i.eligible && Eligible(sights[id].rows) && QueueIdentity(sights[id].rows) == i.identity {
      KeptUnchanged(c, s.seen, id, i, sights[id]);
      if Continues(c, i, sights[id], s.previous, now) {
        FreshLast(s);
        SightedLast(s.seen, id);
      }
    }
  }

  /** The rejected clock of one record after a scan. */
  lemma NextRejected(c: Config, s: Sys, now: Time, sights: map<string, Sight>, id: string)
    requires WaitInv(c, s) && c.pollInterval > 0 && now > 2 * c.pollInterval && id in sights
    ensures var j, h := Next(c, s, now, sights[id], id), s.seen + [Complete(now, sights)];
            && 0 <= j.rejectedElapsed <= RejectedStreak(c, h, id)
            && (j.rejectedLastSeen == 0 || j.rejectedLastSeen == RejectedSince(h, id))
            && (sights[id].view.Some? ==> j.rejected == sights[id].Rejected())
  {
    hide Advance, Eligible, QueueIdentity, Streak, RejectedStreak, RejectedSince, LastSighting, Unchanged, Fresh;
    hide Ascending, HasUnresolved, Waited, Pair;
    var e, i := Complete(now, sights), Prior(s, id, now);
    AdvancesRejected(c, s.previous, now, i, sights[id], HasUnresolved(s.mem.data, id));
    GrownStreaks(c, s.seen, e, id);
    GrownSighting(s.seen, e, id);
    if i.eligible && Eligible(sights[id].rows) && QueueIdentity(sights[id].rows) == i.identity {
      KeptUnchanged(c, s.seen, id, i, sights[id]);
    }
  }

  lemma PresentBacked(c: Config, s: Sys, now: Time, sights: map<string, Sight>, id: string)
    requires WaitInv(c, s) && c.pollInterval > 0 && now > 2 * c.pollInterval && id in sights
    ensures Backed(c, s.seen + [Complete(now, sights)], id, Next(c, s, now, sights[id], id))
  {
    hide Advance, Eligible, QueueIdentity, Streak, RejectedStreak, RejectedSince, LastSighting, Unchanged, WaitInv;
    hide HasUnresolved, Resets, Continues;
    NextElapsed(c, s, now, sights, id);
    NextRejected(c, s, now, sights, id);
    GrownSighting(s.seen, Complete(now, sights), id);
    AdvancesElapsed(c, s.previous, now, Prior(s, id, now), sights[id], HasUnresolved(s.mem.data, id));
  }

  /** Events in which the download is not seen leave its record backed. */
  lemma UnseenBacked(c: Config, h: seq<Event>, e: Event, id: string, i: Issue, j: Issue)
    requires Backed(c, h, id, i) && !Sees(e, id) && c.pollInterval > 0
    requires j.lastSeen == i.lastSeen && j.identity == i.identity && (j.eligible ==> i.eligible)
    requires (j.elapsed == i.elapsed || j.elapsed == 0)
        && (j.rejectedElapsed == i.rejectedElapsed || j.rejectedElapsed == 0)
    requires j.rejectedLastSeen == 0 || (j.rejectedLastSeen == i.rejectedLastSeen && !e.Gap?)
    ensures Backed(c, h + [e], id, j)
  {
    hide Eligible, QueueIdentity, Streak, RejectedStreak, RejectedSince, LastSighting;
    GrownSighting(h, e, id);
    GrownStreaks(c, h, e, id);
  }

  lemma ScanBacked(c: Config, s: Sys, now: Time, sights: map<string, Sight>)
    requires WaitInv(c, s) && c.pollInterval > 0 && now > 2 * c.pollInterval
    ensures AllBacked(c, s.seen + [Complete(now, sights)], Scanned(c, s.previous, now, s.mem.data, sights))
  {
    hide Advance, Backed, HasUnresolved, Waited, Eligible;
    var after := Scanned(c, s.previous, now, s.mem.data, sights);
    forall id | id in after
      ensures Backed(c, s.seen + [Complete(now, sights)], id, after[id])
    {
      if id in sights {
        assert after[id] == Next(c, s, now, sights[id], id);
        PresentBacked(c, s, now, sights, id);
      } else {
        UnseenBacked(c, s.seen, Complete(now, sights), id, s.mem.data.issues[id], after[id]);
      }
    }
  }

  lemma LaterAscends(h: seq<Event>, e: Event)
    requires Ascending(h) && (e.Complete? ==> AfterAll(h, e.now))
    ensures Ascending(h + [e])
  {
    forall i, j | 0 <= i < j < |h + [e]| && (h + [e])[i].Complete? && (h + [e])[j].Complete?
      ensures (h + [e])[i].now < (h + [e])[j].now
    {
      assert h[i] in h;
    }
  }

  lemma ScanFresh(c: Config, s: Sys, now: Time, sights: map<string, Sight>)
    requires WaitInv(c, s) && c.pollInterval > 0 && now > 2 * c.pollInterval && Enabled(c, s, Scan(now, sights))
    ensures Fresh(Apply(c, s, Scan(now, sights)))
  {
    hide Advance, Backed, WaitInv, HasUnresolved, Eligible, QueueIdentity;
    var after, e := Scanned(c, s.previous, now, s.mem.data, sights), Complete(now, sights);
    forall id | id in after && Sees(e, id)
      ensures AsSeen(after[id], sights[id], now) && (Viewed(e, id) ==> after[id].rejected == RejectedIn(e, id))
    {
      assert after[id] == Next(c, s, now, sights[id], id);
      ClocksExact(c, s.previous, now, Prior(s, id, now), sights[id], HasUnresolved(s.mem.data, id));
    }
  }

  lemma ScanTraced(c: Config, s: Sys, now: Time, sights: map<string, Sight>)
    requires Traced(s) && Sensible(c, s.seen) && Enabled(c, s, Scan(now, sights))
    ensures Traced(Apply(c, s, Scan(now, sights))) && Sensible(c, s.seen + [Complete(now, sights)])
  {
    hide Scanned, Ascending, Queue.Eligible, Policy.InScope;
    LaterAscends(s.seen, Complete(now, sights));
    LaterAscends(s.scans, Complete(now, sights));
  }

  lemma ScanKeepsWaits(c: Config, s: Sys, now: Time, sights: map<string, Sight>)
    requires WaitInv(c, s) && c.pollInterval > 0 && now > 2 * c.pollInterval && Enabled(c, s, Scan(now, sights))
    ensures WaitInv(c, Apply(c, s, Scan(now, sights)))
  {
    hide Scanned, Traced, Sensible, Fresh, AllBacked, Waited, Observes;
    ScanBacked(c, s, now, sights);
    ScanFresh(c, s, now, sights);
    ScanTraced(c, s, now, sights);
  }

  /** A scan credits in full the time since a scan just before it that saw the download as it is now. */
  lemma PairCredited(c: Config, s: Sys, now: Time, sights: map<string, Sight>, id: string)
    requires WaitInv(c, s) && c.pollInterval > 0 && Enabled(c, s, Scan(now, sights)) && id in sights
        && id in s.mem.data.issues
    requires s.seen != [] && Sees(s.seen[|s.seen| - 1], id) && s.mem.data.issues[id].state != Resolved
    requires now - s.seen[|s.seen| - 1].now <= 2 * c.pollInterval
    requires Eligible(sights[id].rows) && Eligible(s.seen[|s.seen| - 1].sights[id].rows)
    requires QueueIdentity(s.seen[|s.seen| - 1].sights[id].rows) == QueueIdentity(sights[id].rows)
    ensures var i, j, last := s.mem.data.issues[id], Apply(c, s, Scan(now, sights)).mem.data.issues[id], s.seen[|s.seen| - 1];
            && j.elapsed == i.elapsed + Min(now - last.now, c.pollInterval)
            && (RejectedIn(last, id) && sights[id].Rejected() ==>
                  j.rejectedElapsed == i.rejectedElapsed + Min(c.pollInterval, now - last.now))
  {
    hide Advance, Backed, HasUnresolved, Eligible, QueueIdentity, Ascending, Sensible, Waited, AllBacked, Observes;
    var i, last := s.mem.data.issues[id], s.seen[|s.seen| - 1];
    assert AsSeen(i, last.sights[id], s.previous) && last in s.scans && now > last.now;
    ClocksExact(c, s.previous, now, i, sights[id], HasUnresolved(s.mem.data, id));
  }

  // ---------------------------------------------------------------- failed scans and restarts

  lemma MissBacked(c: Config, s: Sys, now: Time)
    requires WaitInv(c, s) && c.pollInterval > 0
    ensures AllBacked(c, s.seen + [Gap], Missed(Expire(s.mem.data, now).issues))
  {
    hide Backed, Waited, Traced, Sensible;
    var after := Missed(Expire(s.mem.data, now).issues);
    forall id | id in after
      ensures Backed(c, s.seen + [Gap], id, after[id])
    {
      UnseenBacked(c, s.seen, Gap, id, s.mem.data.issues[id], after[id]);
    }
  }

  lemma MissKeepsWaits(c: Config, s: Sys, now: Time)
    requires WaitInv(c, s) && c.pollInterval > 0 && Enabled(c, s, Miss(now))
    ensures WaitInv(c, Apply(c, s, Miss(now)))
  {
    hide Backed, Waited, Expire, Ascending;
    MissBacked(c, s, now);
    LaterAscends(s.seen, Gap);
    LaterAscends(s.scans, Gap);
  }

  lemma ReopenKeepsWaits(c: Config, s: Sys, now: Time)
    requires WaitInv(c, s) && c.pollInterval > 0 && Enabled(c, s, Reopen(now))
    ensures WaitInv(c, Apply(c, s, Reopen(now)))
  {
    hide Backed, Waited, Ascending;
    LaterAscends(s.saved, Restart);
    LaterAscends(s.scans, Restart);
    forall id | id in s.disk.data.issues
      ensures Backed(c, s.saved + [Restart], id, s.disk.data.issues[id])
    {
      UnseenBacked(c, s.saved, Restart, id, s.disk.data.issues[id], s.disk.data.issues[id]);
    }
  }

  // ---------------------------------------------------------------- steps that observe nothing

  /** The clocks of a record are those of an earlier copy of it. */
  predicate SameClock(i: Issue, j: Issue) {
    && i.elapsed == j.elapsed && i.lastSeen == j.lastSeen && i.rejected == j.rejected
    && i.rejectedElapsed == j.rejectedElapsed
    && i.identity == j.identity && i.eligible == j.eligible && j.rejectedLastSeen == i.rejectedLastSeen
  }

  predicate SameClocks(a: map<string, Issue>, b: map<string, Issue>) {
    forall id :: id in b ==> id in a && SameClock(a[id], b[id])
  }

  lemma SameClocksBacked(c: Config, h: seq<Event>, a: map<string, Issue>, b: map<string, Issue>)
    requires AllBacked(c, h, a) && SameClocks(a, b)
    ensures AllBacked(c, h, b)
  {
    hide Streak, RejectedStreak, RejectedSince, LastSighting, Eligible, QueueIdentity;
  }

  lemma PruneClocks(c: Config, d: Data, now: Time)
    ensures SameClocks(d.issues, Prune(c, d, now).issues)
  {
  }

  lemma SettleClocks(c: Config, d: Data, j: nat, b: Attempt, now: Time)
    requires j < |d.attempts|
    ensures SameClocks(d.issues, Settle(c, d, j, b, now).issues)
  {
    assert CloseOperation(d.(attempts := d.attempts[j := b]), b.downloadID).issues == d.issues;
  }

  lemma RecordedClocks(d: Data, a: Attempt)
    ensures SameClocks(d.issues, Recorded(d, a).issues)
  {
  }

  predicate Calm(a: Action) { !a.Scan? && !a.Miss? && !a.Reopen? }

  lemma CalmIssues(c: Config, s: Sys, a: Action)
    requires Enabled(c, s, a) && Calm(a)
    ensures SameClocks(s.mem.data.issues, Apply(c, s, a).mem.data.issues)
  {
    hide Gate, Verdict, Settle, Recorded, Prune, NewAttempt, MayReserve;
    match a
    case Verify(j, absent, evidence, now) => SettleClocks(c, s.mem.data, j, Verdict(s.mem.data.attempts[j], absent, evidence, now), now);
    case Reserve(id, d, _, before, _) => ReservedClocks(c, s, a);
    case Retention(now) => PruneClocks(c, s.mem.data, now);
    case _ =>
  }

  lemma ReservedClocks(c: Config, s: Sys, a: Action)
    requires a.Reserve? && Enabled(c, s, a)
    ensures SameClocks(s.mem.data.issues, Recorded(s.mem.data, Intention(s, a.id, a.decision, a.before).attempt).issues)
  {
    hide Gate, Recorded;
    RecordedClocks(s.mem.data, Intention(s, a.id, a.decision, a.before).attempt);
  }

  lemma CalmShape(c: Config, s: Sys, a: Action)
    requires Enabled(c, s, a) && Calm(a)
    ensures var t := Apply(c, s, a);
            && t.scans == s.scans && t.seen == s.seen && t.previous == s.previous
            && ((t.disk == s.disk && t.saved == s.saved)
                || (t.disk.data.issues == t.mem.data.issues && t.saved == s.seen))
            && (a.Transmit? ==> s.phase.Armed? && t.log == s.log + [s.phase.tx] && !t.phase.Armed?)
            && (!a.Transmit? ==> t.log == s.log)
            && (t.phase.Armed? && t.phase != s.phase ==>
                  && a.Reserve? && MayReserve(c, s, a.id, a.decision, a.planned)
                  && t.phase.tx == Intention(s, a.id, a.decision, a.before))
  {
    hide Gate, Verdict, Settle, Prune;
  }

  /** What a reservation rests on is what the scans observed. */
  lemma IntentWaited(c: Config, s: Sys, id: string, d: Decision, planned: Decision, before: map<int, int>)
    requires WaitInv(c, s) && MayReserve(c, s, id, d, planned)
    ensures Waited(c, Intention(s, id, d, before))
  {
    hide Gate, Streak, RejectedStreak, RejectedSince, LastSighting, Eligible, QueueIdentity, Ascending, ParentID;
    hide ParentKey, MaxID, Permanent, Policy.ClientAllowed, Policy.SeriesInScope;
    if !d.kind.Search? {
      var h := s.seen;
      assert h[|h| - 1] in h && Viewed(h[|h| - 1], id);
      assert Backed(c, h, id, s.mem.data.issues[id]);
    }
  }

  lemma CalmKeepsWaits(c: Config, s: Sys, a: Action)
    requires WaitInv(c, s) && Enabled(c, s, a) && Calm(a)
    ensures WaitInv(c, Apply(c, s, a))
  {
    hide Enabled, Apply, MayReserve, Waited, Backed, Ascending, Viewed, RejectedIn, Sensible;
    var t := Apply(c, s, a);
    CalmShape(c, s, a);
    CalmIssues(c, s, a);
    SameClocksBacked(c, s.seen, s.mem.data.issues, t.mem.data.issues);
    if a.Reserve? && t.phase.Armed? && t.phase != s.phase {
      IntentWaited(c, s, a.id, a.decision, a.planned, a.before);
    }
  }

  // ---------------------------------------------------------------- the rejected clock and restarts

  /** The observation that a running rejected clock counts from. Since then no scan failed and none read the
      rejection again. */
  lemma {:induction false} RejectionRead(h: seq<Event>, id: string) returns (k: nat)
    requires RejectedSince(h, id) != 0
    ensures k < |h| && RejectedIn(h[k], id) && h[k].now == RejectedSince(h, id)
    ensures forall j :: k < j < |h| ==> !h[j].Gap? && !RejectedIn(h[j], id)
  {
    hide Unchanged;
    var n := |h| - 1;
    if RejectedIn(h[n], id) {
      k := n;
    } else {
      k := RejectionRead(h[..n], id);
      assert forall j :: 0 <= j < n ==> h[..n][j] == h[j];
    }
  }

  /** The events since the last restart. */
  function SinceRestart(h: seq<Event>): seq<Event> {
    if h == [] || h[|h| - 1].Restart? then [] else SinceRestart(h[..|h| - 1]) + [h[|h| - 1]]
  }

  /** Whether a span that begins with the last rejected observation contains a restart. */
  lemma {:induction false} SpanRestarts(h: seq<Event>, k: nat, id: string)
    requires k < |h| && RejectedIn(h[k], id) && forall j :: k < j < |h| ==> !RejectedIn(h[j], id)
    ensures (exists j :: k < j < |h| && h[j].Restart?) <==> forall e :: e in SinceRestart(h) ==> !RejectedIn(e, id)
  {
    hide RejectedIn;
    var n := |h| - 1;
    if h[n].Restart? {
      assert !RejectedIn(h[n], id) by { NotRejectedIn(h[n], id); }
      assert k < n;
    } else if k == n {
      assert SinceRestart(h)[|SinceRestart(h)| - 1] == h[k];
      assert h[k] in SinceRestart(h);
    } else {
      SpanRestarts(h[..n], k, id);
      if exists j :: k < j < |h| && h[j].Restart? {
        var j :| k < j < |h| && h[j].Restart?;
        assert h[..n][j].Restart?;
      } else {
        assert forall j :: k < j < n ==> h[..n][j] == h[j];
        var e :| e in SinceRestart(h[..n]) && RejectedIn(e, id);
        assert e in SinceRestart(h);
      }
    }
  }

  /** Where the last restart is. */
  lemma {:induction false} RestartAt(h: seq<Event>) returns (m: nat)
    ensures m <= |h| && SinceRestart(h) == h[m..] && (m > 0 ==> h[m - 1].Restart?)
  {
    var n := |h| - 1;
    if h == [] || h[n].Restart? {
      m := |h|;
    } else {
      m := RestartAt(h[..n]);
      assert h[m..] == h[..n][m..] + [h[n]];
    }
  }

  lemma OnePlace(h: seq<Event>, i: nat, j: nat)
    requires Ascending(h) && i < |h| && j < |h| && h[i] == h[j] && h[i].Complete?
    ensures i == j
  {
  }

  /** What happened in a credited span: it begins with the last scan that the data went through and that read the
      rejection. No scan failed in it unless a later restart rolled that failure back, and it contains neither
      failures nor restarts if and only if some scan since the last restart has read the rejection. */
  lemma SpanOfScans(seen: seq<Event>, scans: seq<Event>, k: nat, id: string) returns (p: nat)
    requires Ascending(seen) && Ascending(scans) && (forall e :: e in seen ==> e in scans) && SinceRestart(seen) == SinceRestart(scans)
    requires k < |seen| && RejectedIn(seen[k], id) && forall j :: k < j < |seen| ==> !seen[j].Gap? && !RejectedIn(seen[j], id)
    ensures p < |scans| && scans[p] == seen[k]
    ensures forall j :: p < j < |scans| && scans[j].Gap? ==> exists q :: j < q < |scans| && scans[q].Restart?
    ensures (forall j :: p < j < |scans| ==> scans[j].Complete?) <==> exists e :: e in SinceRestart(scans) && RejectedIn(e, id)
  {
    hide Ascending, SinceRestart, RejectedIn;
    assert seen[k] in seen && seen[k] in scans;
    p :| 0 <= p < |scans| && scans[p] == seen[k];
    var m := RestartAt(scans);
    var l := RestartAt(seen);
    if k >= l {
      SpanWithin(seen, scans, k, p, l, m, id);
    } else {
      SpanAcross(seen, scans, k, p, l, m, id);
    }
  }

  /** The rejection was read since the last restart. */
  lemma SpanWithin(seen: seq<Event>, scans: seq<Event>, k: nat, p: nat, l: nat, m: nat, id: string)
    requires Ascending(scans) && m <= |scans| && l <= |seen| && SinceRestart(scans) == scans[m..] == seen[l..]
    requires l <= k < |seen| && RejectedIn(seen[k], id) && forall j :: k < j < |seen| ==> !seen[j].Gap?
    requires p < |scans| && scans[p] == seen[k]
    ensures forall j :: p < j < |scans| ==> scans[j].Complete?
    ensures exists e :: e in SinceRestart(scans) && RejectedIn(e, id)
  {
    hide Ascending, SinceRestart, RejectedIn;
    Complete0(seen[k], id);
    SameTail(seen, scans, l, m);
    assert scans[m + (k - l)] == seen[k];
    OnePlace(scans, p, m + (k - l));
    assert scans[m..][k - l] in scans[m..];
    NoRestartSince(scans, m);
    forall j | p < j < |scans| ensures scans[j].Complete? {
      assert scans[j] == seen[l + (j - m)];
    }
  }

  lemma SameTail(seen: seq<Event>, scans: seq<Event>, l: nat, m: nat)
    requires l <= |seen| && m <= |scans| && seen[l..] == scans[m..]
    ensures |seen| - l == |scans| - m && forall j :: m <= j < |scans| ==> scans[j] == seen[l + (j - m)]
  {
    assert |seen[l..]| == |scans[m..]|;
    forall j | m <= j < |scans| ensures scans[j] == seen[l + (j - m)] {
      assert scans[m..][j - m] == seen[l..][j - m];
    }
  }

  /** The rejection was last read before the last restart. */
  lemma SpanAcross(seen: seq<Event>, scans: seq<Event>, k: nat, p: nat, l: nat, m: nat, id: string)
    requires k < l <= |seen| && m <= |scans| && SinceRestart(scans) == scans[m..] == seen[l..] && (m > 0 ==> scans[m - 1].Restart?)
    requires RejectedIn(seen[k], id) && forall j :: k < j < |seen| ==> !seen[j].Gap? && !RejectedIn(seen[j], id)
    requires p < |scans| && scans[p] == seen[k]
    ensures forall j :: p < j < |scans| && scans[j].Gap? ==> exists q :: j < q < |scans| && scans[q].Restart?
    ensures !forall j :: p < j < |scans| ==> scans[j].Complete?
    ensures forall e :: e in SinceRestart(scans) ==> !RejectedIn(e, id)
  {
    hide SinceRestart, RejectedIn;
    Complete0(seen[k], id);
    SameTail(seen, scans, l, m);
    assert p < m - 1;
    forall e | e in scans[m..] ensures !RejectedIn(e, id) {
      var i :| 0 <= i < |scans| - m && scans[m..][i] == e;
      assert scans[m + i] == seen[l + i];
    }
    forall j | p < j < |scans| && scans[j].Gap? ensures exists q :: j < q < |scans| && scans[q].Restart? {
      assert j < m - 1;
    }
  }

  lemma Complete0(e: Event, id: string)
    requires RejectedIn(e, id)
    ensures e.Complete?
  {
  }

  lemma {:induction false} NoRestartSince(h: seq<Event>, m: nat)
    requires m <= |h| && SinceRestart(h) == h[m..]
    ensures forall j :: m <= j < |h| ==> !h[j].Restart?
  {
    NoRestartIn(h);
    forall j | m <= j < |h| ensures !h[j].Restart? {
      assert h[j] == h[m..][j - m];
    }
  }

  lemma {:induction false} NoRestartIn(h: seq<Event>)
    ensures forall e :: e in SinceRestart(h) ==> !e.Restart?
  {
    if h != [] && !h[|h| - 1].Restart? {
      NoRestartIn(h[..|h| - 1]);
    }
  }

  lemma NotRejectedIn(e: Event, id: string)
    requires e.Restart?
    ensures !RejectedIn(e, id)
  {
  }

  // ---------------------------------------------------------------- what happened and what the data went through

  predicate Subsequence(a: seq<Event>, b: seq<Event>) {
    || a == []
    || (b != [] && ((a[|a| - 1] == b[|b| - 1] && Subsequence(a[..|a| - 1], b[..|b| - 1])) || Subsequence(a, b[..|b| - 1])))
  }

  lemma MoreSubsequence(a: seq<Event>, b: seq<Event>, e: Event)
    requires Subsequence(a, b)
    ensures Subsequence(a + [e], b + [e]) && Subsequence(a, b + [e])
  {
    assert (a + [e])[..|a|] == a && (b + [e])[..|b|] == b;
  }

  lemma MoreSinceRestart(a: seq<Event>, b: seq<Event>, e: Event)
    requires SinceRestart(a) == SinceRestart(b) || e.Restart?
    ensures SinceRestart(a + [e]) == SinceRestart(b + [e])
  {
    assert (a + [e])[..|a|] == a && (b + [e])[..|b|] == b;
  }

  /** The event that a step adds to what happened. */
  lemma EventShape(c: Config, s: Sys, a: Action) returns (e: Event)
    requires Enabled(c, s, a) && !Calm(a)
    ensures var t := Apply(c, s, a);
            && t.scans == s.scans + [e] && e.Restart? == a.Reopen?
            && if a.Reopen? then t.seen == t.saved == s.saved + [e] else t.seen == s.seen + [e] && t.saved == s.saved
  {
    hide Scanned, Expire, Missed, Repair, Observes, AfterAll;
    e := if a.Scan? then Complete(a.now, a.sights) else if a.Miss? then Gap else Restart;
  }

  lemma StepSeen(c: Config, s: Sys, t: Sys)
    requires Step(c, s, t) && Subsequence(s.seen, s.scans) && Subsequence(s.saved, s.scans)
        && SinceRestart(s.seen) == SinceRestart(s.scans)
    ensures Subsequence(t.seen, t.scans) && Subsequence(t.saved, t.scans)
        && SinceRestart(t.seen) == SinceRestart(t.scans)
  {
    hide Enabled, Apply, Subsequence, SinceRestart;
    var a :| Enabled(c, s, a) && t == Apply(c, s, a);
    if Calm(a) {
      CalmShape(c, s, a);
    } else {
      var e := EventShape(c, s, a);
      MoreSubsequence(s.seen, s.scans, e);
      MoreSubsequence(s.saved, s.scans, e);
      MoreSinceRestart(if a.Reopen? then s.saved else s.seen, s.scans, e);
    }
  }

  lemma MoreObserved(c: Config, scans: seq<Event>, e: Event, id: string)
    requires c.pollInterval > 0
    ensures Observed(c, scans + [e], id) == Observed(c, scans, id) + if scans == [] then 0 else EligiblePair(c, scans[|scans| - 1], e, id)
    ensures Observed(c, scans + [e], id) >= Observed(c, scans, id)
  {
    hide Eligible, QueueIdentity;
    assert (scans + [e])[..|scans|] == scans;
  }

  /** Pairs of the data in memory are pairs of what happened. */
  lemma LastOfBoth(a: seq<Event>, b: seq<Event>)
    requires SinceRestart(a) == SinceRestart(b) && a != [] && a[|a| - 1].Complete?
    ensures b != [] && b[|b| - 1] == a[|a| - 1]
  {
    var r, q := SinceRestart(a), SinceRestart(b);
    assert r[|r| - 1] == a[|a| - 1];
    assert q != [] && q[|q| - 1] == b[|b| - 1];
  }

  lemma MoreStreak(c: Config, h: seq<Event>, e: Event, id: string)
    requires c.pollInterval > 0
    ensures Streak(c, h + [e], id) <= Streak(c, h, id) + if h == [] then 0 else EligiblePair(c, h[|h| - 1], e, id)
  {
    hide Eligible, QueueIdentity, RejectedStreak;
    GrownStreaks(c, h, e, id);
    if h != [] && Sees(h[|h| - 1], id) {
      LastSeen(h, id);
    }
  }

  lemma LastSeen(h: seq<Event>, id: string)
    requires h != [] && Sees(h[|h| - 1], id)
    ensures LastSighting(h, id) == Some(h[|h| - 1])
  {
  }

  /** The eligible time of both copies is part of what was observed. */
  predicate StreaksObserved(c: Config, s: Sys, id: string) {
    Streak(c, s.seen, id) <= Observed(c, s.scans, id) && Streak(c, s.saved, id) <= Observed(c, s.scans, id)
  }

  lemma StepObserved(c: Config, s: Sys, t: Sys, id: string)
    requires c.pollInterval > 0 && Step(c, s, t) && StreaksObserved(c, s, id)
        && SinceRestart(s.seen) == SinceRestart(s.scans)
    ensures StreaksObserved(c, t, id)
  {
    hide Enabled, Apply, Streak, Observed, SinceRestart, EligiblePair;
    var a :| Enabled(c, s, a) && t == Apply(c, s, a);
    if Calm(a) {
      CalmShape(c, s, a);
    } else {
      var e := EventShape(c, s, a);
      MoreObserved(c, s.scans, e, id);
      var h := if a.Reopen? then s.saved else s.seen;
      MoreStreak(c, h, e, id);
      if h != [] {
        PairWith(c, h, s.scans, e, id, a.Reopen?);
      }
    }
  }

  lemma PairWith(c: Config, h: seq<Event>, scans: seq<Event>, e: Event, id: string, restart: bool)
    requires if restart then e.Restart? else SinceRestart(h) == SinceRestart(scans)
    requires c.pollInterval > 0 && h != []
    ensures EligiblePair(c, h[|h| - 1], e, id) <= if scans == [] then 0 else EligiblePair(c, scans[|scans| - 1], e, id)
  {
    hide Eligible, QueueIdentity, SinceRestart;
    if !restart && h[|h| - 1].Complete? {
      LastOfBoth(h, scans);
    }
  }

  // ---------------------------------------------------------------- credited pairs

  /** A credited rejected pair is exactly the pair of the previous scan and this one if and only if the previous
      scan read candidates for the download. */
  lemma RejectedPairIsAdjacent(c: Config, s: Sys, now: Time, sight: Sight, id: string)
    requires WaitInv(c, s) && id in s.mem.data.issues && now > 2 * c.pollInterval
    requires ContinuesRejected(c, s.mem.data.issues[id], sight, s.previous, now)
    ensures s.mem.data.issues[id].rejectedLastSeen == s.previous <==> s.seen != [] && Viewed(s.seen[|s.seen| - 1], id)
  {
    hide Streak, RejectedStreak, Waited, Eligible, QueueIdentity, LastSighting, RejectedSince;
    var h, i := s.seen, s.mem.data.issues[id];
    var n := |h| - 1;
    assert Backed(c, h, id, i);
    if i.rejectedLastSeen == s.previous {
      var k := RejectionRead(h, id);
      OnlyLast(h, k);
    }
    if Viewed(h[n], id) {
      SinceIsLast(h, id);
    }
  }

  lemma SinceIsLast(h: seq<Event>, id: string)
    requires h != [] && RejectedIn(h[|h| - 1], id)
    ensures RejectedSince(h, id) == h[|h| - 1].now
  {
  }

  /** When a credited rejected pair contains a restart. The credit counts from the last scan that the data went
      through and that read the rejection; since then no scan failed. So the pair contains a restart, and
      with it the downtime, if and only if no scan since the last restart has read the rejection. */
  lemma CreditSpansRestart(c: Config, s: Sys, now: Time, sight: Sight, id: string) returns (k: nat)
    requires WaitInv(c, s) && id in s.mem.data.issues && now > 2 * c.pollInterval
    requires ContinuesRejected(c, s.mem.data.issues[id], sight, s.previous, now)
    ensures k < |s.seen| && RejectedIn(s.seen[k], id) && s.seen[k].now == s.mem.data.issues[id].rejectedLastSeen
    ensures forall j :: k < j < |s.seen| ==> !s.seen[j].Gap? && !RejectedIn(s.seen[j], id)
    ensures (exists j :: k < j < |s.seen| && s.seen[j].Restart?) <==> forall e :: e in SinceRestart(s.seen) ==> !RejectedIn(e, id)
  {
    hide Streak, RejectedStreak, Waited, Eligible, QueueIdentity, LastSighting, RejectedSince, RejectedIn, SinceRestart;
    hide Ascending, Sensible, Fresh;
    assert Backed(c, s.seen, id, s.mem.data.issues[id]);
    k := RejectionRead(s.seen, id);
    SpanRestarts(s.seen, k, id);
  }
}
