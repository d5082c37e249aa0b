/** What every verdict is, case by case and field by field, told without the weighing that computes it. */
module Verdicts {
  import opened Types
  import opened State
  import opened Outcomes
  import Sorting

  // ---------------------------------------------------------------- events and entries

  /** Within the attempt; Sonarr can leave out fractions of a second, so a date without any may lie in the second of
      the start. */
  predicate During(date: Time, a: Attempt, now: Time) {
    date <= now && (a.started <= date || (date % SECOND == 0 && date / SECOND == a.started / SECOND))
  }

  /** The first file of the decision that carries the episode. */
  predicate Carries(a: Attempt, k: int, eid: int) {
    && 0 <= k < |a.decision.files| && eid in a.decision.files[k].episodeIDs
    && forall j :: 0 <= j < k ==> eid !in a.decision.files[j].episodeIDs
  }

  /** The event reports the import of the episode out of this file. */
  predicate Reports(h: History, a: Attempt, f: ImportFile, eid: int, now: Time) {
    && h.eventType == "downloadFolderImported" && h.episodeID == eid && h.seriesID == f.seriesID
    && h.droppedPath == f.path
    && During(h.date, a, now)
  }

  /** Some event reports the import of the episode, to wherever. */
  ghost predicate Left(a: Attempt, hs: seq<History>, eid: int, now: Time) {
    exists k, h :: Carries(a, k, eid) && h in hs && Reports(h, a, a.decision.files[k], eid, now) && h.importedPath != ""
  }

  predicate Carried(a: Attempt, eid: int) {
    exists f :: f in a.decision.files && eid in f.episodeIDs
  }

  /** The episode ended up as it should: outside the command with the file it had before, otherwise with a new file of
      the decided series whose path an event reports; in both cases with an acceptable one. */
  ghost predicate Arrived(a: Attempt, hs: seq<History>, eid: int, cur: Current, now: Time) {
    && cur.acceptable && cur.fileID.Some?
    && if !Carried(a, eid) then cur.fileID.value == if eid in a.beforeFiles then a.beforeFiles[eid] else 0
       else
         && cur.fileID.value != (if eid in a.beforeFiles then a.beforeFiles[eid] else 0)
         && exists k, h :: Carries(a, k, eid) && h in hs && cur.seriesID == a.decision.files[k].seriesID
                           && Reports(h, a, a.decision.files[k], eid, now) && h.importedPath == cur.filePath
  }

  lemma {:induction false} IntendedIff(files: seq<ImportFile>, eid: int)
    ensures Intended(files, eid).None? <==> forall f :: f in files ==> eid !in f.episodeIDs
    ensures Intended(files, eid).Some? ==> exists k ::
              && 0 <= k < |files| && files[k] == Intended(files, eid).value && eid in files[k].episodeIDs
              && forall j :: 0 <= j < k ==> eid !in files[j].episodeIDs
  {
    if files != [] && eid in files[0].episodeIDs {
      assert files[0] == Intended(files, eid).value;
    } else if files != [] {
      IntendedIff(files[1..], eid);
      assert forall f :: f in files <==> f == files[0] || f in files[1..];
      if Intended(files[1..], eid).Some? {
        var k :| 0 <= k < |files[1..]| && files[1..][k] == Intended(files[1..], eid).value && eid in files[1..][k].episodeIDs
                 && forall j :: 0 <= j < k ==> eid !in files[1..][j].episodeIDs;
        assert files[k + 1] == files[1..][k];
        assert forall j :: 0 < j < k + 1 ==> files[j] == files[1..][j - 1];
      }
    }
  }

  lemma FirstCarrier(a: Attempt, eid: int)
    ensures Intended(a.decision.files, eid).Some? <==> Carried(a, eid)
    ensures forall k :: Carries(a, k, eid) ==> Intended(a.decision.files, eid) == Some(a.decision.files[k])
    ensures Carried(a, eid) ==> exists k :: Carries(a, k, eid)
  {
    var files := a.decision.files;
    IntendedIff(files, eid);
    if Intended(files, eid).Some? {
      var n :| 0 <= n < |files| && files[n] == Intended(files, eid).value && eid in files[n].episodeIDs
               && forall j :: 0 <= j < n ==> eid !in files[j].episodeIDs;
      assert Carries(a, n, eid);
    }
    forall k | Carries(a, k, eid) ensures Carried(a, eid) {
      assert files[k] in files;
    }
  }

  lemma ReportsIff(h: History, a: Attempt, f: ImportFile, eid: int, now: Time)
    ensures Reports(h, a, f, eid, now) <==> Imported(h, a, eid, f.seriesID, f.path, now)
  {
    EventPrecision(h.date, a.started, now);
  }

  lemma EvidenceMeans(a: Attempt, hs: seq<History>, eid: int, now: Time)
    ensures Seen(a, hs, eid, now) <==> Left(a, hs, eid, now)
    ensures forall cur :: Correlated(a, hs, eid, cur, now) <==> Arrived(a, hs, eid, cur, now)
  {
    hide Reports, Imported, Carries, Intended;
    FirstCarrier(a, eid);
    forall h, f ensures Reports(h, a, f, eid, now) <==> Imported(h, a, eid, f.seriesID, f.path, now) {
      ReportsIff(h, a, f, eid, now);
    }
  }

  /** The entry of the blocklist is about this attempt. */
  predicate About(b: Block, a: Attempt, now: Time) {
    b.sourceTitle == a.title && b.seriesID in a.decision.seriesIDs && During(b.date, a, now)
  }

  predicate ListedAt(bs: seq<Block>, a: Attempt, eid: int, now: Time, i: int, j: int) {
    0 <= i < |bs| && About(bs[i], a, now) && 0 <= j < |bs[i].episodeIDs| && bs[i].episodeIDs[j] == eid
  }

  /** Exactly one entry about the attempt names the episode, and once. */
  ghost predicate ListedOnce(bs: seq<Block>, a: Attempt, eid: int, now: Time) {
    && (exists i, j :: ListedAt(bs, a, eid, now, i, j))
    && (forall i, j, k, l :: ListedAt(bs, a, eid, now, i, j) && ListedAt(bs, a, eid, now, k, l) ==> i == k && j == l)
  }

  /** Every decided episode was reported as failed during the attempt, and is listed exactly once. */
  ghost predicate Banned(a: Attempt, hs: seq<History>, bs: seq<Block>, now: Time) {
    forall eid :: eid in a.decision.episodeIDs ==>
      && ListedOnce(bs, a, eid, now)
      && exists h :: h in hs && h.eventType == "downloadFailed" && h.sourceTitle == a.title && h.episodeID == eid
                     && h.seriesID in a.decision.seriesIDs && During(h.date, a, now)
  }

  lemma AboutIff(b: Block, a: Attempt, now: Time)
    ensures About(b, a, now) <==> BlockEntry(b, a, now)
  {
    EventPrecision(b.date, a.started, now);
  }

  lemma {:induction false} CoverageCounts(bs: seq<Block>, a: Attempt, eid: int, now: Time)
    ensures Coverage(bs, a, eid, now) == 0 <==> forall i, j :: !ListedAt(bs, a, eid, now, i, j)
    ensures Coverage(bs, a, eid, now) == 1 <==> ListedOnce(bs, a, eid, now)
  {
    hide About, BlockEntry;
    if bs != [] {
      var n := |bs| - 1;
      CoverageCounts(bs[..n], a, eid, now);
      AboutIff(bs[n], a, now);
      OneMoreEntry(bs, a, eid, now);
      NamedOnce(bs[n].episodeIDs, eid);
    }
  }

  lemma OneMoreEntry(bs: seq<Block>, a: Attempt, eid: int, now: Time)
    requires bs != []
    ensures forall i, j :: ListedAt(bs, a, eid, now, i, j) <==>
              || ListedAt(bs[..|bs| - 1], a, eid, now, i, j)
              || (i == |bs| - 1 && About(bs[i], a, now) && 0 <= j < |bs[i].episodeIDs| && bs[i].episodeIDs[j] == eid)
  {
    hide About;
  }

  lemma NamedOnce(s: seq<int>, x: int)
    ensures multiset(s)[x] == 0 <==> forall j :: 0 <= j < |s| ==> s[j] != x
    ensures multiset(s)[x] == 1 <==> (exists j :: 0 <= j < |s| && s[j] == x) && forall j, k :: 0 <= j < k < |s| ==> s[j] != x || s[k] != x
  {
    assert x in s <==> multiset(s)[x] > 0;
    if multiset(s)[x] >= 2 {
      var j, k := Sorting.TwoPositions(s, x);
    }
    if j, k :| 0 <= j < k < |s| && s[j] == x == s[k] {
      Sorting.TwiceCounted(s, j, k);
    }
  }

  // ---------------------------------------------------------------- the three verdicts

  predicate Failing(status: string) { status == "failed" || status == "aborted" || status == "cancelled" }

  predicate Going(status: string) { status == "queued" || status == "started" || status == "completed" }

  /** A command of this name was read, in a state that is known. */
  predicate CommandRead(r: Reads, name: string) {
    && r.command.Got? && r.command.value.name == name
    && (Failing(r.command.value.status) || Going(r.command.value.status))
  }

  /** Everything that the verdict on an import needs was read. */
  predicate ImportRead(a: Attempt, r: Reads) {
    && (a.commandID > 0 ==> CommandRead(r, "ManualImport")) && r.history.Got?
    && forall k :: 0 <= k < |r.currents| ==> r.currents[k].Got?
  }

  /** The import of the episode was seen before any episode turned out to be unreadable. */
  ghost predicate LeftInTime(a: Attempt, r: Reads, eid: int, now: Time)
    requires ReadsFor(a, r)
  {
    && (a.commandID > 0 ==> CommandRead(r, "ManualImport")) && r.history.Got? && Left(a, r.history.value, eid, now)
    && exists k :: 0 <= k < |r.currents| && a.decision.episodeIDs[k] == eid && forall i :: 0 <= i < k ==> r.currents[i].Got?
  }

  ghost predicate AllArrived(a: Attempt, r: Reads, now: Time)
    requires ReadsFor(a, r)
  {
    && ImportRead(a, r) && a.decision.episodeIDs != []
    && forall k :: 0 <= k < |r.currents| ==> Arrived(a, r.history.value, a.decision.episodeIDs[k], r.currents[k].value, now)
  }

  /** The attempt with this outcome, finished if it settles the attempt. */
  function With(a: Attempt, outcome: Outcome, now: Time): Attempt {
    a.(outcome := outcome, finished := if outcome.Verified? || outcome.Submitted? || outcome.KnownFailed? then now else a.finished)
  }

  function Late(a: Attempt, now: Time): Outcome {
    if now - a.started >= 10 * MINUTE then Uncertain else a.outcome
  }

  /** Every verdict on an import: verified once every decided episode has arrived, partial as long as some import was
      seen, failed when its own command failed, everything could be read and no import was seen, and otherwise
      uncertain after ten minutes. */
  lemma ImportVerdict(a: Attempt, absent: bool, r: Reads, now: Time)
    requires ReadsFor(a, r) && a.Unresolved() && a.kind.Import? && Grounded(a)
    ensures var b := Verdict(a, absent, r, now);
            && (forall e :: e in b.verifiedEpisodes <==> e in a.verifiedEpisodes || LeftInTime(a, r, e, now))
            && b == With(a.(verifiedEpisodes := b.verifiedEpisodes),
                         if AllArrived(a, r, now) then Verified
                         else if b.verifiedEpisodes != {} then Partial
                         else if ImportRead(a, r) && a.commandID > 0 && Failing(r.command.value.status) then KnownFailed
                         else Late(a, now), now)
    ensures Weigh(a, absent, r, now).Broken? <==> !ImportRead(a, r)
  {
    hide ImportProgress, Arrived, LeftInTime;
    ImportEpisodes(a, r, now);
    ImportWeighed(a, r, now);
    assert Weigh(a, absent, r, now) == ImportProgress(a, r, now);
  }

  /** What weighing an import comes to, without the episodes that were seen. */
  lemma ImportWeighed(a: Attempt, r: Reads, now: Time)
    requires ReadsFor(a, r)
    ensures var p := ImportProgress(a, r, now);
            var b := p.attempt;
            && b == a.(verifiedEpisodes := b.verifiedEpisodes, outcome := b.outcome)
            && (p.Broken? <==> !ImportRead(a, r)) && (p.Broken? ==> b.outcome == a.outcome)
            && (p.Judged? ==>
                  && (p.complete <==> AllArrived(a, r, now)) && (p.failed <==> a.commandID > 0 && Failing(r.command.value.status))
                  && b.outcome == if !p.complete && b.verifiedEpisodes != {} then Partial else a.outcome)
  {
    hide Arrived, Correlated, SeenEpisodes, AllArrived;
    ImportCompleteIff(a, r, now);
    AllArrivedIff(a, r, now);
  }

  lemma AllArrivedIff(a: Attempt, r: Reads, now: Time)
    requires ReadsFor(a, r)
    ensures AllArrived(a, r, now) <==>
              && CommandKnown(a, r) && r.history.Got? && a.decision.episodeIDs != []
              && forall k :: 0 <= k < |r.currents| ==>
                   r.currents[k].Got? && Correlated(a, r.history.value, a.decision.episodeIDs[k], r.currents[k].value, now)
  {
    hide Arrived, Correlated;
    if r.history.Got? {
      forall k | 0 <= k < |r.currents| && r.currents[k].Got?
        ensures Correlated(a, r.history.value, a.decision.episodeIDs[k], r.currents[k].value, now)
           <==> Arrived(a, r.history.value, a.decision.episodeIDs[k], r.currents[k].value, now)
      {
        EvidenceMeans(a, r.history.value, a.decision.episodeIDs[k], now);
      }
    }
  }

  lemma ImportEpisodes(a: Attempt, r: Reads, now: Time)
    requires ReadsFor(a, r)
    ensures forall e :: e in ImportProgress(a, r, now).attempt.verifiedEpisodes <==> e in a.verifiedEpisodes || LeftInTime(a, r, e, now)
    ensures a.verifiedEpisodes <= ImportProgress(a, r, now).attempt.verifiedEpisodes
  {
    hide Correlated, Left, Seen, SeenEpisodes;
    if r.history.Got? {
      SeenInTime(a, r, now);
    }
  }

  lemma SeenInTime(a: Attempt, r: Reads, now: Time)
    requires ReadsFor(a, r) && r.history.Got?
    ensures forall e :: e in SeenEpisodes(a, r.history.value, r.currents, |r.currents|, now) <==>
              && Left(a, r.history.value, e, now)
              && exists k :: 0 <= k < |r.currents| && a.decision.episodeIDs[k] == e && forall i :: 0 <= i < k ==> r.currents[i].Got?
  {
    hide Left, Seen;
    forall e ensures Seen(a, r.history.value, e, now) <==> Left(a, r.history.value, e, now) {
      EvidenceMeans(a, r.history.value, e, now);
    }
  }

  /** Every verdict on a removal: absence counts once the removal was acknowledged, blocklisting only where asked for
      and proved; verified with all of it, partial with the absence alone, and never failed. */
  lemma RemovalVerdict(a: Attempt, absent: bool, r: Reads, now: Time)
    requires ReadsFor(a, r) && a.Unresolved() && IsRemoval(a.kind) && Grounded(a)
    ensures var b := Verdict(a, absent, r, now);
            var gone := a.removalVerified || (a.ack && absent);
            var asked := a.decision.blocklist && gone && !a.blocklistVerified;
            var unread := asked && !(r.history.Got? && r.blocklist.Got?);
            var banned := a.blocklistVerified || (asked && !unread && Banned(a, r.history.value, r.blocklist.value, now));
            && b == With(a.(removalVerified := gone, blocklistVerified := banned),
                         if gone && (!a.decision.blocklist || banned) then Verified
                         else if gone && !unread then Partial
                         else if a.outcome.Partial? then Partial
                         else Late(a, now), now)
            && (Weigh(a, absent, r, now).Broken? <==> unread)
  {
    hide Banned, Blocklisted;
    if r.history.Got? && r.blocklist.Got? {
      BannedIff(a, r.history.value, r.blocklist.value, now);
      BlocklistedOfCopy(a, a.(removalVerified := a.removalVerified || (a.ack && absent)), r.history.value,
                        r.blocklist.value, now);
    }
  }

  lemma BannedIff(a: Attempt, hs: seq<History>, bs: seq<Block>, now: Time)
    ensures Banned(a, hs, bs, now) <==> Blocklisted(a, hs, bs, now)
  {
    hide ListedOnce, Coverage;
    forall eid ensures Coverage(bs, a, eid, now) == 1 <==> ListedOnce(bs, a, eid, now) {
      CoverageCounts(bs, a, eid, now);
    }
    forall h, eid | h in hs
      ensures FailedEvent(h, a, eid, now) <==> && h.eventType == "downloadFailed" && h.sourceTitle == a.title && h.episodeID == eid
                                               && h.seriesID in a.decision.seriesIDs && During(h.date, a, now)
    {
      EventPrecision(h.date, a.started, now);
    }
  }

  /** Every verdict on a search: submitted or failed exactly by its own acknowledged command, and otherwise uncertain
      after ten minutes. */
  lemma SearchVerdict(a: Attempt, absent: bool, r: Reads, now: Time)
    requires ReadsFor(a, r) && a.Unresolved() && a.kind.Search? && Grounded(a)
    ensures var b := Verdict(a, absent, r, now);
            var sent := a.ack && a.commandID > 0;
            && b == With(a, if sent && CommandRead(r, "EpisodeSearch") && Going(r.command.value.status) then Submitted
                            else if sent && CommandRead(r, "EpisodeSearch") && a.verifiedEpisodes == {} then KnownFailed
                            else Late(a, now), now)
            && (Weigh(a, absent, r, now).Broken? <==> sent && !CommandRead(r, "EpisodeSearch"))
  {
  }
}
