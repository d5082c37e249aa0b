/** The verification loops of one attempt, against the declarative outcome. */
module Verification {
  import opened Types
  import opened State
  import opened Outcomes

  method IsAbsent(queue: seq<QueueRow>, id: string) returns (absent: bool)
    ensures absent <==> forall q :: q in queue ==> q.downloadID != id
  {
    absent := true;
    for k := 0 to |queue|
      invariant absent <==> forall q :: q in queue[..k] ==> q.downloadID != id
    {
      assert queue[..k + 1] == queue[..k] + [queue[k]] && queue[k] in queue[..k + 1];
      if queue[k].downloadID == id {
        absent := false;
      }
    }
    assert queue[..|queue|] == queue;
  }

  // ---------------------------------------------------------------- imports

  method FindIntended(files: seq<ImportFile>, eid: int) returns (f: Option<ImportFile>)
    ensures f == Intended(files, eid)
  {
    for k := 0 to |files|
      invariant Intended(files, eid) == Intended(files[k..], eid)
    {
      assert files[k..][1..] == files[k + 1..];
      if eid in files[k].episodeIDs { return Some(files[k]); }
    }
    f := None;
  }

  /** An import event of the episode from the file, with the imported path if one is required. */
  method FindImport(a: Attempt, hs: seq<History>, eid: int, series: int, path: string, target: Option<string>,
                    now: Time) returns (found: bool)
    ensures found <==> exists h :: h in hs && Imported(h, a, eid, series, path, now)
                                  && (if target.Some? then h.importedPath == target.value else h.importedPath != "")
  {
    for k := 0 to |hs|
      invariant forall h :: h in hs[..k] ==> !(Imported(h, a, eid, series, path, now)
                                               && (if target.Some? then h.importedPath == target.value else h.importedPath != ""))
    {
      var h := hs[k];
      assert hs[..k + 1] == hs[..k] + [h] && h in hs;
      if Imported(h, a, eid, series, path, now) && (if target.Some? then h.importedPath == target.value else h.importedPath != "") {
        return true;
      }
    }
    assert hs[..|hs|] == hs;
    found := false;
  }

  /** Whether the episode left its decided file during the attempt. */
  method WasSeen(a: Attempt, hs: seq<History>, eid: int, f: Option<ImportFile>, now: Time) returns (seen: bool)
    requires f == Intended(a.decision.files, eid)
    ensures seen == Seen(a, hs, eid, now)
  {
    if f.None? { return false; }
    seen := FindImport(a, hs, eid, f.value.seriesID, f.value.path, None, now);
  }

  method IsCorrelated(a: Attempt, hs: seq<History>, eid: int, f: Option<ImportFile>, cur: Current,
                      now: Time) returns (ok: bool)
    requires f == Intended(a.decision.files, eid)
    ensures ok == Correlated(a, hs, eid, cur, now)
  {
    if !cur.acceptable { return false; }
    if f.None? { return cur.fileID == Some(Before(a, eid)); }
    if cur.seriesID != f.value.seriesID || cur.fileID.None? || cur.fileID.value == Before(a, eid) { return false; }
    ok := FindImport(a, hs, eid, cur.seriesID, f.value.path, Some(cur.filePath), now);
  }

  lemma SeenGrows(a: Attempt, hs: seq<History>, currents: seq<Read<Current>>, k: nat, now: Time)
    requires k < |a.decision.episodeIDs| == |currents| && AllRead(currents, k)
    ensures SeenEpisodes(a, hs, currents, k + 1, now)
         == SeenEpisodes(a, hs, currents, k, now) + (if Seen(a, hs, a.decision.episodeIDs[k], now) then {a.decision.episodeIDs[k]} else {})
  {
    hide Seen;
  }

  lemma SeenStops(a: Attempt, hs: seq<History>, currents: seq<Read<Current>>, k: nat, now: Time)
    requires k < |a.decision.episodeIDs| == |currents| && AllRead(currents, k) && currents[k].Unavailable?
    ensures SeenEpisodes(a, hs, currents, |currents|, now) == SeenEpisodes(a, hs, currents, k + 1, now)
    ensures !AllRead(currents, |currents|)
  {
    hide Seen;
    assert forall j :: k < j <= |currents| ==> !AllRead(currents, j);
  }

  /** The failure reported by the import command, if any; nothing if its state cannot be known. */
  method CommandFailed(a: Attempt, r: Reads) returns (failed: Option<bool>)
    ensures failed == if !CommandKnown(a, r) then None else Some(a.commandID > 0 && KnownFailure(r.command.value.status))
  {
    if a.commandID <= 0 { return Some(false); }
    if r.command.Unavailable? || r.command.value.name != "ManualImport" { return None; }
    var status := r.command.value.status;
    if KnownFailure(status) { return Some(true); }
    if !KnownProgress(status) { return None; }
    failed := Some(false);
  }

  /** The first k decided episodes, weighed. */
  ghost predicate Weighed(a: Attempt, hs: seq<History>, currents: seq<Read<Current>>, now: Time, k: nat, b: Attempt,
                          verified: nat) {
    && |a.decision.episodeIDs| == |currents| && k <= |currents| && AllRead(currents, k)
    && b == a.(verifiedEpisodes := a.verifiedEpisodes + SeenEpisodes(a, hs, currents, k, now))
    && verified <= k
    && (verified == k <==> forall j :: 0 <= j < k ==> Correlated(a, hs, a.decision.episodeIDs[j], currents[j].value, now))
  }

  lemma WeighedNext(a: Attempt, hs: seq<History>, currents: seq<Read<Current>>, now: Time, k: nat, b: Attempt,
                    verified: nat, seen: bool)
    requires Weighed(a, hs, currents, now, k, b, verified) && k < |currents|
    requires seen == Seen(a, hs, a.decision.episodeIDs[k], now)
    ensures var c := if seen then b.(verifiedEpisodes := b.verifiedEpisodes + {a.decision.episodeIDs[k]}) else b;
            if currents[k].Unavailable? then
              c == a.(verifiedEpisodes := a.verifiedEpisodes + SeenEpisodes(a, hs, currents, |currents|, now)) && !AllRead(currents, |currents|)
            else Weighed(a, hs, currents, now, k + 1, c,
                         if Correlated(a, hs, a.decision.episodeIDs[k], currents[k].value, now) then verified + 1 else verified)
  {
    hide Seen, Correlated, SeenEpisodes;
    SeenGrows(a, hs, currents, k, now);
    if currents[k].Unavailable? {
      SeenStops(a, hs, currents, k, now);
    }
  }

  lemma WeighedAll(a: Attempt, r: Reads, now: Time, b: Attempt, verified: nat)
    requires ReadsFor(a, r) && CommandKnown(a, r) && r.history.Got? && Weighed(a, r.history.value, r.currents, now, |r.currents|, b, verified)
    ensures var complete := verified == |r.currents| && verified > 0;
            ImportProgress(a, r, now) == Judged(if !complete && b.verifiedEpisodes != {} then b.(outcome := Partial) else b, complete,
                                                a.commandID > 0 && KnownFailure(r.command.value.status))
  {
    hide Seen, Correlated, SeenEpisodes;
  }

  method VerifyImport(a: Attempt, r: Reads, now: Time) returns (p: Progress)
    requires ReadsFor(a, r)
    ensures p == ImportProgress(a, r, now)
  {
    hide Seen, Correlated, SeenEpisodes, Weighed;
    var failed := CommandFailed(a, r);
    if failed.None? || r.history.Unavailable? { return Broken(a); }
    var hs, eids, verified, b := r.history.value, a.decision.episodeIDs, 0, a;
    NothingWeighed(a, hs, r.currents, now);
    for k := 0 to |eids|
      invariant Weighed(a, hs, r.currents, now, k, b, verified)
    {
      var eid := eids[k];
      var f := FindIntended(a.decision.files, eid);
      var seen := WasSeen(a, hs, eid, f, now);
      WeighedNext(a, hs, r.currents, now, k, b, verified, seen);
      if seen {
        b := b.(verifiedEpisodes := b.verifiedEpisodes + {eid});
      }
      if r.currents[k].Unavailable? { return Broken(b); }
      var ok := IsCorrelated(a, hs, eid, f, r.currents[k].value, now);
      if ok {
        verified := verified + 1;
      }
    }
    WeighedAll(a, r, now, b, verified);
    var complete := verified == |eids| && verified > 0;
    if !complete && b.verifiedEpisodes != {} {
      b := b.(outcome := Partial);
    }
    p := Judged(b, complete, failed.value);
  }

  lemma NothingWeighed(a: Attempt, hs: seq<History>, currents: seq<Read<Current>>, now: Time)
    requires |a.decision.episodeIDs| == |currents|
    ensures Weighed(a, hs, currents, now, 0, a, 0)
  {
    assert SeenEpisodes(a, hs, currents, 0, now) == {};
  }

  // ---------------------------------------------------------------- removals

  /** The decided episodes whose download failed during the attempt. */
  method FailedEpisodes(a: Attempt, hs: seq<History>, now: Time) returns (failed: set<int>)
    ensures forall eid :: eid in failed <==> eid in a.decision.episodeIDs && exists h :: h in hs && FailedEvent(h, a, eid, now)
  {
    failed := {};
    for k := 0 to |hs|
      invariant forall eid :: eid in failed <==> eid in a.decision.episodeIDs && exists h :: h in hs[..k] && FailedEvent(h, a, eid, now)
    {
      var h := hs[k];
      assert hs[..k + 1] == hs[..k] + [h] && h in hs[..k + 1];
      if h.eventType == "downloadFailed" && h.sourceTitle == a.title && EventWithin(h.date, a.started, now)
         && h.episodeID in a.decision.episodeIDs && h.seriesID in a.decision.seriesIDs {
        assert FailedEvent(h, a, h.episodeID, now);
        failed := failed + {h.episodeID};
      }
    }
    assert hs[..|hs|] == hs;
  }

  /** How often correlated blocklist entries name each decided episode. */
  method CountEntries(a: Attempt, bs: seq<Block>, now: Time) returns (counts: map<int, nat>)
    ensures forall eid :: eid in a.decision.episodeIDs ==> (if eid in counts then counts[eid] else 0) == Coverage(bs, a, eid, now)
  {
    counts := map[];
    for k := 0 to |bs|
      invariant forall eid :: eid in a.decision.episodeIDs ==> (if eid in counts then counts[eid] else 0) == Coverage(bs[..k], a, eid, now)
    {
      var b := bs[k];
      assert bs[..k + 1][..k] == bs[..k];
      if !(b.sourceTitle != a.title || !EventWithin(b.date, a.started, now) || b.seriesID !in a.decision.seriesIDs) {
        for j := 0 to |b.episodeIDs|
          invariant forall eid :: eid in a.decision.episodeIDs ==>
            (if eid in counts then counts[eid] else 0) == Coverage(bs[..k], a, eid, now) + multiset(b.episodeIDs[..j])[eid]
        {
          var eid := b.episodeIDs[j];
          assert b.episodeIDs[..j + 1] == b.episodeIDs[..j] + [eid];
          if eid in a.decision.episodeIDs {
            counts := counts[eid := (if eid in counts then counts[eid] else 0) + 1];
          }
        }
        assert b.episodeIDs[..|b.episodeIDs|] == b.episodeIDs;
      }
    }
    assert bs[..|bs|] == bs;
  }

  method IsBlocklisted(a: Attempt, hs: seq<History>, bs: seq<Block>, now: Time) returns (ok: bool)
    ensures ok == Blocklisted(a, hs, bs, now)
  {
    hide Coverage, FailedEvent;
    var failed := FailedEpisodes(a, hs, now);
    var counts := CountEntries(a, bs, now);
    ok := true;
    var eids := a.decision.episodeIDs;
    for k := 0 to |eids|
      invariant ok <==> forall j :: 0 <= j < k ==>
        (exists h :: h in hs && FailedEvent(h, a, eids[j], now)) && Coverage(bs, a, eids[j], now) == 1
    {
      assert eids[k] in eids;
      if eids[k] !in failed || eids[k] !in counts || counts[eids[k]] != 1 {
        ok := false;
      }
    }
    if ok {
      forall eid | eid in eids ensures (exists h :: h in hs && FailedEvent(h, a, eid, now)) && Coverage(bs, a, eid, now) == 1 {
        var j :| 0 <= j < |eids| && eids[j] == eid;
      }
    } else {
      ghost var j :| 0 <= j < |eids| && !((exists h :: h in hs && FailedEvent(h, a, eids[j], now)) && Coverage(bs, a, eids[j], now) == 1);
      assert eids[j] in eids;
    }
  }

  method VerifyRemoval(a: Attempt, absent: bool, r: Reads, now: Time) returns (p: Progress)
    ensures p == RemovalProgress(a, absent, r, now)
  {
    hide Blocklisted;
    var b := a;
    if a.ack && absent {
      b := b.(removalVerified := true);
    }
    if b.decision.blocklist && b.removalVerified && !b.blocklistVerified {
      if r.history.Unavailable? || r.blocklist.Unavailable? { return Broken(b); }
      var listed := IsBlocklisted(b, r.history.value, r.blocklist.value, now);
      b := b.(blocklistVerified := listed);
    }
    var complete := b.removalVerified && (!b.decision.blocklist || b.blocklistVerified);
    if b.removalVerified && !complete {
      b := b.(outcome := Partial);
    }
    p := Judged(b, complete, false);
  }

  // ---------------------------------------------------------------- the whole verdict

  /** The outcome that the weighed evidence leads to. */
  method Conclusion(p: Progress, now: Time) returns (b: Attempt)
    ensures b == Conclude(p, now)
  {
    b := p.attempt;
    if p.Broken? {
      if b.kind.Import? && b.verifiedEpisodes != {} && b.Unresolved() {
        b := b.(outcome := Partial);
      } else if b.Unresolved() && !b.outcome.Partial? && now - b.started >= DEADLINE {
        b := b.(outcome := Uncertain);
      }
    } else if p.complete {
      b := b.(finished := now, outcome := if b.kind.Search? then Submitted else Verified);
    } else if p.failed && b.verifiedEpisodes == {} {
      b := b.(finished := now, outcome := KnownFailed);
    } else if now - b.started >= DEADLINE && !b.outcome.Partial? {
      b := b.(outcome := Uncertain);
    }
  }

  /** Gathers the evidence of one unresolved attempt and concludes; the second result says that a required
      read was missing or unknown. */
  method Judge(a: Attempt, queue: seq<QueueRow>, r: Reads, now: Time) returns (b: Attempt, broken: bool)
    requires ReadsFor(a, r)
    ensures var absent := forall q :: q in queue ==> q.downloadID != a.downloadID;
            b == Verdict(a, absent, r, now) && broken == Weigh(a, absent, r, now).Broken?
  {
    hide ImportProgress, RemovalProgress, Conclude;
    var p := Judged(a, false, false);
    var absent := IsAbsent(queue, a.downloadID);
    if a.kind.Import? {
      p := VerifyImport(a, r, now);
    } else if IsRemoval(a.kind) {
      p := VerifyRemoval(a, absent, r, now);
    } else if a.kind.Search? && a.ack && a.commandID > 0 {
      if r.command.Unavailable? || r.command.value.name != "EpisodeSearch" {
        p := Broken(a);
      } else if KnownProgress(r.command.value.status) {
        p := Judged(a, true, false);
      } else if KnownFailure(r.command.value.status) {
        p := Judged(a, false, true);
      } else {
        p := Broken(a);
      }
    }
    b := Conclusion(p, now);
    broken := p.Broken?;
  }
}
