/** Correlated verification: what read evidence makes of one unresolved attempt. */
module Outcomes {
  import opened Types
  import opened State

  const DEADLINE: Duration := 10 * MINUTE

  datatype Command = Command(name: string, status: string)

  datatype History = History(
    seriesID: int, episodeID: int, date: Time, eventType: string, sourceTitle: string,
    droppedPath: string, importedPath: string)

  datatype Block = Block(seriesID: int, episodeIDs: seq<int>, sourceTitle: string, date: Time)

  /** The current library state of an episode; `acceptable` is the profile's verdict on its file. */
  datatype Current = Current(seriesID: int, fileID: Option<int>, filePath: string, acceptable: bool)

  /** Everything one verification can read; `currents` has one entry per decided episode. */
  datatype Reads = Reads(
    command: Read<Command>, history: Read<seq<History>>, currents: seq<Read<Current>>, blocklist: Read<seq<Block>>)

  predicate ReadsFor(a: Attempt, r: Reads) {
    |r.currents| == |a.decision.episodeIDs|
  }

  /** Sonarr can omit fractional seconds, so a whole-second date is compared at that precision. */
  predicate EventWithin(date: Time, started: Time, now: Time) {
    (if date % SECOND == 0 then started - started % SECOND else started) <= date <= now
  }

  /** Whole-second dates are accepted from the attempt's own second onward; other dates only from the
      attempt's own instant. */
  lemma EventPrecision(date: Time, started: Time, now: Time)
    ensures EventWithin(date, started, now) <==>
            date <= now && (if date % SECOND == 0 then date / SECOND >= started / SECOND else date >= started)
  {
  }

  // ---------------------------------------------------------------- imports

  /** The decided file that carries the episode, if any. */
  function Intended(files: seq<ImportFile>, eid: int): Option<ImportFile> {
    if files == [] then None
    else if eid in files[0].episodeIDs then Some(files[0])
    else Intended(files[1..], eid)
  }

  predicate Imported(h: History, a: Attempt, eid: int, series: int, path: string, now: Time) {
    && h.eventType == "downloadFolderImported" && h.episodeID == eid && h.seriesID == series
    && EventWithin(h.date, a.started, now) && h.droppedPath == path
  }

  /** The history shows that the episode left the decided file during the attempt. */
  predicate Seen(a: Attempt, hs: seq<History>, eid: int, now: Time) {
    var f := Intended(a.decision.files, eid);
    f.Some? && exists h :: h in hs && Imported(h, a, eid, f.value.seriesID, f.value.path, now) && h.importedPath != ""
  }

  function Before(a: Attempt, eid: int): int {
    if eid in a.beforeFiles then a.beforeFiles[eid] else 0
  }

  /** Full correlation of one decided episode: an episode outside the command still has its acceptable
      file, and an episode of the command has a new acceptable file that its history accounts for. */
  predicate Correlated(a: Attempt, hs: seq<History>, eid: int, cur: Current, now: Time) {
    var f := Intended(a.decision.files, eid);
    && cur.acceptable
    && if f.None? then cur.fileID == Some(Before(a, eid))
       else
         && cur.seriesID == f.value.seriesID && cur.fileID.Some? && cur.fileID.value != Before(a, eid)
         && exists h :: h in hs && Imported(h, a, eid, cur.seriesID, f.value.path, now) && h.importedPath == cur.filePath
  }

  predicate AllRead(currents: seq<Read<Current>>, k: nat) {
    k <= |currents| && forall i :: 0 <= i < k ==> currents[i].Got?
  }

  /** The episodes whose import events were seen before the first unreadable episode. */
  function SeenEpisodes(a: Attempt, hs: seq<History>, currents: seq<Read<Current>>, upTo: nat, now: Time): set<int>
    requires upTo <= |a.decision.episodeIDs| == |currents|
  {
    set k | 0 <= k < upTo && AllRead(currents, k) && Seen(a, hs, a.decision.episodeIDs[k], now) :: a.decision.episodeIDs[k]
  }

  /** Either a required read failed part way, or all evidence was weighed. */
  datatype Progress = Broken(attempt: Attempt) | Judged(attempt: Attempt, complete: bool, failed: bool)

  predicate KnownFailure(status: string) { status == "failed" || status == "aborted" || status == "cancelled" }
  predicate KnownProgress(status: string) { status == "queued" || status == "started" || status == "completed" }

  function ImportProgress(a: Attempt, r: Reads, now: Time): Progress
    requires ReadsFor(a, r)
  {
    if a.commandID > 0 && (r.command.Unavailable? || r.command.value.name != "ManualImport"
                           || !(KnownFailure(r.command.value.status) || KnownProgress(r.command.value.status))) then Broken(a)
    else if r.history.Unavailable? then Broken(a)
    else
      var failed := a.commandID > 0 && KnownFailure(r.command.value.status);
      var hs, eids := r.history.value, a.decision.episodeIDs;
      var b := a.(verifiedEpisodes := a.verifiedEpisodes + SeenEpisodes(a, hs, r.currents, |eids|, now));
      if !AllRead(r.currents, |eids|) then Broken(b)
      else
        var complete := |eids| > 0 && forall k :: 0 <= k < |eids| ==> Correlated(a, hs, eids[k], r.currents[k].value, now);
        Judged(if !complete && b.verifiedEpisodes != {} then b.(outcome := Partial) else b, complete, failed)
  }

  // ---------------------------------------------------------------- removals

  predicate FailedEvent(h: History, a: Attempt, eid: int, now: Time) {
    && h.eventType == "downloadFailed" && h.sourceTitle == a.title && EventWithin(h.date, a.started, now)
    && h.episodeID == eid && h.seriesID in a.decision.seriesIDs
  }

  predicate BlockEntry(b: Block, a: Attempt, now: Time) {
    b.sourceTitle == a.title && EventWithin(b.date, a.started, now) && b.seriesID in a.decision.seriesIDs
  }

  /** How often correlated blocklist entries name the episode. */
  function Coverage(bs: seq<Block>, a: Attempt, eid: int, now: Time): nat {
    if bs == [] then 0
    else
      var b := bs[|bs| - 1];
      Coverage(bs[..|bs| - 1], a, eid, now) + (if BlockEntry(b, a, now) then multiset(b.episodeIDs)[eid] else 0)
  }

  /** Each decided episode failed during the attempt and is blocklisted exactly once. */
  predicate Blocklisted(a: Attempt, hs: seq<History>, bs: seq<Block>, now: Time) {
    forall eid :: eid in a.decision.episodeIDs ==>
      (exists h :: h in hs && FailedEvent(h, a, eid, now)) && Coverage(bs, a, eid, now) == 1
  }

  function RemovalProgress(a: Attempt, absent: bool, r: Reads, now: Time): Progress {
    var b := a.(removalVerified := a.removalVerified || (a.ack && absent));
    var consult := b.decision.blocklist && b.removalVerified && !b.blocklistVerified;
    if consult && (r.history.Unavailable? || r.blocklist.Unavailable?) then Broken(b)
    else
      var b1 := if consult then b.(blocklistVerified := Blocklisted(b, r.history.value, r.blocklist.value, now)) else b;
      var complete := b1.removalVerified && (!b1.decision.blocklist || b1.blocklistVerified);
      Judged(if b1.removalVerified && !complete then b1.(outcome := Partial) else b1, complete, false)
  }

  // ---------------------------------------------------------------- searches

  function SearchProgress(a: Attempt, r: Reads): Progress {
    if !a.ack || a.commandID <= 0 then Judged(a, false, false)
    else if r.command.Unavailable? || r.command.value.name != "EpisodeSearch" then Broken(a)
    else if KnownProgress(r.command.value.status) then Judged(a, true, false)
    else if KnownFailure(r.command.value.status) then Judged(a, false, true)
    else Broken(a)
  }

  // ---------------------------------------------------------------- conclusion

  function Weigh(a: Attempt, absent: bool, r: Reads, now: Time): Progress
    requires ReadsFor(a, r)
  {
    if a.kind.Import? then ImportProgress(a, r, now)
    else if IsRemoval(a.kind) then RemovalProgress(a, absent, r, now)
    else if a.kind.Search? then SearchProgress(a, r)
    else Judged(a, false, false)
  }

  function Conclude(p: Progress, now: Time): Attempt {
    var a := p.attempt;
    if p.Broken? then
      if a.kind.Import? && a.verifiedEpisodes != {} && a.Unresolved() then a.(outcome := Partial)
      else if a.Unresolved() && !a.outcome.Partial? && now - a.started >= DEADLINE then a.(outcome := Uncertain)
      else a
    else if p.complete then a.(finished := now, outcome := if a.kind.Search? then Submitted else Verified)
    else if p.failed && a.verifiedEpisodes == {} then a.(finished := now, outcome := KnownFailed)
    else if now - a.started >= DEADLINE && !a.outcome.Partial? then a.(outcome := Uncertain)
    else a
  }

  function Verdict(a: Attempt, absent: bool, r: Reads, now: Time): Attempt
    requires ReadsFor(a, r)
  {
    Conclude(Weigh(a, absent, r, now), now)
  }

  // ---------------------------------------------------------------- the outcome automaton

  /** Everything about an attempt that later evidence never rewrites. */
  function Fixed(a: Attempt): Attempt {
    a.(finished := 0, outcome := Intent, ack := false, commandID := 0, verifiedEpisodes := {},
       removalVerified := false, blocklistVerified := false)
  }

  predicate SameAction(a: Attempt, b: Attempt) {
    Fixed(a) == Fixed(b)
  }

  /** A partial outcome always rests on an effect that was really seen. */
  predicate Grounded(a: Attempt) {
    a.outcome.Partial? ==> (a.kind.Import? && a.verifiedEpisodes != {}) || (IsRemoval(a.kind) && a.removalVerified)
  }

  /** One legal move of an unresolved attempt under any evidence. */
  predicate Moves(a: Attempt, b: Attempt, now: Time) {
    && SameAction(a, b) && a.ack == b.ack && a.commandID == b.commandID
    && a.verifiedEpisodes <= b.verifiedEpisodes && (a.removalVerified ==> b.removalVerified) && (a.blocklistVerified ==> b.blocklistVerified)
    && (if b.Unresolved() then b.finished == a.finished
        else b.finished == now && (b.outcome.Verified? || b.outcome.Submitted? || b.outcome.KnownFailed?))
    && (b.outcome.Submitted? ==> b.kind.Search?) && (b.outcome.Verified? ==> !b.kind.Search?)
    && (b.outcome.Intent? ==> a.outcome.Intent?) && (b.outcome.Pending? ==> a.outcome.Pending?)
    && (b.outcome.Intent? || b.outcome.Pending? ==> now - b.started < DEADLINE)
    && (Grounded(a) ==> Grounded(b))
    && (Grounded(a) && a.outcome.Partial? ==> b.outcome.Partial? || b.outcome.Verified?)
    && (a.kind.Search? && !b.Unresolved() ==> a.ack)
    && (IsRemoval(a.kind) && !b.Unresolved() ==> b.outcome.Verified? && b.removalVerified)
  }

  /** What weighing evidence may do to an attempt before a conclusion is drawn. */
  predicate Gathers(a: Attempt, p: Progress) {
    var b := p.attempt;
    && SameAction(a, b) && a.ack == b.ack && a.commandID == b.commandID && a.finished == b.finished
    && a.verifiedEpisodes <= b.verifiedEpisodes && (a.removalVerified ==> b.removalVerified) && (a.blocklistVerified ==> b.blocklistVerified)
    && (b.outcome == a.outcome || (b.outcome.Partial? && Grounded(b)))
    && (p.Judged? && p.complete && IsRemoval(a.kind) ==> b.removalVerified)
    && (p.Judged? && (p.complete || p.failed) && a.kind.Search? ==> a.ack)
    && (p.Judged? && p.failed ==> !IsRemoval(a.kind))
    && (p.Judged? && !p.complete && a.kind.Import? && b.verifiedEpisodes != {} ==> b.outcome.Partial?)
    && (p.Judged? && !p.complete && b.removalVerified && IsRemoval(a.kind) ==> b.outcome.Partial?)
  }

  /** Seen episodes, and a partial outcome if there are any, are all that weighing an import changes. */
  lemma SeenGathers(a: Attempt, seen: set<int>)
    ensures var b := a.(verifiedEpisodes := a.verifiedEpisodes + seen);
            && b.kind == a.kind && Fixed(b) == Fixed(a) && Fixed(b.(outcome := Partial)) == Fixed(a)
            && (a.kind.Import? && b.verifiedEpisodes != {} ==> Grounded(b.(outcome := Partial)))
  {
  }

  lemma ImportGathers(a: Attempt, r: Reads, now: Time)
    requires ReadsFor(a, r) && a.kind.Import?
    ensures Gathers(a, ImportProgress(a, r, now))
  {
    hide Correlated, SeenEpisodes, AllRead, Fixed, Grounded, KnownFailure, KnownProgress;
    if r.history.Got? {
      SeenGathers(a, SeenEpisodes(a, r.history.value, r.currents, |a.decision.episodeIDs|, now));
    }
  }

  lemma RemovalGathers(a: Attempt, absent: bool, r: Reads, now: Time)
    requires IsRemoval(a.kind)
    ensures Gathers(a, RemovalProgress(a, absent, r, now))
  {
    hide Blocklisted;
  }

  lemma SearchGathers(a: Attempt, r: Reads)
    requires a.kind.Search?
    ensures Gathers(a, SearchProgress(a, r))
  {
  }

  lemma BrokenMoves(a: Attempt, p: Progress, now: Time)
    requires Gathers(a, p) && a.Unresolved() && a.kind != Defer && p.Broken?
    ensures Moves(a, Conclude(p, now), now)
  {
    var m := p.attempt;
    if a.kind.Import? && m.verifiedEpisodes != {} {
      assert Conclude(p, now) == m.(outcome := Partial);
    } else if !m.outcome.Partial? && now - m.started >= DEADLINE {
      assert Conclude(p, now) == m.(outcome := Uncertain);
    } else {
      assert Conclude(p, now) == m;
    }
  }

  lemma SettledMoves(a: Attempt, p: Progress, now: Time)
    requires Gathers(a, p) && a.Unresolved() && a.kind != Defer
    requires p.Judged? && (p.complete || (p.failed && p.attempt.verifiedEpisodes == {}))
    ensures Moves(a, Conclude(p, now), now)
  {
  }

  lemma UnsettledMoves(a: Attempt, p: Progress, now: Time)
    requires Gathers(a, p) && a.Unresolved() && a.kind != Defer
    requires p.Judged? && !p.complete && !(p.failed && p.attempt.verifiedEpisodes == {})
    ensures Moves(a, Conclude(p, now), now)
  {
  }

  lemma ConcludesVerified(a: Attempt, p: Progress, now: Time)
    requires Gathers(a, p) && a.Unresolved() && !a.kind.Search?
    ensures Conclude(p, now).outcome.Verified? <==> p.Judged? && p.complete
  {
  }

  /** The outcome automaton: every verdict is a legal move, whatever was read. */
  lemma VerdictMoves(a: Attempt, absent: bool, r: Reads, now: Time)
    requires ReadsFor(a, r) && a.Unresolved() && a.kind != Defer
    ensures Moves(a, Verdict(a, absent, r, now), now)
  {
    var p := Weigh(a, absent, r, now);
    assert Gathers(a, p) by {
      match a.kind
      case Import => ImportGathers(a, r, now);
      case Search => SearchGathers(a, r);
      case _ => RemovalGathers(a, absent, r, now);
    }
    if p.Broken? {
      BrokenMoves(a, p, now);
    } else if p.complete || (p.failed && p.attempt.verifiedEpisodes == {}) {
      SettledMoves(a, p, now);
    } else {
      UnsettledMoves(a, p, now);
    }
  }

  /** The command of an import, when one was acknowledged, was read and is in a known state. */
  predicate CommandKnown(a: Attempt, r: Reads) {
    a.commandID > 0 ==>
      r.command.Got? && r.command.value.name == "ManualImport"
      && (KnownFailure(r.command.value.status) || KnownProgress(r.command.value.status))
  }

  /** An import becomes verified exactly when its command is in a known state, all reads succeeded, and every
      decided episode is fully correlated. */
  lemma ImportVerifiedIff(a: Attempt, absent: bool, r: Reads, now: Time)
    requires ReadsFor(a, r) && a.Unresolved() && a.kind.Import?
    ensures Verdict(a, absent, r, now).outcome.Verified? <==>
        && CommandKnown(a, r) && r.history.Got? && a.decision.episodeIDs != []
        && forall k :: 0 <= k < |r.currents| ==>
             r.currents[k].Got? && Correlated(a, r.history.value, a.decision.episodeIDs[k], r.currents[k].value, now)
  {
    var p := ImportProgress(a, r, now);
    ImportGathers(a, r, now);
    ConcludesVerified(a, p, now);
    ImportCompleteIff(a, r, now);
  }

  lemma ImportCompleteIff(a: Attempt, r: Reads, now: Time)
    requires ReadsFor(a, r)
    ensures var p := ImportProgress(a, r, now);
            p.Judged? && p.complete <==>
              && CommandKnown(a, r) && r.history.Got? && a.decision.episodeIDs != []
              && forall k :: 0 <= k < |r.currents| ==>
                   r.currents[k].Got? && Correlated(a, r.history.value, a.decision.episodeIDs[k], r.currents[k].value, now)
  {
  }

  /** A removal becomes verified exactly when its own acknowledged absence, now or earlier, and any required
      blocklisting are proved. */
  lemma RemovalVerifiedIff(a: Attempt, absent: bool, r: Reads, now: Time)
    requires ReadsFor(a, r) && a.Unresolved() && IsRemoval(a.kind)
    ensures Verdict(a, absent, r, now).outcome.Verified? <==>
        && (a.removalVerified || (a.ack && absent))
        && (a.decision.blocklist && !a.blocklistVerified ==>
              r.history.Got? && r.blocklist.Got? && Blocklisted(a, r.history.value, r.blocklist.value, now))
  {
    RemovalGathers(a, absent, r, now);
    ConcludesVerified(a, RemovalProgress(a, absent, r, now), now);
    if r.history.Got? && r.blocklist.Got? {
      BlocklistedOfCopy(a, a.(removalVerified := a.removalVerified || (a.ack && absent)), r.history.value, r.blocklist.value, now);
    }
  }

  lemma BlocklistedOfCopy(a: Attempt, b: Attempt, hs: seq<History>, bs: seq<Block>, now: Time)
    requires a.title == b.title && a.started == b.started && a.decision == b.decision
    ensures Blocklisted(a, hs, bs, now) == Blocklisted(b, hs, bs, now)
  {
    CoverageOfCopy(bs, a, b, now);
    assert forall h, eid :: FailedEvent(h, b, eid, now) == FailedEvent(h, a, eid, now);
  }

  lemma {:induction false} CoverageOfCopy(bs: seq<Block>, a: Attempt, b: Attempt, now: Time)
    requires a.title == b.title && a.started == b.started && a.decision == b.decision
    ensures forall eid :: Coverage(bs, a, eid, now) == Coverage(bs, b, eid, now)
  {
    if bs != [] {
      CoverageOfCopy(bs[..|bs| - 1], a, b, now);
    }
  }
}
