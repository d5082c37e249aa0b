/** Runs that show where a promise ends: downtime and failed scans credited to the rejected clock, and sendings closer
    together than the hourly limit suggests. */
module Witnesses {
  import opened Types
  import opened State
  import opened Queue
  import opened Waiting
  import opened System
  import opened Theorems
  import opened Sets
  import Policy

  /** A download that Sonarr reports as containing an executable file. */
  function Rows(id: string, episode: int): seq<QueueRow> {
    [QueueRow(1, id, Some(1), Some(episode), "client", id, "path", "completed", "importBlocked", "warning",
              [StatusMessage(["Caution: Found executable file"])])]
  }

  /** The service may remove such downloads. */
  predicate Fits(c: Config) {
    ConfigOK(c) && !c.dryRun && c.cleanupEnabled && Policy.SeriesAllowed(c, 1) && Policy.ClientAllowed(c, "client")
  }

  /** It is to be removed without waiting. */
  function Refusal(id: string, episode: int): Decision {
    Decision(RemoveBlocked, Fingerprint(QueueIdentity(Rows(id, episode)), [], [episode], true), [episode], [1], [], false, false, true)
  }

  function Refused(id: string, episode: int): Sight {
    Sight(Rows(id, episode), Some(View(true, Refusal(id, episode), Refusal(id, episode))))
  }

  function Start(now: Time): Sys {
    var empty := Image(EmptyData, {});
    Sys(empty, empty, [], [], now, 0, Idle, None, [], [], [], [])
  }

  lemma EligibleRows(id: string, episode: int)
    requires id != ""
    ensures Eligible(Rows(id, episode))
  {
  }

  lemma OneMore(c: Config, run: seq<Sys>, a: Action)
    requires Run(c, run) && Enabled(c, run[|run| - 1], a)
    ensures Run(c, run + [Apply(c, run[|run| - 1], a)])
  {
    hide Enabled, Apply, Init;
    var more := run + [Apply(c, run[|run| - 1], a)];
    assert more[0] == run[0];
    forall i | 0 <= i < |more| - 1 ensures Step(c, more[i], more[i + 1]) {
      if i == |run| - 1 {
        assert more[i] == run[i];
      }
    }
  }

  /** A record whose rejection was last seen at this instant. */
  predicate RefusedRecord(i: Issue, id: string, episode: int, elapsed: Duration, since: Time) {
    && i.identity == QueueIdentity(Rows(id, episode)) && i.eligible && !i.state.Resolved?
    && i.rejected && i.rejectedElapsed == elapsed && i.rejectedLastSeen == since
  }

  /** The first scan that sees a download refused. */
  lemma FirstRefused(c: Config, now: Time, d: Data, sights: map<string, Sight>, id: string, episode: int)
    requires id != "" && id !in d.issues && id in sights && sights[id] == Refused(id, episode)
    ensures id in Scanned(c, 0, now, d, sights) && RefusedRecord(Scanned(c, 0, now, d, sights)[id], id, episode, 0, now)
  {
    hide QueueIdentity, Eligible, HasUnresolved, CleanupWait;
    EligibleRows(id, episode);
  }

  /** A scan that does not see it, while an action for it is unresolved. */
  lemma StaysOnRecord(c: Config, previous: Time, now: Time, d: Data, id: string)
    requires id in d.issues && HasUnresolved(d, id)
    ensures id in Scanned(c, previous, now, d, map[]) && Scanned(c, previous, now, d, map[])[id] == d.issues[id]
  {
  }

  /** A later scan that sees it refused again. */
  lemma RefusedAgain(c: Config, previous: Time, now: Time, d: Data, sights: map<string, Sight>, id: string,
                     episode: int,
                     elapsed: Duration, since: Time)
    requires id != "" && id in d.issues && id in sights && sights[id] == Refused(id, episode)
    requires RefusedRecord(d.issues[id], id, episode, elapsed, since) && previous != 0 && since < now <= since + c.pollInterval
    ensures id in Scanned(c, previous, now, d, sights)
    ensures RefusedRecord(Scanned(c, previous, now, d, sights)[id], id, episode, elapsed + (now - since), now)
  {
    hide QueueIdentity, Eligible, HasUnresolved, CleanupWait;
    EligibleRows(id, episode);
  }

  // ---------------------------------------------------------------- single steps

  /** Removing this refused download needs no wait. */
  lemma MayRemove(c: Config, s: Sys, id: string, episode: int)
    requires Fits(c) && s.phase.Idle? && s.request.None? && s.previous != 0 && id in s.mem.data.issues
    requires s.seen != [] && s.seen[|s.seen| - 1].Complete? && id in s.seen[|s.seen| - 1].sights
    requires s.seen[|s.seen| - 1].sights[id] == Refused(id, episode)
    requires s.mem.data.issues[id].rejected && s.mem.data.issues[id].rejectedElapsed >= 0
    requires |LiveSince(s.mem.data.attempts, s.clock - HOUR)| < c.perHour
    requires forall a :: a in s.mem.data.attempts ==> a.downloadID != id && episode !in a.decision.episodeIDs
    ensures var d := Refusal(id, episode); MayReserve(c, s, id, d, d)
  {
    var d := Refusal(id, episode);
    NoObjection(c, s.mem.data.attempts, id, d, s.clock, s.Override());
  }

  lemma {:induction false} NoObjection(c: Config, s: seq<Attempt>, id: string, d: Decision, now: Time, override: bool)
    requires forall a :: a in s ==> !Touches(a, id, d.episodeIDs)
    ensures FirstConflict(c, s, id, d, now, 0, override) == Open
  {
    if s != [] {
      NoObjection(c, s[1..], id, d, now, override);
    }
  }

  lemma RefusedLater(c: Config, previous: Time, now: Time, d: Data, sights: map<string, Sight>, id: string,
                     episode: int)
    requires c.pollInterval > 0 && id != "" && id in d.issues && id in sights && sights[id] == Refused(id, episode)
    requires d.issues[id].rejectedElapsed >= 0
    ensures var after := Scanned(c, previous, now, d, sights); id in after && after[id].rejected && after[id].rejectedElapsed >= 0
  {
    hide QueueIdentity, Eligible, CleanupWait;
    AdvancesRejected(c, previous, now, d.issues[id], sights[id], HasUnresolved(d, id));
  }

  lemma ScansAs(c: Config, s: Sys, now: Time, sights: map<string, Sight>)
    requires s.phase.Idle? && s.request.None? && MAX_DURATION < now == s.clock && s.previous <= now && AfterAll(s.scans, now)
    requires Observes(c, None, sights)
    ensures Enabled(c, s, Scan(now, sights))
    ensures var t, issues := Apply(c, s, Scan(now, sights)), Scanned(c, s.previous, now, s.mem.data, sights);
            && t == s.(mem := s.mem.(data := s.mem.data.(issues := issues, readFailure := false)),
                       previous := now, scans := s.scans + [Complete(now, sights)], seen := s.seen + [Complete(now, sights)])
  {
    hide Scanned, Observes;
  }

  /** The removal recorded and armed. */
  lemma Records(c: Config, s: Sys, id: string, episode: int) returns (tx: Tx)
    requires var d := Refusal(id, episode); MayReserve(c, s, id, d, d)
    requires s.request.None?
    ensures var d := Refusal(id, episode);
            && Enabled(c, s, Reserve(id, d, d, map[], Saved))
            && var t := Apply(c, s, Reserve(id, d, d, map[], Saved));
               && t == s.(mem := t.mem, disk := t.mem, saved := s.seen, intents := s.intents + [tx], phase := Armed(tx))
               && t.mem.data.attempts == s.mem.data.attempts + [tx.attempt]
               && id in s.mem.data.issues && t.mem.data.issues.Keys == s.mem.data.issues.Keys
               && t.mem.data.issues[id] == s.mem.data.issues[id].(state := InProgress)
               && forall x :: x in s.mem.data.issues && x != id ==> t.mem.data.issues[x] == s.mem.data.issues[x]
    ensures tx.attempt.started == s.clock && tx.attempt.Unresolved() && !tx.attempt.kind.Search? && tx.attempt.downloadID == id && tx.attempt.decision.episodeIDs == [episode]
  {
    hide MayReserve, MaxID, Gate, ParentKey;
    var d := Refusal(id, episode);
    assert id in s.mem.data.issues by { Recordable(c, s, id, d); }
    tx := Intention(s, id, d, map[]);
  }

  lemma Recordable(c: Config, s: Sys, id: string, d: Decision)
    requires MayReserve(c, s, id, d, d)
    ensures id in s.mem.data.issues
  {
  }

  lemma Leaves(c: Config, s: Sys)
    requires s.phase.Armed?
    ensures Enabled(c, s, Transmit)
    ensures Apply(c, s, Transmit) == s.(log := s.log + [s.phase.tx], sentAt := s.sentAt + [s.clock], phase := Sent(s.phase.tx))
  {
  }

  lemma GoesUnanswered(c: Config, s: Sys)
    requires s.phase.Sent? && s.mem.data.attempts != [] && !s.mem.data.attempts[|s.mem.data.attempts| - 1].kind.Search?
    ensures Enabled(c, s, Respond(Unavailable))
    ensures var t, n := Apply(c, s, Respond(Unavailable)), |s.mem.data.attempts| - 1;
            && t == s.(mem := t.mem, phase := Idle) && t.mem.data.issues == s.mem.data.issues
            && t.mem.data.attempts == s.mem.data.attempts[n := s.mem.data.attempts[n].(outcome := Uncertain)]
  {
  }

  lemma StartRuns(c: Config, t: Time)
    requires t > MAX_DURATION
    ensures Run(c, [Start(t)])
  {
  }

  lemma TimePasses(c: Config, s: Sys, now: Time)
    requires s.clock <= now
    ensures Enabled(c, s, Tick(now)) && Apply(c, s, Tick(now)) == s.(clock := now)
  {
  }

  /** What is armed leaves later, unanswered. */
  lemma SendsLate(c: Config, run: seq<Sys>, tx: Tx, now: Time) returns (more: seq<Sys>)
    requires Run(c, run) && run != [] && run[|run| - 1].phase == Armed(tx) && run[|run| - 1].clock <= now
    requires var s := run[|run| - 1].mem.data.attempts; s != [] && s[|s| - 1] == tx.attempt && !tx.attempt.kind.Search?
    ensures Run(c, more) && more != []
    ensures var s, t := run[|run| - 1], more[|more| - 1];
            && t == s.(clock := now, log := s.log + [tx], sentAt := s.sentAt + [now], phase := Idle, mem := t.mem)
            && t.mem.data.issues == s.mem.data.issues && |t.mem.data.attempts| == |s.mem.data.attempts|
            && t.mem.data.attempts == s.mem.data.attempts[|s.mem.data.attempts| - 1 := tx.attempt.(outcome := Uncertain)]
  {
    hide Run, Apply;
    var s := run[|run| - 1];
    TimePasses(c, s, now);
    OneMore(c, run, Tick(now));
    var s1 := s.(clock := now);
    more := run + [s1];
    Leaves(c, s1);
    OneMore(c, more, Transmit);
    var s2 := Apply(c, s1, Transmit);
    more := more + [s2];
    GoesUnanswered(c, s2);
    OneMore(c, more, Respond(Unavailable));
    more := more + [Apply(c, s2, Respond(Unavailable))];
  }

  // ---------------------------------------------------------------- downtime and failed scans

  const D := "d"

  function Alone(): map<string, Sight> { map[D := Refused(D, 1)] }

  lemma AloneObserved(c: Config)
    requires Fits(c)
    ensures Observes(c, None, Alone())
  {
    RefusedJudged(c, D, 1);
  }

  lemma NothingObserved(c: Config)
    ensures Observes(c, None, map[])
  {
  }

  lemma RecordRejected(i: Issue, id: string, episode: int, elapsed: Duration, since: Time)
    requires RefusedRecord(i, id, episode, elapsed, since)
    ensures i.rejected && i.rejectedElapsed == elapsed && RefusedRecord(i.(state := InProgress), id, episode, elapsed, since)
  {
    hide QueueIdentity;
  }

  /** This data holds the refused download as last seen at this instant, with an unresolved removal. */
  predicate Holds(d: Data, since: Time) {
    && D in d.issues && RefusedRecord(d.issues[D], D, 1, 0, since)
    && |d.attempts| == 1 && d.attempts[0].downloadID == D && d.attempts[0].Unresolved()
  }

  /** One scan reads the rejection, and the removal is recorded but not yet sent. */
  lemma Interrupted(c: Config, t1: Time) returns (run: seq<Sys>, tx: Tx)
    requires Fits(c) && t1 > MAX_DURATION
    ensures Run(c, run) && run != []
    ensures var s := run[|run| - 1];
            && s.clock == t1 && s.scans == s.seen == s.saved == [Complete(t1, Alone())] && s.phase == Armed(tx) && s.request.None?
            && Holds(s.disk.data, t1) && s.mem == s.disk && s.mem.data.attempts == [tx.attempt] && !tx.attempt.kind.Search?
  {
    hide Apply, Run, Scanned, MayReserve, RefusedRecord, Observes;
    var s0, d := Start(t1), Refusal(D, 1);
    StartRuns(c, t1);
    AloneObserved(c);
    ScansAs(c, s0, t1, Alone());
    OneMore(c, [s0], Scan(t1, Alone()));
    var s1 := Apply(c, s0, Scan(t1, Alone()));
    run := [s0] + [s1];
    FirstRefused(c, t1, EmptyData, Alone(), D, 1);
    RecordRejected(s1.mem.data.issues[D], D, 1, 0, t1);
    assert LiveSince(s1.mem.data.attempts, s1.clock - HOUR) == {};
    MayRemove(c, s1, D, 1);
    tx := Records(c, s1, D, 1);
    OneMore(c, run, Reserve(D, d, d, map[], Saved));
    run := run + [Apply(c, s1, Reserve(D, d, d, map[], Saved))];
  }

  lemma Reopens(c: Config, s: Sys, r: Time)
    requires s.clock <= r
    ensures Enabled(c, s, Reopen(r))
    ensures var t := Apply(c, s, Reopen(r));
            && t == s.(mem := t.mem, disk := t.mem, clock := r, previous := 0, phase := Idle, request := None,
                       scans := s.scans + [Restart], seen := s.saved + [Restart], saved := s.saved + [Restart])
            && t.mem.data == Repair(s.disk.data, r)
  {
    hide Repair;
  }

  lemma RepairedProtects(d: Data, r: Time)
    requires |d.attempts| == 1 && d.attempts[0].downloadID == D && d.attempts[0].Unresolved()
    ensures Repair(d, r).issues == d.issues && HasUnresolved(Repair(d, r), D)
  {
    assert Repair(d, r).attempts[0] in Repair(d, r).attempts;
  }

  /** The process restarts at r; its first scan, at t2, does not find the download, which the unresolved removal keeps
      on record; the next scan, at t3, reads the rejection again and credits the whole span since t1. */
  lemma Returns(c: Config, run: seq<Sys>, t1: Time, r: Time, t2: Time, t3: Time) returns (more: seq<Sys>)
    requires Fits(c) && MAX_DURATION < t1 < r <= t2 < t3 <= t1 + c.pollInterval && Run(c, run) && run != []
    requires var s := run[|run| - 1]; s.clock <= r && Holds(s.disk.data, t1) && AfterAll(s.scans, t2)
    ensures Run(c, more) && run < more && more[|run|] == Apply(c, run[|run| - 1], Reopen(r))
    ensures var s, t := run[|run| - 1], more[|more| - 1];
            && t.clock == t3 && D in t.mem.data.issues && t.mem.data.issues[D].rejectedElapsed == t3 - t1
            && t.scans == s.scans + [Restart, Complete(t2, map[]), Complete(t3, Alone())]
            && t.seen == s.saved + [Restart, Complete(t2, map[]), Complete(t3, Alone())]
  {
    hide Apply, Run, Scanned, RefusedRecord, Observes, Repair, HasUnresolved;
    var s0 := run[|run| - 1];
    Reopens(c, s0, r);
    OneMore(c, run, Reopen(r));
    var s1 := Apply(c, s0, Reopen(r));
    more := run + [s1];
    RepairedProtects(s0.disk.data, r);
    TimePasses(c, s1, t2);
    OneMore(c, more, Tick(t2));
    var s2 := s1.(clock := t2);
    more := more + [s2];
    NothingObserved(c);
    ScansAs(c, s2, t2, map[]);
    OneMore(c, more, Scan(t2, map[]));
    var s3 := Apply(c, s2, Scan(t2, map[]));
    more := more + [s3];
    StaysOnRecord(c, 0, t2, s2.mem.data, D);
    ReadAgain(c, more, t1, t2, t3);
    more := more + [s3.(clock := t3)];
    more := more + [Apply(c, s3.(clock := t3), Scan(t3, Alone()))];
  }

  lemma ReadAgain(c: Config, run: seq<Sys>, t1: Time, t2: Time, t3: Time)
    requires Fits(c) && MAX_DURATION < t1 < t2 < t3 <= t1 + c.pollInterval && Run(c, run) && run != []
    requires var s := run[|run| - 1];
             && s.phase.Idle? && s.request.None? && s.clock == s.previous == t2 && AfterAll(s.scans, t3)
             && D in s.mem.data.issues && RefusedRecord(s.mem.data.issues[D], D, 1, 0, t1)
    ensures var s := run[|run| - 1].(clock := t3);
            && Enabled(c, s, Scan(t3, Alone()))
            && var t := Apply(c, s, Scan(t3, Alone()));
               && t == s.(mem := t.mem, previous := t3, scans := s.scans + [Complete(t3, Alone())], seen := s.seen + [Complete(t3, Alone())])
               && D in t.mem.data.issues && t.mem.data.issues[D].rejectedElapsed == t3 - t1 && Run(c, run + [s] + [t])
  {
    hide Apply, Run, Scanned, RefusedRecord, Observes;
    var s0 := run[|run| - 1];
    var s := s0.(clock := t3);
    TimePasses(c, s0, t3);
    OneMore(c, run, Tick(t3));
    AloneObserved(c);
    ScansAs(c, s, t3, Alone());
    OneMore(c, run + [s], Scan(t3, Alone()));
    RefusedAgain(c, t2, t3, s.mem.data, Alone(), D, 1, 0, t1);
    RecordRejected(Apply(c, s, Scan(t3, Alone())).mem.data.issues[D], D, 1, t3 - t1, t3);
  }

  /** Downtime is credited to the rejected clock: a scan reads the rejection at t1, a removal is recorded, the
      process restarts at r, a scan does not find the download, and the next one credits the span since t1. */
  lemma DowntimeCredited(c: Config, t1: Time, r: Time, t2: Time, t3: Time) returns (run: seq<Sys>, k: nat)
    requires Fits(c) && MAX_DURATION < t1 < r <= t2 < t3 <= t1 + c.pollInterval
    ensures Run(c, run) && k + 1 < |run|
    ensures run[k].clock == t1 && run[k + 1] == Apply(c, run[k], Reopen(r))
    ensures var s := run[|run| - 1];
            && s.clock == t3 && D in s.mem.data.issues && s.mem.data.issues[D].rejectedElapsed == t3 - t1 > t3 - r
            && s.scans == s.seen == [Complete(t1, Alone()), Restart, Complete(t2, map[]), Complete(t3, Alone())]
  {
    hide Apply, Run, RefusedRecord;
    var before, tx := Interrupted(c, t1);
    k := |before| - 1;
    run := Returns(c, before, t1, r, t2, t3);
  }

  /** Once answered, the removal is saved. */
  lemma Persists(c: Config, s: Sys)
    requires s.phase.Idle? && s.request.None?
    ensures Enabled(c, s, Persist(Saved)) && Apply(c, s, Persist(Saved)) == s.(disk := s.mem, saved := s.seen)
  {
  }

  /** A failed scan whose save fails leaves the disk alone. */
  lemma Misses(c: Config, s: Sys, now: Time)
    requires s.phase.Idle? && 0 < now == s.clock
    ensures Enabled(c, s, Miss(now))
    ensures var t := Apply(c, s, Miss(now));
            && t.disk == s.disk && t.saved == s.saved && t.clock == s.clock
            && t.scans == s.scans + [Gap] && forall id :: id in t.mem.data.issues ==> t.mem.data.issues[id].rejectedLastSeen == 0
  {
  }

  /** So is a failed scan that a restart rolls back: it stops the rejected clock in memory at f, cannot be saved, and
      the restarted process continues from the record of t1. */
  lemma FailedScanCredited(c: Config, t1: Time, f: Time, r: Time, t2: Time, t3: Time) returns (run: seq<Sys>)
    requires Fits(c) && MAX_DURATION < t1 < f < r <= t2 < t3 <= t1 + c.pollInterval
    ensures Run(c, run) && run != []
    ensures var s := run[|run| - 1];
            && s.clock == t3 && D in s.mem.data.issues && s.mem.data.issues[D].rejectedElapsed == t3 - t1 > t3 - f
            && s.scans == [Complete(t1, Alone()), Gap, Restart, Complete(t2, map[]), Complete(t3, Alone())]
            && s.seen == [Complete(t1, Alone()), Restart, Complete(t2, map[]), Complete(t3, Alone())]
  {
    hide Apply, Run, RefusedRecord;
    var tx: Tx;
    run, tx := Interrupted(c, t1);
    run := SendsLate(c, run, tx, t1);
    var s := run[|run| - 1];
    assert Holds(s.mem.data, t1);
    Persists(c, s);
    OneMore(c, run, Persist(Saved));
    s := s.(disk := s.mem, saved := s.seen);
    run := run + [s];
    TimePasses(c, s, f);
    OneMore(c, run, Tick(f));
    s := s.(clock := f);
    run := run + [s];
    Misses(c, s, f);
    OneMore(c, run, Miss(f));
    run := run + [Apply(c, s, Miss(f))];
    run := Returns(c, run, t1, r, t2, t3);
  }

  // ---------------------------------------------------------------- the hour of sending

  /** Different downloads. */
  function Name(i: nat): string { seq(i + 1, _ => 'a') }

  function Crowd(n: nat): map<string, Sight> {
    if n == 0 then map[] else Crowd(n - 1)[Name(n - 1) := Refused(Name(n - 1), n)]
  }

  lemma {:induction false} CrowdOf(n: nat)
    ensures forall id :: id in Crowd(n) ==> exists i: nat :: i < n && id == Name(i) && Crowd(n)[id] == Refused(id, i + 1)
    ensures forall i: nat :: i < n ==> Name(i) in Crowd(n) && Crowd(n)[Name(i)] == Refused(Name(i), i + 1)
  {
    hide Name, Refused;
    if n > 0 {
      CrowdOf(n - 1);
      forall i: nat | i < n - 1 ensures Name(i) != Name(n - 1) {
        NamesDiffer(i, n - 1);
      }
    }
  }

  lemma NamesDiffer(i: nat, j: nat)
    requires i != j
    ensures Name(i) != Name(j) && Name(i) != ""
  {
    assert |Name(i)| == i + 1 && |Name(j)| == j + 1;
  }

  /** Candidates are read, and the decision on them is within the scope. */
  predicate Judged(c: Config, sight: Sight) {
    && Eligible(sight.rows) && sight.view.Some? && sight.view.value.Coherent()
    && Policy.InScope(c, sight.rows, sight.view.value.decision)
  }

  lemma RefusedJudged(c: Config, id: string, episode: int)
    requires Fits(c) && id != ""
    ensures Judged(c, Refused(id, episode))
  {
    hide QueueIdentity, Policy.SeriesAllowed, Policy.ClientAllowed;
    EligibleRows(id, episode);
  }

  lemma CrowdObserved(c: Config, n: nat)
    requires Fits(c)
    ensures Observes(c, None, Crowd(n))
  {
    hide Name, Crowd, Refused, Fits, Eligible, Policy.InScope;
    CrowdOf(n);
    forall id | id in Crowd(n) ensures Judged(c, Crowd(n)[id]) {
      var i: nat :| i < n && id == Name(i) && Crowd(n)[id] == Refused(id, i + 1);
      NamesDiffer(i, i + 1);
      RefusedJudged(c, id, i + 1);
    }
  }

  /** When the k-th removal is recorded: the first one at once, the others when it has left. */
  function Recorded0(t: Time, lag: Duration, k: nat): Time { if k == 0 then t else t + lag }

  /** The first k of n downloads have been removed, all at the lagging instant, and the others are still refused. */
  predicate SentMany(s: Sys, n: nat, t: Time, lag: Duration, k: nat) {
    && s.phase.Idle? && s.request.None? && s.clock == Recorded0(t, lag, k) && s.previous == t
    && s.scans == s.seen == [Complete(t, Crowd(n))] && |s.log| == |s.sentAt| == |s.mem.data.attempts| == k
    && (forall i :: 0 <= i < k ==> s.sentAt[i] == t + lag && s.log[i].attempt.started == Recorded0(t, lag, i))
    && (forall i :: 0 <= i < k ==> Removes(s.mem.data.attempts[i], i, Recorded0(t, lag, i)))
    && (forall i: nat :: k <= i < n ==> Waits(s.mem.data.issues, i))
  }

  predicate Removes(a: Attempt, i: nat, start: Time) {
    !a.dryRun && a.downloadID == Name(i) && a.decision.episodeIDs == [i + 1] && a.started == start
  }

  predicate Waits(issues: map<string, Issue>, i: nat) {
    Name(i) in issues && issues[Name(i)].rejected && issues[Name(i)].rejectedElapsed >= 0
  }

  lemma ScansCrowd(c: Config, n: nat, t: Time) returns (run: seq<Sys>)
    requires Fits(c) && t > MAX_DURATION
    ensures Run(c, run) && run != [] && SentMany(run[|run| - 1], n, t, 0, 0)
  {
    hide Apply, Run, Scanned, Observes, Name, Refused;
    var s0 := Start(t);
    StartRuns(c, t);
    CrowdObserved(c, n);
    ScansAs(c, s0, t, Crowd(n));
    OneMore(c, [s0], Scan(t, Crowd(n)));
    var s1 := Apply(c, s0, Scan(t, Crowd(n)));
    run := [s0] + [s1];
    CrowdOf(n);
    forall i: nat | i < n ensures Waits(s1.mem.data.issues, i) {
      NamesDiffer(i, i + 1);
      FirstRefused(c, t, EmptyData, Crowd(n), Name(i), i + 1);
    }
  }

  function Below(k: nat): (r: set<int>)
    ensures |r| == k && forall i :: i in r <==> 0 <= i < k
  {
    if k == 0 then {} else Below(k - 1) + {k - 1}
  }

  lemma Untouched(s: seq<Attempt>, starts: seq<Time>, k: nat)
    requires |s| == |starts| <= k && forall i :: 0 <= i < |s| ==> Removes(s[i], i, starts[i])
    ensures forall a :: a in s ==> a.downloadID != Name(k) && k + 1 !in a.decision.episodeIDs
  {
    hide Name;
    forall a | a in s ensures a.downloadID != Name(k) && k + 1 !in a.decision.episodeIDs {
      var i :| 0 <= i < |s| && s[i] == a;
      NamesDiffer(i, k);
    }
  }

  lemma MayRemoveNext(c: Config, s: Sys, n: nat, t: Time, lag: Duration, k: nat)
    requires Fits(c) && t > MAX_DURATION && k < n && k < c.perHour && SentMany(s, n, t, lag, k)
    ensures var d := Refusal(Name(k), k + 1); MayReserve(c, s, Name(k), d, d)
    ensures s.request.None? && s.clock == Recorded0(t, lag, k)
  {
    hide MayReserve, Name, Refused, Crowd, Refusal;
    CrowdOf(n);
    Subset(LiveSince(s.mem.data.attempts, s.clock - HOUR), Below(k));
    Untouched(s.mem.data.attempts, seq(k, i requires 0 <= i < k => Recorded0(t, lag, i)), k);
    assert Waits(s.mem.data.issues, k);
    MayRemove(c, s, Name(k), k + 1);
  }

  /** What recording and sending the next removal makes of the state. */
  lemma SentNext(s: Sys, u: Sys, tx: Tx, n: nat, t: Time, lag: Duration, k: nat)
    requires k < n && SentMany(s, n, t, lag, k) && Removes(tx.attempt, k, Recorded0(t, lag, k))
    requires u.phase.Idle? && u.request.None? && u.clock == t + lag && u.previous == s.previous && u.scans == s.scans && u.seen == s.seen
    requires u.log == s.log + [tx] && u.sentAt == s.sentAt + [t + lag]
    requires u.mem.data.attempts == s.mem.data.attempts + [tx.attempt.(outcome := Uncertain)]
    requires forall x :: x in s.mem.data.issues && x != Name(k) ==> x in u.mem.data.issues && u.mem.data.issues[x] == s.mem.data.issues[x]
    ensures SentMany(u, n, t, lag, k + 1)
  {
    hide Name, Crowd;
    forall i: nat | k + 1 <= i < n ensures Waits(u.mem.data.issues, i) {
      NamesDiffer(i, k);
      assert Waits(s.mem.data.issues, i);
    }
  }

  /** One more removal, while the limit is not reached. */
  lemma NextSending(c: Config, run: seq<Sys>, n: nat, t: Time, lag: Duration, k: nat) returns (more: seq<Sys>)
    requires Fits(c) && t > MAX_DURATION && lag >= 0 && k < n && k < c.perHour
    requires Run(c, run) && run != [] && SentMany(run[|run| - 1], n, t, lag, k)
    ensures Run(c, more) && more != [] && SentMany(more[|more| - 1], n, t, lag, k + 1)
  {
    hide Apply, Run, MayReserve, Name, Crowd, Fits, Refusal;
    var s0, id, d := run[|run| - 1], Name(k), Refusal(Name(k), k + 1);
    MayRemoveNext(c, s0, n, t, lag, k);
    var tx := Records(c, s0, id, k + 1);
    OneMore(c, run, Reserve(id, d, d, map[], Saved));
    var s1 := Apply(c, s0, Reserve(id, d, d, map[], Saved));
    more := run + [s1];
    more := SendsLate(c, more, tx, t + lag);
    var s2 := more[|more| - 1];
    assert s2.mem.data.attempts == s0.mem.data.attempts + [tx.attempt.(outcome := Uncertain)];
    SentNext(s0, s2, tx, n, t, lag, k);
  }

  /** All but the last. */
  lemma {:induction false} ManySendings(c: Config, n: nat, t: Time, lag: Duration, k: nat) returns (run: seq<Sys>)
    requires Fits(c) && t > MAX_DURATION && lag >= 0 && k <= n && k <= c.perHour
    ensures Run(c, run) && run != [] && SentMany(run[|run| - 1], n, t, lag, k)
  {
    hide Run, Fits;
    if k == 0 {
      run := ScansCrowd(c, n, t);
    } else {
      run := ManySendings(c, n, t, lag, k - 1);
      run := NextSending(c, run, n, t, lag, k - 1);
    }
  }

  /** The first removal is no longer charged when it was recorded an hour ago. */
  lemma FirstForgotten(s: seq<Attempt>, t: Time, lag: Duration)
    requires s != [] && forall i :: 0 <= i < |s| ==> Removes(s[i], i, Recorded0(t, lag, i))
    ensures |LiveSince(s, t)| < |s|
  {
    hide Name;
    assert 0 !in LiveSince(s, t);
    Subset(LiveSince(s, t), Below(|s|) - {0});
  }

  /** The last removal, exactly an hour after the first was recorded. */
  lemma LastSending(c: Config, run: seq<Sys>, t: Time, lag: Duration) returns (more: seq<Sys>)
    requires Fits(c) && t > MAX_DURATION && 0 < lag <= HOUR
    requires Run(c, run) && run != [] && SentMany(run[|run| - 1], c.perHour + 1, t, lag, c.perHour)
    ensures Run(c, more) && more != []
    ensures var s, u := run[|run| - 1], more[|more| - 1];
            u.sentAt == s.sentAt + [t + HOUR] && exists tx :: u.log == s.log + [tx] && tx.attempt.started == t + HOUR
  {
    hide Apply, Run, Scanned, MayReserve, Name, Refused, Crowd, Observes;
    var k, now := c.perHour, t + HOUR;
    var s0, id, d := run[|run| - 1], Name(k), Refusal(Name(k), k + 1);
    TimePasses(c, s0, now);
    OneMore(c, run, Tick(now));
    var s1 := s0.(clock := now);
    more := run + [s1];
    CrowdOf(k + 1);
    CrowdObserved(c, k + 1);
    ScansAs(c, s1, now, Crowd(k + 1));
    OneMore(c, more, Scan(now, Crowd(k + 1)));
    var s2 := Apply(c, s1, Scan(now, Crowd(k + 1)));
    more := more + [s2];
    assert Waits(s0.mem.data.issues, k);
    NamesDiffer(k, k + 1);
    RefusedLater(c, t, now, s1.mem.data, Crowd(k + 1), id, k + 1);
    FirstForgotten(s2.mem.data.attempts, t, lag);
    Untouched(s2.mem.data.attempts, seq(k, i requires 0 <= i < k => Recorded0(t, lag, i)), k);
    MayRemove(c, s2, id, k + 1);
    var tx := Records(c, s2, id, k + 1);
    OneMore(c, more, Reserve(id, d, d, map[], Saved));
    var s3 := Apply(c, s2, Reserve(id, d, d, map[], Saved));
    more := more + [s3];
    Leaves(c, s3);
    OneMore(c, more, Transmit);
    more := more + [Apply(c, s3, Transmit)];
    assert more[|more| - 1].log == s0.log + [tx];
  }

  lemma AllLeft(sentAt: seq<Time>, k: nat, t: Time, lag: Duration)
    requires 0 < lag <= HOUR && |sentAt| == k + 1 && sentAt[k] == t + HOUR && forall i :: 0 <= i < k ==> sentAt[i] == t + lag
    ensures |Left(sentAt, t + lag - 1, t + HOUR)| == k + 1
  {
    assert Left(sentAt, t + lag - 1, t + HOUR) == Below(k + 1);
  }

  /** The lag matters: for every limit, and every lag of up to an hour, some run in which everything leaves within that
      lag of being recorded exceeds the limit within a span that is longer than an hour without the lag by one
      nanosecond, so the bound on sending instants cannot be improved. */
  lemma SendingNeedsLag(c: Config, t: Time, lag: Duration) returns (run: seq<Sys>)
    requires Fits(c) && t > MAX_DURATION && 0 < lag <= HOUR
    ensures Run(c, run) && run != []
    ensures var s := run[|run| - 1];
            && |s.log| == |s.sentAt| && (forall i :: 0 <= i < |s.log| ==> s.sentAt[i] - s.log[i].attempt.started <= lag)
            && |Left(s.sentAt, t + HOUR - (HOUR - lag) - 1, t + HOUR)| > c.perHour
  {
    hide Run, Crowd, Name, Removes, Waits, Policy.SeriesAllowed, Policy.ClientAllowed;
    var most := ManySendings(c, c.perHour + 1, t, lag, c.perHour);
    run := LastSending(c, most, t, lag);
    var s := run[|run| - 1];
    AllLeft(s.sentAt, c.perHour, t, lag);
  }
}
