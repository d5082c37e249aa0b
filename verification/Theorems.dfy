/** What every run guarantees, whatever the remote answers and wherever the process crashes. */
module Theorems {
  import opened Types
  import opened State
  import opened System
  import opened Invariant
  import opened Steps
  import opened Runs
  import opened Sets
  import opened Waiting
  import opened Waits
  import opened Queue
  import Policy

  /** The invariant holds of every state of every run. */
  lemma {:induction false} RunsKeepInv(c: Config, run: seq<Sys>, n: nat)
    requires ConfigOK(c) && Run(c, run) && n < |run|
    ensures Inv(c, run[n])
  {
    if n > 0 {
      RunsKeepInv(c, run, n - 1);
      assert Step(c, run[n - 1], run[n - 1 + 1]);
      var a :| Enabled(c, run[n - 1], a) && run[n] == Apply(c, run[n - 1], a);
      StepKeeps(c, run[n - 1], a);
    }
  }

  // ---------------------------------------------------------------- no blind replay

  /** Nothing is ever sent twice: entries under one identifier started at least an hour apart. Anything that
      shares a download or an episode with an earlier transmission was sent only after the earlier
      one was settled, durably; and whatever is not settled is still protected by both copies. */
  lemma NoBlindReplay(c: Config, run: seq<Sys>, n: nat)
    requires ConfigOK(c) && Run(c, run) && n < |run|
    ensures var s := run[n];
            && (forall i, j :: 0 <= i < j < |s.log| ==>
                  && KeyOf(s.log[i].attempt) != KeyOf(s.log[j].attempt)
                  && (s.log[i].attempt.id == s.log[j].attempt.id ==> s.log[j].attempt.started - s.log[i].attempt.started >= HOUR)
                  && (Related(s.log[i].attempt, s.log[j].attempt) ==>
                        KeyOf(s.log[i].attempt) in s.mem.settled && KeyOf(s.log[i].attempt) in s.disk.settled))
            && forall t :: t in s.log ==>
                  && (KeyOf(t.attempt) in s.mem.settled || Protects(s.mem.data.attempts, t.attempt))
                  && (KeyOf(t.attempt) in s.disk.settled || Protects(s.disk.data.attempts, t.attempt))
  {
    RunsKeepInv(c, run, n);
    forall i, j | 0 <= i < j < |run[n].log|
      ensures KeyOf(run[n].log[i].attempt) != KeyOf(run[n].log[j].attempt)
      ensures run[n].log[i].attempt.id == run[n].log[j].attempt.id ==> run[n].log[j].attempt.started - run[n].log[i].attempt.started >= HOUR
    {
      assert Follows(c, run[n].log, j, run[n].log[j]);
    }
  }

  /** An unresolved last attempt is related to no other unresolved one. */
  lemma LastIsAlone(c: Config, s: seq<Attempt>, settled: set<Key>, clock: Time)
    requires Sound(c, s, settled, clock) && s != [] && !s[|s| - 1].dryRun
    ensures forall b :: b in s && b.Unresolved() && b != s[|s| - 1] ==> !Related(b, s[|s| - 1])
  {
    hide Capped, Related;
    forall b | b in s && b.Unresolved() && b != s[|s| - 1]
      ensures !Related(b, s[|s| - 1])
    {
      var i :| 0 <= i < |s| && s[i] == b;
      assert Ordered(c, s[i], s[|s| - 1]);
    }
  }

  /** Intent before effect: when something is sent, the disk already holds it as an unanswered intent, and no
      other unresolved attempt, in memory or on disk, touches its download or episodes. */
  lemma IntentBeforeEffect(c: Config, run: seq<Sys>, n: nat)
    requires ConfigOK(c) && Run(c, run) && n < |run| && Enabled(c, run[n], Transmit)
    ensures var s, a := run[n], run[n].phase.tx.attempt;
            && a in s.disk.data.attempts && a.outcome.Intent? && !a.ack
            && (forall b :: (b in s.mem.data.attempts || b in s.disk.data.attempts) && b.Unresolved() && b != a ==> !Related(b, a))
            && Apply(c, s, Transmit).log == s.log + [s.phase.tx]
  {
    hide Run, Remembers, NoReplay, Anchored, Once, LogOK, Related;
    RunsKeepInv(c, run, n);
    LastIsAlone(c, run[n].mem.data.attempts, run[n].mem.settled, run[n].clock);
  }

  // ---------------------------------------------------------------- rolling budget

  /** The transmissions recorded in the half-open hour that ends at the instant. */
  ghost function Hour(log: seq<Tx>, t: Time): set<int> {
    set i | 0 <= i < |log| && t - HOUR < log[i].attempt.started <= t
  }

  /** Rolling budget: over the whole history, pruned entries and crashes included, every half-open hour of
      recorded starts holds at most the configured number of imports, removals and searches together. */
  lemma RollingBudget(c: Config, run: seq<Sys>, n: nat, t: Time)
    requires ConfigOK(c) && Run(c, run) && n < |run|
    ensures |Hour(run[n].log, t)| <= c.perHour
  {
    RunsKeepInv(c, run, n);
    LogBudget(c, run[n].log, run[n].clock, t);
  }

  lemma LogBudget(c: Config, log: seq<Tx>, clock: Time, t: Time)
    requires LogOK(c, log, clock) && c.perHour > 0
    ensures |Hour(log, t)| <= c.perHour
  {
    hide Entry;
    var w := Hour(log, t);
    if w != {} {
      var m := Largest(w);
      assert Follows(c, log, m, log[m]);
      EarlierInHour(log, t, m);
    }
  }

  lemma EarlierInHour(log: seq<Tx>, t: Time, m: int)
    requires m in Hour(log, t) && forall i :: i in Hour(log, t) ==> i <= m
    ensures |Hour(log, t)| <= |SentSince(log, m, log[m].attempt.started - HOUR)| + 1
  {
    Subset(Hour(log, t) - {m}, SentSince(log, m, log[m].attempt.started - HOUR));
  }

  /** The transmissions that really left in the half-open span that ends at the instant. */
  ghost function Left(sentAt: seq<Time>, from: Time, to: Time): set<int> {
    set i | 0 <= i < |sentAt| && from < sentAt[i] <= to
  }

  /** The same for the instants of sending, when saving the intent never takes longer than `lag`: the
      span that is certainly within budget is shorter by exactly that lag. */
  lemma SendingBudget(c: Config, run: seq<Sys>, n: nat, lag: Duration, t: Time)
    requires ConfigOK(c) && Run(c, run) && n < |run| && 0 <= lag
    requires forall i :: 0 <= i < |run[n].log| && i < |run[n].sentAt| ==> run[n].sentAt[i] - run[n].log[i].attempt.started <= lag
    ensures |Left(run[n].sentAt, t - (HOUR - lag), t)| <= c.perHour
  {
    RunsKeepInv(c, run, n);
    RollingBudget(c, run, n, t);
    Subset(Left(run[n].sentAt, t - (HOUR - lag), t), Hour(run[n].log, t));
  }

  // ---------------------------------------------------------------- receipts and requests

  /** A store this service saved always passes the checks of reopening. */
  lemma AlwaysReopens(c: Config, run: seq<Sys>, n: nat)
    requires ConfigOK(c) && Run(c, run) && n < |run|
    ensures Linked(run[n].disk.data) && Linked(run[n].mem.data) && Linked(Repair(run[n].disk.data, run[n].clock))
  {
    RunsKeepInv(c, run, n);
    RepairImage(c, run[n].disk, run[n].clock, run[n].log, run[n].clock);
  }

  /** While a request is alive, everything it sent is less than an hour old, so its receipt is on both copies:
      neither crash nor pruning can make the request acceptable again. */
  lemma LiveReceiptSurvives(c: Config, run: seq<Sys>, n: nat, t: Tx)
    requires ConfigOK(c) && Run(c, run) && n < |run| && t in run[n].log
    requires t.request.Some? && run[n].clock < t.request.value.expires
    ensures t.request.value.id in run[n].mem.data.triggers && t.request.value.id in run[n].disk.data.triggers
  {
    RunsKeepInv(c, run, n);
    var s := run[n];
    assert Entry(c, t, s.clock);
    assert Recalls(s.mem.data.attempts, t.attempt) && Recalls(s.disk.data.attempts, t.attempt);
  }

  /** A live request that sent anything is never run a second time. */
  lemma RunsOnce(c: Config, run: seq<Sys>, n: nat, req: Request, accepted: Time, save: Save)
    requires ConfigOK(c) && Run(c, run) && n < |run| && Enabled(c, run[n], Accept(req, accepted, save))
    ensures forall t :: t in run[n].log && t.request.Some? && t.request.value.id == req.id ==>
              t.request.value.expires <= run[n].clock && t.request.value.expires != req.expires
  {
    forall t | t in run[n].log && t.request.Some? && t.request.value.id == req.id
      ensures t.request.value.expires <= run[n].clock
    {
      if run[n].clock < t.request.value.expires {
        LiveReceiptSurvives(c, run, n, t);
      }
    }
  }

  // ---------------------------------------------------------------- waiting

  lemma StepKeepsWaits(c: Config, s: Sys, a: Action)
    requires ConfigOK(c) && WaitInv(c, s) && Enabled(c, s, a)
    ensures WaitInv(c, Apply(c, s, a))
  {
    hide WaitInv, Apply, MayReserve, Observes, AfterAll;
    match a
    case Scan(now, sights) => ScanKeepsWaits(c, s, now, sights);
    case Miss(now) => MissKeepsWaits(c, s, now);
    case Reopen(now) => ReopenKeepsWaits(c, s, now);
    case _ => CalmKeepsWaits(c, s, a);
  }

  lemma InitWaits(c: Config, s: Sys)
    requires Init(s)
    ensures WaitInv(c, s)
  {
  }

  lemma {:induction false} RunsKeepWaits(c: Config, run: seq<Sys>, n: nat)
    requires ConfigOK(c) && Run(c, run) && n < |run|
    ensures WaitInv(c, run[n])
  {
    hide WaitInv, Enabled, Apply, Init;
    if n == 0 {
      InitWaits(c, run[0]);
    } else {
      RunsKeepWaits(c, run, n - 1);
      assert Step(c, run[n - 1], run[n - 1 + 1]);
      var a :| Enabled(c, run[n - 1], a) && run[n] == Apply(c, run[n - 1], a);
      StepKeepsWaits(c, run[n - 1], a);
    }
  }

  /** What the data in memory and on disk have gone through is part of what happened, in that order, and in memory
      all of it since the last restart. */
  lemma {:induction false} SeenIsPartOfScans(c: Config, run: seq<Sys>, n: nat)
    requires Run(c, run) && n < |run|
    ensures Subsequence(run[n].seen, run[n].scans) && Subsequence(run[n].saved, run[n].scans)
    ensures SinceRestart(run[n].seen) == SinceRestart(run[n].scans)
  {
    if n > 0 {
      SeenIsPartOfScans(c, run, n - 1);
      assert Step(c, run[n - 1], run[n - 1 + 1]);
      StepSeen(c, run[n - 1], run[n]);
    }
  }

  lemma {:induction false} RunsObserve(c: Config, run: seq<Sys>, n: nat, id: string)
    requires ConfigOK(c) && Run(c, run) && n < |run|
    ensures StreaksObserved(c, run[n], id)
  {
    hide Enabled, Apply, Streak, Observed;
    if n == 0 {
      NothingObserved(c, run[0], id);
    } else {
      RunsObserve(c, run, n - 1, id);
      SeenIsPartOfScans(c, run, n - 1);
      assert Step(c, run[n - 1], run[n - 1 + 1]);
      StepObserved(c, run[n - 1], run[n], id);
    }
  }

  lemma NothingObserved(c: Config, s: Sys, id: string)
    requires Init(s)
    ensures StreaksObserved(c, s, id)
  {
  }

  /** Waiting is never fabricated, on both copies and after any crashes, rollbacks and failed scans. The eligible clock
      is at most the capped time between successive scans of the data that saw the download under its present
      identity, and so at most that between successive scans of all that happened, with nothing for failed
      scans, restarts or absences. The rejected clock is at most the capped time between successive rejected
      observations that the data went through, under the present identity and since the rejection last
      began, with nothing for the failed scans that the data went through. */
  lemma WaitingIsObserved(c: Config, run: seq<Sys>, n: nat, d: Data, h: seq<Event>, id: string)
    requires ConfigOK(c) && Run(c, run) && n < |run| && id in d.issues
    requires (d == run[n].mem.data && h == run[n].seen) || (d == run[n].disk.data && h == run[n].saved)
    ensures 0 <= d.issues[id].elapsed <= Streak(c, h, id) <= Observed(c, run[n].scans, id)
    ensures 0 <= d.issues[id].rejectedElapsed <= RejectedStreak(c, h, id)
  {
    hide Run, Streak, RejectedStreak, RejectedSince, LastSighting, Waited, Observed;
    RunsKeepWaits(c, run, n);
    RunsObserve(c, run, n, id);
    assert Backed(c, h, id, d.issues[id]);
  }

  lemma LastIsSeen(s: Sys)
    requires SinceRestart(s.seen) == SinceRestart(s.scans) && s.scans != [] && s.scans[|s.scans| - 1].Complete?
    ensures s.seen != [] && s.seen[|s.seen| - 1] == s.scans[|s.scans| - 1]
  {
    var since := SinceRestart(s.scans);
    assert since[|since| - 1] == s.scans[|s.scans| - 1];
  }

  /** Waiting that was observed is credited. In every state a scan that sees a download eligible, under the same
      identity as the scan just before it saw it eligible, adds exactly the time between them, capped at one
      poll, as long as they are at most two polls apart and nothing has resolved the download; and if both read a
      rejection, the rejected clock gains as much. With `WaitingIsObserved`, neither clock can run fast or slow. */
  lemma ObservedIsCredited(c: Config, run: seq<Sys>, n: nat, now: Time, sights: map<string, Sight>, id: string)
    requires ConfigOK(c) && Run(c, run) && n < |run| && Enabled(c, run[n], Scan(now, sights))
    requires id in sights && id in run[n].mem.data.issues && run[n].mem.data.issues[id].state != Resolved
    requires run[n].scans != [] && Sees(run[n].scans[|run[n].scans| - 1], id)
    requires now - run[n].scans[|run[n].scans| - 1].now <= 2 * c.pollInterval
    requires Eligible(sights[id].rows) && Eligible(run[n].scans[|run[n].scans| - 1].sights[id].rows)
    requires QueueIdentity(run[n].scans[|run[n].scans| - 1].sights[id].rows) == QueueIdentity(sights[id].rows)
    ensures var i, j := run[n].mem.data.issues[id], Apply(c, run[n], Scan(now, sights)).mem.data.issues[id];
            var last := run[n].scans[|run[n].scans| - 1];
            && j.elapsed == i.elapsed + Min(now - last.now, c.pollInterval)
            && (RejectedIn(last, id) && sights[id].Rejected() ==>
                  j.rejectedElapsed == i.rejectedElapsed + Min(c.pollInterval, now - last.now))
  {
    hide Run, WaitInv, Enabled, Apply, SinceRestart, Eligible, QueueIdentity, RejectedIn;
    RunsKeepWaits(c, run, n);
    SeenIsPartOfScans(c, run, n);
    LastIsSeen(run[n]);
    PairCredited(c, run[n], now, sights, id);
  }

  /** Every import and removal ever sent is what the last scan before its recording decided for the download, with
      the causes that its candidate shows. Unless it overrode waiting it had its configured wait of observed
      time: an import of eligible time, a blocked removal of rejected time unless it has an immediate cause,
      any other removal of rejected time if that scan read a rejection and of eligible time if not. */
  lemma MutationsWaited(c: Config, run: seq<Sys>, n: nat, t: Tx)
    requires ConfigOK(c) && Run(c, run) && n < |run| && t in run[n].log && !t.attempt.kind.Search?
    ensures var a, h := t.attempt, t.seen;
            && h != [] && Viewed(h[|h| - 1], a.downloadID)
            && Agrees(a.decision, h[|h| - 1].sights[a.downloadID].view.value.decision) && Shown(a.decision)
    ensures var a, h, id := t.attempt, t.seen, t.attempt.downloadID;
            !a.waitOverride ==>
              match a.kind
              case Import => c.recoveryWait <= Streak(c, h, id)
              case RemoveBlocked =>
                a.decision.episodeMismatch || a.decision.executableWarning || c.cleanupWait <= RejectedStreak(c, h, id)
              case _ => c.cleanupWait <= if RejectedIn(h[|h| - 1], id) then RejectedStreak(c, h, id) else Streak(c, h, id)
  {
    hide Run, Streak, RejectedStreak, RejectedSince, LastSighting, Backed;
    RunsKeepWaits(c, run, n);
    assert Waited(c, t);
  }

  /** Every import and removal ever sent stays within the configured scope: the clients of the rows that the last scan
      saw and all its series are allowed, and under a series scope it names some. */
  lemma MutationsInScope(c: Config, run: seq<Sys>, n: nat, t: Tx)
    requires ConfigOK(c) && Run(c, run) && n < |run| && t in run[n].log && !t.attempt.kind.Search?
    ensures t.seen != [] && Viewed(t.seen[|t.seen| - 1], t.attempt.downloadID)
    ensures forall q :: q in t.seen[|t.seen| - 1].sights[t.attempt.downloadID].rows ==> Policy.ClientAllowed(c, q.client)
    ensures Policy.SeriesInScope(c, t.attempt.decision)
  {
    hide Run, Streak, RejectedStreak, RejectedSince, LastSighting, Backed, Ripe, Policy.ClientAllowed;
    hide Policy.SeriesInScope;
    RunsKeepWaits(c, run, n);
    assert Waited(c, t);
  }

  /** While background work is a dry run, only manual requests that ask for execution send anything, within their
      lifetime. */
  lemma DryRunsSendNothing(c: Config, run: seq<Sys>, n: nat, t: Tx)
    requires ConfigOK(c) && Run(c, run) && n < |run| && t in run[n].log && c.dryRun
    ensures t.request.Some? && t.request.value.execute && t.attempt.requestID == t.request.value.id
    ensures t.request.value.expires <= t.attempt.started + LIFETIME
  {
    RunsKeepInv(c, run, n);
    assert Entry(c, t, run[n].clock);
  }

  /** Whether the rejected clock advances over downtime and failed scans. Whenever a scan credits a pair to it, the pair
      begins with a scan that read the rejection. Any scan that failed since then was rolled back by a later
      restart; and nothing but complete scans happened since then, so that the credit is for observed time,
      if and only if some scan since the last restart has read the rejection. */
  lemma CreditsObservedIff(c: Config, run: seq<Sys>, n: nat, now: Time, sights: map<string, Sight>,
                           id: string) returns (p: nat)
    requires ConfigOK(c) && Run(c, run) && n < |run| && Enabled(c, run[n], Scan(now, sights))
    requires id in sights && id in run[n].mem.data.issues
    requires !Resets(run[n].mem.data.issues[id], sights[id])
    requires ContinuesRejected(c, run[n].mem.data.issues[id], sights[id], run[n].previous, now)
    ensures var s := run[n];
            && p < |s.scans| && RejectedIn(s.scans[p], id)
            && Apply(c, s, Scan(now, sights)).mem.data.issues[id].rejectedElapsed ==
                 s.mem.data.issues[id].rejectedElapsed + Min(c.pollInterval, now - s.scans[p].now)
    ensures var scans := run[n].scans;
            forall j :: p < j < |scans| && scans[j].Gap? ==> exists q :: j < q < |scans| && scans[q].Restart?
    ensures var scans := run[n].scans;
            (forall j :: p < j < |scans| ==> scans[j].Complete?) <==> exists e :: e in SinceRestart(scans) && RejectedIn(e, id)
  {
    hide Run, WaitInv, Advance, Resets, RejectedIn, SinceRestart;
    RunsKeepWaits(c, run, n);
    SeenIsPartOfScans(c, run, n);
    var i := run[n].mem.data.issues[id];
    var k := CreditSpansRestart(c, run[n], now, sights[id], id);
    p := SpanOfCredit(c, run[n], k, id);
    AdvancesRejected(c, run[n].previous, now, i, sights[id], HasUnresolved(run[n].mem.data, id));
  }

  lemma SpanOfCredit(c: Config, s: Sys, k: nat, id: string) returns (p: nat)
    requires WaitInv(c, s) && SinceRestart(s.seen) == SinceRestart(s.scans)
    requires k < |s.seen| && RejectedIn(s.seen[k], id) && forall j :: k < j < |s.seen| ==> !s.seen[j].Gap? && !RejectedIn(s.seen[j], id)
    ensures p < |s.scans| && s.scans[p] == s.seen[k]
    ensures forall j :: p < j < |s.scans| && s.scans[j].Gap? ==> exists q :: j < q < |s.scans| && s.scans[q].Restart?
    ensures (forall j :: p < j < |s.scans| ==> s.scans[j].Complete?) <==> exists e :: e in SinceRestart(s.scans) && RejectedIn(e, id)
  {
    hide RejectedIn, SinceRestart, Ascending, Sensible, AllBacked, Waited;
    p := SpanOfScans(s.seen, s.scans, k, id);
  }
}
