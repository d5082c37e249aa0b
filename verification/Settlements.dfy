/** Whatever counts as settled was settled by evidence that the run really read. */
module Settlements {
  import opened Types
  import opened State
  import opened Outcomes
  import opened System
  import opened Invariant
  import opened Theorems
  import opened Waiting
  import Lifecycle
  import Retention

  /** This step of the run verified the attempt, as it was, against this evidence. */
  ghost predicate Verifies(c: Config, run: seq<Sys>, m: nat, a: Attempt, absent: bool, evidence: Reads, now: Time)
    requires m + 1 < |run|
  {
    exists j :: 0 <= j < |run[m].mem.data.attempts| && a == run[m].mem.data.attempts[j]
      && Enabled(c, run[m], Action.Verify(j, absent, evidence, now)) && run[m + 1] == Apply(c, run[m], Action.Verify(j, absent, evidence, now))
  }

  /** This step read that an acknowledged removal has left the queue. */
  ghost predicate ReadsAbsence(c: Config, run: seq<Sys>, m: nat, k: Key)
    requires m + 1 < |run|
  {
    exists a, evidence, now :: KeyOf(a) == k && a.ack && IsRemoval(a.kind) && Verifies(c, run, m, a, true, evidence, now)
  }

  /** This step read that each decided episode failed during the attempt and is blocklisted exactly once. */
  ghost predicate ReadsBlocklisting(c: Config, run: seq<Sys>, m: nat, k: Key)
    requires m + 1 < |run|
  {
    exists a, absent, evidence, now ::
      && KeyOf(a) == k && Verifies(c, run, m, a, absent, evidence, now)
      && evidence.history.Got? && evidence.blocklist.Got? && Blocklisted(a, evidence.history.value, evidence.blocklist.value, now)
  }

  /** Every decided episode is fully correlated, and the command is in a known state. */
  predicate FullyCorrelated(a: Attempt, evidence: Reads, now: Time) {
    && ReadsFor(a, evidence) && CommandKnown(a, evidence) && evidence.history.Got? && a.decision.episodeIDs != []
    && forall k :: 0 <= k < |evidence.currents| ==>
         evidence.currents[k].Got? && Correlated(a, evidence.history.value, a.decision.episodeIDs[k], evidence.currents[k].value, now)
  }

  /** The command of the attempt was read, under this name, to have failed. */
  predicate CommandFailed(a: Attempt, evidence: Reads, name: string) {
    a.commandID > 0 && evidence.command.Got? && evidence.command.value.name == name && KnownFailure(evidence.command.value.status)
  }

  /** What the evidence shows of an attempt that it settles as b. */
  predicate Conclusive(a: Attempt, b: Attempt, evidence: Reads, now: Time) {
    match a.kind
    case Import =>
      || (b.outcome.Verified? && FullyCorrelated(a, evidence, now))
      || (b.outcome.KnownFailed? && CommandFailed(a, evidence, "ManualImport") && b.verifiedEpisodes == {})
    case Search =>
      && a.ack
      && (|| (b.outcome.Submitted? && a.commandID > 0 && evidence.command.Got? && evidence.command.value.name == "EpisodeSearch"
              && KnownProgress(evidence.command.value.status))
          || (b.outcome.KnownFailed? && CommandFailed(a, evidence, "EpisodeSearch")))
    case Defer => false
    case _ => b.outcome.Verified?
  }

  /** This step settled the attempt under this key, and this step or earlier ones read everything that takes: for an
      import full correlation or its failed command, for a search its known command, for a removal its
      acknowledged absence and the blocklisting it asked for. */
  ghost predicate SettledAt(c: Config, run: seq<Sys>, m: nat, k: Key)
    requires m + 1 < |run|
  {
    exists a, absent, evidence, now ::
      && KeyOf(a) == k && Verifies(c, run, m, a, absent, evidence, now)
      && ReadsFor(a, evidence) && Conclusive(a, Verdict(a, absent, evidence, now), evidence, now)
      && (IsRemoval(a.kind) ==>
            && (exists i :: 0 <= i <= m && ReadsAbsence(c, run, i, k))
            && (a.decision.blocklist ==> exists i :: 0 <= i <= m && ReadsBlocklisting(c, run, i, k)))
  }

  // ---------------------------------------------------------------- one verdict

  function Effects(a: Attempt): (Key, bool, bool) { (KeyOf(a), a.removalVerified, a.blocklistVerified) }

  /** Conclusions add no effects. */
  lemma ConcludesEffects(p: Progress, now: Time)
    ensures var a, b := p.attempt, Conclude(p, now);
            KeyOf(b) == KeyOf(a) && b.removalVerified == a.removalVerified && b.blocklistVerified == a.blocklistVerified
  {
    assert forall a: Attempt, o: Outcome :: Effects(a.(outcome := o)) == Effects(a);
    assert forall a: Attempt, o: Outcome :: Effects(a.(finished := now, outcome := o)) == Effects(a);
    hide Attempt.Unresolved;
    assert Effects(Conclude(p, now)) == Effects(p.attempt);
  }

  lemma ImportEffects(a: Attempt, evidence: Reads, now: Time)
    requires ReadsFor(a, evidence)
    ensures var b := ImportProgress(a, evidence, now).attempt;
            KeyOf(b) == KeyOf(a) && b.removalVerified == a.removalVerified && b.blocklistVerified == a.blocklistVerified
  {
    hide Correlated, SeenEpisodes;
  }

  lemma RemovalEffects(a: Attempt, absent: bool, evidence: Reads, now: Time)
    ensures var b := RemovalProgress(a, absent, evidence, now).attempt;
            && KeyOf(b) == KeyOf(a) && (b.removalVerified ==> a.removalVerified || (a.ack && absent))
            && (b.blocklistVerified ==>
                  a.blocklistVerified || (evidence.history.Got? && evidence.blocklist.Got?
                                          && Blocklisted(a, evidence.history.value, evidence.blocklist.value, now)))
  {
    hide Blocklisted;
    if evidence.history.Got? && evidence.blocklist.Got? {
      BlocklistedOfCopy(a, a.(removalVerified := a.removalVerified || (a.ack && absent)), evidence.history.value, evidence.blocklist.value, now);
    }
  }

  /** The effects that one verdict adds to a removal were read by it. */
  lemma VerdictEffects(a: Attempt, absent: bool, evidence: Reads, now: Time)
    requires ReadsFor(a, evidence)
    ensures var b := Verdict(a, absent, evidence, now);
            && KeyOf(b) == KeyOf(a)
            && (b.removalVerified ==> a.removalVerified || (IsRemoval(a.kind) && a.ack && absent))
            && (b.blocklistVerified ==>
                  a.blocklistVerified || (evidence.history.Got? && evidence.blocklist.Got?
                                          && Blocklisted(a, evidence.history.value, evidence.blocklist.value, now)))
  {
    hide Blocklisted, Conclude, ImportProgress, RemovalProgress;
    ConcludesEffects(Weigh(a, absent, evidence, now), now);
    ImportEffects(a, evidence, now);
    RemovalEffects(a, absent, evidence, now);
  }

  lemma ImportConcludes(a: Attempt, absent: bool, evidence: Reads, now: Time)
    requires ReadsFor(a, evidence) && a.Unresolved() && a.kind.Import? && !Verdict(a, absent, evidence, now).Unresolved()
    ensures Conclusive(a, Verdict(a, absent, evidence, now), evidence, now)
  {
    hide Correlated, SeenEpisodes, Gathers, Moves;
    ImportVerifiedIff(a, absent, evidence, now);
    VerdictMoves(a, absent, evidence, now);
    var p := ImportProgress(a, evidence, now);
    ImportSettles(a, p, now);
    ImportFailure(a, evidence, now);
  }

  lemma ImportFailure(a: Attempt, evidence: Reads, now: Time)
    requires ReadsFor(a, evidence)
    ensures var p := ImportProgress(a, evidence, now);
            && p.attempt.kind == a.kind && p.attempt.dryRun == a.dryRun && (p.attempt.outcome == a.outcome || p.attempt.outcome.Partial?)
            && (p.Judged? && p.failed ==> CommandFailed(a, evidence, "ManualImport"))
  {
    hide Correlated, SeenEpisodes;
  }

  lemma ImportSettles(a: Attempt, p: Progress, now: Time)
    requires a.Unresolved() && a.kind.Import? && p.attempt.kind.Import?
    requires !p.attempt.dryRun && (p.attempt.outcome == a.outcome || p.attempt.outcome.Partial?)
    ensures var b := Conclude(p, now);
            !b.Unresolved() ==> b.outcome.Verified? || (b.outcome.KnownFailed? && p.Judged? && p.failed && b.verifiedEpisodes == {})
  {
  }

  lemma SearchConcludes(a: Attempt, absent: bool, evidence: Reads, now: Time)
    requires ReadsFor(a, evidence) && a.Unresolved() && a.kind.Search? && !Verdict(a, absent, evidence, now).Unresolved()
    ensures Conclusive(a, Verdict(a, absent, evidence, now), evidence, now)
  {
    hide ImportProgress, RemovalProgress;
  }

  lemma RemovalConcludes(a: Attempt, absent: bool, evidence: Reads, now: Time)
    requires ReadsFor(a, evidence) && a.Unresolved() && IsRemoval(a.kind) && !Verdict(a, absent, evidence, now).Unresolved()
    ensures var b := Verdict(a, absent, evidence, now);
            b.outcome.Verified? && b.removalVerified && (a.decision.blocklist ==> b.blocklistVerified)
  {
    hide Blocklisted, ImportProgress, RemovalProgress, SearchProgress;
    RemovalComplete(a, absent, evidence, now);
    RemovalGathers(a, absent, evidence, now);
    RemovalSettles(a, RemovalProgress(a, absent, evidence, now), now);
  }

  lemma RemovalComplete(a: Attempt, absent: bool, evidence: Reads, now: Time)
    ensures var p := RemovalProgress(a, absent, evidence, now);
            p.Judged? ==> !p.failed && (p.complete ==> p.attempt.removalVerified && (a.decision.blocklist ==> p.attempt.blocklistVerified))
  {
    hide Blocklisted;
  }

  lemma RemovalSettles(a: Attempt, p: Progress, now: Time)
    requires a.Unresolved() && IsRemoval(a.kind) && Gathers(a, p) && (p.Judged? ==> !p.failed) && !Conclude(p, now).Unresolved()
    ensures p.Judged? && p.complete && Conclude(p, now).outcome.Verified?
    ensures Conclude(p, now).removalVerified == p.attempt.removalVerified && Conclude(p, now).blocklistVerified == p.attempt.blocklistVerified
  {
    hide Grounded;
  }

  /** A verdict that settles an attempt is conclusive, and a removal has all the effects it asked for. */
  lemma VerdictConcludes(a: Attempt, absent: bool, evidence: Reads, now: Time)
    requires ReadsFor(a, evidence) && a.Unresolved() && a.kind != Defer && !Verdict(a, absent, evidence, now).Unresolved()
    ensures Conclusive(a, Verdict(a, absent, evidence, now), evidence, now)
    ensures var b := Verdict(a, absent, evidence, now);
            IsRemoval(a.kind) ==> b.removalVerified && (a.decision.blocklist ==> b.blocklistVerified)
  {
    hide Verdict, FullyCorrelated, CommandFailed;
    match a.kind
    case Import => ImportConcludes(a, absent, evidence, now);
    case Search => SearchConcludes(a, absent, evidence, now);
    case _ => RemovalConcludes(a, absent, evidence, now);
  }

  // ---------------------------------------------------------------- effects on record

  /** The effects recorded on an attempt were read by earlier steps of the run. */
  ghost predicate EffectsRead(c: Config, run: seq<Sys>, n: nat, a: Attempt)
    requires n < |run|
  {
    && (a.removalVerified ==> exists i :: 0 <= i < n && ReadsAbsence(c, run, i, KeyOf(a)))
    && (a.blocklistVerified ==> exists i :: 0 <= i < n && ReadsBlocklisting(c, run, i, KeyOf(a)))
  }

  /** An attempt after a step is an earlier one, has no effects, or is the verdict of this step. */
  ghost predicate Descends(s: Sys, b: Attempt) {
    || (!b.removalVerified && !b.blocklistVerified)
    || exists a :: (a in s.mem.data.attempts || a in s.disk.data.attempts) && KeyOf(a) == KeyOf(b)
                   && a.removalVerified == b.removalVerified && a.blocklistVerified == b.blocklistVerified
  }

  lemma DescendsFrom(s: Sys, a: Attempt, b: Attempt)
    requires (a in s.mem.data.attempts || a in s.disk.data.attempts) && KeyOf(a) == KeyOf(b)
    requires a.removalVerified == b.removalVerified && a.blocklistVerified == b.blocklistVerified
    ensures Descends(s, b)
  {
  }

  lemma KeptDescends(c: Config, s: Sys, a: Action, b: Attempt)
    requires a.Retention? && Enabled(c, s, a) && b in Apply(c, s, a).mem.data.attempts
    ensures Descends(s, b)
  {
    Retention.KeptMembers(c, PruneRest(c, s.mem.data, a.now), s.mem.data.attempts, a.now);
    DescendsFrom(s, b, b);
  }

  /** The attempt that a step adds has no effects yet. */
  lemma AddedEffectless(c: Config, s: Sys, a: Action)
    requires Enabled(c, s, a) && (a.Reserve? || a.Recommend?)
    ensures var t := Apply(c, s, a).mem.data.attempts;
            && |t| == |s.mem.data.attempts| + 1 && t[..|t| - 1] == s.mem.data.attempts
            && !t[|t| - 1].removalVerified && !t[|t| - 1].blocklistVerified
  {
    hide Gate, MaxID, Offered, Agrees;
  }

  /** Steps other than verification and retention rewrite attempts one by one, or add one without effects. */
  lemma RewrittenDescends(c: Config, s: Sys, a: Action, b: Attempt)
    requires Enabled(c, s, a) && !a.Verify? && !a.Retention? && b in Apply(c, s, a).mem.data.attempts
    ensures Descends(s, b)
  {
    hide Enabled, Apply, Descends;
    var t := Apply(c, s, a).mem.data.attempts;
    var u := if a.Reopen? then s.disk.data.attempts else s.mem.data.attempts;
    var i :| 0 <= i < |t| && t[i] == b;
    if a.Reserve? || a.Recommend? {
      AddedEffectless(c, s, a);
      if i == |u| {
        Effectless(s, b);
      } else {
        assert t[..|t| - 1][i] == u[i];
        DescendsFrom(s, b, b);
      }
    } else {
      Rewritten(c, s, a);
      DescendsFrom(s, u[i], b);
    }
  }

  lemma Rewritten(c: Config, s: Sys, a: Action)
    requires Enabled(c, s, a) && !a.Verify? && !a.Retention? && !a.Reserve? && !a.Recommend?
    ensures var t, u := Apply(c, s, a).mem.data.attempts, if a.Reopen? then s.disk.data.attempts else s.mem.data.attempts;
            |t| == |u| && forall i :: 0 <= i < |u| ==>
              t[i].removalVerified == u[i].removalVerified && t[i].blocklistVerified == u[i].blocklistVerified && KeyOf(t[i]) == KeyOf(u[i])
  {
    hide Enabled, Apply;
    if a.Reopen? {
      Reopened(c, s, a);
    } else {
      Lifecycle.Rewrites(c, s, a);
    }
  }

  lemma Reopened(c: Config, s: Sys, a: Action)
    requires a.Reopen? && Enabled(c, s, a)
    ensures Apply(c, s, a).mem.data.attempts == Repair(s.disk.data, a.now).attempts
  {
    hide Repair;
  }

  lemma Effectless(s: Sys, b: Attempt)
    requires !b.removalVerified && !b.blocklistVerified
    ensures Descends(s, b)
  {
  }

  lemma DiskDescends(c: Config, s: Sys, a: Action, b: Attempt)
    requires Enabled(c, s, a) && b in Apply(c, s, a).disk.data.attempts
    ensures b in s.disk.data.attempts || b in s.mem.data.attempts || b in Apply(c, s, a).mem.data.attempts
  {
    hide MayReserve, Scanned, Gate, Observes, Settle, Expire, Prune, Repair, Verdict;
  }

  lemma EffectsLater(c: Config, run: seq<Sys>, n: nat, a: Attempt, b: Attempt)
    requires n + 1 < |run| && EffectsRead(c, run, n, a) && KeyOf(a) == KeyOf(b)
    requires (b.removalVerified ==> a.removalVerified) && (b.blocklistVerified ==> a.blocklistVerified)
    ensures EffectsRead(c, run, n + 1, b)
  {
    hide ReadsAbsence, ReadsBlocklisting;
  }

  /** The verdict of one step keeps the effects that were read before and adds those it reads. */
  lemma VerdictRead(c: Config, run: seq<Sys>, n: nat, j: nat, absent: bool, evidence: Reads, now: Time)
    requires n + 1 < |run| && Enabled(c, run[n], Action.Verify(j, absent, evidence, now))
    requires run[n + 1] == Apply(c, run[n], Action.Verify(j, absent, evidence, now)) && EffectsRead(c, run, n, run[n].mem.data.attempts[j])
    ensures EffectsRead(c, run, n + 1, Verdict(run[n].mem.data.attempts[j], absent, evidence, now))
  {
    hide Enabled, Apply, Blocklisted, Verdict;
    var a := VerifiedAttempt(c, run[n], j, absent, evidence, now);
    var b := Verdict(a, absent, evidence, now);
    VerdictEffects(a, absent, evidence, now);
    assert Verifies(c, run, n, a, absent, evidence, now);
    assert b.removalVerified && !a.removalVerified ==> ReadsAbsence(c, run, n, KeyOf(b));
    assert b.blocklistVerified && !a.blocklistVerified ==> ReadsBlocklisting(c, run, n, KeyOf(b));
  }

  lemma VerifiedAttempt(c: Config, s: Sys, j: nat, absent: bool, evidence: Reads, now: Time) returns (a: Attempt)
    requires Enabled(c, s, Action.Verify(j, absent, evidence, now))
    ensures j < |s.mem.data.attempts| && a == s.mem.data.attempts[j] && a in s.mem.data.attempts && ReadsFor(a, evidence) && a.Unresolved()
    ensures var b := Verdict(a, absent, evidence, now);
            && Apply(c, s, Action.Verify(j, absent, evidence, now)).mem.data.attempts == s.mem.data.attempts[j := b]
            && Apply(c, s, Action.Verify(j, absent, evidence, now)).mem.settled == if b.Unresolved() then s.mem.settled else s.mem.settled + {KeyOf(b)}
  {
    hide Verdict;
    a := s.mem.data.attempts[j];
  }

  ghost predicate AllRead(c: Config, run: seq<Sys>, n: nat)
    requires n < |run|
  {
    forall a :: a in run[n].mem.data.attempts || a in run[n].disk.data.attempts ==> EffectsRead(c, run, n, a)
  }

  lemma DescendantRead(c: Config, run: seq<Sys>, n: nat, b: Attempt)
    requires n + 1 < |run| && AllRead(c, run, n) && Descends(run[n], b)
    ensures EffectsRead(c, run, n + 1, b)
  {
    hide ReadsAbsence, ReadsBlocklisting;
    if b.removalVerified || b.blocklistVerified {
      var a :| (a in run[n].mem.data.attempts || a in run[n].disk.data.attempts) && KeyOf(a) == KeyOf(b)
               && a.removalVerified == b.removalVerified && a.blocklistVerified == b.blocklistVerified;
      EffectsLater(c, run, n, a, b);
    }
  }

  lemma MemRead(c: Config, run: seq<Sys>, n: nat, act: Action, b: Attempt)
    requires n + 1 < |run| && AllRead(c, run, n) && Enabled(c, run[n], act) && run[n + 1] == Apply(c, run[n], act)
    requires b in run[n + 1].mem.data.attempts
    ensures EffectsRead(c, run, n + 1, b)
  {
    hide Enabled, Apply, EffectsRead, Verdict, Descends;
    if act.Verify? {
      var a := VerifiedAttempt(c, run[n], act.j, act.absent, act.evidence, act.now);
      if b == Verdict(a, act.absent, act.evidence, act.now) {
        VerdictRead(c, run, n, act.j, act.absent, act.evidence, act.now);
      } else {
        assert b in run[n].mem.data.attempts;
        EffectsLater(c, run, n, b, b);
      }
    } else {
      if act.Retention? {
        KeptDescends(c, run[n], act, b);
      } else {
        RewrittenDescends(c, run[n], act, b);
      }
      DescendantRead(c, run, n, b);
    }
  }

  lemma {:induction false} RunsReadEffects(c: Config, run: seq<Sys>, n: nat)
    requires Run(c, run) && n < |run|
    ensures AllRead(c, run, n)
  {
    hide Enabled, Apply, EffectsRead;
    if n > 0 {
      RunsReadEffects(c, run, n - 1);
      assert Step(c, run[n - 1], run[n - 1 + 1]);
      var act :| Enabled(c, run[n - 1], act) && run[n] == Apply(c, run[n - 1], act);
      forall b | b in run[n].mem.data.attempts || b in run[n].disk.data.attempts
        ensures EffectsRead(c, run, n, b)
      {
        if b in run[n].mem.data.attempts {
          MemRead(c, run, n - 1, act, b);
        } else {
          DiskDescends(c, run[n - 1], act, b);
          EffectsLater(c, run, n - 1, b, b);
        }
      }
    }
  }

  // ---------------------------------------------------------------- settlement

  /** Settled means settled by evidence: some verification step of the run concluded it, and for every kind of
      action it and the steps before it read what that conclusion takes. */
  lemma {:induction false} SettledByEvidence(c: Config, run: seq<Sys>, n: nat, k: Key)
    requires ConfigOK(c) && Run(c, run) && n < |run| && (k in run[n].mem.settled || k in run[n].disk.settled)
    ensures exists m :: 0 <= m < n && SettledAt(c, run, m, k)
  {
    hide SettledAt, Enabled, Apply, Step;
    if n > 0 {
      assert Step(c, run[n - 1], run[n - 1 + 1]);
      if k in run[n - 1].mem.settled || k in run[n - 1].disk.settled {
        SettledByEvidence(c, run, n - 1, k);
      } else {
        NewlySettled(c, run, n - 1, k);
      }
    }
  }

  lemma OnlyVerdictsSettle(c: Config, s: Sys, a: Action, k: Key)
    requires Enabled(c, s, a) && k !in s.mem.settled && k !in s.disk.settled
    requires k in Apply(c, s, a).mem.settled || k in Apply(c, s, a).disk.settled
    ensures a.Verify?
    ensures var b := Verdict(s.mem.data.attempts[a.j], a.absent, a.evidence, a.now); k == KeyOf(b) && !b.Unresolved()
  {
    hide MayReserve, Expire, Prune, Settle, Recorded, Answered, Repair, Verdict, Scanned, Observes;
  }

  lemma NewlySettled(c: Config, run: seq<Sys>, m: nat, k: Key)
    requires ConfigOK(c) && Run(c, run) && m + 1 < |run|
    requires k !in run[m].mem.settled && k !in run[m].disk.settled && (k in run[m + 1].mem.settled || k in run[m + 1].disk.settled)
    ensures SettledAt(c, run, m, k)
  {
    hide Enabled, Apply, Verdict, ReadsAbsence, ReadsBlocklisting, Conclusive, Inv;
    assert Step(c, run[m], run[m + 1]);
    var act :| Enabled(c, run[m], act) && run[m + 1] == Apply(c, run[m], act);
    OnlyVerdictsSettle(c, run[m], act, k);
    var a := VerifiedAttempt(c, run[m], act.j, act.absent, act.evidence, act.now);
    assert Verifies(c, run, m, a, act.absent, act.evidence, act.now);
    RunsKeepInv(c, run, m);
    KindOfMember(c, run[m], a);
    VerdictConcludes(a, act.absent, act.evidence, act.now);
    VerdictEffects(a, act.absent, act.evidence, act.now);
    RunsReadEffects(c, run, m);
    VerdictRead(c, run, m, act.j, act.absent, act.evidence, act.now);
  }

  lemma KindOfMember(c: Config, s: Sys, a: Attempt)
    requires Inv(c, s) && a in s.mem.data.attempts && a.Unresolved()
    ensures a.kind != Defer
  {
    assert Member(a, s.mem.settled, s.clock);
  }
}
