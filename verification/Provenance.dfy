/** Where the records come from: every attempt from an intent, every acknowledgement from a transmission, and every
    search from the transmitted removal that it continues. */
module Provenance {
  import opened Types
  import opened State
  import opened Outcomes
  import opened System
  import opened Invariant
  import opened Growth
  import opened Reserving
  import opened Theorems
  import opened Waiting
  import Lifecycle
  import Retention
  import Runs
  import Settlements
  import Steps

  // ---------------------------------------------------------------- spacing

  /** The attempt was recorded with this intent, a cooldown after all related completed work before it, unless it
      overrode waiting or that work is the removal it continues. */
  ghost predicate Spaced(c: Config, s: seq<Attempt>, j: nat, t: Tx)
    requires j < |s|
  {
    && SameAction(t.attempt, s[j])
    && forall i :: 0 <= i < j && !s[i].dryRun && s[i].Completed() && Related(s[i], s[j]) ==>
         s[j].started - s[i].finished >= c.episodeCooldown || s[j].waitOverride || t.parent == Some(KeyOf(s[i]))
  }

  ghost predicate AllSpaced(c: Config, s: seq<Attempt>, intents: seq<Tx>) {
    forall j :: 0 <= j < |s| && !s[j].dryRun ==> exists t :: t in intents && Spaced(c, s, j, t)
  }

  /** Rewriting attempts in place keeps their spacing: what completes now has nothing related behind it. */
  lemma SpacedStill(c: Config, s: seq<Attempt>, r: seq<Attempt>, j: nat, t: Tx)
    requires j < |s| <= |r| && Spaced(c, s, j, t) && !s[j].dryRun
    requires forall i :: 0 <= i <= j ==> SameAction(s[i], r[i]) && (s[i].Unresolved() || r[i] == s[i])
    requires forall i :: 0 <= i < j ==> Ordered(c, s[i], s[j])
    ensures Spaced(c, r, j, t)
  {
    forall i | 0 <= i < j && !r[i].dryRun && r[i].Completed() && Related(r[i], r[j])
      ensures r[j].started - r[i].finished >= c.episodeCooldown || r[j].waitOverride || t.parent == Some(KeyOf(r[i]))
    {
      assert Related(s[i], s[j]) == Related(r[i], r[j]) && s[i].dryRun == r[i].dryRun;
    }
  }

  lemma AllSpacedStill(c: Config, s: seq<Attempt>, r: seq<Attempt>, intents: seq<Tx>)
    requires AllSpaced(c, s, intents) && |s| == |r|
    requires forall i :: 0 <= i < |s| ==> SameAction(s[i], r[i]) && (s[i].Unresolved() || r[i] == s[i])
    requires forall i, j :: 0 <= i < j < |s| ==> Ordered(c, s[i], s[j])
    ensures AllSpaced(c, r, intents)
  {
    hide Spaced, Ordered;
    forall j | 0 <= j < |r| && !r[j].dryRun ensures exists t :: t in intents && Spaced(c, r, j, t) {
      assert s[j].dryRun == r[j].dryRun;
      var t :| t in intents && Spaced(c, s, j, t);
      SpacedStill(c, s, r, j, t);
    }
  }

  lemma AllSpacedAppend(c: Config, s: seq<Attempt>, a: Attempt, intents: seq<Tx>, more: seq<Tx>)
    requires AllSpaced(c, s, intents) && forall t :: t in intents ==> t in more
    requires a.dryRun || exists t :: t in more && Spaced(c, s + [a], |s|, t)
    ensures AllSpaced(c, s + [a], more)
  {
    hide SameAction, Related;
    var r := s + [a];
    forall j | 0 <= j < |r| && !r[j].dryRun ensures exists t :: t in more && Spaced(c, r, j, t) {
      if j < |s| {
        var t :| t in intents && Spaced(c, s, j, t);
        assert Spaced(c, r, j, t);
      }
    }
  }

  lemma AllSpacedMore(c: Config, s: seq<Attempt>, intents: seq<Tx>, more: seq<Tx>)
    requires AllSpaced(c, s, intents) && forall t :: t in intents ==> t in more
    ensures AllSpaced(c, s, more)
  {
    hide Spaced;
  }

  lemma AllSpacedKept(c: Config, d: Data, now: Time, intents: seq<Tx>)
    requires AllSpaced(c, d.attempts, intents)
    ensures AllSpaced(c, Prune(c, d, now).attempts, intents)
  {
    hide SameAction, Related;
    var rest, r := PruneRest(c, d, now), Prune(c, d, now).attempts;
    var at := Retention.KeptPositions(c, rest, d.attempts, now);
    forall j | 0 <= j < |r| && !r[j].dryRun ensures exists t :: t in intents && Spaced(c, r, j, t) {
      var t :| t in intents && Spaced(c, d.attempts, at[j], t);
      assert forall i :: 0 <= i < j ==> r[i] == d.attempts[at[i]] && at[i] < at[j];
      assert Spaced(c, r, j, t);
    }
  }

  /** The gate spares only the removal that the new search continues. */
  lemma GateSpares(c: Config, s: Sys, id: string, d: Decision, planned: Decision, before: map<int, int>, b: Attempt)
    requires Inv(c, s) && MayReserve(c, s, id, d, planned) && b in s.mem.data.attempts
    requires !b.dryRun && b.Completed() && Related(b, NewAttempt(s, id, d, before)) && !s.Override()
    ensures s.clock - b.finished >= c.episodeCooldown || ParentKey(s.mem.data, id, d.kind) == Some(KeyOf(b))
  {
    hide Capped, Tries, TooSoon, Budget, IsParent;
    var parent := ParentID(s.mem.data, id, d.kind);
    NoConflict(c, s.mem.data.attempts, id, d, s.clock, parent, s.Override());
    assert Conflict(c, b, id, d, s.clock, parent, s.Override()) == Open;
    assert Member(b, s.mem.settled, s.clock);
    if b.id == parent {
      var p := ParentOf(c, s, id, d);
      ParentHasID(p, id, s.mem.data.operations[id].removalID);
      Steps.SameID(c, s.mem.data.attempts, s.mem.settled, s.clock, b, p);
    }
  }

  lemma ParentHasID(p: Attempt, id: string, removal: int)
    requires IsParent(p, id, removal)
    ensures p.id == removal && p.kind.RemoveUnusable? && p.Completed() && p.downloadID == id && !p.dryRun
  {
  }

  lemma IntentSpaced(c: Config, s: Sys, id: string, d: Decision, planned: Decision, before: map<int, int>)
    requires Inv(c, s) && MayReserve(c, s, id, d, planned)
    ensures id in s.mem.data.issues
    ensures var tx, u := Intention(s, id, d, before), s.mem.data.attempts; Spaced(c, u + [tx.attempt], |u|, tx)
  {
    hide Inv, Gate, Related, MaxID, ParentKey, Offered, Agrees;
    var tx, u := Intention(s, id, d, before), s.mem.data.attempts;
    forall i | 0 <= i < |u| && !u[i].dryRun && u[i].Completed() && Related(u[i], tx.attempt) && !s.Override()
      ensures s.clock - u[i].finished >= c.episodeCooldown || tx.parent == Some(KeyOf(u[i]))
    {
      GateSpares(c, s, id, d, planned, before, u[i]);
    }
  }

  /** How a step changes the recorded attempts and intents. */
  lemma MemSpaced(c: Config, s: Sys, a: Action)
    requires Inv(c, s) && Enabled(c, s, a) && AllSpaced(c, s.mem.data.attempts, s.intents) && AllSpaced(c, s.disk.data.attempts, s.intents)
    ensures var t := Apply(c, s, a); AllSpaced(c, t.mem.data.attempts, t.intents)
  {
    hide Inv, Enabled, Apply, AllSpaced, Spaced, Ordered;
    var u, v := s.mem.data.attempts, Apply(c, s, a).mem.data.attempts;
    IntentsGrow(c, s, a);
    if a.Reopen? {
      ReopenSpaced(c, s, a);
    } else if a.Retention? {
      PrunedBy(c, s, a);
      AllSpacedKept(c, s.mem.data, a.now, s.intents);
    } else {
      MemOrdered(c, s);
      Lifecycle.Rewrites(c, s, a);
      forall i | 0 <= i < |u| ensures SameAction(u[i], v[i]) && (u[i].Unresolved() || v[i] == u[i]) {
        Lifecycle.AdvancesEach(c, s, a, i);
      }
      if a.Reserve? {
        ReserveSpaced(c, s, a);
      } else if a.Recommend? {
        RecommendSpaced(c, s, a);
      } else {
        AllSpacedStill(c, u, v, s.intents);
      }
    }
  }

  lemma IntentsGrow(c: Config, s: Sys, a: Action)
    requires Enabled(c, s, a)
    ensures var t := Apply(c, s, a);
            && (a.Reserve? ==> a.id in s.mem.data.issues && t.intents == s.intents + [Intention(s, a.id, a.decision, a.before)])
            && (!a.Reserve? ==> t.intents == s.intents)
            && (a.Transmit? ==> s.phase.Armed? && t.log == s.log + [s.phase.tx])
            && (!a.Transmit? ==> t.log == s.log)
  {
    hide Gate, Verdict, Settle, Prune, Expire, Scanned, Repair, Recorded, Answered, Observes;
  }

  lemma PrunedBy(c: Config, s: Sys, a: Action)
    requires Enabled(c, s, a) && a.Retention?
    ensures Apply(c, s, a).mem.data == Prune(c, s.mem.data, a.now)
  {
  }

  lemma MemOrdered(c: Config, s: Sys)
    requires Inv(c, s)
    ensures forall i, j :: 0 <= i < j < |s.mem.data.attempts| ==> Ordered(c, s.mem.data.attempts[i], s.mem.data.attempts[j])
    ensures forall i, j :: 0 <= i < j < |s.disk.data.attempts| ==> Ordered(c, s.disk.data.attempts[i], s.disk.data.attempts[j])
  {
    hide Ordered;
  }

  lemma ReopenSpaced(c: Config, s: Sys, a: Action)
    requires Inv(c, s) && Enabled(c, s, a) && a.Reopen? && AllSpaced(c, s.disk.data.attempts, s.intents)
    ensures AllSpaced(c, Apply(c, s, a).mem.data.attempts, s.intents)
  {
    hide Inv, AllSpaced, Ordered, Spaced;
    MemOrdered(c, s);
    var u, v := s.disk.data.attempts, Apply(c, s, a).mem.data.attempts;
    forall i | 0 <= i < |u| ensures SameAction(u[i], v[i]) && (u[i].Unresolved() || v[i] == u[i]) {
      Lifecycle.DiskMember(c, s, i);
      Lifecycle.RepairAdvances(u[i]);
    }
    AllSpacedStill(c, u, v, s.intents);
  }

  lemma ReserveSpaced(c: Config, s: Sys, a: Action)
    requires Inv(c, s) && Enabled(c, s, a) && a.Reserve? && AllSpaced(c, s.mem.data.attempts, s.intents)
    ensures var t := Apply(c, s, a); AllSpaced(c, t.mem.data.attempts, t.intents)
  {
    hide Inv, MayReserve, AllSpaced, Spaced, Recorded;
    IntentSpaced(c, s, a.id, a.decision, a.planned, a.before);
    var tx, u := Intention(s, a.id, a.decision, a.before), s.mem.data.attempts;
    RecordsLast(s.mem.data, tx.attempt);
    AllSpacedAppend(c, u, tx.attempt, s.intents, s.intents + [tx]);
  }

  lemma RecommendSpaced(c: Config, s: Sys, a: Action)
    requires Enabled(c, s, a) && a.Recommend? && AllSpaced(c, s.mem.data.attempts, s.intents)
    ensures AllSpaced(c, Apply(c, s, a).mem.data.attempts, s.intents)
  {
    hide AllSpaced, Spaced, MaxID;
    AllSpacedAppend(c, s.mem.data.attempts, Recommendation(s, a.id, a.decision), s.intents, s.intents);
  }

  /** The disk holds an earlier copy, or the attempts of the present one. */
  lemma DiskAttempts(c: Config, s: Sys, a: Action)
    requires Enabled(c, s, a)
    ensures var t := Apply(c, s, a);
            || t.disk.data.attempts == s.disk.data.attempts
            || t.disk.data.attempts == t.mem.data.attempts
  {
    hide Gate, Verdict, Settle, Prune, Expire, Scanned, Repair, Recorded, Answered, Observes;
  }

  // ---------------------------------------------------------------- acknowledgements

  predicate Logged(a: Attempt, log: seq<Tx>) {
    exists t :: t in log && SameAction(t.attempt, a)
  }

  /** Acknowledged attempts were transmitted, and removals complete only by a verified, acknowledged absence. */
  predicate Evident(a: Attempt, log: seq<Tx>) {
    !a.dryRun ==>
      && (a.removalVerified ==> a.ack) && (IsRemoval(a.kind) && a.Completed() ==> a.removalVerified)
      && (a.ack ==> Logged(a, log))
  }

  predicate AllEvident(s: seq<Attempt>, log: seq<Tx>) {
    forall a :: a in s ==> Evident(a, log)
  }

  lemma LoggedLater(a: Attempt, b: Attempt, log: seq<Tx>)
    requires Logged(a, log) && SameAction(a, b)
    ensures Logged(b, log)
  {
    var t :| t in log && SameAction(t.attempt, a);
    assert SameAction(t.attempt, b);
  }

  lemma EvidentStill(a: Attempt, b: Attempt, log: seq<Tx>)
    requires Evident(a, log) && SameAction(a, b) && b.ack == a.ack && b.removalVerified == a.removalVerified
    requires IsRemoval(b.kind) && b.Completed() ==> a.Completed()
    ensures Evident(b, log)
  {
    hide Logged;
    assert b.dryRun == a.dryRun && b.kind == a.kind;
    if !a.dryRun && a.ack {
      LoggedLater(a, b, log);
    }
  }

  lemma EvidentMore(s: seq<Attempt>, log: seq<Tx>, more: seq<Tx>)
    requires AllEvident(s, log) && forall t :: t in log ==> t in more
    ensures AllEvident(s, more)
  {
    hide SameAction;
  }

  lemma VerdictEvident(c: Config, s: Sys, j: nat, absent: bool, evidence: Reads, now: Time)
    requires Inv(c, s) && Enabled(c, s, Action.Verify(j, absent, evidence, now)) && Evident(s.mem.data.attempts[j], s.log)
    ensures Evident(Verdict(s.mem.data.attempts[j], absent, evidence, now), s.log)
  {
    hide Inv, Verdict, Logged, SameAction, Grounded;
    var a, b := s.mem.data.attempts[j], Verdict(s.mem.data.attempts[j], absent, evidence, now);
    Runs.VerdictOf(c, s, j, absent, evidence, now);
    Settlements.VerdictEffects(a, absent, evidence, now);
    SameKinds(a, b);
    if a.ack {
      LoggedLater(a, b, s.log);
    }
  }

  lemma SameKinds(a: Attempt, b: Attempt)
    requires SameAction(a, b)
    ensures a.dryRun == b.dryRun && a.kind == b.kind && KeyOf(a) == KeyOf(b) && a.downloadID == b.downloadID
  {
  }

  /** Only the answer to a transmission acknowledges anything. */
  lemma AnswerEvident(c: Config, s: Sys, reply: Read<int>)
    requires Inv(c, s) && s.phase.Sent? && s.phase.tx in s.log && AllEvident(s.mem.data.attempts, s.log)
    ensures var u := s.mem.data.attempts; u != [] && Evident(Answer(u[|u| - 1], reply), s.log)
  {
    hide ImageOK, LogOK;
    var u := s.mem.data.attempts;
    var a := u[|u| - 1];
    assert a in u && a == s.phase.tx.attempt && Evident(a, s.log);
    var b := Answer(a, reply);
    assert SameAction(s.phase.tx.attempt, b) && Logged(b, s.log);
  }

  lemma RewriteEvident(c: Config, s: Sys, a: Action, i: nat)
    requires Inv(c, s) && Enabled(c, s, a) && !a.Reopen? && !a.Retention? && i < |s.mem.data.attempts|
    requires AllEvident(s.mem.data.attempts, s.log) && (s.phase.Sent? ==> s.phase.tx in s.log)
    requires i < |Apply(c, s, a).mem.data.attempts|
    ensures Evident(Apply(c, s, a).mem.data.attempts[i], s.log)
  {
    hide Inv, Apply, MayReserve, Evident, Verdict, Answer, Observes;
    var u, v := s.mem.data.attempts, Apply(c, s, a).mem.data.attempts;
    assert u[i] in u;
    Lifecycle.Rewrites(c, s, a);
    match a
    case Miss(now) => ExpireEvident(u[i], now, s.log);
    case Verify(j, absent, evidence, now) =>
      if i == j {
        VerdictEvident(c, s, j, absent, evidence, now);
      }
    case Respond(reply) => AnswerEvident(c, s, reply);
    case Reserve(_, _, _, _, _) => assert v[i] == v[..|u|][i];
    case Recommend(_, _) => assert v[i] == v[..|u|][i];
    case _ =>
  }

  lemma ExpireEvident(a: Attempt, now: Time, log: seq<Tx>)
    requires Evident(a, log)
    ensures Evident(ExpireOne(a, now), log) && Evident(RepairAttempt(a), log)
  {
    hide Evident;
    EvidentStill(a, ExpireOne(a, now), log);
    EvidentStill(a, RepairAttempt(a), log);
  }

  lemma MemEvident(c: Config, s: Sys, a: Action)
    requires Inv(c, s) && Enabled(c, s, a) && (s.phase.Sent? ==> s.phase.tx in s.log)
    requires AllEvident(s.mem.data.attempts, s.log) && AllEvident(s.disk.data.attempts, s.log)
    ensures AllEvident(Apply(c, s, a).mem.data.attempts, s.log)
  {
    hide Inv, Enabled, Apply, Evident;
    var v := Apply(c, s, a).mem.data.attempts;
    forall b | b in v ensures Evident(b, s.log) {
      var i :| 0 <= i < |v| && v[i] == b;
      if a.Reopen? {
        Settlements.Reopened(c, s, a);
        assert s.disk.data.attempts[i] in s.disk.data.attempts;
        ExpireEvident(s.disk.data.attempts[i], 0, s.log);
      } else if a.Retention? {
        PrunedBy(c, s, a);
        Retention.KeptMembers(c, PruneRest(c, s.mem.data, a.now), s.mem.data.attempts, a.now);
      } else if i < |s.mem.data.attempts| {
        RewriteEvident(c, s, a, i);
      } else {
        AddedEvident(c, s, a, i);
      }
    }
  }

  lemma AddedEvident(c: Config, s: Sys, a: Action, i: nat)
    requires Enabled(c, s, a) && !a.Reopen? && !a.Retention? && |s.mem.data.attempts| <= i < |Apply(c, s, a).mem.data.attempts|
    ensures Evident(Apply(c, s, a).mem.data.attempts[i], s.log)
  {
    hide Enabled, Apply;
    Lifecycle.Rewrites(c, s, a);
    Added(c, s, a);
  }

  lemma Added(c: Config, s: Sys, a: Action)
    requires Enabled(c, s, a) && (a.Reserve? || a.Recommend?)
    ensures var t := Apply(c, s, a).mem.data.attempts;
            |t| == |s.mem.data.attempts| + 1 && !t[|t| - 1].ack && !t[|t| - 1].removalVerified && !t[|t| - 1].Completed()
  {
    hide Gate, MaxID, Offered, Agrees;
  }

  // ---------------------------------------------------------------- searches

  /** Before the n-th transmission the search's own removal was transmitted for the same download. */
  predicate Parented(log: seq<Tx>, n: nat, t: Tx)
    requires n <= |log|
  {
    && t.parent.Some?
    && exists i :: 0 <= i < n && KeyOf(log[i].attempt) == t.parent.value && log[i].attempt.kind.RemoveUnusable?
                   && log[i].attempt.downloadID == t.attempt.downloadID
  }

  predicate AllParented(s: Sys) {
    && (forall t :: t in s.intents && t.attempt.kind.Search? ==> Parented(s.log, |s.log|, t))
    && (forall j :: 0 <= j < |s.log| && s.log[j].attempt.kind.Search? ==> Parented(s.log, j, s.log[j]))
    && (forall t :: t in s.log ==> t in s.intents)
    && (s.phase.Armed? ==> s.phase.tx in s.intents) && (s.phase.Sent? ==> s.phase.tx in s.log)
  }

  lemma ParentedMore(log: seq<Tx>, n: nat, t: Tx, tx: Tx)
    requires n <= |log| && Parented(log, n, t)
    ensures Parented(log + [tx], n, t) && Parented(log + [tx], |log| + 1, t)
  {
    var i :| 0 <= i < n && KeyOf(log[i].attempt) == t.parent.value && log[i].attempt.kind.RemoveUnusable?
             && log[i].attempt.downloadID == t.attempt.downloadID;
    assert (log + [tx])[i] == log[i];
  }

  /** The removal that a new search continues was transmitted. */
  lemma SearchParented(c: Config, s: Sys, id: string, d: Decision, planned: Decision, before: map<int, int>)
    requires Inv(c, s) && MayReserve(c, s, id, d, planned) && d.kind.Search? && AllEvident(s.mem.data.attempts, s.log)
    ensures id in s.mem.data.issues && Parented(s.log, |s.log|, Intention(s, id, d, before))
  {
    hide Inv, Gate, MaxID, SameAction, ParentKey, Offered, Agrees;
    var p := ParentOf(c, s, id, d);
    ParentHasID(p, id, s.mem.data.operations[id].removalID);
    assert Evident(p, s.log);
    var t :| t in s.log && SameAction(t.attempt, p);
    SameKinds(t.attempt, p);
    var i :| 0 <= i < |s.log| && s.log[i] == t;
  }

  /** What a step makes of the phase. */
  lemma PhaseShape(c: Config, s: Sys, a: Action)
    requires Enabled(c, s, a)
    ensures var t := Apply(c, s, a);
            && (t.phase.Armed? ==> t.phase == s.phase || (a.Reserve? && t.phase.tx == Intention(s, a.id, a.decision, a.before)))
            && (t.phase.Sent? ==> t.phase == s.phase || (a.Transmit? && s.phase.Armed? && t.phase.tx == s.phase.tx))
            && (a.Reserve? ==> MayReserve(c, s, a.id, a.decision, a.planned))
  {
    hide Gate, Verdict, Settle, Prune, Expire, Scanned, Repair, Recorded, Answered, Observes;
  }

  lemma StepParented(c: Config, s: Sys, a: Action)
    requires Inv(c, s) && Enabled(c, s, a) && AllParented(s) && AllEvident(s.mem.data.attempts, s.log)
    ensures AllParented(Apply(c, s, a))
  {
    hide Inv, Enabled, Apply, Parented, MayReserve;
    IntentsGrow(c, s, a);
    PhaseShape(c, s, a);
    var t := Apply(c, s, a);
    if a.Transmit? {
      forall x | x in t.intents && x.attempt.kind.Search? ensures Parented(t.log, |t.log|, x) {
        ParentedMore(s.log, |s.log|, x, s.phase.tx);
      }
      forall j | 0 <= j < |t.log| && t.log[j].attempt.kind.Search? ensures Parented(t.log, j, t.log[j]) {
        ParentedMore(s.log, j, t.log[j], s.phase.tx);
      }
    } else if a.Reserve? && a.decision.kind.Search? {
      SearchParented(c, s, a.id, a.decision, a.planned, a.before);
    }
  }

  // ---------------------------------------------------------------- runs

  ghost predicate Sourced(c: Config, s: Sys) {
    && AllSpaced(c, s.mem.data.attempts, s.intents) && AllSpaced(c, s.disk.data.attempts, s.intents)
    && AllEvident(s.mem.data.attempts, s.log) && AllEvident(s.disk.data.attempts, s.log) && AllParented(s)
  }

  lemma StepSourced(c: Config, s: Sys, a: Action)
    requires Inv(c, s) && Enabled(c, s, a) && Sourced(c, s)
    ensures Sourced(c, Apply(c, s, a))
  {
    hide Inv, Enabled, Apply, AllSpaced, AllEvident, MayReserve;
    var t := Apply(c, s, a);
    IntentsGrow(c, s, a);
    DiskAttempts(c, s, a);
    MemSpaced(c, s, a);
    AllSpacedMore(c, s.disk.data.attempts, s.intents, t.intents);
    MemEvident(c, s, a);
    EvidentMore(t.mem.data.attempts, s.log, t.log);
    EvidentMore(s.disk.data.attempts, s.log, t.log);
    StepParented(c, s, a);
  }

  lemma {:induction false} RunsSourced(c: Config, run: seq<Sys>, n: nat)
    requires ConfigOK(c) && Run(c, run) && n < |run|
    ensures Sourced(c, run[n])
  {
    hide Inv, Enabled, Apply;
    if n > 0 {
      RunsSourced(c, run, n - 1);
      RunsKeepInv(c, run, n - 1);
      assert Step(c, run[n - 1], run[n - 1 + 1]);
      var a :| Enabled(c, run[n - 1], a) && run[n] == Apply(c, run[n - 1], a);
      StepSourced(c, run[n - 1], a);
    }
  }

  /** In memory and on disk, at most the configured number of live imports share a download and a candidate;
      each started at least the retry interval after every earlier one finished; and related completed
      work is at least a cooldown older, unless the later action overrode waiting or is a search that was
      recorded to continue exactly that removal. */
  lemma RetriesBoundedAndSpaced(c: Config, run: seq<Sys>, n: nat, d: Data, i: int, j: int)
    requires ConfigOK(c) && Run(c, run) && n < |run| && (d == run[n].mem.data || d == run[n].disk.data)
    requires 0 <= i < j < |d.attempts| && !d.attempts[i].dryRun && !d.attempts[j].dryRun
    ensures d.attempts[j].kind.Import? ==> |Tries(d.attempts, d.attempts[j].downloadID, d.attempts[j].decision)| <= c.maxAttempts
    ensures SameCandidate(d.attempts[i], d.attempts[j]) ==>
              !d.attempts[i].Unresolved() && d.attempts[j].started - d.attempts[i].finished >= c.retryInterval
    ensures Related(d.attempts[i], d.attempts[j]) && d.attempts[i].Completed() ==>
              || d.attempts[j].started - d.attempts[i].finished >= c.episodeCooldown
              || d.attempts[j].waitOverride
              || (d.attempts[j].kind.Search?
                  && exists t :: t in run[n].intents && SameAction(t.attempt, d.attempts[j]) && t.parent == Some(KeyOf(d.attempts[i])))
  {
    hide Run, Related, SameAction;
    RunsKeepInv(c, run, n);
    RunsSourced(c, run, n);
    Pairs(c, run[n], d, i, j);
    var t :| t in run[n].intents && Spaced(c, d.attempts, j, t);
  }

  lemma Pairs(c: Config, s: Sys, d: Data, i: int, j: int)
    requires Inv(c, s) && (d == s.mem.data || d == s.disk.data) && 0 <= i < j < |d.attempts|
    ensures Ordered(c, d.attempts[i], d.attempts[j]) && Capped(c, d.attempts) && d.attempts[j] in d.attempts
    ensures SameCandidate(d.attempts[i], d.attempts[j]) ==> Related(d.attempts[i], d.attempts[j])
  {
    hide Ordered, Capped, Member;
  }

  /** Each removal is followed by at most one search over all runs and crashes, and a search only follows the earlier
      transmission of its own unusable removal, of the same download, settled first. Every unfinished continuation
      still has its observation and its verified removal, in memory and on disk. */
  lemma SearchesOnce(c: Config, run: seq<Sys>, n: nat)
    requires ConfigOK(c) && Run(c, run) && n < |run|
    ensures var s := run[n];
            && (forall i, j :: 0 <= i < j < |s.log| && s.log[i].attempt.kind.Search? && s.log[j].attempt.kind.Search? ==>
                  s.log[i].parent != s.log[j].parent)
            && (forall j :: 0 <= j < |s.log| && s.log[j].attempt.kind.Search? ==>
                  Parented(s.log, j, s.log[j]) && s.log[j].parent.value in s.disk.settled)
    ensures forall d, id :: (d == run[n].mem.data || d == run[n].disk.data) && id in d.operations && !d.operations[id].state.Finished? ==>
              id in d.issues && HasParent(d.attempts, id, d.operations[id].removalID)
  {
    hide Run, Parented;
    RunsKeepInv(c, run, n);
    RunsSourced(c, run, n);
    forall i, j | 0 <= i < j < |run[n].log| && run[n].log[i].attempt.kind.Search? && run[n].log[j].attempt.kind.Search?
      ensures run[n].log[i].parent != run[n].log[j].parent
    {
      assert Follows(c, run[n].log, j, run[n].log[j]);
    }
    forall j | 0 <= j < |run[n].log| && run[n].log[j].attempt.kind.Search? ensures run[n].log[j].parent.value in run[n].disk.settled {
      assert run[n].log[j] in run[n].log;
    }
  }

  /** Whatever is acknowledged was transmitted: in both copies, only by the answer to its own transmission. So was
      every removal that counts as verified. */
  lemma AcknowledgedWereSent(c: Config, run: seq<Sys>, n: nat, a: Attempt)
    requires ConfigOK(c) && Run(c, run) && n < |run| && (a in run[n].mem.data.attempts || a in run[n].disk.data.attempts) && !a.dryRun
    requires a.ack || a.removalVerified || (IsRemoval(a.kind) && a.Completed())
    ensures exists t :: t in run[n].log && SameAction(t.attempt, a)
  {
    hide Run, AllSpaced, AllParented;
    RunsSourced(c, run, n);
    assert Evident(a, run[n].log);
  }
}
