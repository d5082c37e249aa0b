/** The life of one attempt across whole runs. */
module Lifecycle {
  import opened Types
  import opened State
  import opened Outcomes
  import opened System
  import opened Invariant
  import opened Retention
  import opened Waiting
  import opened Theorems
  import opened Runs

  /** A later form of the same attempt: final outcomes stay, seen effects stay, partial only completes, and an intent
      can become pending but nothing else can. */
  predicate Advances(a: Attempt, b: Attempt) {
    && SameAction(a, b) && (a.Unresolved() || b == a)
    && a.verifiedEpisodes <= b.verifiedEpisodes && (a.removalVerified ==> b.removalVerified)
    && (a.blocklistVerified ==> b.blocklistVerified) && (a.ack ==> b.ack)
    && (a.outcome.Partial? ==> b.outcome.Partial? || b.outcome.Verified?)
    && (b.outcome.Intent? ==> a.outcome.Intent?) && (b.outcome.Pending? ==> a.outcome.Intent? || a.outcome.Pending?)
  }

  predicate LivesOn(s: seq<Attempt>, a: Attempt) {
    exists b :: b in s && Advances(a, b)
  }

  lemma AdvancesAt(s: seq<Attempt>, t: seq<Attempt>, a: Attempt)
    requires a in s && |s| <= |t| && forall i :: 0 <= i < |s| ==> Advances(s[i], t[i])
    ensures LivesOn(t, a)
  {
    var i :| 0 <= i < |s| && s[i] == a;
    assert t[i] in t;
  }

  /** While the process runs, every attempt lives on in each step, unless retention drops a resolved one. */
  lemma StepAdvances(c: Config, s: Sys, act: Action, a: Attempt)
    requires Inv(c, s) && Enabled(c, s, act) && !act.Reopen? && a in s.mem.data.attempts
    ensures LivesOn(Apply(c, s, act).mem.data.attempts, a) || (act.Retention? && !a.Unresolved())
  {
    hide Enabled, Inv, Apply, Advances, Verdict, Answer, ExpireOne;
    var u, v := s.mem.data.attempts, Apply(c, s, act).mem.data.attempts;
    if act.Retention? {
      RetentionSpares(c, s, act, a);
    } else {
      Rewrites(c, s, act);
      forall i | 0 <= i < |u|
        ensures Advances(u[i], v[i])
      {
        AdvancesEach(c, s, act, i);
      }
      AdvancesAt(u, v, a);
    }
  }

  lemma RetentionSpares(c: Config, s: Sys, act: Action, a: Attempt)
    requires Enabled(c, s, act) && act.Retention? && a in s.mem.data.attempts
    ensures LivesOn(Apply(c, s, act).mem.data.attempts, a) || !a.Unresolved()
  {
    KeptMembers(c, PruneRest(c, s.mem.data, act.now), s.mem.data.attempts, act.now);
    assert a.Unresolved() ==> a in Apply(c, s, act).mem.data.attempts && Advances(a, a);
  }

  lemma SoundMember(c: Config, s: Sys, i: nat)
    requires Inv(c, s) && i < |s.mem.data.attempts|
    ensures Member(s.mem.data.attempts[i], s.mem.settled, s.clock)
  {
    assert s.mem.data.attempts[i] in s.mem.data.attempts;
  }

  /** How each step rewrites the list of attempts. */
  lemma Rewrites(c: Config, s: Sys, act: Action)
    requires Enabled(c, s, act) && !act.Reopen? && !act.Retention?
    ensures var u, v := s.mem.data.attempts, Apply(c, s, act).mem.data.attempts;
            match act
            case Miss(now) => v == Expire(s.mem.data, now).attempts
            case Verify(j, absent, evidence, now) => j < |u| && ReadsFor(u[j], evidence) && v == u[j := Verdict(u[j], absent, evidence, now)]
            case Respond(reply) => v == if u == [] then u else u[|u| - 1 := Answer(u[|u| - 1], reply)]
            case Reserve(_, _, _, _, _) => |v| == |u| + 1 && v[..|u|] == u
            case Recommend(_, _) => |v| == |u| + 1 && v[..|u|] == u
            case _ => v == u
  {
    hide Gate, Verdict, Scanned, Prune;
  }

  lemma Forms(a: Attempt, b: Attempt, reply: Read<int>, now: Time)
    ensures Advances(a, a) && Advances(a, ExpireOne(a, now))
    ensures Grounded(a) && a.Unresolved() && Moves(a, b, now) ==> Advances(a, b)
    ensures a.Unresolved() && a.outcome.Intent? ==> Advances(a, Answer(a, reply))
  {
  }

  lemma AdvancesEach(c: Config, s: Sys, act: Action, i: nat)
    requires Inv(c, s) && Enabled(c, s, act) && !act.Reopen? && !act.Retention? && i < |s.mem.data.attempts|
    ensures i < |Apply(c, s, act).mem.data.attempts|
    ensures Advances(s.mem.data.attempts[i], Apply(c, s, act).mem.data.attempts[i])
  {
    hide Gate, Inv, Apply, MayReserve, Advances, Moves, Verdict, Answer, ExpireOne;
    SoundMember(c, s, i);
    Rewrites(c, s, act);
    var u, v := s.mem.data.attempts, Apply(c, s, act).mem.data.attempts;
    Forms(u[i], u[i], Unavailable, 0);
    match act
    case Miss(now) => Forms(u[i], u[i], Unavailable, now);
    case Verify(j, absent, evidence, now) =>
      VerdictOf(c, s, j, absent, evidence, now);
      Forms(u[i], Verdict(u[j], absent, evidence, now), Unavailable, now);
    case Respond(reply) => SentPhase(c, s); Forms(u[i], u[i], reply, 0);
    case Reserve(_, _, _, _, _) => assert v[i] == v[..|u|][i];
    case Recommend(_, _) => assert v[i] == v[..|u|][i];
    case _ =>
  }

  lemma SentPhase(c: Config, s: Sys)
    requires Inv(c, s) && s.phase.Sent?
    ensures s.mem.data.attempts != [] && s.mem.data.attempts[|s.mem.data.attempts| - 1].Unresolved()
    ensures s.mem.data.attempts[|s.mem.data.attempts| - 1].outcome.Intent?
  {
  }

  ghost predicate Live(c: Config, s: Sys, t: Sys) {
    exists a :: Enabled(c, s, a) && !a.Reopen? && t == Apply(c, s, a)
  }

  ghost predicate Uninterrupted(c: Config, run: seq<Sys>, m: nat, n: nat) {
    m <= n < |run| && forall i :: m <= i < n ==> Live(c, run[i], run[i + 1])
  }

  lemma LiveAdvances(c: Config, s: Sys, t: Sys, a: Attempt)
    requires Inv(c, s) && Live(c, s, t) && a in s.mem.data.attempts && a.Unresolved()
    ensures LivesOn(t.mem.data.attempts, a)
  {
    var act :| Enabled(c, s, act) && !act.Reopen? && t == Apply(c, s, act);
    StepAdvances(c, s, act, a);
  }

  lemma AdvancesThrough(s: seq<Attempt>, a: Attempt, b: Attempt) returns (d: Attempt)
    requires Advances(a, b) && LivesOn(s, b)
    ensures d in s && Advances(a, d)
  {
    d :| d in s && Advances(b, d);
  }

  /** The outcome automaton over whole runs: between two crashes an attempt only ever takes legal later
      forms, and it disappears only after it was resolved. */
  lemma {:induction false} AttemptsOnlyAdvance(c: Config, run: seq<Sys>, m: nat, n: nat, a: Attempt) returns (k: nat,
                                               b: Attempt)
    requires ConfigOK(c) && Run(c, run) && Uninterrupted(c, run, m, n) && a in run[m].mem.data.attempts
    ensures m <= k <= n && b in run[k].mem.data.attempts && Advances(a, b) && (k == n || !b.Unresolved())
  {
    hide Inv, Live, Run;
    if m == n {
      k, b := m, a;
    } else {
      k, b := AttemptsOnlyAdvance(c, run, m, n - 1, a);
      if b.Unresolved() {
        RunsKeepInv(c, run, n - 1);
        assert Live(c, run[n - 1], run[n - 1 + 1]);
        LiveAdvances(c, run[n - 1], run[n], b);
        b := AdvancesThrough(run[n].mem.data.attempts, a, b);
        k := n;
      }
    }
  }

  lemma RepairAdvances(a: Attempt)
    requires a.dryRun ==> a.outcome.Recommended?
    ensures Advances(a, RepairAttempt(a))
  {
  }

  lemma DiskMember(c: Config, s: Sys, i: nat)
    requires Inv(c, s) && i < |s.disk.data.attempts|
    ensures s.disk.data.attempts[i].dryRun ==> s.disk.data.attempts[i].outcome.Recommended?
  {
    assert s.disk.data.attempts[i] in s.disk.data.attempts && Member(s.disk.data.attempts[i], s.disk.settled, s.clock);
  }

  /** A crash loses no durable progress: every attempt on disk lives on in the reopened store. There an interrupted
      intent is uncertain, and no attempt is an intent, so that none ever becomes pending again. */
  lemma ReopeningAdvances(c: Config, s: Sys, now: Time, a: Attempt)
    requires Inv(c, s) && s.clock <= now && a in s.disk.data.attempts
    ensures LivesOn(Apply(c, s, Reopen(now)).mem.data.attempts, a)
    ensures a.outcome.Intent? ==> a.(outcome := Uncertain) in Apply(c, s, Reopen(now)).mem.data.attempts
    ensures forall b :: b in Apply(c, s, Reopen(now)).mem.data.attempts ==> !b.outcome.Intent?
  {
    hide Inv, Advances;
    var u, v := s.disk.data.attempts, Apply(c, s, Reopen(now)).mem.data.attempts;
    var k :| 0 <= k < |u| && u[k] == a;
    assert v[k] == RepairAttempt(a) && v[k] in v;
    forall i | 0 <= i < |u|
      ensures Advances(u[i], v[i])
    {
      DiskMember(c, s, i);
      RepairAdvances(u[i]);
    }
    AdvancesAt(u, v, a);
  }
}
