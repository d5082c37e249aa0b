/** What pruning preserves: the answers of the gate and the cross-links of receipts. */
module Retention {
  import opened Types
  import opened State
  import opened Sets

  /** Removing resolved observations and their finished continuations changes nothing an attempt needs. */
  lemma RetainStable(c: Config, d: Data, a: Attempt, now: Time)
    ensures Retain(c, PruneRest(c, d, now), a, now) == Retain(c, d, a, now)
  {
  }

  /** The kept attempts are the original ones at strictly increasing positions. */
  lemma {:induction false} KeptPositions(c: Config, d: Data, s: seq<Attempt>, now: Time) returns (at: seq<int>)
    ensures |at| == |KeptAttempts(c, d, s, now)|
    ensures forall i :: 0 <= i < |at| ==> 0 <= at[i] < |s| && KeptAttempts(c, d, s, now)[i] == s[at[i]]
    ensures forall i, j :: 0 <= i < j < |at| ==> at[i] < at[j]
    ensures forall k :: 0 <= k < |s| ==> (Keeps(c, d, s[k], now) <==> k in at)
  {
    if s == [] {
      at := [];
    } else {
      var n := |s| - 1;
      at := KeptPositions(c, d, s[..n], now);
      if Keeps(c, d, s[n], now) {
        at := at + [n];
        assert n in at;
      }
    }
  }

  lemma KeptMembers(c: Config, d: Data, s: seq<Attempt>, now: Time)
    ensures forall a :: a in KeptAttempts(c, d, s, now) <==> a in s && Keeps(c, d, a, now)
  {
    var at := KeptPositions(c, d, s, now);
    var r := KeptAttempts(c, d, s, now);
    forall a | a in s && Keeps(c, d, a, now)
      ensures a in r
    {
      var k :| 0 <= k < |s| && s[k] == a;
      assert k in at;
      var i :| 0 <= i < |at| && at[i] == k;
      assert r[i] == a;
    }
    forall a | a in r
      ensures a in s && Keeps(c, d, a, now)
    {
      var i :| 0 <= i < |r| && r[i] == a;
      assert at[i] in at;
    }
  }

  // ---------------------------------------------------------------- the gate does not notice

  lemma {:induction false} ConflictsSurvive(c: Config, data: Data, s: seq<Attempt>, id: string, d: Decision,
                                            pruned: Time, now: Time, parent: int, override: bool)
    requires pruned <= now
    ensures FirstConflict(c, KeptAttempts(c, data, s, pruned), id, d, now, parent, override)
         == FirstConflict(c, s, id, d, now, parent, override)
  {
    if s != [] {
      var n := |s| - 1;
      ConflictsSurvive(c, data, s[..n], id, d, pruned, now, parent, override);
      ConflictAppend(c, s[..n], s[n], id, d, now, parent, override);
      assert s[..n] + [s[n]] == s;
      if Keeps(c, data, s[n], pruned) {
        ConflictAppend(c, KeptAttempts(c, data, s[..n], pruned), s[n], id, d, now, parent, override);
      }
    }
  }

  lemma {:induction false} ConflictAppend(c: Config, s: seq<Attempt>, a: Attempt, id: string, d: Decision, now: Time,
                                          parent: int, override: bool)
    ensures var w := FirstConflict(c, s, id, d, now, parent, override);
            FirstConflict(c, s + [a], id, d, now, parent, override)
              == if w != Open then w else Conflict(c, a, id, d, now, parent, override)
  {
    if s != [] {
      assert (s + [a])[1..] == s[1..] + [a];
      ConflictAppend(c, s[1..], a, id, d, now, parent, override);
    }
  }

  /** Two selections of positions correspond one to one when the positions do. */
  lemma {:induction false} SamePositions(at: seq<int>, picked: set<int>, original: set<int>)
    requires forall i :: i in picked ==> 0 <= i < |at| && at[i] in original
    requires forall k :: k in original ==> k in at
    requires forall i :: 0 <= i < |at| && at[i] in original ==> i in picked
    requires forall i, j :: 0 <= i < j < |at| ==> at[i] < at[j]
    ensures |picked| == |original|
  {
    forall k | k in original
      ensures exists i :: i in picked
    {
      var i :| 0 <= i < |at| && at[i] == k;
      assert i in picked;
    }
    if picked == {} {
      assert original == {};
    } else {
      var i := Pick(picked);
      SamePositions(at, picked - {i}, original - {at[i]});
    }
  }

  lemma BudgetSurvives(c: Config, data: Data, pruned: Time, now: Time)
    requires pruned <= now
    ensures Budget(Prune(c, data, pruned), now) == Budget(data, now)
  {
    var rest := PruneRest(c, data, pruned);
    var at := KeptPositions(c, rest, data.attempts, pruned);
    SamePositions(at, LiveSince(Prune(c, data, pruned).attempts, now - HOUR), LiveSince(data.attempts, now - HOUR));
  }

  /** The observation that protects the history of one download. */
  predicate OpenIssue(d: Data, id: string) {
    id in d.issues && !d.issues[id].state.Resolved?
  }

  lemma TriesSurvive(c: Config, data: Data, id: string, d: Decision, pruned: Time, now: Time)
    requires pruned <= now && OpenIssue(data, id)
    ensures |Tries(Prune(c, data, pruned).attempts, id, d)| == |Tries(data.attempts, id, d)|
    ensures TooSoon(c, Prune(c, data, pruned).attempts, id, d, now) == TooSoon(c, data.attempts, id, d, now)
  {
    var rest := PruneRest(c, data, pruned);
    var kept := Prune(c, data, pruned).attempts;
    var at := KeptPositions(c, rest, data.attempts, pruned);
    SamePositions(at, Tries(kept, id, d), Tries(data.attempts, id, d));
    if TooSoon(c, data.attempts, id, d, now) {
      var k :| 0 <= k < |data.attempts| && IsTry(data.attempts[k], id, d) && data.attempts[k].End() > 0 && now - data.attempts[k].End() < c.retryInterval;
      assert k in at;
      var i :| 0 <= i < |at| && at[i] == k;
      assert IsTry(kept[i], id, d);
    }
  }

  /** Pruning is invisible to the gate: for a download whose observation is unresolved, every later
      question gets the same answer from the pruned store as from the whole history. */
  lemma PruneInvisible(c: Config, data: Data, id: string, d: Decision, pruned: Time, now: Time, parent: int,
                       override: bool)
    requires pruned <= now && OpenIssue(data, id)
    ensures Gate(c, Prune(c, data, pruned), id, d, now, parent, override) == Gate(c, data, id, d, now, parent, override)
  {
    BudgetSurvives(c, data, pruned, now);
    ConflictsSurvive(c, PruneRest(c, data, pruned), data.attempts, id, d, pruned, now, parent, override);
    TriesSurvive(c, data, id, d, pruned, now);
  }

  /** For any other download the budget, protection and cooldown answers agree; only the history of its
      own imports may have been forgotten, so the pruned store can say Open where the whole one
      said Exhausted or RetrySpacing, and nothing else differs. */
  lemma PruneElsewhere(c: Config, data: Data, id: string, d: Decision, pruned: Time, now: Time, parent: int,
                       override: bool)
    requires pruned <= now
    ensures var whole := Gate(c, data, id, d, now, parent, override);
            var less := Gate(c, Prune(c, data, pruned), id, d, now, parent, override);
            less == whole || (d.kind.Import? && (whole.Exhausted? || whole.RetrySpacing?) && (less.Open? || less.RetrySpacing?))
  {
    BudgetSurvives(c, data, pruned, now);
    ConflictsSurvive(c, PruneRest(c, data, pruned), data.attempts, id, d, pruned, now, parent, override);
    FewerTries(c, data, id, d, pruned, now);
  }

  lemma FewerTries(c: Config, data: Data, id: string, d: Decision, pruned: Time, now: Time)
    ensures |Tries(Prune(c, data, pruned).attempts, id, d)| <= |Tries(data.attempts, id, d)|
    ensures TooSoon(c, Prune(c, data, pruned).attempts, id, d, now) ==> TooSoon(c, data.attempts, id, d, now)
  {
    var at := KeptPositions(c, PruneRest(c, data, pruned), data.attempts, pruned);
    var kept := Prune(c, data, pruned).attempts;
    var some := set k | k in Tries(data.attempts, id, d) && k in at;
    SamePositions(at, Tries(kept, id, d), some);
    Subset(some, Tries(data.attempts, id, d));
    if TooSoon(c, kept, id, d, now) {
      var i :| 0 <= i < |kept| && IsTry(kept[i], id, d) && kept[i].End() > 0 && now - kept[i].End() < c.retryInterval;
      assert IsTry(data.attempts[at[i]], id, d);
    }
  }

  // ---------------------------------------------------------------- receipts

  lemma NamedBack(d: Data, a: Attempt, id: string)
    requires Linked(d) && UniqueIDs(d.attempts) && a in d.attempts
    requires id in d.triggers && a.id in d.triggers[id].attemptIDs
    ensures a.requestID == id
  {
    assert Evidence(d.attempts, id, a.id);
  }

  predicate UniqueIDs(s: seq<Attempt>) {
    forall i, j :: 0 <= i < j < |s| ==> s[i].id != s[j].id
  }

  /** A receipt goes exactly together with all its attempts: an attempt of a dropped receipt is dropped,
      and every attempt of a kept receipt is kept, although observations and continuations are deleted in between. */
  lemma ReceiptsGoWhole(c: Config, d: Data, now: Time, a: Attempt)
    requires Linked(d) && UniqueIDs(d.attempts) && a in d.attempts && a.requestID != ""
    ensures a in Prune(c, d, now).attempts <==> a.requestID in Prune(c, d, now).triggers
  {
    var rest := PruneRest(c, d, now);
    KeptMembers(c, rest, d.attempts, now);
    RetainStable(c, d, a, now);
    if a.requestID in rest.triggers {
      assert Named(rest.triggers, a.id);
    } else if Named(rest.triggers, a.id) {
      var id :| id in rest.triggers && a.id in rest.triggers[id].attemptIDs;
      NamedBack(d, a, id);
    }
  }

  /** Pruning keeps the store openable. */
  lemma PruneLinked(c: Config, d: Data, now: Time)
    requires Linked(d) && UniqueIDs(d.attempts)
    ensures Linked(Prune(c, d, now))
  {
    var p := Prune(c, d, now);
    KeptMembers(c, PruneRest(c, d, now), d.attempts, now);
    forall id, aid | id in p.triggers && aid in p.triggers[id].attemptIDs
      ensures Evidence(p.attempts, id, aid)
    {
      var a :| a in d.attempts && a.id == aid && a.requestID == id && a.manual;
      assert Named(PruneRest(c, d, now).triggers, aid);
    }
    forall a | a in p.attempts && a.requestID != ""
      ensures a.requestID in p.triggers
    {
      ReceiptsGoWhole(c, d, now, a);
    }
  }

  // ---------------------------------------------------------------- exactly what goes

  /** Something unfinished, or something recent, still needs the attempt. */
  predicate Wanted(c: Config, d: Data, a: Attempt, now: Time) {
    || (!a.dryRun && (a.outcome.Intent? || a.outcome.Pending? || a.outcome.Uncertain? || a.outcome.Partial?))
    || (a.downloadID in d.issues && d.issues[a.downloadID].state != Resolved)
    || (a.downloadID in d.operations && d.operations[a.downloadID].state != Finished && d.operations[a.downloadID].removalID == a.id)
    || now - a.started < HOUR || now - a.finished < c.episodeCooldown
    || now - (if a.finished == 0 then a.started else a.finished) < c.retention
  }

  /** The continuation of the download is not finished. */
  predicate Continuing(d: Data, id: string) { id in d.operations && d.operations[id].state != Finished }

  /** A receipt stays exactly while it is open or young, or while one of its attempts is wanted or continued. */
  lemma ReceiptsIff(c: Config, d: Data, now: Time)
    ensures forall id :: id in Prune(c, d, now).triggers <==>
              && id in d.triggers
              && (d.triggers[id].status.Accepted? || d.triggers[id].finished == 0
                  || now - d.triggers[id].finished <= c.retention
                  || exists a :: a in d.attempts && a.requestID == id && (Wanted(c, d, a, now) || Continuing(d, a.downloadID)))
    ensures forall id :: id in Prune(c, d, now).triggers ==> Prune(c, d, now).triggers[id] == d.triggers[id]
  {
    forall a ensures Retain(c, d, a, now) == Wanted(c, d, a, now) {
      RetainIff(c, d, a, now);
    }
    forall id ensures ReceiptNeeded(c, d, id, now) <==>
                      exists a :: a in d.attempts && a.requestID == id && (Wanted(c, d, a, now) || Continuing(d, a.downloadID))
    {
    }
  }

  lemma RetainIff(c: Config, d: Data, a: Attempt, now: Time)
    ensures Retain(c, d, a, now) == Wanted(c, d, a, now)
  {
  }

  /** An observation goes, with its continuation, exactly when it is resolved and past retention and neither an
      unresolved attempt nor an unfinished continuation of the download is left. */
  lemma IssuesIff(c: Config, d: Data, now: Time)
    ensures forall id :: id in Prune(c, d, now).issues <==>
              && id in d.issues
              && (d.issues[id].state != Resolved || d.issues[id].resolvedAt == 0
                  || now - d.issues[id].resolvedAt <= c.retention
                  || Continuing(d, id) || exists a :: a in d.attempts && a.downloadID == id && a.Unresolved())
    ensures forall id :: id in Prune(c, d, now).issues ==> Prune(c, d, now).issues[id] == d.issues[id]
    ensures forall id :: id in Prune(c, d, now).operations <==>
              id in d.operations && (id in d.issues ==> id in Prune(c, d, now).issues)
    ensures forall id :: id in Prune(c, d, now).operations ==> Prune(c, d, now).operations[id] == d.operations[id]
  {
  }

  /** An attempt goes exactly when nothing wants it and no receipt that stays names it; the others keep their order. */
  lemma AttemptsIff(c: Config, d: Data, now: Time) returns (at: seq<int>)
    ensures var p := Prune(c, d, now);
            && |at| == |p.attempts| && (forall i, j :: 0 <= i < j < |at| ==> at[i] < at[j])
            && (forall i :: 0 <= i < |at| ==> 0 <= at[i] < |d.attempts| && p.attempts[i] == d.attempts[at[i]])
            && forall k :: 0 <= k < |d.attempts| ==>
                 (k in at <==> Wanted(c, d, d.attempts[k], now) || exists id :: id in p.triggers && d.attempts[k].id in p.triggers[id].attemptIDs)
  {
    hide Wanted, Retain;
    var rest := PruneRest(c, d, now);
    at := KeptPositions(c, rest, d.attempts, now);
    forall k | 0 <= k < |d.attempts|
      ensures k in at <==> Wanted(c, d, d.attempts[k], now) || exists id :: id in rest.triggers && d.attempts[k].id in rest.triggers[id].attemptIDs
    {
      RetainStable(c, d, d.attempts[k], now);
      RetainIff(c, d, d.attempts[k], now);
    }
  }
}
