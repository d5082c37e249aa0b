/** Steps that record a new attempt, send one, or prune keep the invariant of a copy. */
module Growth {
  import opened Types
  import opened State
  import opened Outcomes
  import opened System
  import opened Invariant
  import opened Retention
  import opened Sets

  // ---------------------------------------------------------------- time

  lemma LaterImage(c: Config, m: Image, log: seq<Tx>, clock: Time, later: Time)
    requires ImageOK(c, m, log, clock) && clock <= later
    ensures ImageOK(c, m, log, later)
  {
  }

  lemma LaterLog(c: Config, log: seq<Tx>, clock: Time, later: Time)
    requires LogOK(c, log, clock) && clock <= later
    ensures LogOK(c, log, later)
  {
  }

  // ---------------------------------------------------------------- recording

  /** An open gate has no objection from any recorded attempt. */
  lemma {:induction false} NoConflict(c: Config, s: seq<Attempt>, id: string, d: Decision, now: Time, parent: int,
                                      override: bool)
    ensures FirstConflict(c, s, id, d, now, parent, override) == Open
        <==> forall a :: a in s ==> Conflict(c, a, id, d, now, parent, override) == Open
  {
    if s != [] {
      NoConflict(c, s[1..], id, d, now, parent, override);
      assert s == [s[0]] + s[1..];
    }
  }

  lemma TriesAppend(s: seq<Attempt>, a: Attempt, id: string, d: Decision)
    ensures |Tries(s + [a], id, d)| == |Tries(s, id, d)| + if IsTry(a, id, d) then 1 else 0
  {
    var more := if IsTry(a, id, d) then {|s|} else {};
    assert Tries(s + [a], id, d) == Tries(s, id, d) + more;
  }

  /** A new attempt that follows all recorded ones and stays under the cap extends a sound list. */
  lemma AppendSound(c: Config, s: seq<Attempt>, a: Attempt, settled: set<Key>, clock: Time)
    requires Sound(c, s, settled, clock) && Member(a, settled, clock)
    requires forall b :: b in s ==> Ordered(c, b, a)
    requires !a.dryRun && a.kind.Import? ==> |Tries(s, a.downloadID, a.decision)| < c.maxAttempts
    ensures Sound(c, s + [a], settled, clock)
  {
    var t := s + [a];
    forall b | b in t && !b.dryRun && b.kind.Import?
      ensures |Tries(t, b.downloadID, b.decision)| <= c.maxAttempts
    {
      TriesAppend(s, a, b.downloadID, b.decision);
      if IsTry(a, b.downloadID, b.decision) {
        assert Tries(s, a.downloadID, a.decision) == Tries(s, b.downloadID, b.decision);
      }
    }
  }

  lemma AppendRemembers(s: seq<Attempt>, a: Attempt, settled: set<Key>, log: seq<Tx>, clock: Time)
    requires Remembers(s, settled, log, clock)
    ensures Remembers(s + [a], settled, log, clock)
  {
    var t := s + [a];
    forall k | k in settled && k.started > clock - HOUR
      ensures Listed(t, k)
    {
      var b :| b in s && !b.dryRun && KeyOf(b) == k;
      assert b in t;
    }
    forall x | x in log
      ensures x.attempt.started > clock - HOUR ==> Recalls(t, x.attempt)
      ensures KeyOf(x.attempt) in settled || Protects(t, x.attempt)
    {
      if x.attempt.started > clock - HOUR {
        var b :| b in s && SameAction(x.attempt, b);
        assert b in t;
      }
      if KeyOf(x.attempt) !in settled {
        var b :| b in s && SameAction(x.attempt, b) && b.Unresolved();
        assert b in t;
      }
    }
  }

  lemma AppendParent(s: seq<Attempt>, a: Attempt, id: string, removal: int)
    requires HasParent(s, id, removal)
    ensures HasParent(s + [a], id, removal)
  {
    var p :| p in s && IsParent(p, id, removal);
    assert p in s + [a];
  }

  lemma AppendAnchored(d: Data, e: Data, a: Attempt)
    requires Anchored(d) && e.attempts == d.attempts + [a] && e.operations == d.operations && e.issues.Keys == d.issues.Keys
    requires a.Unresolved() ==> a.downloadID in e.issues
    ensures Anchored(e)
  {
    forall id | id in e.operations && !e.operations[id].state.Finished?
      ensures HasParent(e.attempts, id, e.operations[id].removalID)
    {
      AppendParent(d.attempts, a, id, d.operations[id].removalID);
    }
  }

  lemma AppendOnce(d: Data, e: Data, a: Attempt, settled: set<Key>, log: seq<Tx>)
    requires Once(d, settled, log) && e.attempts == d.attempts + [a] && e.operations == d.operations && Anchored(d)
    requires forall b :: b in d.attempts ==> b.id != a.id
    ensures Once(e, settled, log)
  {
    forall id, t, b | id in e.operations && e.operations[id].state.PendingSearch? && t in log && t.attempt.kind.Search?
                      && b in e.attempts && b.id == e.operations[id].removalID && t.parent == Some(KeyOf(b))
      ensures Searching(e.attempts, id)
    {
      assert HasParent(d.attempts, id, e.operations[id].removalID);
      assert b in d.attempts;
      var w :| w in d.attempts && w.kind.Search? && w.downloadID == id && !w.ack && w.Unresolved();
      assert w in e.attempts;
    }
  }

  lemma AppendLinked(d: Data, a: Attempt)
    requires Linked(d) && (forall b :: b in d.attempts ==> b.id != a.id)
    requires if a.requestID == "" then true else a.requestID in d.triggers && a.manual
    ensures Linked(Recorded(d, a))
  {
    var e := Recorded(d, a);
    assert e.attempts == d.attempts + [a];
    assert "" !in d.triggers;
    forall id | id in e.triggers
      ensures ReceiptOK(id, e.triggers[id]) && Distinct(e.triggers[id].attemptIDs)
      ensures forall aid :: aid in e.triggers[id].attemptIDs ==> Evidence(e.attempts, id, aid)
    {
      forall aid | aid in d.triggers[id].attemptIDs
        ensures aid != a.id && Evidence(e.attempts, id, aid)
      {
        var b :| b in d.attempts && b.id == aid && b.requestID == id && b.manual;
        assert b in e.attempts;
      }
      if id == a.requestID {
        assert e.triggers[id].attemptIDs == d.triggers[id].attemptIDs + [a.id];
        assert a in e.attempts && Evidence(e.attempts, id, a.id);
      } else {
        assert e.triggers[id] == d.triggers[id];
      }
    }
  }

  // ---------------------------------------------------------------- sending

  lemma DistinctKeys(c: Config, log: seq<Tx>, i: nat, j: nat, clock: Time)
    requires LogOK(c, log, clock) && i < j < |log|
    ensures KeyOf(log[i].attempt) != KeyOf(log[j].attempt)
  {
    assert Follows(c, log, j, log[j]);
  }

  ghost function Position(s: seq<Attempt>, a: Attempt): (j: int)
    requires Recalls(s, a)
    ensures 0 <= j < |s| && SameAction(a, s[j])
  {
    var b :| b in s && SameAction(a, b);
    var j :| 0 <= j < |s| && s[j] == b;
    j
  }

  /** Every transmission of the last hour is still charged to the budget. */
  lemma BudgetCounts(c: Config, m: Image, log: seq<Tx>, clock: Time)
    requires Remembers(m.data.attempts, m.settled, log, clock) && LogOK(c, log, clock)
    ensures |SentSince(log, |log|, clock - HOUR)| <= Budget(m.data, clock)
  {
    hide LogOK, Recalls, SameAction, Remembers;
    var s := m.data.attempts;
    var sent := SentSince(log, |log|, clock - HOUR);
    forall i | i in sent
      ensures Recalls(s, log[i].attempt)
    {
      RecentRecalled(c, m, log, clock, i);
    }
    var f := map i | i in sent :: Position(s, log[i].attempt);
    forall x | x in sent
      ensures f[x] in LiveSince(s, clock - HOUR) && KeyOf(s[f[x]]) == KeyOf(log[x].attempt)
    {
      RecentCharged(c, s, log, clock, x, f[x]);
    }
    forall x, y | x in sent && y in sent && x != y
      ensures f[x] != f[y]
    {
      DistinctKeys(c, log, if x < y then x else y, if x < y then y else x, clock);
    }
    Injection(sent, LiveSince(s, clock - HOUR), f);
  }

  lemma RecentRecalled(c: Config, m: Image, log: seq<Tx>, clock: Time, i: nat)
    requires Remembers(m.data.attempts, m.settled, log, clock) && i < |log| && log[i].attempt.started > clock - HOUR
    ensures Recalls(m.data.attempts, log[i].attempt)
  {
    hide SameAction;
    assert log[i] in log;
  }

  lemma RecentCharged(c: Config, s: seq<Attempt>, log: seq<Tx>, clock: Time, i: nat, j: nat)
    requires LogOK(c, log, clock) && i < |log| && log[i].attempt.started > clock - HOUR
    requires j < |s| && SameAction(log[i].attempt, s[j])
    ensures j in LiveSince(s, clock - HOUR) && KeyOf(s[j]) == KeyOf(log[i].attempt)
  {
    hide Follows;
    assert log[i] in log && Entry(c, log[i], clock);
  }

  /** The entry in hand joins the log of the copy that recorded it. */
  lemma SendImage(c: Config, m: Image, log: seq<Tx>, tx: Tx, clock: Time)
    requires ImageOK(c, m, log, clock)
    requires tx.attempt in m.data.attempts && tx.attempt.Unresolved()
    requires forall t :: t in log && Related(t.attempt, tx.attempt) ==> KeyOf(t.attempt) in m.settled
    requires tx.attempt.kind.Search? ==> tx.parent.Some? && tx.parent.value in m.settled && !tx.attempt.ack
    requires forall id, a :: (id in m.data.operations && m.data.operations[id].state.PendingSearch? && a in m.data.attempts && tx.attempt.kind.Search?
               && a.id == m.data.operations[id].removalID && tx.parent == Some(KeyOf(a))) ==> id == tx.attempt.downloadID
    ensures ImageOK(c, m, log + [tx], clock)
  {
    var s, l := m.data.attempts, log + [tx];
    assert Recalls(s, tx.attempt) && Protects(s, tx.attempt) by {
      assert SameAction(tx.attempt, tx.attempt);
    }
    assert Remembers(s, m.settled, l, clock);
    assert NoReplay(l, m.settled);
    SendOnce(m.data, m.settled, log, tx);
  }

  lemma SendOnce(d: Data, settled: set<Key>, log: seq<Tx>, tx: Tx)
    requires Once(d, settled, log) && tx.attempt in d.attempts && tx.attempt.Unresolved()
    requires tx.attempt.kind.Search? ==> tx.parent.Some? && tx.parent.value in settled && !tx.attempt.ack
    requires forall id, a :: (id in d.operations && d.operations[id].state.PendingSearch? && a in d.attempts && tx.attempt.kind.Search?
               && a.id == d.operations[id].removalID && tx.parent == Some(KeyOf(a))) ==> id == tx.attempt.downloadID
    ensures Once(d, settled, log + [tx])
  {
    forall id, t, a | id in d.operations && d.operations[id].state.PendingSearch? && t in log + [tx] && t.attempt.kind.Search?
                      && a in d.attempts && a.id == d.operations[id].removalID && t.parent == Some(KeyOf(a))
      ensures Searching(d.attempts, id)
    {
      if t !in log {
        assert t == tx;
      }
    }
  }

  /** Entries already in the log keep their place when it grows. */
  lemma FollowsGrows(c: Config, log: seq<Tx>, tx: Tx, n: nat, t: Tx)
    requires n <= |log| && Follows(c, log, n, t)
    ensures Follows(c, log + [tx], n, t)
  {
    assert SentSince(log + [tx], n, t.attempt.started - HOUR) == SentSince(log, n, t.attempt.started - HOUR);
  }

  lemma SendLog(c: Config, log: seq<Tx>, tx: Tx, clock: Time)
    requires LogOK(c, log, clock) && Entry(c, tx, clock) && Follows(c, log, |log|, tx)
    ensures LogOK(c, log + [tx], clock)
  {
    var l := log + [tx];
    forall n | 0 <= n < |l|
      ensures Follows(c, l, n, l[n])
    {
      FollowsGrows(c, log, tx, n, l[n]);
    }
  }

  // ---------------------------------------------------------------- pruning

  lemma PruneSound(c: Config, d: Data, settled: set<Key>, clock: Time, now: Time)
    requires Sound(c, d.attempts, settled, clock)
    ensures Sound(c, Prune(c, d, now).attempts, settled, clock)
  {
    var rest, kept := PruneRest(c, d, now), Prune(c, d, now).attempts;
    KeptMembers(c, rest, d.attempts, now);
    var at := KeptPositions(c, rest, d.attempts, now);
    forall i, j | 0 <= i < j < |kept|
      ensures Ordered(c, kept[i], kept[j])
    {
      assert Ordered(c, d.attempts[at[i]], d.attempts[at[j]]);
    }
    forall a | a in kept && !a.dryRun && a.kind.Import?
      ensures |Tries(kept, a.downloadID, a.decision)| <= c.maxAttempts
    {
      FewerTries(c, d, a.downloadID, a.decision, now, now);
    }
  }

  lemma PruneRemembers(c: Config, d: Data, settled: set<Key>, log: seq<Tx>, clock: Time, now: Time)
    requires Remembers(d.attempts, settled, log, clock) && now <= clock
    ensures Remembers(Prune(c, d, now).attempts, settled, log, clock)
  {
    var s, t := d.attempts, Prune(c, d, now).attempts;
    KeptMembers(c, PruneRest(c, d, now), s, now);
    forall k | k in settled && k.started > clock - HOUR
      ensures Listed(t, k)
    {
      var b :| b in s && !b.dryRun && KeyOf(b) == k;
      assert b in t;
    }
    forall x | x in log
      ensures x.attempt.started > clock - HOUR ==> Recalls(t, x.attempt)
      ensures KeyOf(x.attempt) in settled || Protects(t, x.attempt)
    {
      if x.attempt.started > clock - HOUR {
        var b :| b in s && SameAction(x.attempt, b);
        assert b in t;
      }
      if KeyOf(x.attempt) !in settled {
        var b :| b in s && SameAction(x.attempt, b) && b.Unresolved();
        assert b in t;
      }
    }
  }

  lemma PruneAnchored(c: Config, d: Data, now: Time)
    requires Anchored(d) && UniqueIDs(d.attempts)
    ensures Anchored(Prune(c, d, now))
  {
    var e := Prune(c, d, now);
    KeptMembers(c, PruneRest(c, d, now), d.attempts, now);
    forall a | a in e.attempts && a.Unresolved()
      ensures a.downloadID in e.issues
    {
      assert HasUnresolved(d, a.downloadID);
    }
    forall id | id in e.operations && !e.operations[id].state.Finished?
      ensures HasParent(e.attempts, id, e.operations[id].removalID)
    {
      var a :| a in d.attempts && IsParent(a, id, d.operations[id].removalID);
      assert a in e.attempts;
    }
  }

  lemma PruneOnce(c: Config, d: Data, settled: set<Key>, log: seq<Tx>, now: Time)
    requires Once(d, settled, log)
    ensures Once(Prune(c, d, now), settled, log)
  {
    var e := Prune(c, d, now);
    KeptMembers(c, PruneRest(c, d, now), d.attempts, now);
    forall id, t, a | id in e.operations && e.operations[id].state.PendingSearch? && t in log && t.attempt.kind.Search?
                      && a in e.attempts && a.id == e.operations[id].removalID && t.parent == Some(KeyOf(a))
      ensures Searching(e.attempts, id)
    {
      assert Searching(d.attempts, id);
      var b :| b in d.attempts && b.kind.Search? && b.downloadID == id && !b.ack && b.Unresolved();
      assert b in e.attempts;
    }
  }

  lemma PruneImage(c: Config, m: Image, log: seq<Tx>, clock: Time, now: Time)
    requires ImageOK(c, m, log, clock) && now <= clock
    ensures ImageOK(c, m.(data := Prune(c, m.data, now)), log, clock)
  {
    PruneSound(c, m.data, m.settled, clock, now);
    PruneRemembers(c, m.data, m.settled, log, clock, now);
    PruneLinked(c, m.data, now);
    PruneAnchored(c, m.data, now);
    PruneOnce(c, m.data, m.settled, log, now);
  }
}
