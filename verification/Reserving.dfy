/** An open gate is enough: the intent it lets through may be sent. */
module Reserving {
  import opened Types
  import opened State
  import opened Outcomes
  import opened System
  import opened Invariant
  import opened Growth
  import opened Steps

  lemma {:induction false} FindsKey(s: seq<Attempt>, id: int)
    ensures FindKey(s, id).Some? <==> exists a :: a in s && a.id == id
    ensures FindKey(s, id).Some? ==> exists a :: a in s && a.id == id && KeyOf(a) == FindKey(s, id).value
  {
    if s != [] {
      FindsKey(s[1..], id);
      assert s == [s[0]] + s[1..];
    }
  }

  /** The removal that an admitted search continues. */
  lemma ParentOf(c: Config, s: Sys, id: string, d: Decision) returns (p: Attempt)
    requires Inv(c, s) && d.kind.Search? && Continuable(c, s.mem.data, id)
    ensures p in s.mem.data.attempts && IsParent(p, id, s.mem.data.operations[id].removalID)
    ensures ParentKey(s.mem.data, id, d.kind) == Some(KeyOf(p)) && KeyOf(p) in s.mem.settled
    ensures forall a :: a in s.mem.data.attempts && KeyOf(a) == KeyOf(p) ==> a == p
  {
    var data := s.mem.data;
    var r := data.operations[id].removalID;
    p :| p in data.attempts && IsParent(p, id, r);
    FindsKey(data.attempts, r);
    var q :| q in data.attempts && q.id == r && KeyOf(q) == FindKey(data.attempts, r).value;
    SameID(c, data.attempts, s.mem.settled, s.clock, p, q);
    assert Member(p, s.mem.settled, s.clock);
    forall a | a in data.attempts && KeyOf(a) == KeyOf(p)
      ensures a == p
    {
      SameID(c, data.attempts, s.mem.settled, s.clock, a, p);
    }
  }

  /** The open gate, attempt by attempt. */
  lemma GateAdmits(c: Config, s: Sys, id: string, d: Decision, planned: Decision, before: map<int, int>, b: Attempt)
    requires Inv(c, s) && MayReserve(c, s, id, d, planned) && b in s.mem.data.attempts
    ensures Ordered(c, b, NewAttempt(s, id, d, before))
    ensures !b.dryRun && Touches(b, id, d.episodeIDs) ==> !b.Unresolved()
  {
    var data, parent := s.mem.data, ParentID(s.mem.data, id, d.kind);
    NoConflict(c, data.attempts, id, d, s.clock, parent, s.Override());
    assert Conflict(c, b, id, d, s.clock, parent, s.Override()) == Open;
    assert Member(b, s.mem.settled, s.clock);
    if b.id == parent {
      var p := ParentOf(c, s, id, d);
      SameID(c, data.attempts, s.mem.settled, s.clock, b, p);
    }
    if d.kind.Import? && IsTry(b, id, d) {
      var j :| 0 <= j < |data.attempts| && data.attempts[j] == b;
      assert !TooSoon(c, data.attempts, id, d, s.clock);
    }
  }

  lemma IntentMember(c: Config, s: Sys, id: string, d: Decision, planned: Decision, before: map<int, int>)
    requires Inv(c, s) && MayReserve(c, s, id, d, planned)
    ensures Member(NewAttempt(s, id, d, before), s.mem.settled, s.clock)
  {
    var a := NewAttempt(s, id, d, before);
    assert forall b :: b in s.mem.data.attempts ==> KeyOf(b) != KeyOf(a);
    assert !Listed(s.mem.data.attempts, KeyOf(a));
  }

  lemma TriesOpen(c: Config, s: Sys, id: string, d: Decision, planned: Decision)
    requires MayReserve(c, s, id, d, planned)
    ensures d.kind.Import? ==> |Tries(s.mem.data.attempts, id, d)| < c.maxAttempts
  {
  }

  lemma ReserveImage(c: Config, s: Sys, id: string, d: Decision, planned: Decision, before: map<int, int>)
    requires Inv(c, s) && MayReserve(c, s, id, d, planned)
    ensures ImageOK(c, s.mem.(data := Recorded(s.mem.data, NewAttempt(s, id, d, before))), s.log, s.clock)
  {
    hide Gate, Offered, Agrees, Capped, Ordered, Member, MaxID;
    var data, a := s.mem.data, NewAttempt(s, id, d, before);
    var e := Recorded(data, a);
    TriesOpen(c, s, id, d, planned);
    assert e.attempts == data.attempts + [a] && e.issues.Keys == data.issues.Keys && e.operations == data.operations;
    forall b | b in data.attempts
      ensures Ordered(c, b, a)
    {
      GateAdmits(c, s, id, d, planned, before, b);
    }
    IntentMember(c, s, id, d, planned, before);
    AppendSound(c, data.attempts, a, s.mem.settled, s.clock);
    AppendRemembers(data.attempts, a, s.mem.settled, s.log, s.clock);
    AppendAnchored(data, e, a);
    AppendOnce(data, e, a, s.mem.settled, s.log);
    AppendLinked(data, a);
  }

  lemma NotSearching(c: Config, s: Sys, id: string, d: Decision, planned: Decision)
    requires Inv(c, s) && MayReserve(c, s, id, d, planned)
    ensures !Searching(s.mem.data.attempts, id)
  {
    forall b | b in s.mem.data.attempts && b.downloadID == id
      ensures !b.Unresolved()
    {
      GateAdmits(c, s, id, d, planned, map[], b);
    }
  }

  /** A search already sent for the same removal still protects the download. */
  lemma SearchedBefore(c: Config, s: Sys, id: string, d: Decision, t: Tx)
    requires Inv(c, s) && d.kind.Search? && Continuable(c, s.mem.data, id)
    requires t in s.log && t.attempt.kind.Search? && t.parent == ParentKey(s.mem.data, id, d.kind)
    ensures Searching(s.mem.data.attempts, id)
  {
    var p := ParentOf(c, s, id, d);
  }

  /** Identifiers are reused only after everything recent under them was pruned. */
  lemma FreshID(c: Config, s: Sys, t: Tx)
    requires Inv(c, s) && t in s.log && t.attempt.id == MaxID(s.mem.data.attempts) + 1
    ensures t.attempt.started <= s.clock - HOUR
  {
    assert forall b :: b in s.mem.data.attempts ==> b.id != t.attempt.id;
    assert !Recalls(s.mem.data.attempts, t.attempt);
  }

  /** One logged transmission against the intent. */
  lemma FollowsEntry(c: Config, s: Sys, id: string, d: Decision, planned: Decision, t: Tx)
    requires Inv(c, s) && MayReserve(c, s, id, d, planned) && t in s.log
    ensures t.attempt.started <= s.clock
    ensures t.attempt.id == MaxID(s.mem.data.attempts) + 1 ==> s.clock - t.attempt.started >= HOUR
    ensures t.attempt.kind.Search? && d.kind.Search? ==> t.parent != ParentKey(s.mem.data, id, d.kind)
  {
    assert Entry(c, t, s.clock);
    if t.attempt.id == MaxID(s.mem.data.attempts) + 1 {
      FreshID(c, s, t);
    }
    NotSearching(c, s, id, d, planned);
    if t.attempt.kind.Search? && d.kind.Search? && t.parent == ParentKey(s.mem.data, id, d.kind) {
      SearchedBefore(c, s, id, d, t);
    }
  }

  lemma Admitted(c: Config, s: Sys, id: string, d: Decision, planned: Decision)
    requires MayReserve(c, s, id, d, planned)
    ensures s.phase.Idle? && id in s.mem.data.issues && (d.kind.Search? ==> Continuable(c, s.mem.data, id))
    ensures Enabled(c, s, Reserve(id, d, planned, map[], Saved))
  {
  }

  lemma BudgetOpen(c: Config, s: Sys, id: string, d: Decision, planned: Decision)
    requires Inv(c, s) && MayReserve(c, s, id, d, planned)
    ensures |SentSince(s.log, |s.log|, s.clock - HOUR)| < c.perHour
  {
    BudgetCounts(c, s.mem, s.log, s.clock);
  }

  lemma FollowsAll(c: Config, log: seq<Tx>, tx: Tx)
    requires |SentSince(log, |log|, tx.attempt.started - HOUR)| < c.perHour
    requires forall t :: t in log ==>
               && t.attempt.started <= tx.attempt.started
               && (t.attempt.id == tx.attempt.id ==> tx.attempt.started - t.attempt.started >= HOUR)
               && (t.attempt.kind.Search? && tx.attempt.kind.Search? ==> t.parent != tx.parent)
    ensures Follows(c, log, |log|, tx)
  {
  }

  /** The entry may be sent: it is fresh, within the budget, and the first search of its removal. */
  lemma IntentFollows(c: Config, s: Sys, id: string, d: Decision, planned: Decision, before: map<int, int>)
    requires Inv(c, s) && MayReserve(c, s, id, d, planned)
    ensures Follows(c, s.log, |s.log|, Intention(s, id, d, before))
  {
    hide Inv, MayReserve;
    Admitted(c, s, id, d, planned);
    BudgetOpen(c, s, id, d, planned);
    forall t | t in s.log
      ensures t.attempt.started <= s.clock
      ensures t.attempt.id == MaxID(s.mem.data.attempts) + 1 ==> s.clock - t.attempt.started >= HOUR
      ensures t.attempt.kind.Search? && d.kind.Search? ==> t.parent != ParentKey(s.mem.data, id, d.kind)
    {
      FollowsEntry(c, s, id, d, planned, t);
    }
    FollowsAll(c, s.log, Intention(s, id, d, before));
  }

  lemma AllRelatedSettled(c: Config, s: Sys, id: string, d: Decision, planned: Decision, before: map<int, int>)
    requires Inv(c, s) && MayReserve(c, s, id, d, planned)
    ensures forall t :: t in s.log && Related(t.attempt, NewAttempt(s, id, d, before)) ==> KeyOf(t.attempt) in s.mem.settled
  {
    forall t | t in s.log && Related(t.attempt, NewAttempt(s, id, d, before))
      ensures KeyOf(t.attempt) in s.mem.settled
    {
      RelatedSettled(c, s, id, d, planned, before, t);
    }
  }

  lemma RecordsLast(d: Data, a: Attempt)
    ensures var e := Recorded(d, a);
            e.attempts != [] && e.attempts[|e.attempts| - 1] == a && e.operations == d.operations && e.attempts == d.attempts + [a]
  {
  }

  lemma IntentEntry(c: Config, s: Sys, id: string, d: Decision, planned: Decision, before: map<int, int>)
    requires Inv(c, s) && MayReserve(c, s, id, d, planned)
    ensures Entry(c, Intention(s, id, d, before), s.clock)
  {
    if d.kind.Search? {
      var p := ParentOf(c, s, id, d);
    }
  }

  /** What was sent for a related download or episode is settled before the gate opens. */
  lemma RelatedSettled(c: Config, s: Sys, id: string, d: Decision, planned: Decision, before: map<int, int>, t: Tx)
    requires Inv(c, s) && MayReserve(c, s, id, d, planned)
    requires t in s.log && Related(t.attempt, NewAttempt(s, id, d, before))
    ensures KeyOf(t.attempt) in s.mem.settled
  {
    forall b | b in s.mem.data.attempts && SameAction(t.attempt, b)
      ensures !b.Unresolved()
    {
      GateAdmits(c, s, id, d, planned, before, b);
    }
    assert !Protects(s.mem.data.attempts, t.attempt);
  }

  lemma ReserveArms(c: Config, s: Sys, id: string, d: Decision, planned: Decision, before: map<int, int>)
    requires Inv(c, s) && MayReserve(c, s, id, d, planned)
    ensures PhaseOK(c, Apply(c, s, Reserve(id, d, planned, before, Saved)))
  {
    hide Inv, MayReserve, Follows, Entry;
    Admitted(c, s, id, d, planned);
    var tx := Intention(s, id, d, before);
    IntentFollows(c, s, id, d, planned, before);
    IntentEntry(c, s, id, d, planned, before);
    AllRelatedSettled(c, s, id, d, planned, before);
    ArmedParent(c, s, id, d, planned, before);
    RecordsLast(s.mem.data, tx.attempt);
  }

  lemma ReserveKeeps(c: Config, s: Sys, id: string, d: Decision, planned: Decision, before: map<int, int>, save: Save)
    requires Inv(c, s) && MayReserve(c, s, id, d, planned)
    ensures Inv(c, Apply(c, s, Reserve(id, d, planned, before, save)))
  {
    var t := Apply(c, s, Reserve(id, d, planned, before, save));
    ReserveImage(c, s, id, d, planned, before);
    assert PhaseOK(c, t) by {
      if save.Saved? {
        ReserveArms(c, s, id, d, planned, before);
      }
    }
    assert RequestOK(t);
  }

  lemma ArmedParent(c: Config, s: Sys, id: string, d: Decision, planned: Decision, before: map<int, int>)
    requires Inv(c, s) && MayReserve(c, s, id, d, planned)
    ensures var tx := Intention(s, id, d, before);
            d.kind.Search? ==>
              && tx.parent.Some? && tx.parent.value in s.mem.settled
              && forall a :: a in s.mem.data.attempts + [tx.attempt] && KeyOf(a) == tx.parent.value ==> a.downloadID == id
  {
    hide Inv, NewAttempt, Gate, Member, IsParent;
    if d.kind.Search? {
      var p := ParentOf(c, s, id, d);
      IntentNew(c, s, id, d, planned, before, p);
    }
  }

  lemma IntentNew(c: Config, s: Sys, id: string, d: Decision, planned: Decision, before: map<int, int>, p: Attempt)
    requires Inv(c, s) && MayReserve(c, s, id, d, planned) && p in s.mem.data.attempts
    ensures NewAttempt(s, id, d, before).downloadID == id && KeyOf(NewAttempt(s, id, d, before)) != KeyOf(p)
  {
    hide Inv, Gate;
  }
}
