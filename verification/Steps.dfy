/** Every step keeps the invariant, so it holds throughout every run. */
module Steps {
  import opened Types
  import opened State
  import opened Outcomes
  import opened System
  import opened Invariant
  import opened Evolution
  import opened Waiting

  // ---------------------------------------------------------------- steps that leave attempts alone

  /** Observations, faults and closed continuations do not disturb the history. */
  lemma FrameImage(c: Config, m: Image, d: Data, log: seq<Tx>, clock: Time)
    requires ImageOK(c, m, log, clock)
    requires d.attempts == m.data.attempts && m.data.issues.Keys <= d.issues.Keys && OpensNothing(m.data, d)
    requires d.triggers.Keys == m.data.triggers.Keys
    requires forall id :: id in d.triggers ==>
               ReceiptOK(id, d.triggers[id]) && d.triggers[id].attemptIDs == m.data.triggers[id].attemptIDs
    ensures ImageOK(c, m.(data := d), log, clock)
  {
    EvolvesImage(c, m, m.(data := d), log, clock);
  }

  lemma ScanImage(c: Config, m: Image, previous: Time, now: Time, sights: map<string, Sight>, log: seq<Tx>, clock: Time)
    requires ImageOK(c, m, log, clock)
    ensures ImageOK(c, m.(data := m.data.(issues := Scanned(c, previous, now, m.data, sights), readFailure := false)), log, clock)
  {
    var d := m.data.(issues := Scanned(c, previous, now, m.data, sights), readFailure := false);
    assert m.data.issues.Keys <= d.issues.Keys;
    FrameImage(c, m, d, log, clock);
  }

  // ---------------------------------------------------------------- rewriting in place

  lemma ExpireImage(c: Config, m: Image, now: Time, log: seq<Tx>, clock: Time)
    requires ImageOK(c, m, log, clock)
    ensures var e := Expire(m.data, now);
            ImageOK(c, m.(data := e.(issues := Missed(e.issues), readFailure := true)), log, clock)
  {
    var e := Expire(m.data, now);
    var n := m.(data := e.(issues := Missed(e.issues), readFailure := true));
    forall b | b in n.data.attempts
      ensures Member(b, n.settled, clock)
    {
      var i :| 0 <= i < |n.data.attempts| && n.data.attempts[i] == b;
      assert m.data.attempts[i] in m.data.attempts;
    }
    EvolvesImage(c, m, n, log, clock);
  }

  lemma RepairImage(c: Config, m: Image, now: Time, log: seq<Tx>, clock: Time)
    requires ImageOK(c, m, log, clock)
    ensures ImageOK(c, m.(data := Repair(m.data, now)), log, clock)
  {
    var n := m.(data := Repair(m.data, now));
    forall b | b in n.data.attempts
      ensures Member(b, n.settled, clock)
    {
      var i :| 0 <= i < |n.data.attempts| && n.data.attempts[i] == b;
      assert m.data.attempts[i] in m.data.attempts;
    }
    forall i | 0 <= i < |m.data.attempts|
      ensures m.data.attempts[i].Unresolved() || n.data.attempts[i] == m.data.attempts[i]
    {
      assert Member(m.data.attempts[i], m.settled, clock);
    }
    EvolvesImage(c, m, n, log, clock);
  }

  /** The verdict on one attempt, before any continuation is opened. */
  function Judged0(d: Data, j: nat, b: Attempt, now: Time): Data
    requires j < |d.attempts|
  {
    var d1 := d.(attempts := d.attempts[j := b]);
    var d2 := if b.kind.Search? && (b.Completed() || b.outcome.KnownFailed?) then CloseOperation(d1, b.downloadID) else d1;
    if b.Completed() && b.downloadID in d2.issues then
      d2.(issues := d2.issues[b.downloadID := d2.issues[b.downloadID].(state := Resolved, resolvedAt := now)])
    else d2
  }

  function SettledBy(settled: set<Key>, b: Attempt): set<Key> {
    if b.Unresolved() then settled else settled + {KeyOf(b)}
  }

  lemma JudgeMembers(c: Config, m: Image, j: nat, b: Attempt, now: Time, clock: Time)
    requires Sound(c, m.data.attempts, m.settled, clock) && j < |m.data.attempts|
    requires m.data.attempts[j].Unresolved() && Moves(m.data.attempts[j], b, now) && 0 < now <= clock
    ensures forall a :: a in m.data.attempts[j := b] ==> Member(a, SettledBy(m.settled, b), clock)
  {
    var s := m.data.attempts;
    assert Member(s[j], m.settled, clock);
    forall a | a in s[j := b]
      ensures Member(a, SettledBy(m.settled, b), clock)
    {
      var i :| 0 <= i < |s| && s[j := b][i] == a;
      if i != j {
        assert Member(s[i], m.settled, clock);
        assert Ordered(c, s[if i < j then i else j], s[if i < j then j else i]);
      }
    }
  }

  lemma JudgeEvolves(s: seq<Attempt>, settled: set<Key>, j: nat, b: Attempt, now: Time)
    requires j < |s| && s[j].Unresolved() && Moves(s[j], b, now)
    ensures Evolves(s, s[j := b]) && KeepsSearches(s, s[j := b]) && Settles(s, s[j := b], settled, SettledBy(settled, b))
    ensures forall i :: 0 <= i < |s| && s[j := b][i].Unresolved() ==> s[i].Unresolved()
  {
    var t := s[j := b];
    assert t[j] == b && b.dryRun == s[j].dryRun;
  }

  lemma JudgeFrame(d: Data, j: nat, b: Attempt, now: Time)
    requires j < |d.attempts| && forall id :: id in d.operations ==> d.operations[id].downloadID == id
    ensures var e := Judged0(d, j, b, now);
            && e.attempts == d.attempts[j := b] && e.issues.Keys == d.issues.Keys && e.triggers == d.triggers
            && OpensNothing(d, e)
  {
  }

  lemma JudgeImage(c: Config, m: Image, j: nat, b: Attempt, now: Time, log: seq<Tx>, clock: Time)
    requires ImageOK(c, m, log, clock) && j < |m.data.attempts|
    requires m.data.attempts[j].Unresolved() && Moves(m.data.attempts[j], b, now) && 0 < now <= clock
    ensures ImageOK(c, Image(Judged0(m.data, j, b, now), SettledBy(m.settled, b)), log, clock)
  {
    var n := Image(Judged0(m.data, j, b, now), SettledBy(m.settled, b));
    JudgeMembers(c, m, j, b, now, clock);
    JudgeEvolves(m.data.attempts, m.settled, j, b, now);
    JudgeFrame(m.data, j, b, now);
    EvolvesImage(c, m, n, log, clock);
  }

  /** A verified unusable removal opens a continuation that nothing was ever searched for. */
  lemma OpenImage(c: Config, n: Image, b: Attempt, prior: set<Key>, op: Operation, log: seq<Tx>, clock: Time)
    requires ImageOK(c, n, log, clock) && b in n.data.attempts && IsParent(b, b.downloadID, b.id)
    requires op.downloadID == b.downloadID && op.removalID == b.id && op.state.PendingSearch?
    requires b.downloadID in n.data.issues && KeyOf(b) !in prior
    requires forall t :: t in log && t.attempt.kind.Search? ==> t.parent.Some? && t.parent.value in prior
    ensures ImageOK(c, n.(data := n.data.(operations := n.data.operations[b.downloadID := op])), log, clock)
  {
    var e := n.data.(operations := n.data.operations[b.downloadID := op]);
    forall id, t, a | id in e.operations && e.operations[id].state.PendingSearch? && t in log && t.attempt.kind.Search?
                      && a in e.attempts && a.id == e.operations[id].removalID && t.parent == Some(KeyOf(a))
      ensures Searching(e.attempts, id)
    {
      if id == b.downloadID {
        SameID(c, n.data.attempts, n.settled, clock, a, b);
      } else {
        assert n.data.operations[id].state.PendingSearch?;
      }
    }
    assert Linked(e);
  }

  lemma SameID(c: Config, s: seq<Attempt>, settled: set<Key>, clock: Time, a: Attempt, b: Attempt)
    requires Sound(c, s, settled, clock) && a in s && b in s && a.id == b.id
    ensures a == b
  {
    var i :| 0 <= i < |s| && s[i] == a;
    var j :| 0 <= j < |s| && s[j] == b;
    assert i < j ==> Ordered(c, s[i], s[j]);
    assert j < i ==> Ordered(c, s[j], s[i]);
  }

  lemma SettleImage(c: Config, m: Image, j: nat, b: Attempt, now: Time, log: seq<Tx>, clock: Time)
    requires ImageOK(c, m, log, clock) && j < |m.data.attempts|
    requires m.data.attempts[j].Unresolved() && Moves(m.data.attempts[j], b, now) && 0 < now <= clock
    ensures ImageOK(c, Image(Settle(c, m.data, j, b, now), SettledBy(m.settled, b)), log, clock)
  {
    var a := m.data.attempts[j];
    var n := Image(Judged0(m.data, j, b, now), SettledBy(m.settled, b));
    JudgeImage(c, m, j, b, now, log, clock);
    assert a in m.data.attempts && Member(a, m.settled, clock);
    assert KeyOf(b) == KeyOf(a) && b.kind == a.kind && b.dryRun == a.dryRun && b.downloadID == a.downloadID;
    if b.Completed() && b.kind.RemoveUnusable? && c.replacementSearch {
      assert n.data.attempts[j] == b;
      OpenImage(c, n, b, m.settled, Operation(b.id, b.downloadID, b.decision.episodeIDs, PendingSearch), log, clock);
    }
  }

  lemma AnswerEvolves(s: seq<Attempt>, settled: set<Key>, reply: Read<int>)
    requires s != [] && s[|s| - 1].Unresolved()
    ensures var t := s[|s| - 1 := Answer(s[|s| - 1], reply)];
            Evolves(s, t) && Settles(s, t, settled, settled) && (forall i :: 0 <= i < |s| ==> s[i].Unresolved() == t[i].Unresolved())
  {
  }

  lemma AnswerMembers(s: seq<Attempt>, settled: set<Key>, reply: Read<int>, clock: Time)
    requires s != [] && s[|s| - 1].Unresolved() && forall a :: a in s ==> Member(a, settled, clock)
    ensures forall a :: a in s[|s| - 1 := Answer(s[|s| - 1], reply)] ==> Member(a, settled, clock)
  {
    var k := |s| - 1;
    var t := s[k := Answer(s[k], reply)];
    assert s[k] in s;
    assert Member(t[k], settled, clock);
    forall a | a in t
      ensures Member(a, settled, clock)
    {
      var i :| 0 <= i < |t| && t[i] == a;
      assert i < k ==> s[i] in s;
    }
  }

  /** The answer to the transmission just made. */
  lemma AnswerImage(c: Config, m: Image, log: seq<Tx>, clock: Time, reply: Read<int>)
    requires ImageOK(c, m, log, clock)
    requires m.data.attempts != [] && m.data.attempts[|m.data.attempts| - 1].Unresolved()
    requires var a := m.data.attempts[|m.data.attempts| - 1];
             a.kind.Search? && a.downloadID in m.data.operations ==> !m.data.operations[a.downloadID].state.Finished?
    ensures ImageOK(c, m.(data := Answered(m.data, reply)), log, clock)
  {
    var s, e := m.data.attempts, Answered(m.data, reply);
    assert e.attempts == s[|s| - 1 := Answer(s[|s| - 1], reply)];
    AnswerEvolves(s, m.settled, reply);
    AnswerMembers(s, m.settled, reply, clock);
    EvolvesSound(c, s, e.attempts, m.settled, m.settled, clock);
    EvolvesRemembers(s, e.attempts, m.settled, m.settled, log, clock);
    EvolvesLinked(m.data, e);
    EvolvesAnchored(m.data, e);
    AnswerOnce(m.data, reply, m.settled, log);
  }

  /** Only the search of its own download can lose its protection by being answered. */
  lemma AnswerSearching(s: seq<Attempt>, reply: Read<int>, id: string)
    requires s != [] && Searching(s, id) && !(s[|s| - 1].kind.Search? && s[|s| - 1].downloadID == id)
    ensures Searching(s[|s| - 1 := Answer(s[|s| - 1], reply)], id)
  {
    var t := s[|s| - 1 := Answer(s[|s| - 1], reply)];
    var w :| w in s && w.kind.Search? && w.downloadID == id && !w.ack && w.Unresolved();
    var x :| 0 <= x < |s| && s[x] == w;
    assert t[x] == w;
  }

  lemma AnswerOnce(d: Data, reply: Read<int>, settled: set<Key>, log: seq<Tx>)
    requires Once(d, settled, log) && d.attempts != [] && d.attempts[|d.attempts| - 1].Unresolved()
    ensures Once(Answered(d, reply), settled, log)
  {
    var e := Answered(d, reply);
    AnswerEvolves(d.attempts, settled, reply);
    forall id, t, b | id in e.operations && e.operations[id].state.PendingSearch? && t in log && t.attempt.kind.Search?
                      && b in e.attempts && b.id == e.operations[id].removalID && t.parent == Some(KeyOf(b))
      ensures Searching(e.attempts, id)
    {
      var a := EvolvesBack(d.attempts, e.attempts, b);
      assert KeyOf(a) == KeyOf(b);
      AnswerSearching(d.attempts, reply, id);
    }
  }
}
