/** Steps that rewrite recorded attempts in place keep the invariant of the copy they work on. */
module Evolution {
  import opened Types
  import opened State
  import opened Outcomes
  import opened System
  import opened Invariant

  /** Attempts may only be rewritten while unresolved, and only in what evidence can change. */
  predicate Evolves(s: seq<Attempt>, t: seq<Attempt>) {
    |s| == |t| && forall i :: 0 <= i < |s| ==> SameAction(s[i], t[i]) && (s[i].Unresolved() || t[i] == s[i])
  }

  /** The settled keys grow exactly by the attempts that stopped being unresolved. */
  predicate Settles(s: seq<Attempt>, t: seq<Attempt>, prior: set<Key>, later: set<Key>)
    requires |s| == |t|
  {
    && prior <= later
    && (forall i :: 0 <= i < |s| && s[i].Unresolved() && !t[i].Unresolved() ==> KeyOf(t[i]) in later)
    && (forall k :: k in later ==> k in prior || exists i :: 0 <= i < |s| && !t[i].dryRun && KeyOf(t[i]) == k)
  }

  /** An unanswered search stays one. */
  predicate KeepsSearches(s: seq<Attempt>, t: seq<Attempt>)
    requires |s| == |t|
  {
    forall i :: 0 <= i < |s| && s[i].kind.Search? && !s[i].ack && s[i].Unresolved() ==> t[i].Unresolved() && !t[i].ack
  }

  lemma EvolvesPair(c: Config, a: Attempt, b: Attempt, a': Attempt, b': Attempt)
    requires Ordered(c, a, b) && SameAction(a, a') && SameAction(b, b') && (a.Unresolved() || a' == a)
    ensures Ordered(c, a', b')
  {
    assert Related(a', b') == Related(a, b);
  }

  lemma EvolvesCapped(c: Config, s: seq<Attempt>, t: seq<Attempt>)
    requires Evolves(s, t) && Capped(c, s)
    ensures Capped(c, t)
  {
    forall b | b in t && !b.dryRun && b.kind.Import?
      ensures |Tries(t, b.downloadID, b.decision)| <= c.maxAttempts
    {
      var a := EvolvesBack(s, t, b);
      forall i | 0 <= i < |s|
        ensures IsTry(t[i], b.downloadID, b.decision) == IsTry(s[i], a.downloadID, a.decision)
      {
        assert SameAction(s[i], t[i]);
      }
      assert Tries(t, b.downloadID, b.decision) == Tries(s, a.downloadID, a.decision);
    }
  }

  lemma EvolvesSound(c: Config, s: seq<Attempt>, t: seq<Attempt>, prior: set<Key>, later: set<Key>, clock: Time)
    requires Evolves(s, t) && Sound(c, s, prior, clock)
    requires forall a :: a in t ==> Member(a, later, clock)
    ensures Sound(c, t, later, clock)
  {
    forall i, j | 0 <= i < j < |t|
      ensures Ordered(c, t[i], t[j])
    {
      EvolvesPair(c, s[i], s[j], t[i], t[j]);
    }
    EvolvesCapped(c, s, t);
  }

  /** A settled key that must still be listed is. */
  lemma EvolvesListed(s: seq<Attempt>, t: seq<Attempt>, k: Key)
    requires Evolves(s, t) && Listed(s, k)
    ensures Listed(t, k)
  {
    var b :| b in s && !b.dryRun && KeyOf(b) == k;
    var i :| 0 <= i < |s| && s[i] == b;
    assert t[i] in t;
  }

  /** What recalled or protected a transmission still does, unless it was settled just now. */
  lemma EvolvesRecalls(s: seq<Attempt>, t: seq<Attempt>, prior: set<Key>, later: set<Key>, a: Attempt)
    requires Evolves(s, t) && Settles(s, t, prior, later)
    ensures Recalls(s, a) ==> Recalls(t, a)
    ensures Protects(s, a) ==> KeyOf(a) in later || Protects(t, a)
  {
    if Recalls(s, a) {
      var b :| b in s && SameAction(a, b);
      var i :| 0 <= i < |s| && s[i] == b;
      assert t[i] in t && SameAction(a, t[i]);
    }
    if Protects(s, a) {
      var b :| b in s && SameAction(a, b) && b.Unresolved();
      var i :| 0 <= i < |s| && s[i] == b;
      assert t[i] in t && SameAction(a, t[i]);
    }
  }

  lemma EvolvesRemembers(s: seq<Attempt>, t: seq<Attempt>, prior: set<Key>, later: set<Key>, log: seq<Tx>, clock: Time)
    requires Evolves(s, t) && Settles(s, t, prior, later) && Remembers(s, prior, log, clock)
    requires forall a :: a in t ==> a.started <= clock
    ensures Remembers(t, later, log, clock)
  {
    hide Recalls, Protects, SameAction;
    forall k | k in later
      ensures k.started <= clock && (k.started > clock - HOUR ==> Listed(t, k))
    {
      if k !in prior {
        var i :| 0 <= i < |s| && !t[i].dryRun && KeyOf(t[i]) == k;
        assert t[i] in t;
      } else if k.started > clock - HOUR {
        EvolvesListed(s, t, k);
      }
    }
    forall x | x in log
      ensures x.attempt.started > clock - HOUR ==> Recalls(t, x.attempt)
      ensures KeyOf(x.attempt) in later || Protects(t, x.attempt)
    {
      EvolvesRecalls(s, t, prior, later, x.attempt);
    }
  }

  lemma EvolvesLinked(d: Data, e: Data)
    requires Evolves(d.attempts, e.attempts) && Linked(d)
    requires e.triggers.Keys == d.triggers.Keys
    requires forall id :: id in e.triggers ==> ReceiptOK(id, e.triggers[id]) && e.triggers[id].attemptIDs == d.triggers[id].attemptIDs
    ensures Linked(e)
  {
    forall id, aid | id in e.triggers && aid in e.triggers[id].attemptIDs
      ensures Evidence(e.attempts, id, aid)
    {
      var a :| a in d.attempts && a.id == aid && a.requestID == id && a.manual;
      var i :| 0 <= i < |d.attempts| && d.attempts[i] == a;
      assert e.attempts[i] in e.attempts;
    }
    forall a | a in e.attempts && a.requestID != ""
      ensures a.requestID in e.triggers && a.manual && a.id in e.triggers[a.requestID].attemptIDs
    {
      var i :| 0 <= i < |e.attempts| && e.attempts[i] == a;
      assert d.attempts[i] in d.attempts;
    }
  }

  /** Verified removals are final, so continuations keep their parent. */
  lemma EvolvesParent(s: seq<Attempt>, t: seq<Attempt>, id: string, removal: int)
    requires Evolves(s, t) && HasParent(s, id, removal)
    ensures HasParent(t, id, removal)
  {
    var a :| a in s && IsParent(a, id, removal);
    var i :| 0 <= i < |s| && s[i] == a;
    assert t[i] in t && IsParent(t[i], id, removal);
  }

  lemma EvolvesSearching(s: seq<Attempt>, t: seq<Attempt>, id: string)
    requires Evolves(s, t) && KeepsSearches(s, t) && Searching(s, id)
    ensures Searching(t, id)
  {
    var b :| b in s && b.kind.Search? && b.downloadID == id && !b.ack && b.Unresolved();
    var i :| 0 <= i < |s| && s[i] == b;
    assert t[i] in t;
  }

  lemma EvolvesBack(s: seq<Attempt>, t: seq<Attempt>, b: Attempt) returns (a: Attempt)
    requires Evolves(s, t) && b in t
    ensures a in s && SameAction(a, b) && (a.Unresolved() || a == b)
  {
    var i :| 0 <= i < |t| && t[i] == b;
    a := s[i];
  }

  /** Operations that are open afterwards were already open for the same removal. */
  predicate OpensNothing(d: Data, e: Data) {
    forall id :: id in e.operations ==>
      && e.operations[id].downloadID == id
      && (!e.operations[id].state.Finished? ==>
            id in d.operations && !d.operations[id].state.Finished? && d.operations[id].removalID == e.operations[id].removalID)
      && (e.operations[id].state.PendingSearch? ==> d.operations[id].state.PendingSearch?)
  }

  lemma EvolvesAnchored(d: Data, e: Data)
    requires Evolves(d.attempts, e.attempts) && Anchored(d) && OpensNothing(d, e) && d.issues.Keys <= e.issues.Keys
    requires forall i :: 0 <= i < |e.attempts| && e.attempts[i].Unresolved() ==> d.attempts[i].Unresolved()
    ensures Anchored(e)
  {
    forall b | b in e.attempts && b.Unresolved()
      ensures b.downloadID in e.issues
    {
      var i :| 0 <= i < |e.attempts| && e.attempts[i] == b;
      assert d.attempts[i] in d.attempts;
    }
    forall id | id in e.operations && !e.operations[id].state.Finished?
      ensures id in e.issues && HasParent(e.attempts, id, e.operations[id].removalID)
    {
      EvolvesParent(d.attempts, e.attempts, id, e.operations[id].removalID);
    }
  }

  lemma EvolvesOnce(d: Data, e: Data, prior: set<Key>, later: set<Key>, log: seq<Tx>)
    requires Evolves(d.attempts, e.attempts) && KeepsSearches(d.attempts, e.attempts) && OpensNothing(d, e)
    requires Once(d, prior, log) && prior <= later
    ensures Once(e, later, log)
  {
    forall id, t, b | id in e.operations && e.operations[id].state.PendingSearch? && t in log && t.attempt.kind.Search?
                      && b in e.attempts && b.id == e.operations[id].removalID && t.parent == Some(KeyOf(b))
      ensures Searching(e.attempts, id)
    {
      var a := EvolvesBack(d.attempts, e.attempts, b);
      assert KeyOf(a) == KeyOf(b);
      EvolvesSearching(d.attempts, e.attempts, id);
    }
  }

  /** All together, for a rewrite that opens no continuation. */
  lemma EvolvesImage(c: Config, m: Image, n: Image, log: seq<Tx>, clock: Time)
    requires ImageOK(c, m, log, clock) && Evolves(m.data.attempts, n.data.attempts)
    requires Settles(m.data.attempts, n.data.attempts, m.settled, n.settled)
    requires KeepsSearches(m.data.attempts, n.data.attempts) && OpensNothing(m.data, n.data)
    requires m.data.issues.Keys <= n.data.issues.Keys && n.data.triggers.Keys == m.data.triggers.Keys
    requires forall id :: id in n.data.triggers ==>
               ReceiptOK(id, n.data.triggers[id]) && n.data.triggers[id].attemptIDs == m.data.triggers[id].attemptIDs
    requires forall a :: a in n.data.attempts ==> Member(a, n.settled, clock)
    requires forall i :: 0 <= i < |m.data.attempts| && n.data.attempts[i].Unresolved() ==> m.data.attempts[i].Unresolved()
    ensures ImageOK(c, n, log, clock)
  {
    EvolvesSound(c, m.data.attempts, n.data.attempts, m.settled, n.settled, clock);
    EvolvesRemembers(m.data.attempts, n.data.attempts, m.settled, n.settled, log, clock);
    EvolvesLinked(m.data, n.data);
    EvolvesAnchored(m.data, n.data);
    EvolvesOnce(m.data, n.data, m.settled, n.settled, log);
  }
}
