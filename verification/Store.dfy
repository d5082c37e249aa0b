/** The store: live data, its durable snapshot, and the run of the service so far as ghost history. */
module Stores {
  import opened Types
  import opened State
  import opened System
  import opened Invariant
  import opened Outcomes
  import opened Waiting
  import Ledger
  import Runs
  import Sets

  /** Consecutive states of the service, beginning with one that satisfies the invariant. */
  ghost predicate Chain(c: Config, run: seq<Sys>) {
    && run != [] && Inv(c, run[0]) && ScansPast(run[0])
    && forall i :: 0 <= i < |run| - 1 ==> Step(c, run[i], run[i + 1])
  }

  /** No scan lies in the future. */
  predicate ScansPast(s: Sys) {
    forall e :: e in s.scans && e.Complete? ==> e.now <= s.clock
  }

  lemma {:induction false} ChainKeeps(c: Config, run: seq<Sys>, i: nat)
    requires Chain(c, run) && i < |run|
    ensures Inv(c, run[i]) && ScansPast(run[i])
  {
    hide Inv;
    if i > 0 {
      ChainKeeps(c, run, i - 1);
      assert Step(c, run[i - 1], run[i - 1 + 1]);
      var a :| Enabled(c, run[i - 1], a) && run[i] == Apply(c, run[i - 1], a);
      Runs.StepKeeps(c, run[i - 1], a);
      StepScans(c, run[i - 1], a);
    }
  }

  lemma StepScans(c: Config, s: Sys, a: Action)
    requires Enabled(c, s, a) && ScansPast(s)
    ensures ScansPast(Apply(c, s, a))
  {
    hide Scanned, Expire, Settle, Prune, Recorded, Answered, MayReserve, Repair;
  }

  lemma ChainExtends(c: Config, run: seq<Sys>, a: Action)
    requires Chain(c, run) && Enabled(c, run[|run| - 1], a)
    ensures Chain(c, run + [Apply(c, run[|run| - 1], a)])
  {
    hide Inv, Enabled, Apply;
    var s := run[|run| - 1];
    var longer := run + [Apply(c, s, a)];
    forall i | 0 <= i < |longer| - 1 ensures Step(c, longer[i], longer[i + 1]) {
      if i == |run| - 1 {
        assert longer[i] == s;
      }
    }
  }

  class Store {
    const c: Config
    var data: Data
    var disk: Data
    ghost var run: seq<Sys>

    ghost predicate Valid()
      reads this
    {
      run != [] && Chain(c, run) && Present().mem.data == data && Present().disk.data == disk
    }

    ghost function Present(): Sys
      reads this
      requires run != []
    {
      run[|run| - 1]
    }

    /** Takes over a history whose last state has this data and this snapshot. */
    constructor At(config: Config, live: Data, saved: Data, ghost history: seq<Sys>)
      requires Chain(config, history) && history[|history| - 1].mem.data == live && history[|history| - 1].disk.data == saved
      ensures Valid() && c == config && data == live && disk == saved && run == history
    {
      c, data, disk, run := config, live, saved, history;
    }

    /** The contents of a stored file, before it is checked. */
    constructor Load(config: Config, file: Data, ghost history: seq<Sys>)
      ensures c == config && data == file && disk == file && run == history
    {
      c, data, disk, run := config, file, file, history;
    }

    /** Records the step that the fields have just taken. */
    ghost method Did(a: Action)
      requires run != [] && Chain(c, run) && Enabled(c, Present(), a)
      requires Apply(c, Present(), a).mem.data == data && Apply(c, Present(), a).disk.data == disk
      modifies this`run
      ensures Valid() && run == old(run) + [Apply(c, old(Present()), a)]
    {
      hide Chain, Enabled, Apply;
      ChainExtends(c, run, a);
      run := run + [Apply(c, Present(), a)];
    }

    /** Writes the whole snapshot in one transaction. A reported failure may or may not have reached the disk. */
    method Write() returns (save: Save)
      modifies this`disk
      ensures disk == if save.NotSaved? then old(disk) else data
    {
      save := *;
      if !save.NotSaved? {
        disk := data;
      }
    }

    method Save() returns (ok: bool)
      requires Valid() && Enabled(c, Present(), Persist(Saved))
      modifies this`disk, this`run
      ensures Valid() && exists save :: run == old(run) + [Apply(c, old(Present()), Persist(save))] && ok == save.Saved?
      ensures ok ==> disk == data
    {
      hide Chain, Enabled, Apply;
      PersistStep(c, Present());
      var save := Write();
      Did(Persist(save));
      ok := save.Saved?;
    }

    // -------------------------------------------------------------- retention

    /** Drops the receipts that nothing needs any more; returns the attempts that the rest still name. */
    method PruneReceipts(now: Time) returns (named: set<int>)
      modifies this`data
      ensures data == old(data).(triggers := KeptReceipts(c, old(data), now))
      ensures forall aid :: aid in named <==> Named(data.triggers, aid)
    {
      ghost var d := data;
      var todo := data.triggers.Keys;
      named := {};
      while todo != {}
        invariant data == d.(triggers := data.triggers) && todo <= d.triggers.Keys
        invariant forall id :: id in data.triggers <==> id in d.triggers && (id in todo || !DropsReceipt(c, d, id, now))
        invariant forall id :: id in data.triggers ==> data.triggers[id] == d.triggers[id]
        invariant forall aid :: aid in named <==> exists id :: id in data.triggers && id !in todo && aid in data.triggers[id].attemptIDs
        decreases |todo|
      {
        var id := Sets.Take(todo);
        var r := data.triggers[id];
        var unresolved := r.status.Accepted?;
        for j := 0 to |data.attempts|
          invariant unresolved <==> r.status.Accepted? || exists a :: a in data.attempts[..j] && NeedsReceipt(c, d, a, id, now)
        {
          var a := data.attempts[j];
          assert data.attempts[..j + 1] == data.attempts[..j] + [a] && a in data.attempts[..j + 1];
          assert Retain(c, data, a, now) == Retain(c, d, a, now);
          if a.requestID == id && Retain(c, data, a, now) {
            unresolved := true;
          }
          if a.requestID == id && a.downloadID in data.operations && !data.operations[a.downloadID].state.Finished? {
            unresolved := true;
          }
        }
        assert data.attempts[..|data.attempts|] == data.attempts;
        assert ReceiptNeeded(c, d, id, now) <==> exists a :: a in d.attempts && NeedsReceipt(c, d, a, id, now);
        todo := todo - {id};
        if !unresolved && r.finished != 0 && now - r.finished > c.retention {
          data := data.(triggers := data.triggers - {id});
        } else {
          named := named + (set aid | aid in r.attemptIDs);
        }
      }
    }

    /** Whether a resolved observation has outlived retention and nothing protects it. */
    method IsOutlived(id: string, now: Time) returns (outlived: bool)
      ensures outlived == DropsIssue(c, data, id, now)
    {
      if id !in data.issues { return false; }
      var i := data.issues[id];
      if !(i.state.Resolved? && i.resolvedAt != 0 && now - i.resolvedAt > c.retention) { return false; }
      var protected := Ledger.HasPending(data, id);
      if id in data.operations && !data.operations[id].state.Finished? {
        protected := true;
      }
      outlived := !protected;
    }

    /** Drops resolved observations past retention, with their continuations. */
    method PruneIssues(now: Time)
      modifies this`data
      ensures data == old(data).(issues := KeptIssues(c, old(data), now), operations := KeptOperations(c, old(data), now))
    {
      hide DropsIssue;
      ghost var d := data;
      var todo := data.issues.Keys;
      OnlyIssuesDrop(c, d, now);
      while todo != {}
        invariant data == d.(issues := data.issues, operations := data.operations) && todo <= data.issues.Keys <= d.issues.Keys
        invariant forall id :: id in data.issues <==> id in d.issues && (id in todo || !DropsIssue(c, d, id, now))
        invariant forall id :: id in data.issues ==> data.issues[id] == d.issues[id]
        invariant forall id :: id in data.operations <==> id in d.operations && (id in todo || !DropsIssue(c, d, id, now))
        invariant forall id :: id in data.operations ==> data.operations[id] == d.operations[id]
        decreases |todo|
      {
        var id := Sets.Take(todo);
        DropsAlone(c, d, data, id, now);
        todo := todo - {id};
        var outlived := IsOutlived(id, now);
        if outlived {
          data := data.(issues := data.issues - {id}, operations := data.operations - {id});
        }
      }
    }

    /** Retention of the whole store, in place: receipts, observations and continuations, then attempts. */
    method Prune(now: Time)
      modifies this`data
      ensures data == State.Prune(c, old(data), now)
    {
      ghost var d := data;
      var named := PruneReceipts(now);
      PruneIssues(now);
      AfterReceipts(c, d, now);
      assert data == PruneRest(c, d, now);
      var kept: seq<Attempt> := [];
      for j := 0 to |data.attempts|
        invariant kept == KeptAttempts(c, data, data.attempts[..j], now)
      {
        assert data.attempts[..j + 1][..j] == data.attempts[..j];
        var a := data.attempts[j];
        if a.id in named || Retain(c, data, a, now) {
          kept := kept + [a];
        }
      }
      assert data.attempts[..|data.attempts|] == data.attempts;
      data := data.(attempts := kept);
    }

    // -------------------------------------------------------------- deadlines

    /** Turns overdue attempts into uncertain ones, and marks their observations. */
    method ExpirePending(now: Time)
      modifies this`data
      ensures data == Expire(old(data), now)
    {
      hide ExpireFirst, Expire;
      ghost var d := data;
      ExpireEnds(d, now);
      for j := 0 to |data.attempts|
        invariant |data.attempts| == |d.attempts| && data == ExpireFirst(d, now, j)
      {
        ExpireStep(d, now, j);
        var a := data.attempts[j];
        if a.Unresolved() && !a.outcome.Partial? && now - a.started >= DEADLINE {
          data := data.(attempts := data.attempts[j := a.(outcome := Uncertain)]);
          if a.downloadID in data.issues {
            data := data.(issues := data.issues[a.downloadID := data.issues[a.downloadID].(state := Unsure)]);
          }
        }
      }
    }

    // -------------------------------------------------------------- restart repair

    method RepairRecords(now: Time)
      modifies this`data
      ensures data == Repair(old(data), now)
    {
      RepairAttempts();
      RepairReceipts(now);
    }

    method RepairAttempts()
      modifies this`data
      ensures data == old(data).(attempts := seq(|old(data).attempts|, i requires 0 <= i < |old(data).attempts| => RepairAttempt(old(data).attempts[i])))
    {
      ghost var s := data.attempts;
      for j := 0 to |data.attempts|
        invariant data == old(data).(attempts := data.attempts) && |data.attempts| == |s|
        invariant forall k :: 0 <= k < |s| ==> data.attempts[k] == if k < j then RepairAttempt(s[k]) else s[k]
      {
        if data.attempts[j].outcome.Intent? {
          data := data.(attempts := data.attempts[j := data.attempts[j].(outcome := Uncertain)]);
        }
      }
    }

    method RepairReceipts(now: Time)
      modifies this`data
      ensures data == old(data).(triggers := map id | id in old(data).triggers :: RepairReceipt(old(data).triggers[id], now))
    {
      ghost var m := data.triggers;
      var todo := data.triggers.Keys;
      while todo != {}
        invariant data == old(data).(triggers := data.triggers) && data.triggers.Keys == m.Keys && todo <= m.Keys
        invariant forall id :: id in m ==> data.triggers[id] == if id in todo then m[id] else RepairReceipt(m[id], now)
        decreases |todo|
      {
        var id := Sets.Take(todo);
        todo := todo - {id};
        if data.triggers[id].status.Accepted? {
          data := data.(triggers := data.triggers[id := data.triggers[id].(status := Interrupted, finished := now)]);
        }
      }
    }
  }

  lemma PersistStep(c: Config, s: Sys)
    requires Enabled(c, s, Persist(Saved))
    ensures forall save :: Enabled(c, s, Persist(save)) && Apply(c, s, Persist(save)).mem == s.mem
                           && Apply(c, s, Persist(save)).disk == AfterSave(save, s.disk, s.mem)
  {
  }

  /** The effect of expiry once the first j attempts are examined. */
  function ExpireFirst(d: Data, now: Time, j: nat): Data
    requires j <= |d.attempts|
  {
    d.(attempts := seq(|d.attempts|, i requires 0 <= i < |d.attempts| => if i < j then ExpireOne(d.attempts[i], now) else d.attempts[i]),
       issues := map id | id in d.issues ::
         if Marked(d.attempts[..j], id, now) then d.issues[id].(state := Unsure) else d.issues[id])
  }

  predicate Marked(s: seq<Attempt>, id: string, now: Time) {
    exists a :: a in s && a.downloadID == id && Overdue(a, now)
  }

  lemma ExpireEnds(d: Data, now: Time)
    ensures ExpireFirst(d, now, 0) == d && ExpireFirst(d, now, |d.attempts|) == Expire(d, now)
  {
    assert d.attempts[..|d.attempts|] == d.attempts;
    assert ExpireFirst(d, now, 0).attempts == d.attempts;
  }

  lemma MarksGrow(s: seq<Attempt>, j: nat, now: Time)
    requires j < |s|
    ensures forall id :: Marked(s[..j + 1], id, now) <==> Marked(s[..j], id, now) || (s[j].downloadID == id && Overdue(s[j], now))
  {
    hide Overdue;
    var longer := s[..j + 1];
    assert longer == s[..j] + [s[j]] && longer[j] == s[j];
    forall id ensures Marked(longer, id, now) <==> Marked(s[..j], id, now) || (s[j].downloadID == id && Overdue(s[j], now)) {
      if Marked(longer, id, now) {
        var a :| a in longer && a.downloadID == id && Overdue(a, now);
        assert a in s[..j] || a == s[j];
      }
      if Marked(s[..j], id, now) {
        var a :| a in s[..j] && a.downloadID == id && Overdue(a, now);
        assert a in longer;
      }
      assert s[j] in longer;
    }
  }

  lemma ExpireStep(d: Data, now: Time, j: nat)
    requires j < |d.attempts|
    ensures var e, f := ExpireFirst(d, now, j), ExpireFirst(d, now, j + 1); f == e.(attempts := f.attempts, issues := f.issues)
    ensures var e := ExpireFirst(d, now, j); |e.attempts| == |d.attempts| && e.attempts[j] == d.attempts[j]
    ensures var e, f, a := ExpireFirst(d, now, j), ExpireFirst(d, now, j + 1), d.attempts[j];
            && f.attempts == (if Overdue(a, now) then e.attempts[j := a.(outcome := Uncertain)] else e.attempts)
            && f.issues == (if Overdue(a, now) && a.downloadID in e.issues
                            then e.issues[a.downloadID := e.issues[a.downloadID].(state := Unsure)] else e.issues)
  {
    hide Overdue, Marked;
    var e, f, a := ExpireFirst(d, now, j), ExpireFirst(d, now, j + 1), d.attempts[j];
    MarksGrow(d.attempts, j, now);
    if Overdue(a, now) {
      assert f.attempts == e.attempts[j := a.(outcome := Uncertain)];
    } else {
      assert f.attempts == e.attempts;
    }
    IssuesExpire(d, now, j);
  }

  lemma IssuesExpire(d: Data, now: Time, j: nat)
    requires j < |d.attempts|
    ensures var e, f, a := ExpireFirst(d, now, j), ExpireFirst(d, now, j + 1), d.attempts[j];
            f.issues == (if Overdue(a, now) && a.downloadID in e.issues
                         then e.issues[a.downloadID := e.issues[a.downloadID].(state := Unsure)] else e.issues)
  {
    hide Overdue, Marked;
    MarksGrow(d.attempts, j, now);
  }

  lemma DropsAlone(c: Config, d: Data, e: Data, id: string, now: Time)
    requires e.attempts == d.attempts && id in d.issues && id in e.issues && e.issues[id] == d.issues[id]
    requires (id in e.operations <==> id in d.operations) && (id in e.operations ==> e.operations[id] == d.operations[id])
    ensures DropsIssue(c, e, id, now) == DropsIssue(c, d, id, now)
  {
    assert HasUnresolved(e, id) == HasUnresolved(d, id);
  }

  lemma OnlyIssuesDrop(c: Config, d: Data, now: Time)
    ensures forall id :: DropsIssue(c, d, id, now) ==> id in d.issues
  {
  }

  datatype Opening = Opened(store: Store) | Refused | Unwritten

  /** The file is what the history of this service left on disk. */
  ghost predicate LeftBy(c: Config, history: seq<Sys>, file: Data, now: Time) {
    Chain(c, history) && history[|history| - 1].disk.data == file && history[|history| - 1].clock <= now
  }

  /** Opens any file: checked, repaired, and saved again before anything else happens. It is refused exactly when its
      receipts and manual attempts do not name each other, so never if this service left it, and then it is
      opened as the next step of its history. */
  method Open(config: Config, ghost history: seq<Sys>, file: Data, now: Time) returns (r: Opening)
    ensures r.Refused? <==> !Linked(file)
    ensures LeftBy(config, history, file, now) ==> !r.Refused?
    ensures r.Opened? ==> fresh(r.store) && r.store.c == config && r.store.data == r.store.disk == Repair(file, now)
    ensures r.Opened? && LeftBy(config, history, file, now) ==>
      r.store.Valid() && r.store.run == history + [Apply(config, history[|history| - 1], Reopen(now))]
  {
    var ok := Ledger.ValidateReceipts(file);
    if LeftBy(config, history, file, now) {
      LeftIsLinked(config, history, file, now);
    }
    if !ok { return Refused; }
    var store := new Store.Load(config, file, history);
    store.RepairRecords(now);
    var save := store.Write();
    if !save.Saved? { return Unwritten; }
    if LeftBy(config, history, file, now) {
      store.Did(Reopen(now));
    }
    r := Opened(store);
  }

  /** What this service left on disk is never refused. */
  lemma LeftIsLinked(c: Config, history: seq<Sys>, file: Data, now: Time)
    requires LeftBy(c, history, file, now)
    ensures Linked(file)
  {
    hide Sound, Remembers, NoReplay, Anchored, Once, LogOK, PhaseOK, RequestOK, TimesOK;
    ChainKeeps(c, history, |history| - 1);
  }

  /** A store that did not exist before. */
  method Create(config: Config, now: Time) returns (store: Store)
    requires ConfigOK(config) && now > MAX_DURATION
    ensures fresh(store) && store.Valid() && store.c == config && store.data == EmptyData
    ensures |store.run| == 1 && Init(store.run[0]) && store.run[0].clock == now
  {
    ghost var empty := Image(EmptyData, {});
    ghost var s := Sys(empty, empty, [], [], now, 0, Idle, None, [], [], [], []);
    assert Inv(config, s);
    store := new Store.At(config, EmptyData, EmptyData, [s]);
  }

  /** The history of a store that began empty is a run, so everything proved of runs holds of what the service does. */
  lemma HistoryIsRun(c: Config, run: seq<Sys>)
    requires Chain(c, run) && Init(run[0])
    ensures ConfigOK(c) && Run(c, run)
  {
  }

  predicate NeedsReceipt(c: Config, d: Data, a: Attempt, id: string, now: Time) {
    a.requestID == id && (Retain(c, d, a, now) || (a.downloadID in d.operations && !d.operations[a.downloadID].state.Finished?))
  }

  /** Dropping receipts changes nothing that the rest of retention looks at. */
  lemma AfterReceipts(c: Config, d: Data, now: Time)
    ensures var e := d.(triggers := KeptReceipts(c, d, now));
            KeptIssues(c, e, now) == KeptIssues(c, d, now) && KeptOperations(c, e, now) == KeptOperations(c, d, now)
  {
    var e := d.(triggers := KeptReceipts(c, d, now));
    forall id ensures DropsIssue(c, e, id, now) == DropsIssue(c, d, id, now) {
      assert HasUnresolved(e, id) == HasUnresolved(d, id);
    }
  }
}
