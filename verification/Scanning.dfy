/** The loops of one complete scan over the observations, field by field. */
module Scanning {
  import opened Types
  import opened State
  import opened Queue
  import opened Waiting
  import Ledger
  import Sets

  /** Starting over, and the start of eligibility. */
  method Start(now: Time, before: Issue, s: Sight) returns (i: Issue)
    ensures i == (var i0 := if Resets(before, s) then Restarted(before, now) else before;
                  if Eligible(s.rows) && i0.eligibleSince == 0 then i0.(eligibleSince := i0.firstSeen) else i0)
  {
    hide QueueIdentity, Eligible;
    i := before;
    if QueueIdentity(s.rows) != i.identity || !Eligible(s.rows) || !i.eligible || i.state.Resolved? {
      i := i.(eligibleSince := now, elapsed := 0, rejected := false, rejectedElapsed := 0, rejectedLastSeen := 0, recoveryDue := 0, cleanupDue := 0);
    }
    if Eligible(s.rows) && i.eligibleSince == 0 {
      i := i.(eligibleSince := i.firstSeen);
    }
  }

  /** The time credited for this scan: to eligibility, and to the rejected clock. */
  method Credit(c: Config, previous: Time, now: Time, i: Issue, s: Sight) returns (eligible: Duration,
                refused: Duration)
    ensures eligible == if Continues(c, i, s, previous, now) then Min(now - previous, c.pollInterval) else 0
    ensures refused == if ContinuesRejected(c, i, s, previous, now) then Min(c.pollInterval, now - i.rejectedLastSeen) else 0
  {
    hide QueueIdentity, Eligible;
    eligible, refused := 0, 0;
    if Eligible(s.rows) && i.eligible && QueueIdentity(s.rows) == i.identity && previous != 0 && now > previous
       && now - previous <= 2 * c.pollInterval && i.lastSeen == previous {
      eligible := now - previous;
      if eligible > c.pollInterval {
        eligible := c.pollInterval;
      }
    }
    if s.Rejected() && i.rejected && previous != 0 && now > i.rejectedLastSeen && now - i.rejectedLastSeen <= 2 * c.pollInterval {
      refused := Min(c.pollInterval, now - i.rejectedLastSeen);
    }
  }

  /** The clocks of one present download. */
  method Clock(c: Config, previous: Time, now: Time, before: Issue, s: Sight) returns (i: Issue)
    ensures i == Clocked(c, previous, now, before, s)
  {
    hide QueueIdentity, Eligible, Resets, Continues, Restarted, Min;
    i := Start(now, before, s);
    ghost var i1 := i;
    var credit, refused := Credit(c, previous, now, i, s);
    i := i.(elapsed := i.elapsed + credit, rejectedElapsed := i.rejectedElapsed + refused);
    assert ContinuesRejected(c, i1, s, previous, now) == ContinuesRejected(c, i1.(elapsed := i.elapsed), s, previous, now);
    if s.view.Some? {
      if !s.Rejected() {
        i := i.(rejectedElapsed := 0, rejectedLastSeen := 0);
      } else {
        i := i.(rejectedLastSeen := now);
      }
      i := i.(rejected := s.Rejected());
    }
  }

  /** One present download. */
  method Observe(c: Config, previous: Time, now: Time, before: Issue, s: Sight, pending: bool) returns (i: Issue)
    requires s.rows != []
    ensures i == Advance(c, previous, now, before, s, pending)
  {
    hide QueueIdentity, Eligible, CleanupWait, Clocked;
    i := Clock(c, previous, now, before, s);
    if i.elapsed < c.recoveryWait {
      i := i.(recoveryDue := 0);
    } else if i.recoveryDue == 0 {
      i := i.(recoveryDue := now);
    }
    var wait := CleanupWait(c, if s.view.Some? then Some(s.view.value.rejectedDecision) else None);
    if CleanupElapsed(i) < wait {
      i := i.(cleanupDue := 0);
    } else if i.cleanupDue == 0 {
      i := i.(cleanupDue := now);
    }
    var eligible := Eligible(s.rows);
    i := i.(identity := QueueIdentity(s.rows), rows := s.rows, title := s.rows[0].title, eligible := eligible, lastSeen := now, resolvedAt := 0);
    if !eligible && !pending {
      i := i.(state := PolicyBlocked);
    }
  }

  /** The observation of one download after a scan in which it is present; None if there is none. */
  function Present(c: Config, previous: Time, now: Time, d: Data, sights: map<string, Sight>, id: string): Option<Issue>
    requires id in sights
  {
    if id !in d.issues && !Eligible(sights[id].rows) then None
    else Some(Advance(c, previous, now, if id in d.issues then d.issues[id] else NewIssue(id, now), sights[id], HasUnresolved(d, id)))
  }

  method ScanPresent(c: Config, previous: Time, now: Time, d: Data,
                     sights: map<string, Sight>) returns (issues: map<string, Issue>)
    requires forall id :: id in sights ==> sights[id].rows != []
    ensures forall id :: id in issues <==> id in d.issues || (id in sights && Present(c, previous, now, d, sights, id).Some?)
    ensures forall id :: id in issues ==> issues[id] == if id in sights then Present(c, previous, now, d, sights, id).value else d.issues[id]
  {
    hide Advance, HasUnresolved, Eligible;
    issues := d.issues;
    var todo := sights.Keys;
    while todo != {}
      invariant todo <= sights.Keys
      invariant forall id :: id in issues <==> id in d.issues || (id in sights && id !in todo && Present(c, previous, now, d, sights, id).Some?)
      invariant forall id :: id in issues ==> issues[id] == if id in sights && id !in todo then Present(c, previous, now, d, sights, id).value else d.issues[id]
      decreases |todo|
    {
      var id := Sets.Take(todo);
      todo := todo - {id};
      if id !in issues && !Eligible(sights[id].rows) { continue; }
      var before := if id in issues then issues[id] else NewIssue(id, now);
      var pending := Ledger.HasPending(d, id);
      var after := Observe(c, previous, now, before, sights[id], pending);
      issues := issues[id := after];
    }
  }

  /** A complete scan: the present downloads, then those that have gone. */
  method Reconcile(c: Config, previous: Time, now: Time, d: Data,
                   sights: map<string, Sight>) returns (issues: map<string, Issue>)
    requires forall id :: id in sights ==> sights[id].rows != []
    ensures issues == Scanned(c, previous, now, d, sights)
  {
    hide Advance, HasUnresolved, Eligible;
    var present := ScanPresent(c, previous, now, d, sights);
    issues := present;
    var todo := issues.Keys;
    while todo != {}
      invariant todo <= issues.Keys == present.Keys
      invariant forall id :: id in issues ==>
        issues[id] == (if id !in sights && id !in todo then Absent(present[id], now, HasUnresolved(d, id)) else present[id])
      decreases |todo|
    {
      var id := Sets.Take(todo);
      todo := todo - {id};
      var i := issues[id];
      var pending := Ledger.HasPending(d, id);
      if id !in sights && !i.state.Resolved? && !pending {
        issues := issues[id := i.(eligible := false, elapsed := 0, rejected := false, rejectedElapsed := 0, rejectedLastSeen := 0,
                                  resolvedAt := now, state := Resolved)];
      }
    }
    Together(c, previous, now, d, sights, present, issues);
  }

  lemma Together(c: Config, previous: Time, now: Time, d: Data, sights: map<string, Sight>,
                 present: map<string, Issue>, issues: map<string, Issue>)
    requires forall id :: id in present <==> id in d.issues || (id in sights && Present(c, previous, now, d, sights, id).Some?)
    requires forall id :: id in present ==> present[id] == if id in sights then Present(c, previous, now, d, sights, id).value else d.issues[id]
    requires issues.Keys == present.Keys
    requires forall id :: id in issues ==> issues[id] == (if id !in sights then Absent(present[id], now, HasUnresolved(d, id)) else present[id])
    ensures issues == Scanned(c, previous, now, d, sights)
  {
    hide Advance, HasUnresolved, Eligible, Absent;
  }
}
