/** Observed waiting time: how one complete queue scan advances the record of each download. */
module Waiting {
  import opened Types
  import opened State
  import opened Queue

  /** What policy said of one freshly observed download. */
  datatype View = View(rejected: bool, rejectedDecision: Decision, decision: Decision) {
    /** Scans never decide on searches, the removal of a blocked download is its refusal itself, and it has a cause
        that needs no wait only if its candidate shows one. */
    predicate Coherent() {
      && !decision.kind.Search?
      && (decision.kind.RemoveBlocked? ==> rejected && decision == rejectedDecision)
      && Shown(decision)
    }
  }

  /** One download in a complete scan; `view` is present when candidate observations were read for it. */
  datatype Sight = Sight(rows: seq<QueueRow>, view: Option<View>) {
    predicate Rejected() { view.Some? && view.value.rejected }
  }

  /** The candidate was refused for good by some rejection of one of its files. */
  predicate Permanent(fp: Fingerprint) {
    exists m, r :: m in fp.files && r in m.rejections && r.rtype == "permanent"
  }

  /** The causes of a decision are those that its candidate shows. */
  predicate Shown(d: Decision) {
    && (d.executableWarning <==> d.kind.RemoveBlocked? && d.fingerprint.executableWarning)
    && (d.episodeMismatch ==> d.kind.RemoveBlocked? && Permanent(d.fingerprint))
  }

  /** Immediate causes need no waiting; every other cleanup waits as configured. */
  function CleanupWait(c: Config, d: Option<Decision>): Duration {
    if d.Some? && d.value.kind.RemoveBlocked? && (d.value.episodeMismatch || d.value.executableWarning) then 0
    else c.cleanupWait
  }

  function CleanupElapsed(i: Issue): Duration {
    if i.rejected then i.rejectedElapsed else i.elapsed
  }

  /** The wait a decision needs, and the observed time that counts towards it. */
  function NeededWait(c: Config, d: Decision): Duration {
    if d.kind.Import? then c.recoveryWait else CleanupWait(c, Some(d))
  }

  function ObservedWait(i: Issue, d: Decision): Duration {
    if d.kind.Import? then i.elapsed else CleanupElapsed(i)
  }

  function NewIssue(id: string, now: Time): Issue {
    Issue(id, multiset{}, [], "", now, 0, 0, false, 0, false, 0, 0, 0, 0, Fresh, None, 0)
  }

  function Min(a: int, b: int): int { if a < b then a else b }

  /** A changed, protected, newly eligible or resolved download starts over. */
  function Restarted(i: Issue, now: Time): Issue {
    i.(eligibleSince := now, elapsed := 0, rejected := false, rejectedElapsed := 0, rejectedLastSeen := 0,
       recoveryDue := 0, cleanupDue := 0)
  }

  predicate Resets(i: Issue, s: Sight) {
    QueueIdentity(s.rows) != i.identity || !Eligible(s.rows) || !i.eligible || i.state.Resolved?
  }

  /** The pair (previous scan, this scan) counts towards eligibility. */
  predicate Continues(c: Config, i: Issue, s: Sight, previous: Time, now: Time) {
    && Eligible(s.rows) && i.eligible && QueueIdentity(s.rows) == i.identity
    && previous != 0 && now > previous && now - previous <= 2 * c.pollInterval && i.lastSeen == previous
  }

  /** The pair (last rejected observation, this one) counts towards the rejected clock. */
  predicate ContinuesRejected(c: Config, i: Issue, s: Sight, previous: Time, now: Time) {
    && s.Rejected() && i.rejected && previous != 0
    && now > i.rejectedLastSeen && now - i.rejectedLastSeen <= 2 * c.pollInterval
  }

  /** The two waiting clocks after a complete scan in which the download is present. */
  function Clocked(c: Config, previous: Time, now: Time, i: Issue, s: Sight): Issue {
    var eligible := Eligible(s.rows);
    var i0 := if Resets(i, s) then Restarted(i, now) else i;
    var i1 := if eligible && i0.eligibleSince == 0 then i0.(eligibleSince := i0.firstSeen) else i0;
    var i2 := if Continues(c, i1, s, previous, now) then i1.(elapsed := i1.elapsed + Min(now - previous, c.pollInterval)) else i1;
    var i3 := if ContinuesRejected(c, i2, s, previous, now)
              then i2.(rejectedElapsed := i2.rejectedElapsed + Min(c.pollInterval, now - i2.rejectedLastSeen)) else i2;
    if s.view.None? then i3
    else if s.Rejected() then i3.(rejected := true, rejectedLastSeen := now)
    else i3.(rejected := false, rejectedElapsed := 0, rejectedLastSeen := 0)
  }

  /** One complete scan in which the download is present. */
  function Advance(c: Config, previous: Time, now: Time, i: Issue, s: Sight, pending: bool): Issue {
    var identity, eligible := QueueIdentity(s.rows), Eligible(s.rows);
    var i4 := Clocked(c, previous, now, i, s);
    var i5 := i4.(recoveryDue := if i4.elapsed < c.recoveryWait then 0 else if i4.recoveryDue == 0 then now else i4.recoveryDue);
    var rejection := if s.view.Some? then Some(s.view.value.rejectedDecision) else None;
    var i6 := i5.(cleanupDue := if CleanupElapsed(i5) < CleanupWait(c, rejection) then 0 else if i5.cleanupDue == 0 then now else i5.cleanupDue);
    i6.(identity := identity, rows := s.rows, title := if s.rows == [] then "" else s.rows[0].title,
        eligible := eligible, lastSeen := now, resolvedAt := 0,
        state := if !eligible && !pending then PolicyBlocked else i6.state)
  }

  /** The eligible clock after a scan: kept or restarted, plus at most one capped pair. */
  lemma AdvancesElapsed(c: Config, previous: Time, now: Time, i: Issue, s: Sight, pending: bool)
    ensures var j := Advance(c, previous, now, i, s, pending);
            && j.elapsed == (if Resets(i, s) then 0 else i.elapsed)
                            + (if Continues(c, i, s, previous, now) then Min(now - previous, c.pollInterval) else 0)
            && j.lastSeen == now && j.identity == QueueIdentity(s.rows) && j.eligible == Eligible(s.rows)
            && j.firstSeen == i.firstSeen
  {
    hide QueueIdentity, Eligible, CleanupWait;
  }

  /** The rejected clock after a scan: unobserved scans leave it or restart it, an observation without
      rejection stops it, and a rejected observation adds at most one capped pair. */
  lemma AdvancesRejected(c: Config, previous: Time, now: Time, i: Issue, s: Sight, pending: bool)
    ensures s.view.Some? ==> Advance(c, previous, now, i, s, pending).rejected == s.Rejected()
    ensures var j := Advance(c, previous, now, i, s, pending);
            var base := if Resets(i, s) then 0 else i.rejectedElapsed;
            if s.view.None? then j.rejectedElapsed == base && j.rejectedLastSeen == if Resets(i, s) then 0 else i.rejectedLastSeen
            else if !s.Rejected() then j.rejectedElapsed == 0 && j.rejectedLastSeen == 0
            else
              && j.rejectedLastSeen == now
              && j.rejectedElapsed == base + (if !Resets(i, s) && ContinuesRejected(c, i, s, previous, now)
                                              then Min(c.pollInterval, now - i.rejectedLastSeen) else 0)
  {
  }

  /** Both clocks after a scan, told in full. A record starts over unless the download is eligible as before, under the
      same identity and unresolved. A pair of scans at most two polls apart that both saw it eligible under that
      identity adds its time, capped at one poll; so does a pair of rejected observations. */
  lemma ClocksExact(c: Config, previous: Time, now: Time, i: Issue, s: Sight, pending: bool)
    ensures var j := Advance(c, previous, now, i, s, pending);
            var same := Eligible(s.rows) && i.eligible && i.identity == QueueIdentity(s.rows);
            var kept := same && i.state != Resolved;
            && j.elapsed == (if kept then i.elapsed else 0)
                            + (if same && previous != 0 && i.lastSeen == previous && 0 < now - previous <= 2 * c.pollInterval
                               then (if now - previous < c.pollInterval then now - previous else c.pollInterval) else 0)
            && j.rejectedElapsed ==
                 (if s.view.None? then (if kept then i.rejectedElapsed else 0)
                  else if !s.view.value.rejected then 0
                  else if !kept then 0
                  else i.rejectedElapsed
                       + (if i.rejected && previous != 0 && 0 < now - i.rejectedLastSeen <= 2 * c.pollInterval
                          then (if now - i.rejectedLastSeen < c.pollInterval then now - i.rejectedLastSeen else c.pollInterval) else 0))
            && j.rejected == (if s.view.Some? then s.view.value.rejected else kept && i.rejected)
            && j.rejectedLastSeen == (if s.view.Some? then (if s.view.value.rejected then now else 0)
                                      else if kept then i.rejectedLastSeen else 0)
            && j.lastSeen == now && j.eligible == Eligible(s.rows) && j.identity == QueueIdentity(s.rows)
            && j.rows == s.rows
  {
    hide QueueIdentity, Eligible, CleanupWait;
  }

  /** One complete scan in which the download is absent. */
  function Absent(i: Issue, now: Time, pending: bool): Issue {
    if i.state.Resolved? || pending then i
    else i.(eligible := false, elapsed := 0, rejected := false, rejectedElapsed := 0, rejectedLastSeen := 0,
            resolvedAt := now, state := Resolved)
  }

  /** Every record after a complete scan. Noneligible downloads never seen before get none. */
  function Scanned(c: Config, previous: Time, now: Time, d: Data, sights: map<string, Sight>): map<string, Issue> {
    map id | id in d.issues.Keys + sights.Keys && (id in d.issues || Eligible(sights[id].rows)) ::
      if id in sights then
        Advance(c, previous, now, if id in d.issues then d.issues[id] else NewIssue(id, now), sights[id], HasUnresolved(d, id))
      else Absent(d.issues[id], now, HasUnresolved(d, id))
  }

  /** A failed scan breaks the rejected clock of every record. */
  function Missed(issues: map<string, Issue>): map<string, Issue> {
    map id | id in issues :: issues[id].(rejectedLastSeen := 0)
  }
}
