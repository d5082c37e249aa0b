/** What the answers and effects of the service come to, told field by field and in both directions. */
module Meanings {
  import opened Types
  import opened State
  import opened Outcomes
  import opened Waiting
  import opened System
  import opened Queue

  // ---------------------------------------------------------------- the gate

  /** The live attempt concerns the download or shares an episode with the action. */
  predicate Near(a: Attempt, id: string, episodes: seq<int>) {
    !a.dryRun && (a.downloadID == id || exists e :: e in episodes && e in a.decision.episodeIDs)
  }

  /** Its effect is still unknown. */
  predicate Open(a: Attempt) {
    a.outcome.Intent? || a.outcome.Pending? || a.outcome.Uncertain? || a.outcome.Partial?
  }

  /** An earlier import of the same candidate. */
  predicate Tried(a: Attempt, id: string, fp: Fingerprint) {
    !a.dryRun && a.downloadID == id && a.kind.Import? && a.decision.fingerprint == fp
  }

  /** The gate is open exactly if the hour has room, nothing near the action is open, whatever was completed near it is
      past the cooldown, overridden or the removal that the action continues, and an import has tries left and
      is far enough from every earlier one. */
  lemma GateOpenIff(c: Config, data: Data, id: string, d: Decision, now: Time, parent: int, override: bool)
    ensures Gate(c, data, id, d, now, parent, override) == Why.Open <==>
      && |set j | 0 <= j < |data.attempts| && !data.attempts[j].dryRun
      && now - data.attempts[j].started < HOUR| < c.perHour
      && (forall a :: a in data.attempts && Near(a, id, d.episodeIDs) ==>
            && !Open(a)
            && (a.outcome.Verified? || a.outcome.Submitted? ==>
                  override || a.id == parent || now - a.finished >= c.episodeCooldown))
      && (d.kind.Import? ==>
            && |set j | 0 <= j < |data.attempts| && Tried(data.attempts[j], id, d.fingerprint)| < c.maxAttempts
            && forall a :: a in data.attempts && Tried(a, id, d.fingerprint) ==>
                 var end := if a.finished == 0 then a.started else a.finished;
                 end <= 0 || now - end >= c.retryInterval)
  {
    var s := data.attempts;
    assert Budget(data, now) == |set j | 0 <= j < |s| && !s[j].dryRun && now - s[j].started < HOUR| by {
      assert LiveSince(s, now - HOUR) == set j | 0 <= j < |s| && !s[j].dryRun && now - s[j].started < HOUR;
    }
    assert Tries(s, id, d) == set j | 0 <= j < |s| && Tried(s[j], id, d.fingerprint);
    NoConflictIff(c, s, id, d, now, parent, override);
    if TooSoon(c, s, id, d, now) {
      var j :| 0 <= j < |s| && IsTry(s[j], id, d) && s[j].End() > 0 && now - s[j].End() < c.retryInterval;
      assert s[j] in s && Tried(s[j], id, d.fingerprint);
    }
  }

  lemma {:induction false} NoConflictIff(c: Config, s: seq<Attempt>, id: string, d: Decision, now: Time, parent: int,
                                         override: bool)
    ensures FirstConflict(c, s, id, d, now, parent, override) == Why.Open <==>
      forall a :: a in s && Near(a, id, d.episodeIDs) ==>
        && !Open(a)
        && (a.outcome.Verified? || a.outcome.Submitted? ==> override || a.id == parent || now - a.finished >= c.episodeCooldown)
  {
    if s != [] {
      NoConflictIff(c, s[1..], id, d, now, parent, override);
      assert forall a :: a in s <==> a == s[0] || a in s[1..];
    }
  }

  /** Why the gate is shut: a full hour before everything else, and an import's own tries only when nothing near it
      objects. */
  lemma GateReasons(c: Config, data: Data, id: string, d: Decision, now: Time, parent: int, override: bool)
    ensures var why := Gate(c, data, id, d, now, parent, override);
            var room := |set j | 0 <= j < |data.attempts| && !data.attempts[j].dryRun && now - data.attempts[j].started < HOUR| < c.perHour;
            var clear := forall a :: a in data.attempts && Near(a, id, d.episodeIDs) ==>
                           && !Open(a)
                           && (a.outcome.Verified? || a.outcome.Submitted? ==> override || a.id == parent || now - a.finished >= c.episodeCooldown);
            var tries := |set j | 0 <= j < |data.attempts| && Tried(data.attempts[j], id, d.fingerprint)|;
            && (why == RollingHour <==> !room) && (why == Protected || why == Cooldown <==> room && !clear)
            && (why == Exhausted <==> room && clear && d.kind.Import? && tries >= c.maxAttempts)
            && (why == Protected ==> exists a :: a in data.attempts && Near(a, id, d.episodeIDs) && Open(a))
            && (why == Cooldown ==> exists a :: a in data.attempts && Near(a, id, d.episodeIDs) && a.Completed() && now - a.finished < c.episodeCooldown)
  {
    var s := data.attempts;
    assert LiveSince(s, now - HOUR) == set j | 0 <= j < |s| && !s[j].dryRun && now - s[j].started < HOUR;
    assert Tries(s, id, d) == set j | 0 <= j < |s| && Tried(s[j], id, d.fingerprint);
    NoConflictIff(c, s, id, d, now, parent, override);
    ConflictFound(c, s, id, d, now, parent, override);
  }

  lemma {:induction false} ConflictFound(c: Config, s: seq<Attempt>, id: string, d: Decision, now: Time, parent: int,
                                         override: bool)
    ensures var why := FirstConflict(c, s, id, d, now, parent, override);
            && (why == Why.Open || why == Protected || why == Cooldown)
            && (why == Protected ==> exists a :: a in s && Near(a, id, d.episodeIDs) && Open(a))
            && (why == Cooldown ==> exists a :: a in s && Near(a, id, d.episodeIDs) && a.Completed() && now - a.finished < c.episodeCooldown)
  {
    if s != [] {
      ConflictFound(c, s[1..], id, d, now, parent, override);
      assert s[0] in s && forall a :: a in s[1..] ==> a in s;
    }
  }

  // ---------------------------------------------------------------- effects

  /** What a verdict means for everything else: a verified unusable removal opens its continuation where searches are
      configured, a concluded search finishes its own, and any other success resolves nothing but its
      observation. */
  lemma SettleMeans(c: Config, d: Data, j: nat, b: Attempt, now: Time)
    requires j < |d.attempts|
    ensures var e, id, done := Settle(c, d, j, b, now), b.downloadID, b.outcome.Verified? || b.outcome.Submitted?;
            && e == d.(attempts := d.attempts[j := b], operations := e.operations, issues := e.issues)
            && e.issues == (if done && id in d.issues then d.issues[id := d.issues[id].(state := Resolved, resolvedAt := now)] else d.issues)
            && e.operations ==
                 (if done && b.kind.RemoveUnusable? && c.replacementSearch
                  then d.operations[id := Operation(b.id, id, b.decision.episodeIDs, PendingSearch)]
                  else if (done || b.outcome.KnownFailed?) && b.kind.Search? && id in d.operations
                  then d.operations[id := d.operations[id].(state := Finished)]
                  else d.operations)
  {
  }

  /** What the answer of the remote leaves on record: an acknowledged attempt is pending under its command, and
      anything else is uncertain; a search was attempted either way. */
  lemma AnsweredMeans(d: Data, reply: Read<int>)
    requires d.attempts != []
    ensures var n := |d.attempts| - 1;
            var a, e := d.attempts[n], Answered(d, reply);
            && |e.attempts| == |d.attempts| && e.attempts[..n] == d.attempts[..n]
            && e.attempts[n] == a.(outcome := e.attempts[n].outcome, ack := e.attempts[n].ack,
                                   commandID := e.attempts[n].commandID)
            && (e.attempts[n].outcome.Pending? <==> reply.Got?) && (e.attempts[n].outcome.Uncertain? <==> reply.Unavailable?)
            && (e.attempts[n].ack <==> a.ack || reply.Got?)
            && (reply.Got? ==> e.attempts[n].commandID == if a.kind.Import? || a.kind.Search? || a.kind.Defer? then reply.value else 0)
            && e == d.(attempts := e.attempts, operations := e.operations)
            && e.operations == (if a.kind.Search? && a.downloadID in d.operations
                                then d.operations[a.downloadID := d.operations[a.downloadID].(state := SearchAttempted)] else d.operations)
  {
  }

  /** Which downloads a scan leaves on record and what becomes of those it does not see: every record stays, a download
      never seen before gets one exactly if it is eligible, and one that is gone is resolved unless it already
      was or an attempt on it is unresolved. */
  lemma ScannedMeans(c: Config, previous: Time, now: Time, d: Data, sights: map<string, Sight>, id: string)
    ensures var issues := Scanned(c, previous, now, d, sights);
            && (id in issues <==> id in d.issues || (id in sights && Eligible(sights[id].rows)))
            && (id in issues && id !in sights ==>
                  if d.issues[id].state == Resolved || HasUnresolved(d, id) then issues[id] == d.issues[id]
                  else
                    && issues[id].state == Resolved && issues[id].resolvedAt == now && !issues[id].eligible
                    && issues[id].elapsed == issues[id].rejectedElapsed == issues[id].rejectedLastSeen == 0
                    && !issues[id].rejected
                    && issues[id].identity == d.issues[id].identity && issues[id].rows == d.issues[id].rows
                    && issues[id].title == d.issues[id].title)
            && (id in issues && id in sights ==>
                  && issues[id].rows == sights[id].rows && issues[id].resolvedAt == 0 && issues[id].lastSeen == now
                  && (sights[id].rows != [] ==> issues[id].title == sights[id].rows[0].title)
                  && (id in d.issues ==> issues[id].firstSeen == d.issues[id].firstSeen)
                  && (id !in d.issues ==> issues[id].elapsed == issues[id].rejectedElapsed == 0 && issues[id].firstSeen == now)
                  && (!Eligible(sights[id].rows) && !HasUnresolved(d, id) ==> issues[id].state == PolicyBlocked))
  {
    hide Clocked, Eligible, QueueIdentity, HasUnresolved;
    if id in sights {
      var i := if id in d.issues then d.issues[id] else NewIssue(id, now);
      ClocksExact(c, previous, now, i, sights[id], HasUnresolved(d, id));
      AdvancesElapsed(c, previous, now, i, sights[id], HasUnresolved(d, id));
    }
  }

  /** What an intent on record changes: it is the last attempt, its observation is in progress, and the receipt of its
      request, if there is one, names it last. */
  lemma RecordedMeans(d: Data, a: Attempt)
    ensures var e := Recorded(d, a);
            && e == d.(triggers := e.triggers, issues := e.issues, attempts := d.attempts + [a])
            && e.issues == (if a.downloadID in d.issues then d.issues[a.downloadID := d.issues[a.downloadID].(state := InProgress)] else d.issues)
            && e.triggers.Keys == d.triggers.Keys
            && forall id :: id in d.triggers ==>
                 && e.triggers[id].attemptIDs == d.triggers[id].attemptIDs + (if id == a.requestID then [a.id] else [])
                 && e.triggers[id].request == d.triggers[id].request && e.triggers[id].status == d.triggers[id].status
                 && e.triggers[id].accepted == d.triggers[id].accepted
                 && e.triggers[id].finished == d.triggers[id].finished
  {
  }

  /** What passing deadlines change: an unresolved attempt of ten minutes that is not partial is uncertain, and so is
      its observation; nothing else changes. */
  lemma ExpiredMeans(d: Data, now: Time)
    ensures var e := Expire(d, now);
            && e == d.(attempts := e.attempts, issues := e.issues) && |e.attempts| == |d.attempts|
            && e.issues.Keys == d.issues.Keys
            && (forall k :: 0 <= k < |d.attempts| ==>
                  e.attempts[k] == if TimedOut(d.attempts[k], now) then d.attempts[k].(outcome := Uncertain) else d.attempts[k])
            && forall id :: id in d.issues ==>
                 e.issues[id] == if exists a :: a in d.attempts && a.downloadID == id && TimedOut(a, now) then d.issues[id].(state := Unsure) else d.issues[id]
  {
    forall a ensures TimedOut(a, now) == Overdue(a, now) {
    }
  }

  /** What a failed scan changes in the records: it forgets when each rejection was last read, and nothing else. */
  lemma MissedMeans(issues: map<string, Issue>)
    ensures Missed(issues).Keys == issues.Keys
    ensures forall id :: id in issues ==>
              && Missed(issues)[id].rejectedLastSeen == 0
              && Missed(issues)[id].(rejectedLastSeen := issues[id].rejectedLastSeen) == issues[id]
  {
  }

  predicate TimedOut(a: Attempt, now: Time) {
    !a.dryRun && (a.outcome.Intent? || a.outcome.Pending? || a.outcome.Uncertain?) && now - a.started >= 10 * MINUTE
  }

  /** What opening a store changes: interrupted intents are uncertain and open receipts interrupted, and nothing else.
      */
  lemma RepairedMeans(d: Data, now: Time)
    ensures var e := Repair(d, now);
            && e == d.(attempts := e.attempts, triggers := e.triggers) && |e.attempts| == |d.attempts|
            && e.triggers.Keys == d.triggers.Keys
            && (forall k :: 0 <= k < |d.attempts| ==>
                  e.attempts[k] == if d.attempts[k].outcome == Intent then d.attempts[k].(outcome := Uncertain) else d.attempts[k])
            && forall id :: id in d.triggers ==>
                 e.triggers[id] == if d.triggers[id].status == Accepted then d.triggers[id].(status := Interrupted, finished := now) else d.triggers[id]
  {
  }
}
