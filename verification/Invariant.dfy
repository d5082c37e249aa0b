/** What holds of both copies of the data and of the transmission log after every step. */
module Invariant {
  import opened Types
  import opened State
  import opened Outcomes
  import opened System

  // ---------------------------------------------------------------- one attempt, two attempts

  predicate Member(a: Attempt, settled: set<Key>, clock: Time) {
    && a.id > 0 && 0 < a.started <= clock && 0 <= a.finished <= clock && Grounded(a)
    && if a.dryRun then a.outcome.Recommended? && a.requestID == ""
       else
         && a.kind == a.decision.kind != Defer
         && (a.Unresolved() <==> KeyOf(a) !in settled)
         && if a.Unresolved() then a.finished == 0
            else a.finished > 0 && (a.outcome.Verified? || a.outcome.Submitted? || a.outcome.KnownFailed?)
  }

  /** A search may follow the removal it continues without waiting. */
  predicate Continuation(a: Attempt, b: Attempt) {
    b.kind.Search? && a.kind.RemoveUnusable? && a.downloadID == b.downloadID
  }

  predicate SameCandidate(a: Attempt, b: Attempt) {
    a.kind.Import? && b.kind.Import? && a.downloadID == b.downloadID && a.decision.fingerprint == b.decision.fingerprint
  }

  /** What recording `b` after `a` required: `a` was settled if they are related, and their spacing. */
  predicate Ordered(c: Config, a: Attempt, b: Attempt) {
    && a.id != b.id
    && (!a.dryRun && !b.dryRun && Related(a, b) ==>
          && !a.Unresolved()
          && (a.Completed() && !b.waitOverride && !Continuation(a, b) ==> b.started - a.finished >= c.episodeCooldown)
          && (SameCandidate(a, b) ==> b.started - a.finished >= c.retryInterval))
  }

  ghost predicate Capped(c: Config, s: seq<Attempt>) {
    forall a :: a in s && !a.dryRun && a.kind.Import? ==> |Tries(s, a.downloadID, a.decision)| <= c.maxAttempts
  }

  ghost predicate Sound(c: Config, s: seq<Attempt>, settled: set<Key>, clock: Time) {
    && (forall a :: a in s ==> Member(a, settled, clock))
    && (forall i, j :: 0 <= i < j < |s| ==> Ordered(c, s[i], s[j]))
    && Capped(c, s)
  }

  // ---------------------------------------------------------------- attempts and log

  predicate Recalls(s: seq<Attempt>, a: Attempt) {
    exists b :: b in s && SameAction(a, b)
  }

  predicate Protects(s: seq<Attempt>, a: Attempt) {
    exists b :: b in s && SameAction(a, b) && b.Unresolved()
  }

  predicate Listed(s: seq<Attempt>, k: Key) {
    exists b :: b in s && !b.dryRun && KeyOf(b) == k
  }

  /** Nothing recent is forgotten, and nothing sent is forgotten before it is settled. */
  predicate Remembers(s: seq<Attempt>, settled: set<Key>, log: seq<Tx>, clock: Time) {
    && (forall k :: k in settled ==> k.started <= clock && (k.started > clock - HOUR ==> Listed(s, k)))
    && (forall t :: t in log && t.attempt.started > clock - HOUR ==> Recalls(s, t.attempt))
    && (forall t :: t in log ==> KeyOf(t.attempt) in settled || Protects(s, t.attempt))
  }

  /** Whatever touched the same download or episode was settled before the later transmission. */
  predicate NoReplay(log: seq<Tx>, settled: set<Key>) {
    forall i, j :: 0 <= i < j < |log| && Related(log[i].attempt, log[j].attempt) ==> KeyOf(log[i].attempt) in settled
  }

  // ---------------------------------------------------------------- observations and continuations

  predicate IsParent(a: Attempt, id: string, removal: int) {
    a.id == removal && a.downloadID == id && !a.dryRun && a.kind.RemoveUnusable? && a.outcome.Verified?
  }

  predicate HasParent(s: seq<Attempt>, id: string, removal: int) {
    exists a :: a in s && IsParent(a, id, removal)
  }

  /** Unresolved attempts and unfinished continuations keep their observation; continuations keep their removal. */
  predicate Anchored(d: Data) {
    && (forall a :: a in d.attempts && a.Unresolved() ==> a.downloadID in d.issues)
    && (forall id :: id in d.operations ==> d.operations[id].downloadID == id)
    && (forall id :: id in d.operations && !d.operations[id].state.Finished? ==>
          id in d.issues && HasParent(d.attempts, id, d.operations[id].removalID))
  }

  predicate Searching(s: seq<Attempt>, id: string) {
    exists b :: b in s && b.kind.Search? && b.downloadID == id && !b.ack && b.Unresolved()
  }

  /** A continuation that could still be searched was not, or its unanswered search protects it. */
  predicate Once(d: Data, settled: set<Key>, log: seq<Tx>) {
    && (forall t :: t in log && t.attempt.kind.Search? ==> t.parent.Some? && t.parent.value in settled)
    && (forall id, t, a ::
          (id in d.operations && d.operations[id].state.PendingSearch? && t in log && t.attempt.kind.Search?
           && a in d.attempts && a.id == d.operations[id].removalID && t.parent == Some(KeyOf(a))) ==> Searching(d.attempts, id))
  }

  ghost predicate ImageOK(c: Config, m: Image, log: seq<Tx>, clock: Time) {
    && Sound(c, m.data.attempts, m.settled, clock) && Remembers(m.data.attempts, m.settled, log, clock)
    && NoReplay(log, m.settled) && Linked(m.data) && Anchored(m.data) && Once(m.data, m.settled, log)
  }

  // ---------------------------------------------------------------- the log

  /** Transmissions recorded after the instant, among the first n. */
  ghost function SentSince(log: seq<Tx>, n: nat, t: Time): set<int>
    requires n <= |log|
  {
    set i | 0 <= i < n && log[i].attempt.started > t
  }

  /** The longest time between the start of a request's cycle and the request's own expiry. */
  const LIFETIME: Duration := MAX_TIMEOUT + SECOND

  predicate Entry(c: Config, t: Tx, clock: Time) {
    && !t.attempt.dryRun && 0 < t.attempt.started <= clock && t.attempt.kind == t.attempt.decision.kind != Defer
    && (t.request.None? ==> !c.dryRun && t.attempt.requestID == "")
    && (t.request.Some? ==> t.request.value.execute && t.attempt.requestID == t.request.value.id != ""
                            && t.request.value.expires <= t.attempt.started + LIFETIME)
    && (t.attempt.kind.Search? ==> c.cleanupEnabled && c.replacementSearch && t.parent.Some?)
  }

  /** A new entry follows the log: in time, under a fresh key, within the budget, and never a second search. */
  ghost predicate Follows(c: Config, log: seq<Tx>, n: nat, t: Tx)
    requires n <= |log|
  {
    && |SentSince(log, n, t.attempt.started - HOUR)| < c.perHour
    && forall i :: 0 <= i < n ==>
         && log[i].attempt.started <= t.attempt.started
         && (log[i].attempt.id == t.attempt.id ==> t.attempt.started - log[i].attempt.started >= HOUR)
         && (log[i].attempt.kind.Search? && t.attempt.kind.Search? ==> log[i].parent != t.parent)
  }

  ghost predicate LogOK(c: Config, log: seq<Tx>, clock: Time) {
    && (forall t :: t in log ==> Entry(c, t, clock))
    && (forall n :: 0 <= n < |log| ==> Follows(c, log, n, log[n]))
  }

  // ---------------------------------------------------------------- the whole system

  /** The action about to be sent, or just sent, is the last attempt of both copies. */
  predicate InHand(s: Sys, tx: Tx) {
    && s.mem == s.disk && s.mem.data.attempts != []
    && s.mem.data.attempts[|s.mem.data.attempts| - 1] == tx.attempt && tx.attempt.outcome.Intent? && !tx.attempt.dryRun && !tx.attempt.ack
    && (tx.attempt.kind.Search? ==>
          tx.attempt.downloadID in s.mem.data.operations && s.mem.data.operations[tx.attempt.downloadID].state.PendingSearch?)
  }

  ghost predicate PhaseOK(c: Config, s: Sys) {
    match s.phase
    case Idle => true
    case Armed(tx) =>
      && InHand(s, tx) && Entry(c, tx, s.clock) && Follows(c, s.log, |s.log|, tx)
      && (forall t :: t in s.log && Related(t.attempt, tx.attempt) ==> KeyOf(t.attempt) in s.mem.settled)
      && (tx.attempt.kind.Search? ==>
            && tx.parent.value in s.mem.settled && !tx.attempt.ack
            && forall a :: a in s.mem.data.attempts && KeyOf(a) == tx.parent.value ==> a.downloadID == tx.attempt.downloadID)
    case Sent(tx) => InHand(s, tx)
  }

  /** The manual request being executed owns an open receipt. */
  predicate RequestOK(s: Sys) {
    s.request.Some? && s.request.value.execute ==>
      var r := s.request.value;
      && r.id in s.mem.data.triggers && s.mem.data.triggers[r.id].status.Accepted? && WellFormed(r)
      && r.expires <= s.clock + LIFETIME
  }

  /** Every entry is sent at or after the instant it was recorded with. */
  predicate TimesOK(s: Sys) {
    |s.sentAt| == |s.log| && forall i :: 0 <= i < |s.log| ==> s.log[i].attempt.started <= s.sentAt[i] <= s.clock
  }

  ghost predicate Inv(c: Config, s: Sys) {
    && ConfigOK(c) && s.clock > MAX_DURATION && 0 <= s.previous <= s.clock
    && ImageOK(c, s.mem, s.log, s.clock) && ImageOK(c, s.disk, s.log, s.clock) && LogOK(c, s.log, s.clock)
    && PhaseOK(c, s) && RequestOK(s) && TimesOK(s)
  }
}
