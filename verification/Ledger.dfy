/** The loops that read the durable data: budget, gate, identifiers, and the checks of a stored file. */
module Ledger {
  import opened Types
  import opened State
  import opened Growth
  import Retention
  import Sets

  /** Time only opens the gate: what it admits at one instant it admits later, if nothing is recorded between. */
  lemma GateStaysOpen(c: Config, data: Data, id: string, d: Decision, at: Time, now: Time, parent: int, override: bool)
    requires at <= now && State.Gate(c, data, id, d, at, parent, override) == Open
    ensures State.Gate(c, data, id, d, now, parent, override) == Open
  {
    Sets.Subset(LiveSince(data.attempts, now - HOUR), LiveSince(data.attempts, at - HOUR));
    NoConflict(c, data.attempts, id, d, at, parent, override);
    NoConflict(c, data.attempts, id, d, now, parent, override);
  }

  method Budget(data: Data, now: Time) returns (n: nat)
    ensures n == State.Budget(data, now)
  {
    n := 0;
    for j := 0 to |data.attempts|
      invariant n == |LiveSince(data.attempts[..j], now - HOUR)|
    {
      var a := data.attempts[j];
      assert LiveSince(data.attempts[..j + 1], now - HOUR)
          == LiveSince(data.attempts[..j], now - HOUR) + (if !a.dryRun && a.started > now - HOUR then {j} else {});
      if !a.dryRun && a.started > now - HOUR {
        n := n + 1;
      }
    }
    assert data.attempts[..|data.attempts|] == data.attempts;
  }

  /** The latest end of an earlier try; 0 if there is none. */
  ghost predicate IsLatestEnd(s: seq<Attempt>, id: string, d: Decision, last: Time) {
    && last >= 0
    && (forall j :: 0 <= j < |s| && IsTry(s[j], id, d) ==> s[j].End() <= last)
    && (last == 0 || exists j :: 0 <= j < |s| && IsTry(s[j], id, d) && s[j].End() == last)
  }

  method Overlaps(xs: seq<int>, ys: seq<int>) returns (overlap: bool)
    ensures overlap == Shares(xs, ys)
  {
    overlap := false;
    for i := 0 to |xs|
      invariant overlap ==> Shares(xs, ys)
      invariant !overlap ==> forall k :: 0 <= k < i ==> xs[k] !in ys
    {
      var e := xs[i];
      if e in ys {
        assert e in xs;
        overlap := true;
      }
    }
    assert !overlap ==> forall e :: e in xs ==> e !in ys;
  }

  /** The first objection is decided by the prefix in which it occurs. */
  lemma PrefixConflict(c: Config, s: seq<Attempt>, j: nat, id: string, d: Decision, now: Time, parent: int,
                       override: bool)
    requires j < |s| && FirstConflict(c, s[..j], id, d, now, parent, override) == Open
    ensures FirstConflict(c, s[..j + 1], id, d, now, parent, override) == Conflict(c, s[j], id, d, now, parent, override)
    ensures Conflict(c, s[j], id, d, now, parent, override) != Open ==>
              FirstConflict(c, s, id, d, now, parent, override) == Conflict(c, s[j], id, d, now, parent, override)
  {
    Retention.ConflictAppend(c, s[..j], s[j], id, d, now, parent, override);
    assert s[..j] + [s[j]] == s[..j + 1];
    if Conflict(c, s[j], id, d, now, parent, override) != Open {
      PrefixDecides(c, s[..j + 1], s[j + 1..], id, d, now, parent, override);
      assert s[..j + 1] + s[j + 1..] == s;
    }
  }

  lemma {:induction false} PrefixDecides(c: Config, s: seq<Attempt>, t: seq<Attempt>, id: string, d: Decision,
                                         now: Time, parent: int, override: bool)
    requires FirstConflict(c, s, id, d, now, parent, override) != Open
    ensures FirstConflict(c, s + t, id, d, now, parent, override) == FirstConflict(c, s, id, d, now, parent, override)
  {
    assert (s + t)[1..] == s[1..] + t;
    if Conflict(c, s[0], id, d, now, parent, override) == Open {
      PrefixDecides(c, s[1..], t, id, d, now, parent, override);
    }
  }

  lemma TryStep(s: seq<Attempt>, j: nat, id: string, d: Decision, last: Time)
    requires j < |s| && IsLatestEnd(s[..j], id, d, last)
    ensures |Tries(s[..j + 1], id, d)| == |Tries(s[..j], id, d)| + if IsTry(s[j], id, d) then 1 else 0
    ensures IsLatestEnd(s[..j + 1], id, d, if IsTry(s[j], id, d) && s[j].End() > last then s[j].End() else last)
  {
    TriesAppend(s[..j], s[j], id, d);
    assert s[..j + 1] == s[..j] + [s[j]];
    var t, u := s[..j], s[..j + 1];
    if !(IsTry(s[j], id, d) && s[j].End() > last) && last != 0 {
      var k :| 0 <= k < |t| && IsTry(t[k], id, d) && t[k].End() == last;
      assert u[k] == t[k];
    }
    assert u[j] == s[j];
  }

  method GateLoop(c: Config, s: seq<Attempt>, id: string, d: Decision, now: Time, parent: int, override: bool)
    returns (why: Why, count: nat, last: Time)
    ensures why == FirstConflict(c, s, id, d, now, parent, override)
    ensures why == Open && d.kind.Import? ==> count == |Tries(s, id, d)| && IsLatestEnd(s, id, d, last)
  {
    hide FirstConflict, IsLatestEnd, Tries;
    StartOfLoop(c, s, id, d, now, parent, override);
    why, count, last := Open, 0, 0;
    for j := 0 to |s|
      invariant FirstConflict(c, s[..j], id, d, now, parent, override) == Open && why == Open
      invariant d.kind.Import? ==> count == |Tries(s[..j], id, d)| && IsLatestEnd(s[..j], id, d, last)
    {
      var a := s[j];
      PrefixConflict(c, s, j, id, d, now, parent, override);
      if d.kind.Import? {
        TryStep(s, j, id, d, last);
      }
      if a.dryRun { continue; }
      var same := a.downloadID == id;
      var overlap := Overlaps(d.episodeIDs, a.decision.episodeIDs);
      if (same || overlap) && a.Unresolved() {
        why := Protected;
        return;
      }
      if a.id != parent && (same || overlap) && a.Completed() && now - a.finished < c.episodeCooldown && !override {
        why := Cooldown;
        return;
      }
      if same && d.kind.Import? && a.kind.Import? && a.decision.fingerprint == d.fingerprint {
        count := count + 1;
        var finished := if a.finished == 0 then a.started else a.finished;
        if finished > last {
          last := finished;
        }
      }
    }
    assert s[..|s|] == s;
  }

  lemma StartOfLoop(c: Config, s: seq<Attempt>, id: string, d: Decision, now: Time, parent: int, override: bool)
    ensures FirstConflict(c, s[..0], id, d, now, parent, override) == Open
    ensures |Tries(s[..0], id, d)| == 0 && IsLatestEnd(s[..0], id, d, 0)
  {
    assert Tries(s[..0], id, d) == {};
  }

  /** The gate: budget first, then objections in recording order, then the caps on imports. */
  method Gate(c: Config, data: Data, id: string, d: Decision, now: Time, parent: int, override: bool) returns (why: Why)
    ensures why == State.Gate(c, data, id, d, now, parent, override)
  {
    var used := Budget(data, now);
    if used >= c.perHour { return RollingHour; }
    var count: nat, last: Time;
    why, count, last := GateLoop(c, data.attempts, id, d, now, parent, override);
    if why != Open { return; }
    if d.kind.Import? {
      if count >= c.maxAttempts { return Exhausted; }
      if last != 0 && now - last < c.retryInterval { return RetrySpacing; }
    }
  }

  method NextID(data: Data) returns (id: int)
    ensures id == MaxID(data.attempts) + 1
  {
    var n := 0;
    for j := 0 to |data.attempts|
      invariant n == MaxID(data.attempts[..j])
    {
      assert data.attempts[..j + 1][..j] == data.attempts[..j];
      if data.attempts[j].id > n {
        n := data.attempts[j].id;
      }
    }
    assert data.attempts[..|data.attempts|] == data.attempts;
    id := n + 1;
  }

  method HasPending(data: Data, id: string) returns (b: bool)
    ensures b == HasUnresolved(data, id)
  {
    for j := 0 to |data.attempts|
      invariant forall k :: 0 <= k < j ==> !(data.attempts[k].downloadID == id && data.attempts[k].Unresolved())
    {
      if data.attempts[j].downloadID == id && data.attempts[j].Unresolved() { return true; }
    }
    b := false;
  }

  /** The store check: accepted exactly when receipts and manual attempts name each other. */
  method ValidateReceipts(data: Data) returns (ok: bool)
    ensures ok == Linked(data)
  {
    var todo := data.triggers.Keys;
    while todo != {}
      invariant todo <= data.triggers.Keys
      invariant forall id :: id in data.triggers.Keys - todo ==>
        ReceiptOK(id, data.triggers[id]) && Distinct(data.triggers[id].attemptIDs)
        && forall aid :: aid in data.triggers[id].attemptIDs ==> Evidence(data.attempts, id, aid)
      decreases |todo|
    {
      var id :| id in todo;
      var good := CheckReceipt(data, id);
      if !good { return false; }
      todo := todo - {id};
    }
    for j := 0 to |data.attempts|
      invariant forall k :: 0 <= k < j && data.attempts[k].requestID != "" ==>
        var a := data.attempts[k]; a.requestID in data.triggers && a.manual && a.id in data.triggers[a.requestID].attemptIDs
    {
      var a := data.attempts[j];
      if a.requestID != "" && (a.requestID !in data.triggers || !a.manual || a.id !in data.triggers[a.requestID].attemptIDs) {
        return false;
      }
    }
    ok := true;
  }

  method HasEvidence(s: seq<Attempt>, id: string, aid: int) returns (found: bool)
    ensures found == Evidence(s, id, aid)
  {
    for j := 0 to |s|
      invariant forall k :: 0 <= k < j ==> !(s[k].id == aid && s[k].requestID == id && s[k].manual)
    {
      if s[j].id == aid && s[j].requestID == id && s[j].manual { return true; }
    }
    found := false;
  }

  method CheckReceipt(data: Data, id: string) returns (ok: bool)
    requires id in data.triggers
    ensures ok == (ReceiptOK(id, data.triggers[id]) && Distinct(data.triggers[id].attemptIDs)
                   && forall aid :: aid in data.triggers[id].attemptIDs ==> Evidence(data.attempts, id, aid))
  {
    var r := data.triggers[id];
    if !ReceiptOK(id, r) { return false; }
    var seen: set<int> := {};
    for i := 0 to |r.attemptIDs|
      invariant seen == set k | 0 <= k < i :: r.attemptIDs[k]
      invariant Distinct(r.attemptIDs[..i])
      invariant forall k :: 0 <= k < i ==> Evidence(data.attempts, id, r.attemptIDs[k])
    {
      var aid := r.attemptIDs[i];
      if aid in seen { return false; }
      seen := seen + {aid};
      var found := HasEvidence(data.attempts, id, aid);
      if !found {
        assert aid in r.attemptIDs;
        return false;
      }
    }
    assert r.attemptIDs[..|r.attemptIDs|] == r.attemptIDs;
    ok := true;
  }
}
