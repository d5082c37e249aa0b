/** Safety of whole runs: the invariant holds of every reachable state, and what it means. */
module Runs {
  import opened Types
  import opened State
  import opened Outcomes
  import opened System
  import opened Waiting
  import opened Invariant
  import opened Evolution
  import opened Growth
  import opened Steps
  import opened Reserving

  // ---------------------------------------------------------------- each step

  lemma TickKeeps(c: Config, s: Sys, to: Time)
    requires Inv(c, s) && s.clock <= to
    ensures Inv(c, s.(clock := to))
  {
    LaterImage(c, s.mem, s.log, s.clock, to);
    LaterImage(c, s.disk, s.log, s.clock, to);
    LaterLog(c, s.log, s.clock, to);
  }

  /** Only the continuation of its own download shares the parent of a search in hand. */
  lemma OwnParent(c: Config, s: Sys, id: string, a: Attempt)
    requires Inv(c, s) && s.phase.Armed? && s.phase.tx.attempt.kind.Search?
    requires id in s.mem.data.operations && s.mem.data.operations[id].state.PendingSearch?
    requires a in s.mem.data.attempts && a.id == s.mem.data.operations[id].removalID && s.phase.tx.parent == Some(KeyOf(a))
    ensures id == s.phase.tx.attempt.downloadID
  {
    var p :| p in s.mem.data.attempts && IsParent(p, id, s.mem.data.operations[id].removalID);
    SameID(c, s.mem.data.attempts, s.mem.settled, s.clock, a, p);
  }

  /** What the phase promises of the entry in hand. */
  lemma InHandFacts(c: Config, s: Sys)
    requires Inv(c, s) && s.phase.Armed?
    ensures var tx := s.phase.tx;
            && ImageOK(c, s.mem, s.log, s.clock) && LogOK(c, s.log, s.clock)
            && tx.attempt in s.mem.data.attempts && tx.attempt.Unresolved() && s.mem == s.disk
            && Entry(c, tx, s.clock) && Follows(c, s.log, |s.log|, tx)
            && (forall t :: t in s.log && Related(t.attempt, tx.attempt) ==> KeyOf(t.attempt) in s.mem.settled)
            && (tx.attempt.kind.Search? ==> tx.parent.Some? && tx.parent.value in s.mem.settled && !tx.attempt.ack)
  {
  }

  lemma TransmitKeeps(c: Config, s: Sys)
    requires Inv(c, s) && s.phase.Armed?
    ensures ImageOK(c, s.mem, s.log + [s.phase.tx], s.clock) && LogOK(c, s.log + [s.phase.tx], s.clock)
  {
    hide Inv, ImageOK, LogOK, Entry, Follows;
    InHandFacts(c, s);
    var tx := s.phase.tx;
    var d := s.mem.data;
    forall id, a | id in d.operations && d.operations[id].state.PendingSearch? && a in d.attempts && tx.attempt.kind.Search?
                   && a.id == d.operations[id].removalID && tx.parent == Some(KeyOf(a))
      ensures id == tx.attempt.downloadID
    {
      OwnParent(c, s, id, a);
    }
    SendImage(c, s.mem, s.log, tx, s.clock);
    SendLog(c, s.log, tx, s.clock);
  }

  lemma RespondKeeps(c: Config, s: Sys, reply: Read<int>)
    requires Inv(c, s) && s.phase.Sent?
    ensures Inv(c, Apply(c, s, Respond(reply)))
  {
    hide ImageOK, LogOK;
    ImageOf(c, s);
    AnswerImage(c, s.mem, s.log, s.clock, reply);
  }

  lemma ImageOf(c: Config, s: Sys)
    requires Inv(c, s)
    ensures ImageOK(c, s.mem, s.log, s.clock) && ImageOK(c, s.disk, s.log, s.clock) && LogOK(c, s.log, s.clock)
  {
  }

  /** The verdict of an enabled verification is a legal move. */
  lemma VerdictOf(c: Config, s: Sys, j: nat, absent: bool, evidence: Reads, now: Time)
    requires Inv(c, s) && Enabled(c, s, Action.Verify(j, absent, evidence, now))
    ensures Moves(s.mem.data.attempts[j], Verdict(s.mem.data.attempts[j], absent, evidence, now), now)
  {
    hide Moves, Verdict, Ordered, Capped;
    assert s.mem.data.attempts[j] in s.mem.data.attempts;
    assert Member(s.mem.data.attempts[j], s.mem.settled, s.clock);
    VerdictMoves(s.mem.data.attempts[j], absent, evidence, now);
  }

  lemma VerifyKeeps(c: Config, s: Sys, j: nat, absent: bool, evidence: Reads, now: Time)
    requires Inv(c, s) && Enabled(c, s, Action.Verify(j, absent, evidence, now))
    ensures Inv(c, Apply(c, s, Action.Verify(j, absent, evidence, now)))
  {
    hide ImageOK, Moves, Verdict;
    ImageOf(c, s);
    VerdictOf(c, s, j, absent, evidence, now);
    SettleImage(c, s.mem, j, Verdict(s.mem.data.attempts[j], absent, evidence, now), now, s.log, s.clock);
  }

  lemma RetentionKeeps(c: Config, s: Sys, now: Time)
    requires Inv(c, s) && Enabled(c, s, Action.Retention(now))
    ensures Inv(c, Apply(c, s, Action.Retention(now)))
  {
    hide ImageOK, LogOK;
    ImageOf(c, s);
    PruneImage(c, s.mem, s.log, s.clock, now);
  }

  lemma AcceptKeeps(c: Config, s: Sys, req: Request, accepted: Time, save: Save)
    requires Inv(c, s) && Enabled(c, s, Accept(req, accepted, save))
    ensures Inv(c, Apply(c, s, Accept(req, accepted, save)))
  {
    hide Sound, Remembers, NoReplay, LogOK, Evidence, Searching, HasParent;
    TickKeeps(c, s, accepted);
    var d := s.mem.data;
    var e := d.(triggers := d.triggers[req.id := Receipt(req, accepted, 0, Accepted, VERSION, req.id, [])]);
    assert ImageOK(c, s.mem.(data := e), s.log, accepted);
  }

  lemma FinishKeeps(c: Config, s: Sys, now: Time)
    requires Inv(c, s) && Enabled(c, s, Finish(now))
    ensures Inv(c, Apply(c, s, Finish(now)))
  {
    hide ImageOK, LogOK;
    ImageOf(c, s);
    FinishFrame(c, s, now);
    FrameImage(c, s.mem, Apply(c, s, Finish(now)).mem.data, s.log, s.clock);
  }

  lemma FinishFrame(c: Config, s: Sys, now: Time)
    requires Inv(c, s) && Enabled(c, s, Finish(now))
    ensures var d, e := s.mem.data, Apply(c, s, Finish(now)).mem.data;
            && e.attempts == d.attempts && e.issues == d.issues && OpensNothing(d, e) && e.triggers.Keys == d.triggers.Keys
            && forall id :: id in e.triggers ==> ReceiptOK(id, e.triggers[id]) && e.triggers[id].attemptIDs == d.triggers[id].attemptIDs
  {
    hide Sound, Remembers, NoReplay, Once, LogOK, PhaseOK, TimesOK, Evidence, WellFormed;
  }

  lemma ReopenKeeps(c: Config, s: Sys, now: Time)
    requires Inv(c, s) && s.clock <= now
    ensures Inv(c, Apply(c, s, Reopen(now)))
  {
    hide ImageOK, LogOK, Repair;
    TickKeeps(c, s, now);
    ImageOf(c, s.(clock := now));
    RepairImage(c, s.disk, now, s.log, now);
  }

  lemma RecommendKeeps(c: Config, s: Sys, id: string, d: Decision)
    requires Inv(c, s) && Enabled(c, s, Recommend(id, d))
    ensures Inv(c, Apply(c, s, Recommend(id, d)))
  {
    hide LogOK, Capped, Listed, Recalls, Protects, MaxID;
    var data, a := s.mem.data, Recommendation(s, id, d);
    var e := data.(attempts := data.attempts + [a]);
    AppendSound(c, data.attempts, a, s.mem.settled, s.clock);
    AppendRemembers(data.attempts, a, s.mem.settled, s.log, s.clock);
    AppendAnchored(data, e, a);
    AppendOnce(data, e, a, s.mem.settled, s.log);
    AppendLinked(data, a);
    assert "" !in data.triggers;
    RecommendLinked(data, a);
  }

  lemma RecommendLinked(d: Data, a: Attempt)
    requires Linked(d) && a.requestID == ""
    ensures Linked(d.(attempts := d.attempts + [a]))
  {
    var e := d.(attempts := d.attempts + [a]);
    forall id, aid | id in d.triggers && aid in d.triggers[id].attemptIDs
      ensures Evidence(e.attempts, id, aid)
    {
      var b :| b in d.attempts && b.id == aid && b.requestID == id && b.manual;
      assert b in e.attempts;
    }
  }

  /** Steps that only touch observations, faults or finished continuations. */
  lemma MinorKeeps(c: Config, s: Sys, a: Action)
    requires Inv(c, s) && Enabled(c, s, a) && (a.Scan? || a.Note? || a.Fault? || a.Close?)
    ensures Inv(c, Apply(c, s, a))
  {
    hide ImageOK, LogOK, Scanned, Observes;
    ImageOf(c, s);
    if a.Scan? {
      ScanImage(c, s.mem, s.previous, a.now, a.sights, s.log, s.clock);
    } else {
      MinorFrame(c, s, a);
      FrameImage(c, s.mem, Apply(c, s, a).mem.data, s.log, s.clock);
    }
  }

  lemma MinorFrame(c: Config, s: Sys, a: Action)
    requires Inv(c, s) && Enabled(c, s, a) && (a.Note? || a.Fault? || a.Close?)
    ensures var d, e := s.mem.data, Apply(c, s, a).mem.data;
            && e.attempts == d.attempts && e.issues.Keys == d.issues.Keys && OpensNothing(d, e) && e.triggers == d.triggers
            && forall id :: id in e.triggers ==> ReceiptOK(id, e.triggers[id])
  {
    hide Sound, Remembers, NoReplay, Once, LogOK, PhaseOK, TimesOK, Evidence, WellFormed;
  }

  lemma MissKeeps(c: Config, s: Sys, now: Time)
    requires Inv(c, s) && Enabled(c, s, Miss(now))
    ensures Inv(c, Apply(c, s, Miss(now)))
  {
    hide ImageOK, LogOK;
    ImageOf(c, s);
    ExpireImage(c, s.mem, now, s.log, s.clock);
  }

  lemma SendKeeps(c: Config, s: Sys, a: Action)
    requires Inv(c, s) && Enabled(c, s, a) && (a.Transmit? || a.Persist? || a.Tick?)
    ensures Inv(c, Apply(c, s, a))
  {
    hide ImageOK, LogOK;
    ImageOf(c, s);
    match a
    case Tick(to) => TickKeeps(c, s, to);
    case Transmit => TransmitKeeps(c, s);
    case Persist(save) =>
  }

  lemma StepKeeps(c: Config, s: Sys, a: Action)
    requires Inv(c, s) && Enabled(c, s, a)
    ensures Inv(c, Apply(c, s, a))
  {
    hide Inv, Apply, Gate, Observes, Offered, Agrees, AfterAll, WellFormed;
    match a
    case Miss(now) => MissKeeps(c, s, now);
    case Verify(j, absent, evidence, now) => VerifyKeeps(c, s, j, absent, evidence, now);
    case Recommend(id, d) => RecommendKeeps(c, s, id, d);
    case Reserve(id, d, planned, before, save) => ReserveKeeps(c, s, id, d, planned, before, save);
    case Respond(reply) => RespondKeeps(c, s, reply);
    case Retention(now) => RetentionKeeps(c, s, now);
    case Accept(req, accepted, save) => AcceptKeeps(c, s, req, accepted, save);
    case Finish(now) => FinishKeeps(c, s, now);
    case Reopen(now) => ReopenKeeps(c, s, now);
    case Scan(_, _) => MinorKeeps(c, s, a);
    case Note(_, _, _) => MinorKeeps(c, s, a);
    case Fault(_) => MinorKeeps(c, s, a);
    case Close(_) => MinorKeeps(c, s, a);
    case _ => SendKeeps(c, s, a);
  }
}
