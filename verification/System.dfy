/** The service as a transition system: volatile data, its durable snapshot, and everything ever sent
    with the instant of sending.
    Remote answers, clocks, save failures and crashes are arbitrary parameters of the steps. */
module System {
  import opened Types
  import opened State
  import opened Outcomes
  import opened Waiting
  import Policy
  import Queue

  /** Identifiers can be reused after pruning; an identifier with its start instant cannot. */
  datatype Key = Key(id: int, started: Time)

  function KeyOf(a: Attempt): Key { Key(a.id, a.started) }

  /** A copy of the data, with the keys of the live attempts whose outcome it has settled. */
  datatype Image = Image(data: Data, settled: set<Key>)

  datatype Event = Complete(now: Time, sights: map<string, Sight>) | Gap | Restart

  /** One transmission: the attempt as recorded beforehand, the removal a search continues, the manual
      request that caused it, and the scans that the data it was recorded on had gone through. */
  datatype Tx = Tx(attempt: Attempt, parent: Option<Key>, request: Option<Request>, seen: seq<Event>)

  /** A result of saving: done, not done, or reported as failed although it reached the disk. */
  datatype Save = Saved | NotSaved | Ambiguous

  datatype Phase = Idle | Armed(tx: Tx) | Sent(tx: Tx)

  /** `intents` is everything ever recorded to be sent, and `log` what of it was. `scans` is everything that ever
      happened to the queue; `seen` and `saved` are the part of it that the data in memory and on disk have gone
      through, since a restart returns to what was saved. */
  datatype Sys = Sys(
    mem: Image, disk: Image, intents: seq<Tx>, log: seq<Tx>, clock: Time, previous: Time,
    phase: Phase, request: Option<Request>, scans: seq<Event>, seen: seq<Event>, saved: seq<Event>, sentAt: seq<Time>)
  {
    function Override(): bool { request.Some? && request.value.overrideWait }
  }

  datatype Action =
    | Tick(to: Time)
    | Scan(now: Time, sights: map<string, Sight>)
    | Miss(now: Time)
    | Verify(j: nat, absent: bool, evidence: Reads, now: Time)
    | Note(id: string, state: IssueState, basis: Option<Decision>)
    | Fault(failed: bool)
    | Close(id: string)
    | Recommend(id: string, decision: Decision)
    | Reserve(id: string, decision: Decision, planned: Decision, before: map<int, int>, save: Save)
    | Transmit
    | Respond(reply: Read<int>)
    | Persist(save: Save)
    | Retention(now: Time)
    | Accept(req: Request, accepted: Time, save: Save)
    | Finish(now: Time)
    | Reopen(now: Time)

  // ---------------------------------------------------------------- effects on data

  function SavedAfter(save: Save, saved: seq<Event>, seen: seq<Event>): seq<Event> {
    if save.NotSaved? then saved else seen
  }

  function AfterSave(save: Save, disk: Image, mem: Image): Image {
    if save.NotSaved? then disk else mem
  }

  function SetIssue(d: Data, id: string, state: IssueState): Data {
    if id in d.issues then d.(issues := d.issues[id := d.issues[id].(state := state)]) else d
  }

  function CloseOperation(d: Data, id: string): Data {
    if id in d.operations then d.(operations := d.operations[id := d.operations[id].(state := Finished)]) else d
  }

  /** The verdict on one attempt, with what it means for its continuation and its observation. */
  function Settle(c: Config, d: Data, j: nat, b: Attempt, now: Time): Data
    requires j < |d.attempts|
  {
    var d1 := d.(attempts := d.attempts[j := b]);
    if b.Completed() then
      var d2 := if b.kind.Search? then CloseOperation(d1, b.downloadID)
                else if b.kind.RemoveUnusable? && c.replacementSearch then
                  d1.(operations := d1.operations[b.downloadID := Operation(b.id, b.downloadID, b.decision.episodeIDs, PendingSearch)])
                else d1;
      if b.downloadID in d2.issues then
        d2.(issues := d2.issues[b.downloadID := d2.issues[b.downloadID].(state := Resolved, resolvedAt := now)])
      else d2
    else if b.outcome.KnownFailed? && b.kind.Search? then CloseOperation(d1, b.downloadID)
    else d1
  }

  predicate Overdue(a: Attempt, now: Time) {
    a.Unresolved() && !a.outcome.Partial? && now - a.started >= DEADLINE
  }

  function ExpireOne(a: Attempt, now: Time): Attempt {
    if Overdue(a, now) then a.(outcome := Uncertain) else a
  }

  /** Without evidence an overdue attempt becomes uncertain; it is never forgotten. */
  function Expire(d: Data, now: Time): Data {
    d.(attempts := seq(|d.attempts|, i requires 0 <= i < |d.attempts| => ExpireOne(d.attempts[i], now)),
       issues := map id | id in d.issues ::
         if exists a :: a in d.attempts && a.downloadID == id && Overdue(a, now) then d.issues[id].(state := Unsure) else d.issues[id])
  }

  function NewAttempt(s: Sys, id: string, d: Decision, before: map<int, int>): Attempt
    requires id in s.mem.data.issues
  {
    Attempt(s.request.Some?, if s.request.Some? then s.request.value.id else "", s.Override(),
            MaxID(s.mem.data.attempts) + 1, id, d.kind, false, s.clock, 0, Intent, 0, false, d, before, {}, false, false,
            s.mem.data.issues[id].title)
  }

  function Recommendation(s: Sys, id: string, d: Decision): Attempt {
    Attempt(false, "", false, MaxID(s.mem.data.attempts) + 1, id, d.kind, true, s.clock, s.clock, Recommended, 0, false, d, map[], {},
            false, false, "")
  }

  /** The intent on record, linked both ways with the receipt of its request. */
  function Recorded(d: Data, a: Attempt): Data {
    var d1 := if a.requestID in d.triggers then
                d.(triggers := d.triggers[a.requestID := d.triggers[a.requestID].(
                     attemptIDs := d.triggers[a.requestID].attemptIDs + [a.id], reportVersion := VERSION, reportRequestID := a.requestID)])
              else d;
    SetIssue(d1.(attempts := d1.attempts + [a]), a.downloadID, InProgress)
  }

  function Answer(a: Attempt, reply: Read<int>): Attempt {
    match reply
    case Unavailable => a.(outcome := Uncertain)
    case Got(command) => a.(outcome := Pending, ack := true, commandID := if IsRemoval(a.kind) then 0 else command)
  }

  /** The answer recorded on the attempt just sent; a search also marks its continuation as attempted. */
  function Answered(d: Data, reply: Read<int>): Data
    requires d.attempts != []
  {
    var n := |d.attempts| - 1;
    var a := d.attempts[n];
    var d1 := d.(attempts := d.attempts[n := Answer(a, reply)]);
    if a.kind.Search? && a.downloadID in d1.operations then
      d1.(operations := d1.operations[a.downloadID := d1.operations[a.downloadID].(state := SearchAttempted)])
    else d1
  }

  // ---------------------------------------------------------------- steps

  /** A continuation waiting for its search. */
  predicate Continuable(c: Config, d: Data, id: string) {
    && c.cleanupEnabled && c.replacementSearch
    && id in d.operations && d.operations[id].state.PendingSearch?
  }

  function ParentID(d: Data, id: string, kind: Kind): int {
    if kind.Search? && id in d.operations then d.operations[id].removalID else 0
  }

  /** The removal that a search of this download continues. */
  function ParentKey(d: Data, id: string, kind: Kind): Option<Key> {
    if kind.Search? && id in d.operations then FindKey(d.attempts, d.operations[id].removalID) else None
  }

  function FindKey(s: seq<Attempt>, id: int): Option<Key> {
    if s == [] then None else if s[0].id == id then Some(KeyOf(s[0])) else FindKey(s[1..], id)
  }

  /** The scan just published saw the download, and this is what policy decided there. */
  predicate Offered(s: Sys, id: string, planned: Decision) {
    && s.previous != 0 && s.seen != [] && Viewed(s.seen[|s.seen| - 1], id)
    && s.seen[|s.seen| - 1].sights[id].view.value.decision == planned
  }

  /** The scan read candidate observations for the download. */
  predicate Viewed(e: Event, id: string) {
    e.Complete? && id in e.sights && e.sights[id].view.Some?
  }

  /** The same kind of action for the same candidate and the same causes. */
  predicate Agrees(d: Decision, planned: Decision) {
    && planned.kind == d.kind && planned.fingerprint == d.fingerprint
    && planned.episodeMismatch == d.episodeMismatch && planned.executableWarning == d.executableWarning
  }

  ghost predicate MayReserve(c: Config, s: Sys, id: string, d: Decision, planned: Decision) {
    && s.phase.Idle? && id in s.mem.data.issues && d.kind != Defer
    && (if s.request.Some? then s.request.value.execute && s.request.value.id in s.mem.data.triggers else !c.dryRun)
    && Gate(c, s.mem.data, id, d, s.clock, ParentID(s.mem.data, id, d.kind), s.Override()) == Open
    && (if d.kind.Search? then Continuable(c, s.mem.data, id)
        else
          && Offered(s, id, planned) && Agrees(d, planned) && Policy.SeriesInScope(c, d)
          && (s.Override() || ObservedWait(s.mem.data.issues[id], planned) >= NeededWait(c, planned)))
  }

  /** Scans read a clock that has moved on since every earlier scan. */
  predicate AfterAll(scans: seq<Event>, now: Time) {
    forall e :: e in scans && e.Complete? ==> e.now < now
  }

  /** A manual request can select the downloads it is about. */
  predicate Selects(request: Option<Request>, id: string) {
    request.None? || request.value.downloads == {} || id in request.value.downloads
  }

  /** A scan reads candidates exactly for the selected eligible downloads, and policy decides on each, within the
      configured scope. */
  predicate Observes(c: Config, request: Option<Request>, sights: map<string, Sight>) {
    forall id :: id in sights ==>
      && (sights[id].view.Some? <==> Queue.Eligible(sights[id].rows) && Selects(request, id))
      && (sights[id].view.Some? ==> sights[id].view.value.Coherent() && Policy.InScope(c, sights[id].rows, sights[id].view.value.decision))
  }

  ghost predicate Enabled(c: Config, s: Sys, a: Action) {
    match a
    case Tick(to) => s.clock <= to
    case Scan(now, sights) =>
      s.phase.Idle? && MAX_DURATION < now <= s.clock && s.previous <= now && AfterAll(s.scans, now) && Observes(c, s.request, sights)
    case Miss(now) => s.phase.Idle? && 0 < now <= s.clock
    case Verify(j, absent, evidence, now) =>
      s.phase.Idle? && 0 < now <= s.clock && j < |s.mem.data.attempts|
      && s.mem.data.attempts[j].Unresolved() && ReadsFor(s.mem.data.attempts[j], evidence)
    case Note(id, state, d) => s.phase.Idle? && id in s.mem.data.issues && state != Resolved
    case Fault(_) => s.phase.Idle?
    case Close(id) => s.phase.Idle? && id in s.mem.data.operations
    case Recommend(id, d) => s.phase.Idle? && s.request.None? && c.dryRun
    case Reserve(id, d, planned, _, _) => MayReserve(c, s, id, d, planned)
    case Transmit => s.phase.Armed?
    case Respond(_) => s.phase.Sent?
    case Persist(_) => s.phase.Idle? && (s.request.Some? ==> s.request.value.execute)
    case Retention(now) => s.phase.Idle? && 0 < now <= s.clock
    case Accept(req, accepted, _) =>
      && s.phase.Idle? && s.request.None? && s.clock <= accepted
      && req.execute && WellFormed(req) && req.id !in s.mem.data.triggers
      && req.issued <= s.clock + SECOND && req.expires > s.clock
    case Finish(now) => s.phase.Idle? && 0 < now <= s.clock && s.request.Some? && s.request.value.execute
    case Reopen(now) => s.clock <= now
  }

  function Intention(s: Sys, id: string, d: Decision, before: map<int, int>): Tx
    requires id in s.mem.data.issues
  {
    Tx(NewAttempt(s, id, d, before), ParentKey(s.mem.data, id, d.kind), s.request, s.seen)
  }

  ghost function Apply(c: Config, s: Sys, a: Action): Sys
    requires Enabled(c, s, a)
  {
    var d := s.mem.data;
    match a
    case Tick(to) => s.(clock := to)
    case Scan(now, sights) =>
      s.(mem := s.mem.(data := d.(issues := Scanned(c, s.previous, now, d, sights), readFailure := false)),
         previous := now, scans := s.scans + [Complete(now, sights)], seen := s.seen + [Complete(now, sights)])
    case Miss(now) =>
      var e := Expire(d, now);
      s.(mem := s.mem.(data := e.(issues := Missed(e.issues), readFailure := true)), previous := 0,
         scans := s.scans + [Gap], seen := s.seen + [Gap])
    case Verify(j, absent, evidence, now) =>
      var b := Verdict(d.attempts[j], absent, evidence, now);
      s.(mem := Image(Settle(c, d, j, b, now), if b.Unresolved() then s.mem.settled else s.mem.settled + {KeyOf(b)}))
    case Note(id, state, dec) =>
      var i := d.issues[id];
      s.(mem := s.mem.(data := d.(issues := d.issues[id := i.(state := state, decision := if dec.Some? then dec else i.decision)])))
    case Fault(failed) => s.(mem := s.mem.(data := d.(readFailure := failed)))
    case Close(id) => s.(mem := s.mem.(data := CloseOperation(d, id)))
    case Recommend(id, dec) => s.(mem := s.mem.(data := d.(attempts := d.attempts + [Recommendation(s, id, dec)])))
    case Reserve(id, dec, planned, before, save) =>
      var tx := Intention(s, id, dec, before);
      var mem := s.mem.(data := Recorded(d, tx.attempt));
      s.(mem := mem, disk := AfterSave(save, s.disk, mem), saved := SavedAfter(save, s.saved, s.seen),
         intents := s.intents + [tx], phase := if save.Saved? then Armed(tx) else Idle)
    case Transmit => s.(log := s.log + [s.phase.tx], sentAt := s.sentAt + [s.clock], phase := Sent(s.phase.tx))
    case Respond(reply) =>
      s.(mem := s.mem.(data := if d.attempts == [] then d else Answered(d, reply)), phase := Idle)
    case Persist(save) => s.(disk := AfterSave(save, s.disk, s.mem), saved := SavedAfter(save, s.saved, s.seen))
    case Retention(now) => s.(mem := s.mem.(data := Prune(c, d, now)))
    case Accept(req, accepted, save) =>
      var mem := s.mem.(data := d.(triggers := d.triggers[req.id := Receipt(req, accepted, 0, Accepted, VERSION, req.id, [])]));
      s.(mem := if save.Saved? then mem else s.mem, disk := AfterSave(save, s.disk, mem), saved := SavedAfter(save, s.saved, s.seen),
         clock := accepted, request := if save.Saved? then Some(req) else None)
    case Finish(now) =>
      var id := s.request.value.id;
      s.(mem := if id in d.triggers then s.mem.(data := d.(triggers := d.triggers[id := d.triggers[id].(
                                              status := Done, finished := now, reportVersion := VERSION, reportRequestID := id)]))
                else s.mem,
         request := None)
    case Reopen(now) =>
      var mem := s.disk.(data := Repair(s.disk.data, now));
      s.(mem := mem, disk := mem, clock := now, previous := 0, phase := Idle, request := None,
         scans := s.scans + [Restart], seen := s.saved + [Restart], saved := s.saved + [Restart])
  }

  ghost predicate Step(c: Config, s: Sys, t: Sys) {
    exists a :: Enabled(c, s, a) && t == Apply(c, s, a)
  }

  const EmptyData := Data(map[], map[], [], map[], false)

  /** A new store, freshly opened. */
  predicate Init(s: Sys) {
    && s.mem == s.disk == Image(EmptyData, {}) && s.intents == s.log == [] && s.clock > MAX_DURATION && s.previous == 0
    && s.phase.Idle? && s.request.None? && s.scans == s.seen == s.saved == [] && s.sentAt == []
  }

  /** A run: states connected by steps. */
  ghost predicate Run(c: Config, run: seq<Sys>) {
    && run != [] && Init(run[0])
    && forall i :: 0 <= i < |run| - 1 ==> Step(c, run[i], run[i + 1])
  }
}
