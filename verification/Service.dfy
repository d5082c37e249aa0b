/** The service itself: cycles, plans, mutations and manual requests over a shared store, each recorded as
    steps of the transition system. */
module Services {
  import opened Types
  import opened State
  import opened Outcomes
  import opened Waiting
  import opened System
  import opened Invariant
  import opened Stores
  import opened Remote
  import opened Grounds
  import Fingerprints
  import Ledger
  import Policy
  import Queue
  import Rejections
  import Retention
  import Scanning
  import Sets
  import Sorting
  import Verification

  /** Nothing observed. */
  function Unseen(id: string): Policy.Observation {
    Policy.Observation(id, [], [], [], map[], map[], map[], map[], "", [], false)
  }

  /** What a scan saw of each tracked download, with the decision where candidates were read. */
  function Sights(groups: map<string, seq<QueueRow>>, views: map<string, View>): map<string, Sight> {
    map id | id in groups :: Sight(groups[id], if id in views then Some(views[id]) else None)
  }

  datatype Plan = Plan(id: string, decision: Decision)

  /** What planning passes through: the plans for candidates with the data as assessed, and all plans with the data
      after continuations were decided on. */
  datatype Work = Work(first: seq<Plan>, assessed: Data, plans: seq<Plan>, planned: Data)

  /** What a cycle with a complete scan passes through. */
  datatype Course = Course(
    queue: seq<QueueRow>, groups: map<string, seq<QueueRow>>, views: map<string, View>,
        seen: map<string, Policy.Observation>,
    scanned: Data, evidence: seq<Reads>, reconciled: Data, work: Work)

  /** What comes of reading for a scan. */
  datatype Survey = Unreadable | Foreign | Oversized | Taken(queue: seq<QueueRow>, groups: map<string, seq<QueueRow>>, views: map<string, View>)

  function NoCourse(d: Data): Course {
    Course([], map[], map[], map[], d, [], d, Work([], d, [], d))
  }

  /** The observation of one download with a new state, and with a new decision if there is one. */
  function Noted(d: Data, id: string, state: IssueState, basis: Option<Decision>): Data
    requires id in d.issues
  {
    var i := d.issues[id];
    d.(issues := d.issues[id := i.(state := state, decision := if basis.Some? then basis else i.decision)])
  }

  /** How a protected download is reported. */
  function Guarded(s: seq<Attempt>, id: string): IssueState {
    if exists a :: a in s && a.downloadID == id && (a.outcome.Uncertain? || a.outcome.Partial?) then Unsure else InProgress
  }

  /** What planning makes of one candidate: its new state, and none if nothing was read about it. */
  ghost function Standing(c: Config, d: Data, override: bool, id: string, view: Option<View>,
                          now: Time): Option<IssueState> {
    if HasUnresolved(d, id) then Some(Guarded(d.attempts, id))
    else if view.None? then None
    else if view.value.decision.kind == Defer then Some(PolicyBlocked)
    else if !WaitedFor(c, d.issues, override, Plan(id, view.value.decision)) then Some(Waiting)
    else
      match State.Gate(c, d, id, view.value.decision, now, 0, override)
      case Open => Some(Recoverable)
      case RollingHour => Some(ExhaustedState)
      case Exhausted => Some(ExhaustedState)
      case _ => Some(RetryWaiting)
  }

  /** What the record says the wait of a decision has come to, against what the configuration asks: an import needs
      eligible time, a removal rejected time while the rejection lasts and eligible time otherwise, and an immediate
      cause needs none. */
  predicate Ripened(c: Config, i: Issue, d: Decision) {
    if d.kind.Import? then i.elapsed >= c.recoveryWait
    else (if i.rejected then i.rejectedElapsed else i.elapsed)
         >= (if d.kind.RemoveBlocked? && (d.episodeMismatch || d.executableWarning) then 0 else c.cleanupWait)
  }

  /** Every state of a candidate, and when it has it. An unresolved attempt comes before everything else, then whether
      anything was decided, then the wait, then the gate. */
  lemma StandingMeans(c: Config, d: Data, override: bool, id: string, view: View, now: Time)
    requires id in d.issues && !view.decision.kind.Search?
    ensures var state, busy := Standing(c, d, override, id, Some(view), now), exists a :: a in d.attempts && a.downloadID == id && a.Unresolved();
            var unsure := exists a :: a in d.attempts && a.downloadID == id && (a.outcome.Uncertain? || a.outcome.Partial?);
            var ripe := override || Ripened(c, d.issues[id], view.decision);
            var gate := State.Gate(c, d, id, view.decision, now, 0, override);
            && (state == Some(Unsure) <==> busy && unsure) && (state == Some(InProgress) <==> busy && !unsure)
            && (state == Some(PolicyBlocked) <==> !busy && view.decision.kind == Defer)
            && (state == Some(Waiting) <==> !busy && view.decision.kind != Defer && !ripe)
            && (state == Some(Recoverable) <==> !busy && view.decision.kind != Defer && ripe && gate == Open)
            && (state == Some(ExhaustedState) <==> !busy && view.decision.kind != Defer && ripe && (gate == RollingHour || gate == Exhausted))
            && (state == Some(RetryWaiting) <==>
                  !busy && view.decision.kind != Defer && ripe && (gate == Protected || gate == Cooldown || gate == RetrySpacing))
  {
    hide State.Gate;
  }

  /** The record recommends this kind of action for the download and the candidate. */
  predicate Advice(a: Attempt, id: string, d: Decision) {
    a.downloadID == id && a.dryRun && a.decision.fingerprint == d.fingerprint && a.kind == d.kind
  }

  /** One recommendation is added, under a new identifier, exactly if there is none yet. */
  ghost predicate Advises(s: seq<Attempt>, t: seq<Attempt>, id: string, d: Decision, now: Time) {
    if exists a :: a in s && Advice(a, id, d) then t == s
    else
      && |t| == |s| + 1 && t[..|s|] == s && (forall a :: a in s ==> a.id < t[|s|].id)
      && t[|s|] == Attempt(false, "", false, t[|s|].id, id, d.kind, true, now, now, Recommended, 0, false, d, map[], {},
                           false, false, "")
  }

  function ViewAt(views: map<string, View>, id: string): Option<View> {
    if id in views then Some(views[id]) else None
  }

  /** The candidate is recoverable as it stands. */
  ghost predicate Recovers(c: Config, d: Data, override: bool, views: map<string, View>, now: Time, id: string) {
    id in views && Standing(c, d, override, id, ViewAt(views, id), now) == Some(Recoverable)
  }

  /** Exactly these records were assessed, each as it stood at first. */
  ghost predicate AllAssessed(c: Config, d: Data, e: Data, override: bool, views: map<string, View>, now: Time,
                              who: set<string>) {
    && e.issues.Keys == d.issues.Keys && e == d.(issues := e.issues, attempts := e.attempts)
    && forall id :: id in d.issues ==>
         e.issues[id] == if id in who then Assessed(d, id, Standing(c, d, override, id, ViewAt(views, id), now), Basis(d, id, ViewAt(views, id))).issues[id]
                         else d.issues[id]
  }

  /** In a dry run each of them that is recoverable is recommended, and every new record recommends one of them for the
      first time; otherwise there are no new records. */
  ghost predicate AllAdvised(c: Config, d: Data, e: Data, override: bool, views: map<string, View>, now: Time,
                             who: set<string>, dry: bool) {
    && d.attempts <= e.attempts && (!dry ==> e.attempts == d.attempts)
    && (forall k :: |d.attempts| <= k < |e.attempts| ==>
          && e.attempts[k].dryRun && e.attempts[k].outcome.Recommended? && e.attempts[k].downloadID in who
          && Recovers(c, d, override, views, now, e.attempts[k].downloadID)
          && e.attempts[k].decision == views[e.attempts[k].downloadID].decision
          && Unadvised(e.attempts, k, e.attempts[k].downloadID, e.attempts[k].decision))
    && (dry ==> forall id :: id in who && Recovers(c, d, override, views, now, id) ==>
          exists a :: a in e.attempts && Advice(a, id, views[id].decision))
  }

  /** None of the first k records recommends this. */
  predicate Unadvised(s: seq<Attempt>, k: nat, id: string, d: Decision)
    requires k <= |s|
  {
    forall i :: 0 <= i < k ==> !Advice(s[i], id, d)
  }

  lemma StandsOpen(c: Config, d: Data, override: bool, id: string, view: Option<View>, now: Time)
    requires Standing(c, d, override, id, view, now) == Some(Recoverable)
    ensures view.Some? && view.value.decision.kind != Defer
        && WaitedFor(c, d.issues, override, Plan(id, view.value.decision))
    ensures State.Gate(c, d, id, view.value.decision, now, 0, override) == Open
  {
    hide WaitedFor, HasUnresolved, State.Gate;
  }

  /** The data with the new state of a candidate, if it has one. */
  function Assessed(d: Data, id: string, state: Option<IssueState>, basis: Option<Decision>): Data
    requires id in d.issues
  {
    if state.Some? then Noted(d, id, state.value, basis) else d
  }

  /** A protected download keeps the decision on record. */
  function Basis(d: Data, id: string, view: Option<View>): Option<Decision> {
    if HasUnresolved(d, id) || view.None? then None else Some(view.value.decision)
  }

  datatype Error =
    | Unsupported | SelectionTooLarge | ReportTooLarge | ReadFailed | SaveFailed | ReceiptMissing | ObservationMissing

  // ---------------------------------------------------------------- what a step leaves alone

  /** Nothing was sent or observed, and nothing became durable. */
  predicate Quiet(s: Sys, t: Sys) {
    t.log == s.log && t.request == s.request && t.phase == s.phase && t.disk == s.disk && t.saved == s.saved && Unscanned(s, t)
  }

  /** No scan happened, and the data still rest on the same ones. */
  predicate Unscanned(s: Sys, t: Sys) {
    t.scans == s.scans && t.seen == s.seen
  }

  /** What scans recorded of every download is what it was. */
  predicate SameTimes(a: map<string, Issue>, b: map<string, Issue>) {
    forall id :: id in a ==> id in b && SameRecord(a[id], b[id])
  }

  /** The records differ at most in their state and in the decision and instant that go with it. */
  predicate SameRecord(i: Issue, j: Issue) {
    j == i.(state := j.state, decision := j.decision, resolvedAt := j.resolvedAt)
  }

  /** The decision has waited as configured. */
  predicate WaitedFor(c: Config, issues: map<string, Issue>, override: bool, p: Plan) {
    p.id in issues && (p.decision.kind.Search? || override || ObservedWait(issues[p.id], p.decision) >= NeededWait(c, p.decision))
  }

  lemma WaitedStill(c: Config, a: map<string, Issue>, b: map<string, Issue>, override: bool, p: Plan)
    requires SameTimes(a, b) && WaitedFor(c, a, override, p)
    ensures WaitedFor(c, b, override, p)
  {
  }

  /** No intent or acknowledged attempt is past its deadline. */
  predicate Prompt(s: seq<Attempt>, now: Time) {
    forall a :: a in s && !a.dryRun && (a.outcome.Intent? || a.outcome.Pending?) ==> now - a.started < DEADLINE
  }

  class Service {
    const c: Config
    const pattern: string -> bool
    const store: Store
    const clock: Clock
    const sonarr: Sonarr
    const request: Option<Request>
    var previous: Time

    constructor (store: Store, clock: Clock, sonarr: Sonarr, pattern: string -> bool, request: Option<Request>,
                 previous: Time)
      ensures this.c == store.c && this.store == store && this.clock == clock && this.sonarr == sonarr
      ensures this.pattern == pattern && this.request == request && this.previous == previous
    {
      this.c, this.store, this.clock, this.sonarr := store.c, store, clock, sonarr;
      this.pattern, this.request, this.previous := pattern, request, previous;
    }

    ghost function S(): Sys
      reads store
      requires store.run != []
    {
      store.Present()
    }

    /** The fields are those of the present state, whatever is being sent. */
    ghost predicate Bound()
      reads this, store, clock
    {
      store.Valid() && store.c == c && S().previous == previous && S().request == request && S().clock <= clock.time
    }

    ghost predicate Valid()
      reads this, store, clock
    {
      Bound() && S().phase.Idle?
    }

    predicate Override() { request.Some? && request.value.overrideWait }

    /** Background dry runs and previews never change anything outside. */
    predicate Harmless() {
      if request.Some? then !request.value.execute else c.dryRun
    }

    predicate Selected(id: string) { Selects(request, id) }

    // -------------------------------------------------------------- single steps

    method Now() returns (t: Time)
      requires Valid()
      modifies clock, store`run
      ensures Valid() && t == clock.time == S().clock > old(clock.time) && S() == old(S()).(clock := t)
          && old(store.run) <= store.run
    {
      t := clock.Now();
      store.Did(Tick(t));
    }

    method SetIssue(id: string, state: IssueState, basis: Option<Decision>)
      requires Valid() && id in store.data.issues && state != Resolved
      modifies store`data, store`run
      ensures Valid() && Aside(old(S()), S()) && old(store.run) <= store.run
      ensures store.data == Noted(old(store.data), id, state, basis)
    {
      hide Chain, Enabled, Apply;
      NoteStep(c, S(), id, state, basis);
      var i := store.data.issues[id];
      store.data := store.data.(issues := store.data.issues[id := i.(state := state, decision := if basis.Some? then basis else i.decision)]);
      store.Did(Note(id, state, basis));
    }

    method ReadFailure()
      requires Valid()
      modifies store`data, store`run
      ensures Valid() && Quiet(old(S()), S()) && S().clock == old(S()).clock && old(store.run) <= store.run
      ensures store.data == old(store.data).(readFailure := true)
    {
      store.data := store.data.(readFailure := true);
      store.Did(Fault(true));
    }

    method FinishOperation(id: string)
      requires Valid() && id in store.data.operations
      modifies store`data, store`run
      ensures Valid() && Quiet(old(S()), S()) && S().clock == old(S()).clock && old(store.run) <= store.run
      ensures store.data == CloseOperation(old(store.data), id)
    {
      store.data := store.data.(operations := store.data.operations[id := store.data.operations[id].(state := Finished)]);
      store.Did(Close(id));
    }

    /** Previews keep their projection to themselves. */
    method Save() returns (ok: bool)
      requires Valid()
      modifies store`disk, store`run
      ensures Valid() && old(store.run) <= store.run
      ensures S().log == old(S()).log && S().clock == old(S()).clock && Unscanned(old(S()), S())
      ensures request.Some? && !request.value.execute ==> store.run == old(store.run) && store.disk == old(store.disk)
      ensures ok && !(request.Some? && !request.value.execute) ==> store.disk == store.data
    {
      if request.Some? && !request.value.execute { return true; }
      ok := store.Save();
    }

    // -------------------------------------------------------------- failed scans

    /** A required read failed: deadlines still pass, the rejected clocks stop, and the next scan starts over. */
    method Failed(now: Time) returns (err: Option<Error>)
      requires Valid() && 0 < now <= S().clock
      modifies this`previous, store`data, store`disk, store`run
      ensures Valid() && old(store.run) <= store.run && S().log == old(S()).log && S().clock == old(S()).clock
      ensures request.Some? && !request.value.execute ==> store.disk == old(store.disk)
      ensures Prompt(store.data.attempts, now) && previous == 0 && S().scans == old(S()).scans + [Gap]
      ensures err.None? || err == Some(SaveFailed) || err == Some(ReadFailed)
      ensures store.data == Expire(old(store.data), now).(issues := Missed(Expire(old(store.data), now).issues),
                                                          readFailure := true)
      ensures err.None? && !(request.Some? && !request.value.execute) ==> store.disk == store.data
    {
      hide Chain, Enabled, Apply, Expire, Missed, Prompt;
      ghost var d := store.data;
      MissStep(c, S(), now);
      store.ExpirePending(now);
      previous := 0;
      store.data := store.data.(issues := Missed(store.data.issues), readFailure := true);
      store.Did(Miss(now));
      ExpirePrompt(d, now);
      var saved := Save();
      if !saved { return Some(SaveFailed); }
      err := if request.Some? then Some(ReadFailed) else None;
    }

    // -------------------------------------------------------------- reservation and transmission

    /** The new record of an action: everything about it is known before it is sent, and its identifier is greater than
        every other. */
    ghost predicate Intends(d: Data, a: Attempt, id: string, action: Decision, before: map<int, int>, now: Time) {
      && id in d.issues && (forall b :: b in d.attempts ==> b.id < a.id)
      && a == Attempt(request.Some?, if request.Some? then request.value.id else "", Override(), a.id, id, action.kind, false, now, 0,
                      Intent, 0, false, action, before, {}, false, false, d.issues[id].title)
    }

    /** Records the intent durably before anything is sent. On success the intent is the last attempt, on disk too. */
    method Reserve(id: string, d: Decision, ghost planned: Decision, now: Time,
                   before: map<int, int>) returns (err: Option<Error>)
      requires Valid() && id in store.data.issues && d.kind != Defer && !Harmless() && now == S().clock
      requires State.Gate(c, store.data, id, d, now, ParentID(store.data, id, d.kind), Override()) == Open
      requires Warranted(c, S(), id, d, planned)
      modifies store`data, store`disk, store`run
      ensures Bound() && old(store.run) <= store.run && S().log == old(S()).log && S().clock == now
          && Unscanned(old(S()), S())
      ensures err.None? ==>
        && S().phase.Armed? && store.data.attempts == old(store.data).attempts + [S().phase.tx.attempt]
        && Intends(old(store.data), S().phase.tx.attempt, id, d, before, now) && S().phase.tx.request == request
      ensures err.Some? ==> Valid() && err == Some(SaveFailed)
      ensures exists a :: store.data.attempts == old(store.data).attempts + [a] && Intends(old(store.data), a, id, d, before, now)
      ensures SameTimes(old(store.data).issues, store.data.issues)
          && store.data.operations == old(store.data).operations
    {
      hide Chain, Apply, Enabled, State.Gate, Warranted, Recorded, MaxID;
      if request.Some? && request.value.id !in store.data.triggers {
        ReceiptHeld(c, store.run);
        return Some(ReceiptMissing);
      }
      var next := Ledger.NextID(store.data);
      var a := Attempt(request.Some?, if request.Some? then request.value.id else "", Override(), next, id, d.kind, false, now, 0,
                       Intent, 0, false, d, before, {}, false, false, store.data.issues[id].title);
      ghost var s := S();
      MayReserveNow(c, s, id, d, planned, before);
      RecordedFacts(store.data, a);
      store.data := Recorded(store.data, a);
      var save := store.Write();
      ReserveStep(c, s, id, d, planned, before, save);
      store.Did(Action.Reserve(id, d, planned, before, save));
      assert Intends(s.mem.data, a, id, d, before, now);
      err := if save.Saved? then None else Some(SaveFailed);
    }

    /** The answer on the attempt just sent; a search is then attempted, whatever the answer. */
    method Record(reply: Read<int>)
      requires store.data.attempts != []
      modifies store`data
      ensures store.data == Answered(old(store.data), reply)
    {
      var n := |store.data.attempts| - 1;
      var a := store.data.attempts[n];
      if reply.Got? {
        a := a.(ack := true, commandID := if IsRemoval(a.kind) then 0 else reply.value, outcome := Pending);
      } else {
        a := a.(outcome := Uncertain);
      }
      store.data := store.data.(attempts := store.data.attempts[n := a]);
      if a.kind.Search? && a.downloadID in store.data.operations {
        var op := store.data.operations[a.downloadID];
        store.data := store.data.(operations := store.data.operations[a.downloadID := op.(state := SearchAttempted)]);
      }
    }

    /** Sends the recorded intent and records the answer, durably if the disk allows. */
    method Transmit(ghost at: Time) returns (err: Option<Error>)
      requires Bound() && S().phase.Armed? && at <= S().clock && store.data.attempts != []
      requires Prompt(store.data.attempts, at) && store.data.attempts[|store.data.attempts| - 1] == S().phase.tx.attempt
      requires S().phase.tx.attempt.outcome.Intent? && !S().phase.tx.attempt.dryRun && (request.Some? ==> request.value.execute)
      modifies sonarr, store`data, store`disk, store`run
      ensures Valid() && at <= S().clock && Prompt(store.data.attempts, at) && old(store.run) <= store.run
      ensures S().log == old(S()).log + [old(S()).phase.tx] && Unscanned(old(S()), S()) && S().clock == old(S()).clock
      ensures sonarr.sent == old(sonarr.sent) + [old(S()).phase.tx.attempt] && old(sonarr.said) <= sonarr.said
      ensures exists reply ::
                && Heard(old(sonarr.said), sonarr.said, AnswerRead(old(S()).phase.tx.attempt, reply))
                && store.data == Answered(old(store.data), reply)
      ensures store.data.issues == old(store.data).issues
          && OthersSame(old(store.data), store.data, old(S()).phase.tx.attempt.downloadID)
      ensures old(S()).phase.tx.attempt.kind != Kind.Search ==> store.data.operations == old(store.data).operations
      ensures err.None? || err == Some(SaveFailed)
    {
      hide Chain, Enabled, Apply, Prompt, Answered, OthersSame, Heard;
      TransmitStep(c, S());
      store.Did(Action.Transmit);
      var reply := sonarr.Send(store.data.attempts[|store.data.attempts| - 1]);
      HeardOne(old(sonarr.said), AnswerRead(old(S()).phase.tx.attempt, reply));
      AnsweredFacts(store.data, reply, at);
      RespondStep(c, S(), reply);
      Record(reply);
      store.Did(Respond(reply));
      PersistEnabled(c, S());
      var saved := store.Save();
      err := if saved then None else Some(SaveFailed);
    }

    /** Exactly this action was sent for this download, as just recorded. */
    ghost predicate Sends(before: seq<Tx>, after: seq<Tx>, id: string, d: Decision, files: map<int, int>,
                          title: string) {
      && |after| == |before| + 1 && before <= after && after[|before|].request == request
      && var a := after[|before|].attempt;
         a == Attempt(request.Some?, if request.Some? then request.value.id else "", Override(), a.id, id, d.kind, false, a.started, 0,
                      Intent, 0, false, d, files, {}, false, false, title)
    }

    /** The result of recording and sending: exactly this action is sent, or nothing is because the record could not be
        saved. */
    ghost predicate Committed(d: Data, id: string, action: Decision, files: map<int, int>, log: seq<Tx>, more: seq<Tx>,
                              sent: seq<Attempt>,
                              resent: seq<Attempt>, err: Option<Error>) {
      && id in d.issues && (err.None? || err == Some(SaveFailed))
      && if more == log then resent == sent && err == Some(SaveFailed)
         else Sends(log, more, id, action, files, d.issues[id].title) && resent == sent + [more[|log|].attempt]
    }

    /** Records an action durably, and then sends it. */
    method Commit(id: string, d: Decision, ghost planned: Decision, now: Time, before: map<int, int>,
                  ghost at: Time) returns (err: Option<Error>)
      requires Valid() && id in store.data.issues && d.kind != Defer && !Harmless() && at <= now == S().clock
      requires State.Gate(c, store.data, id, d, now, ParentID(store.data, id, d.kind), Override()) == Open
      requires Warranted(c, S(), id, d, planned) && Prompt(store.data.attempts, at)
      modifies sonarr, store`data, store`disk, store`run
      ensures Valid() && S().clock == now && Prompt(store.data.attempts, at) && old(store.run) <= store.run
          && Unscanned(old(S()), S())
      ensures SameTimes(old(store.data).issues, store.data.issues) && OthersSame(old(store.data), store.data, id)
      ensures d.kind != Kind.Search ==> store.data.operations == old(store.data).operations
      ensures err.None? || err == Some(SaveFailed)
      ensures Committed(old(store.data), id, d, before, old(S()).log, S().log, old(sonarr.sent), sonarr.sent, err)
          && old(sonarr.said) <= sonarr.said
    {
      hide Chain, Enabled, Apply, State.Gate, Prompt, SameTimes, SameRecord, OthersSame, Warranted, Answered, Heard,
          Committed;
      ghost var data, log, sent := store.data, S().log, sonarr.sent;
      err := Reserve(id, d, planned, now, before);
      ghost var recorded := store.data;
      PromptAfter(data.attempts, store.data.attempts, at, now);
      if err.Some? {
        NotCommitted(data, id, d, before, log, sent);
        OperationsSame(data, store.data, id);
        return;
      }
      ghost var tx := S().phase.tx;
      err := Transmit(at);
      OthersFrom(data, recorded, store.data, id);
      JustCommitted(data, id, d, before, log, tx, sent, now, err);
    }

    lemma NotCommitted(d: Data, id: string, action: Decision, files: map<int, int>, log: seq<Tx>, sent: seq<Attempt>)
      requires id in d.issues
      ensures Committed(d, id, action, files, log, log, sent, sent, Some(SaveFailed))
    {
    }

    lemma JustCommitted(d: Data, id: string, action: Decision, files: map<int, int>, log: seq<Tx>, tx: Tx,
                        sent: seq<Attempt>, now: Time,
                        err: Option<Error>)
      requires tx.request == request && Intends(d, tx.attempt, id, action, files, now)
          && (err.None? || err == Some(SaveFailed))
      ensures Committed(d, id, action, files, log, log + [tx], sent, sent + [tx.attempt], err)
    {
    }

    // -------------------------------------------------------------- decisions

    /** The rows of one download. */
    method RowsFor(queue: seq<QueueRow>, id: string) returns (rows: seq<QueueRow>)
      ensures rows == if id != "" then Queue.RowsOf(queue, id) else []
    {
      var groups := Queue.Group(queue);
      rows := if id in groups then groups[id] else [];
    }

    /** The result of fresh checks. What passes is what policy decides of an observation just read, of the rows on
        record, and the files that it showed; nothing passes only for a reason that was read, and only such a reason
        leaves a mark. */
    ghost predicate Rechecked(d: Data, e: Data, id: string, planned: Decision, r: Option<(Decision, map<int, int>)>,
                              seen: Policy.Observation, why: Option<Obstacle>, before: seq<Reading>,
                                  after: seq<Reading>) {
      && before <= after && id in d.issues
      && if r.Some? then why.None? && e == d && Passes(d, id, planned, r.value.0, r.value.1, seen, before, after)
         else
           && why.Some? && !why.value.GateShut? && !why.value.CalledOff?
           && StopsExecution(c, pattern, d, id, planned, Override(), before, after, why.value)
           && e == if why.value.QueueUnread? || why.value.DownloadUnread? then d.(readFailure := true) else Noted(d, id, PolicyBlocked, None)
    }

    ghost predicate Passes(d: Data, id: string, planned: Decision, action: Decision, files: map<int, int>,
                           seen: Policy.Observation,
                           before: seq<Reading>, after: seq<Reading>)
      requires id in d.issues
    {
      && action.kind == planned.kind && action.fingerprint == planned.fingerprint
      && FromObservation(c, pattern, before, after, seen, id, action, files)
      && Queue.QueueIdentity(seen.rows) == d.issues[id].identity
      && Rejections.Caused(action, pattern) && Policy.InScope(c, seen.rows, action)
    }

    lemma RecheckUnread(d: Data, id: string, planned: Decision, seen: Policy.Observation, why: Obstacle,
                        before: seq<Reading>,
                        mid: seq<Reading>, after: seq<Reading>)
      requires id in d.issues && before <= mid <= after
      requires (why == QueueUnread && Heard(mid, after, QueueRead(Unavailable)))
          || (why == DownloadUnread && Heard(mid, after, DownloadRead(id, Unavailable)))
      ensures Rechecked(d, d.(readFailure := true), id, planned, None, seen, Some(why), before, after)
    {
      hide Heard;
      HeardWithin(before, mid, after, after);
    }

    lemma RecheckRows(d: Data, id: string, planned: Decision, seen: Policy.Observation, queue: seq<QueueRow>,
                      rows: seq<QueueRow>,
                      before: seq<Reading>, after: seq<Reading>)
      requires id in d.issues && before <= after && Heard(before, after, QueueRead(Got(queue)))
      requires rows == if id != "" then Queue.RowsOf(queue, id) else []
      requires !Queue.Eligible(rows) || Queue.QueueIdentity(rows) != d.issues[id].identity
      ensures Rechecked(d, Noted(d, id, PolicyBlocked, None), id, planned, None, seen, Some(RowsChanged(queue)), before,
                        after)
    {
      hide Heard, Queue.Eligible, Queue.QueueIdentity, Queue.RowsOf;
    }

    lemma RecheckDecision(d: Data, id: string, planned: Decision, seen: Policy.Observation, other: Decision,
                          before: seq<Reading>,
                          mid: seq<Reading>, after: seq<Reading>)
      requires id in d.issues && before <= mid <= after && Heard(mid, after, DownloadRead(id, Got(seen)))
      requires Rejections.Decided(c, seen, pattern, other)
          && (other.kind != planned.kind || other.fingerprint != planned.fingerprint)
      ensures Rechecked(d, Noted(d, id, PolicyBlocked, None), id, planned, None, seen,
                        Some(DecisionChanged(seen, other)), before, after)
    {
      hide Heard, Rejections.Decided;
      HeardWithin(before, mid, after, after);
    }

    lemma RecheckPasses(d: Data, id: string, planned: Decision, seen: Policy.Observation, action: Decision,
                        files: map<int, int>,
                        before: seq<Reading>, mid: seq<Reading>, after: seq<Reading>)
      requires id in d.issues && before <= mid <= after && Heard(before, mid, QueueRead(Got(seen.queue)))
      requires Heard(mid, after, DownloadRead(id, Got(seen))) && seen.downloadID == id && id != ""
          && seen.rows == Queue.RowsOf(seen.queue, id)
      requires Queue.Eligible(seen.rows) && Queue.QueueIdentity(seen.rows) == d.issues[id].identity
      requires Rejections.Decided(c, seen, pattern, action) && action.kind == planned.kind
          && action.fingerprint == planned.fingerprint
      requires Rejections.Caused(action, pattern) && Policy.InScope(c, seen.rows, action) && FilesOf(seen, files)
      ensures Rechecked(d, d, id, planned, Some((action, files)), seen, None, before, after)
    {
      hide Heard, Queue.Eligible, Queue.QueueIdentity, Queue.RowsOf, Rejections.Decided, Rejections.Caused,
          Policy.InScope, FilesOf;
      HeardWithin(before, before, mid, after);
      HeardWithin(before, mid, after, after);
    }

    /** Reads the download again, over rows just read, and decides again. */
    method Redecide(id: string, planned: Decision, rows: seq<QueueRow>, queue: seq<QueueRow>,
                    ghost before: seq<Reading>)
      returns (r: Option<(Decision, map<int, int>)>, ghost seen: Policy.Observation, ghost why: Option<Obstacle>)
      requires Valid() && id in store.data.issues && id != "" && rows == Queue.RowsOf(queue, id) && Queue.Eligible(rows)
      requires Queue.QueueIdentity(rows) == store.data.issues[id].identity
          && Heard(before, sonarr.said, QueueRead(Got(queue)))
      modifies sonarr`said, store`data, store`run
      ensures Valid() && Aside(old(S()), S()) && old(store.run) <= store.run
      ensures Rechecked(old(store.data), store.data, id, planned, r, seen, why, before, sonarr.said)
    {
      hide Chain, Enabled, Apply, Queue.QueueIdentity, Queue.Eligible, SameTimes, Heard, Rechecked, SameRecord;
      hide Rejections.Caused, Rejections.Decided, Rejections.RefusalOf, Policy.InScope, Noted, Queue.RowsOf, FilesOf;
      ghost var data, mid := store.data, sonarr.said;
      HeardLater(before, mid, QueueRead(Got(queue)));
      SameTimesSelf(data.issues);
      r, seen, why := None, Unseen(id), None;
      var read := sonarr.Observe(id, rows, queue);
      HeardOne(mid, DownloadRead(id, read));
      if read.Unavailable? {
        why := Some(DownloadUnread);
        RecheckUnread(data, id, planned, seen, DownloadUnread, before, mid, sonarr.said);
        ReadFailure();
        return;
      }
      seen := read.value;
      var view := Rejections.Decide(c, read.value, pattern);
      if view.decision.kind != planned.kind || view.decision.fingerprint != planned.fingerprint {
        why := Some(DecisionChanged(seen, view.decision));
        RecheckDecision(data, id, planned, seen, view.decision, before, mid, sonarr.said);
        SetIssue(id, PolicyBlocked, None);
        return;
      }
      var files := map eid | eid in read.value.episodes && read.value.episodes[eid].fileID.Some? :: read.value.episodes[eid].fileID.value;
      FilesKept(read.value, files);
      RecheckPasses(data, id, planned, seen, view.decision, files, before, mid, sonarr.said);
      r := Some((view.decision, files));
    }

    /** The fresh checks of a planned action: the same rows and the same decision, read again. */
    method Recheck(id: string, planned: Decision) returns (r: Option<(Decision, map<int, int>)>,
                   ghost seen: Policy.Observation, ghost why: Option<Obstacle>)
      requires Valid() && id in store.data.issues
      modifies sonarr`said, store`data, store`run
      ensures Valid() && Aside(old(S()), S()) && old(store.run) <= store.run
      ensures Rechecked(old(store.data), store.data, id, planned, r, seen, why, old(sonarr.said), sonarr.said)
    {
      hide Chain, Enabled, Apply, Queue.QueueIdentity, Queue.Eligible, SameTimes, Heard, Rechecked, SameRecord, Noted,
          Queue.RowsOf;
      ghost var data, before := store.data, sonarr.said;
      SameTimesSelf(data.issues);
      r, seen, why := None, Unseen(id), None;
      var queue := sonarr.Queue();
      HeardOne(before, QueueRead(queue));
      if queue.Unavailable? {
        why := Some(QueueUnread);
        RecheckUnread(data, id, planned, seen, QueueUnread, before, before, sonarr.said);
        ReadFailure();
        return;
      }
      var rows := RowsFor(queue.value, id);
      if !Queue.Eligible(rows) || Queue.QueueIdentity(rows) != store.data.issues[id].identity {
        why := Some(RowsChanged(queue.value));
        RecheckRows(data, id, planned, seen, queue.value, rows, before, sonarr.said);
        SetIssue(id, PolicyBlocked, None);
        return;
      }
      NoRows();
      r, seen, why := Redecide(id, planned, rows, queue.value, before);
    }

    /** The result of going on: the action is sent as it was checked, or the gate is shut to it at this instant, the
        work is called off, or the record cannot be saved. */
    ghost predicate Proceeded(d: Data, e: Data, id: string, action: Decision, files: map<int, int>, log: seq<Tx>,
                              more: seq<Tx>,
                              sent: seq<Attempt>, resent: seq<Attempt>, now: Time, err: Option<Error>,
                                  why: Option<Obstacle>,
                              before: seq<Reading>, after: seq<Reading>) {
      && before <= after && id in d.issues
      && (if more == log then resent == sent && (why.Some? || err == Some(SaveFailed))
          else Sends(log, more, id, action, files, d.issues[id].title) && resent == sent + [more[|log|].attempt])
      && (why.Some? ==>
            && more == log && err.None?
            && ((why == Some(CalledOff) && Heard(before, after, CancelRead(true)) && e == d)
                || (why == Some(GateShut(action, now)) && State.Gate(c, d, id, action, now, 0, Override()) != Open
                    && e == Noted(d, id, RetryWaiting, None))))
    }

    /** Records and sends one action that was checked, if the gate is still open at this instant. */
    method Proceed(id: string, d: Decision, ghost planned: Decision, before: map<int, int>,
                   ghost at: Time) returns (err: Option<Error>, ghost why: Option<Obstacle>)
      requires Valid() && !Harmless() && at <= S().clock && Prompt(store.data.attempts, at)
      requires Offered(S(), id, planned) && Agrees(d, planned) && Policy.SeriesInScope(c, d) && !d.kind.Search?
          && d.kind != Defer
      requires WaitedFor(c, store.data.issues, Override(), Plan(id, planned))
      modifies clock, sonarr, store`data, store`disk, store`run
      ensures Valid() && at <= S().clock && Prompt(store.data.attempts, at) && old(store.run) <= store.run
          && Unscanned(old(S()), S())
      ensures SameTimes(old(store.data).issues, store.data.issues)
          && store.data.operations == old(store.data).operations
      ensures err.None? || err == Some(SaveFailed)
      ensures Proceeded(old(store.data), store.data, id, d, before, old(S()).log, S().log, old(sonarr.sent),
                        sonarr.sent, S().clock, err, why,
                        old(sonarr.said), sonarr.said)
    {
      hide Chain, Enabled, Apply, State.Gate, ObservedWait, NeededWait, Prompt, SameTimes, OthersSame, Heard, Noted;
      hide Policy.SeriesInScope, Proceeded, SameRecord, Committed;
      err, why := None, None;
      ghost var data, log, sent, said := store.data, S().log, sonarr.sent, sonarr.said;
      SameTimesSelf(store.data.issues);
      var now := Now();
      var shut := Ledger.Gate(c, store.data, id, d, now, 0, Override());
      if shut != Open {
        why := Some(GateShut(d, now));
        NotProceeded(data, id, d, before, log, sent, now, why.value, said, said);
        SetIssue(id, RetryWaiting, None);
        return;
      }
      var cancelled := sonarr.Cancelled();
      HeardOne(said, CancelRead(cancelled));
      if cancelled {
        why := Some(CalledOff);
        NotProceeded(data, id, d, before, log, sent, now, CalledOff, said, sonarr.said);
        return;
      }
      err := Commit(id, d, planned, now, before, at);
      CommitProceeds(data, store.data, id, d, before, log, S().log, sent, sonarr.sent, now, err, said, sonarr.said);
    }

    lemma NotProceeded(d: Data, id: string, action: Decision, files: map<int, int>, log: seq<Tx>, sent: seq<Attempt>,
                       now: Time, why: Obstacle,
                       before: seq<Reading>, after: seq<Reading>)
      requires before <= after && id in d.issues
      requires (why == CalledOff && Heard(before, after, CancelRead(true)))
               || (why == GateShut(action, now) && State.Gate(c, d, id, action, now, 0, Override()) != Open)
      ensures Proceeded(d, if why.CalledOff? then d else Noted(d, id, RetryWaiting, None), id, action, files, log, log, sent, sent, now, None, Some(why),
                        before, after)
    {
      hide Heard, State.Gate, Noted;
    }

    lemma CommitProceeds(d: Data, e: Data, id: string, action: Decision, files: map<int, int>, log: seq<Tx>,
                         more: seq<Tx>, sent: seq<Attempt>,
                         resent: seq<Attempt>, now: Time, err: Option<Error>, before: seq<Reading>, after: seq<Reading>)
      requires before <= after && Committed(d, id, action, files, log, more, sent, resent, err)
      ensures Proceeded(d, e, id, action, files, log, more, sent, resent, now, err, None, before, after)
    {
    }

    /** The result of an execution. What was sent is what policy decides of the observation just read, for the same
        candidate and with the same causes as planned, with the files that it showed; nothing is sent only for a reason
        that was read, or if the record cannot be saved. */
    ghost predicate ExecutedAs(d: Data, id: string, planned: Decision, log: seq<Tx>, more: seq<Tx>,
                               seen: Policy.Observation,
                               err: Option<Error>, why: Option<Obstacle>, before: seq<Reading>, after: seq<Reading>) {
      && id in d.issues
      && if more == log then
           err == Some(SaveFailed) || (why.Some? && StopsExecution(c, pattern, d, id, planned, Override(), before, after, why.value))
         else
           && |more| == |log| + 1
           && var a := more[|log|].attempt;
              && Sends(log, more, id, a.decision, a.beforeFiles, d.issues[id].title) && Agrees(a.decision, planned)
              && FromObservation(c, pattern, before, after, seen, id, a.decision, a.beforeFiles)
              && Queue.QueueIdentity(seen.rows) == d.issues[id].identity
    }

    /** Executes one planned import or removal after fresh checks and behind a gate that is still open at the
        instant of recording. */
    method Execute(id: string, planned: Decision, ghost at: Time)
      returns (err: Option<Error>, ghost seen: Policy.Observation, ghost why: Option<Obstacle>)
      requires Valid() && !Harmless() && at <= S().clock && Prompt(store.data.attempts, at)
      requires !planned.kind.Search? && planned.kind != Defer
          && WaitedFor(c, store.data.issues, Override(), Plan(id, planned))
      requires Offered(S(), id, planned) && Rejections.Caused(planned, pattern)
      modifies clock, sonarr, store`data, store`disk, store`run
      ensures Valid() && at <= S().clock && Prompt(store.data.attempts, at) && old(store.run) <= store.run
          && Unscanned(old(S()), S())
      ensures SameTimes(old(store.data).issues, store.data.issues)
          && store.data.operations == old(store.data).operations
      ensures err.None? || err == Some(SaveFailed)
      ensures Accounted(c, pattern, old(S()).log, S().log, old(sonarr.sent), sonarr.sent, old(sonarr.said), sonarr.said)
      ensures ExecutedAs(old(store.data), id, planned, old(S()).log, S().log, seen, err, why, old(sonarr.said),
                         sonarr.said)
    {
      hide Chain, Enabled, Apply, ObservedWait, NeededWait, Prompt, SameTimes, Rejections.Caused, Accounted, Passes;
      hide State.Gate, Heard, Noted, ExecutedAs, StopsExecution, SameRecord, Rechecked, Proceeded;
      hide Policy.InScope, Policy.SeriesInScope, Offered, Agrees;
      ghost var before, data, log := S(), store.data, S().log;
      ghost var first, sent := sonarr.said, sonarr.sent;
      err := None;
      var checked: Option<(Decision, map<int, int>)>;
      checked, seen, why := Recheck(id, planned);
      ghost var mid, checkedData := sonarr.said, store.data;
      if checked.None? {
        StoppedAtCheck(data, store.data, id, planned, log, sent, seen, why, first, mid);
        return;
      }
      CheckedStill(this, before, S(), id, planned, checked.value.0, checked.value.1, seen, why, first, mid);
      err, why := Proceed(id, checked.value.0, planned, checked.value.1, at);
      AfterCheck(data, store.data, id, planned, checked.value.0, checked.value.1, log, S().log, sent, sonarr.sent, S().clock, seen, err, why,
                 first, mid, sonarr.said);
    }

    lemma StoppedAtCheck(d: Data, e: Data, id: string, planned: Decision, log: seq<Tx>, sent: seq<Attempt>,
                         seen: Policy.Observation,
                         why: Option<Obstacle>, before: seq<Reading>, after: seq<Reading>)
      requires Rechecked(d, e, id, planned, None, seen, why, before, after)
      ensures Accounted(c, pattern, log, log, sent, sent, before, after)
      ensures ExecutedAs(d, id, planned, log, log, seen, None, why, before, after)
    {
      hide Heard, StopsExecution, Noted;
    }

    lemma AfterCheck(d: Data, e: Data, id: string, planned: Decision, action: Decision, files: map<int, int>,
                     log: seq<Tx>, more: seq<Tx>,
                     sent: seq<Attempt>, resent: seq<Attempt>, now: Time, seen: Policy.Observation, err: Option<Error>,
                         why: Option<Obstacle>,
                     before: seq<Reading>, mid: seq<Reading>, after: seq<Reading>)
      requires id in d.issues && before <= mid && Passes(d, id, planned, action, files, seen, before, mid)
          && Agrees(action, planned)
      requires Proceeded(d, e, id, action, files, log, more, sent, resent, now, err, why, mid, after)
          && !action.kind.Search?
      ensures Accounted(c, pattern, log, more, sent, resent, before, after)
      ensures ExecutedAs(d, id, planned, log, more, seen, err, why, before, after)
    {
      hide Heard, State.Gate, Noted, Queue.Eligible, Queue.RowsOf, Queue.QueueIdentity, Rejections.Decided,
          Rejections.Caused, Policy.InScope;
      hide FilesOf, Agrees;
      HeardWithin(before, before, mid, after);
      HeardWithin(before, mid, after, after);
      assert FromObservation(c, pattern, before, after, seen, id, action, files);
      if more == log {
        NothingAccounted(c, pattern, log, sent, before, after);
      } else {
        OneAccounted(c, pattern, log, more, sent, resent, before, after);
      }
    }

    // -------------------------------------------------------------- replacement searches

    /** The removal that the continuation follows, if it is verified. */
    method FindParent(removal: int) returns (parent: Option<Attempt>)
      ensures parent.Some? ==> exists j :: Proves(store.data.attempts, removal, j) && store.data.attempts[j] == parent.value
      ensures parent.None? ==> forall j :: !Proves(store.data.attempts, removal, j)
    {
      for j := 0 to |store.data.attempts|
        invariant forall i :: 0 <= i < j ==> store.data.attempts[i].id != removal
      {
        var a := store.data.attempts[j];
        if a.id == removal {
          if a.kind.RemoveUnusable? && a.outcome.Verified? {
            assert Proves(store.data.attempts, removal, j);
            return Some(a);
          }
          return None;
        }
      }
      parent := None;
    }

    method Searched(id: string) returns (b: bool)
      ensures b <==> exists a :: a in store.data.attempts && !a.dryRun && a.downloadID == id && a.kind.Search?
    {
      for j := 0 to |store.data.attempts|
        invariant forall a :: a in store.data.attempts[..j] ==> !(!a.dryRun && a.downloadID == id && a.kind.Search?)
      {
        var a := store.data.attempts[j];
        assert store.data.attempts[..j + 1] == store.data.attempts[..j] + [a] && a in store.data.attempts;
        if !a.dryRun && a.downloadID == id && a.kind.Search? { return true; }
      }
      assert store.data.attempts[..|store.data.attempts|] == store.data.attempts;
      b := false;
    }

    /** A row of an excluded client, if there is one. */
    method FindExcluded(rows: seq<QueueRow>) returns (row: Option<QueueRow>)
      ensures row.None? <==> forall q :: q in rows ==> Policy.ClientAllowed(c, q.client)
      ensures row.Some? ==> row.value in rows && !Policy.ClientAllowed(c, row.value.client)
    {
      for j := 0 to |rows|
        invariant forall q :: q in rows[..j] ==> Policy.ClientAllowed(c, q.client)
      {
        assert rows[..j + 1] == rows[..j] + [rows[j]] && rows[j] in rows;
        if !Policy.ClientAllowed(c, rows[j].client) { return Some(rows[j]); }
      }
      assert rows[..|rows|] == rows;
      row := None;
    }

    /** The affected episodes that still lack an acceptable file and are monitored, each read. Unreadable state and
        excluded series are told apart. */
    method Missing(episodes: seq<int>) returns (targets: Read<Option<seq<int>>>, ghost found: seq<Target>,
                                                ghost why: Option<Obstacle>)
      modifies sonarr`said
      ensures old(sonarr.said) <= sonarr.said && (why.None? <==> targets.Got? && targets.value.Some?)
      ensures why.None? ==> TargetsRead(c, old(sonarr.said), sonarr.said, episodes, found) && targets.value.value == Wanted(episodes, found)
      ensures targets.Unavailable? ==>
        why.value.TargetUnread? && why.value.eid in episodes && Heard(old(sonarr.said), sonarr.said, EpisodeRead(why.value.eid, Unavailable))
      ensures targets.Got? && why.Some? ==>
        && why.value.TargetExcluded? && why.value.eid in episodes
        && Heard(old(sonarr.said), sonarr.said, EpisodeRead(why.value.eid, Got(why.value.target)))
        && (!Policy.SeriesAllowed(c, why.value.target.seriesID) || why.value.target.seriesMonitored.None?)
    {
      hide Heard, Policy.SeriesAllowed, Wanted;
      ghost var before := sonarr.said;
      found, why := [], None;
      var wanted: seq<int> := [];
      NothingFound(c, before, sonarr.said);
      for j := 0 to |episodes|
        invariant why.None? && before <= sonarr.said
        invariant TargetsRead(c, before, sonarr.said, episodes[..j], found) && wanted == Wanted(episodes[..j], found)
      {
        ghost var mid := sonarr.said;
        var t := sonarr.Episode(episodes[j]);
        HeardOne(mid, EpisodeRead(episodes[j], t));
        HeardWithin(before, before, mid, sonarr.said);
        HeardWithin(before, mid, sonarr.said, sonarr.said);
        assert episodes[j] in episodes;
        if t.Unavailable? { return Unavailable, found, Some(TargetUnread(episodes[j])); }
        if !Policy.SeriesAllowed(c, t.value.seriesID) || t.value.seriesMonitored.None? {
          return Got(None), found, Some(TargetExcluded(episodes[j], t.value));
        }
        OneFound(c, before, mid, sonarr.said, episodes, j, found, t.value);
        if t.value.seriesMonitored.value && t.value.episodeMonitored && !t.value.acceptable {
          wanted := wanted + [episodes[j]];
        }
        found := found + [t.value];
      }
      assert episodes[..|episodes|] == episodes;
      targets := Got(Some(wanted));
    }

    /** What the record alone says against the search of a continuation, and the removal that it follows. */
    method Barred(id: string) returns (parent: Option<Attempt>, why: Option<Obstacle>)
      requires id in store.data.operations
      ensures why.Some? ==> StopsSearch(c, store.data, id, Override(), [], [], why.value) && IsRecorded(why.value)
      ensures why.None? ==> parent.Some? && Unbarred(store.data, id, parent.value)
    {
      hide StopsSearch, Proves;
      parent, why := None, Some(NotConfigured);
      if !c.cleanupEnabled || !c.replacementSearch { RecordStops(c, store.data, id, Override(), why.value); return; }
      why := Some(ReadsFailed);
      if store.data.readFailure { RecordStops(c, store.data, id, Override(), why.value); return; }
      var pending := Ledger.HasPending(store.data, id);
      why := Some(StillOpen);
      if pending { RecordStops(c, store.data, id, Override(), why.value); return; }
      parent := FindParent(store.data.operations[id].removalID);
      why := Some(RemovalUnproved);
      if parent.None? { RecordStops(c, store.data, id, Override(), why.value); return; }
      var searched := Searched(id);
      why := Some(SearchOnRecord);
      if searched { RecordStops(c, store.data, id, Override(), why.value); return; }
      why := None;
    }

    /** The record says nothing against the search, and the removal is proved. */
    ghost predicate Unbarred(d: Data, id: string, parent: Attempt) {
      && id in d.operations && c.cleanupEnabled && c.replacementSearch && !d.readFailure && !HasUnresolved(d, id)
      && (exists j :: Proves(d.attempts, d.operations[id].removalID, j) && d.attempts[j] == parent)
      && (forall a :: a in d.attempts && !a.dryRun && a.downloadID == id ==> !a.kind.Search?)
    }

    /** What is to be searched for, with everything that was read for it. */
    ghost predicate Targeted(d: Data, id: string, eids: seq<int>, rows: seq<QueueRow>, found: seq<Target>,
                             before: seq<Reading>,
                             after: seq<Reading>) {
      && id in d.operations && id in d.issues && Heard(before, after, QueueRead(Got(rows)))
      && (forall q :: q in d.issues[id].rows ==> Policy.ClientAllowed(c, q.client))
      && TargetsRead(c, before, after, d.operations[id].episodeIDs, found)
      && eids != [] && eids == Wanted(d.operations[id].episodeIDs, found) && !Policy.Competing(rows, "", eids)
    }

    /** The episodes to search for, or what was read against it. */
    method SearchTargets(id: string)
      returns (eids: Option<seq<int>>, err: Option<Error>, ghost why: Option<Obstacle>, ghost rows: seq<QueueRow>,
               ghost found: seq<Target>)
      requires Valid() && id in store.data.operations
      modifies sonarr`said, store`data, store`run
      ensures Valid() && Quiet(old(S()), S()) && old(store.run) <= store.run && S().clock == old(S()).clock
          && old(sonarr.said) <= sonarr.said
      ensures store.data == Stopped(old(store.data), id, why)
      ensures err.Some? ==> eids.None? && why.None? && err == Some(ObservationMissing) && old(store.data).operations[id].state.Finished?
      ensures err.None? ==> (eids.Some? <==> why.None?)
      ensures why.Some? ==> StopsSearch(c, old(store.data), id, Override(), old(sonarr.said), sonarr.said, why.value)
      ensures eids.Some? ==> Targeted(old(store.data), id, eids.value, rows, found, old(sonarr.said), sonarr.said)
    {
      hide Chain, Enabled, Apply, Policy.Competes, Policy.SeriesAllowed, Policy.ClientAllowed, Wanted, Heard,
          TargetsRead, StopsSearch;
      hide Targeted;
      eids, err, why, rows, found := None, None, None, [], [];
      ghost var before, data := sonarr.said, store.data;
      var queue := sonarr.Queue();
      ghost var mid := sonarr.said;
      HeardOne(before, QueueRead(queue));
      if queue.Unavailable? {
        why := Some(QueueUnread);
        ReadingStops(c, data, id, Override(), before, mid, QueueUnread);
        ReadFailure();
        return;
      }
      rows := queue.value;
      if id !in store.data.issues {
        ContinuationHeld(c, store.run, id);
        err := Some(ObservationMissing);
        return;
      }
      var excluded := FindExcluded(store.data.issues[id].rows);
      if excluded.Some? {
        why := Some(ClientExcluded(excluded.value));
        ReadingStops(c, data, id, Override(), before, mid, why.value);
        return;
      }
      var targets: Read<Option<seq<int>>>;
      targets, found, why := Missing(store.data.operations[id].episodeIDs);
      if targets.Unavailable? || targets.value.None? {
        TargetStops(c, data, id, Override(), before, mid, sonarr.said, why.value);
        if targets.Unavailable? { ReadFailure(); }
        return;
      }
      TargetsWithin(c, before, mid, sonarr.said, sonarr.said, data.operations[id].episodeIDs, found);
      HeardWithin(before, before, mid, sonarr.said);
      if targets.value.value == [] {
        why := Some(NothingLacking(found));
        ReadingStops(c, data, id, Override(), before, sonarr.said, why.value);
        FinishOperation(id);
        return;
      }
      if Policy.Competing(queue.value, "", targets.value.value) {
        why := Some(Grounds.Contested(queue.value, found));
        ReadingStops(c, data, id, Override(), before, sonarr.said, why.value);
        return;
      }
      eids := targets.value;
      assert Targeted(data, id, eids.value, rows, found, before, sonarr.said) by { TargetedAs(data, id, eids.value, rows, found, before, sonarr.said); }
    }

    lemma TargetedAs(d: Data, id: string, eids: seq<int>, rows: seq<QueueRow>, found: seq<Target>, before: seq<Reading>,
                     after: seq<Reading>)
      requires id in d.operations && id in d.issues && Heard(before, after, QueueRead(Got(rows)))
      requires forall q :: q in d.issues[id].rows ==> Policy.ClientAllowed(c, q.client)
      requires TargetsRead(c, before, after, d.operations[id].episodeIDs, found)
      requires eids != [] && eids == Wanted(d.operations[id].episodeIDs, found) && !Policy.Competing(rows, "", eids)
      ensures Targeted(d, id, eids, rows, found, before, after)
    {
    }

    /** The result of deciding on a continuation: a search for exactly those episodes of its own removal that are
        monitored, in scope and still without an acceptable file, with no competing download in a queue just read, and
        behind an open gate; or something named that stops it. */
    ghost predicate SearchDecided(d: Data, id: string, wanted: Option<Decision>, why: Option<Obstacle>,
                                  rows: seq<QueueRow>, found: seq<Target>,
                                  now: Time, before: seq<Reading>, after: seq<Reading>) {
      && id in d.operations
      && if wanted.None? then why.Some? && StopsSearch(c, d, id, Override(), before, after, why.value)
         else
           && why.None? && SearchFor(c, d, id, before, after, wanted.value) && wanted.value.kind.Search?
           && (exists parent :: Unbarred(d, id, parent)) && (exists eids :: Targeted(d, id, eids, rows, found, before, after))
           && wanted.value.episodeIDs != []
           && multiset(wanted.value.episodeIDs) == multiset(Wanted(d.operations[id].episodeIDs, found))
           && State.Gate(c, d, id, wanted.value, now, d.operations[id].removalID, Override()) == Open
    }

    /** Decides on a continuation. What stops it is all that leaves a mark: in particular the continuation is finished
        only by a search on record or because nothing is left to search for. */
    method SearchDecision(id: string) returns (d: Option<Decision>, err: Option<Error>, ghost why: Option<Obstacle>,
                          ghost rows: seq<QueueRow>, ghost found: seq<Target>)
      requires Valid() && id in store.data.operations
      modifies clock, sonarr`said, store`data, store`run
      ensures Valid() && Quiet(old(S()), S()) && old(store.run) <= store.run && S().clock >= old(S()).clock
          && old(sonarr.said) <= sonarr.said
      ensures store.data == Stopped(old(store.data), id, why)
      ensures err.Some? ==> d.None? && why.None? && err == Some(ObservationMissing) && old(store.data).operations[id].state.Finished?
      ensures err.None? ==> SearchDecided(old(store.data), id, d, why, rows, found, S().clock, old(sonarr.said), sonarr.said)
    {
      hide Chain, Enabled, Apply, State.Gate, Wanted, Heard, StopsSearch, Unbarred, Targeted, SearchDecided, SearchFor,
          Stopped, CloseOperation;
      d, err, rows, found := None, None, [], [];
      ghost var before, data := sonarr.said, store.data;
      var parent: Option<Attempt>;
      var bar: Option<Obstacle>;
      parent, bar := Barred(id);
      why := bar;
      NotStopped(data, id);
      if bar.Some? {
        StoppedAs(data, id, bar.value);
        RecordedStop(data, id, bar.value, rows, found, S().clock, before);
        if bar.value.SearchOnRecord? { FinishOperation(id); }
        return;
      }
      var eids: Option<seq<int>>;
      eids, err, why, rows, found := SearchTargets(id);
      ghost var mid := sonarr.said;
      if err.Some? { return; }
      if eids.None? {
        ReadStop(data, id, why.value, rows, found, S().clock, before, mid);
        return;
      }
      var wanted := Decision(Kind.Search, parent.value.decision.fingerprint, Sorting.Sorted(eids.value), parent.value.decision.seriesIDs, [], false, false, false);
      SearchShaped(data, id, parent.value, eids.value, wanted, rows, found, before, mid);
      var now := Now();
      var shut := Ledger.Gate(c, store.data, id, wanted, now, store.data.operations[id].removalID, Override());
      if shut != Open {
        why := Some(GateShut(wanted, now));
        StoppedAs(data, id, why.value);
        GateStop(data, id, wanted, rows, found, now, before, mid);
        return;
      }
      var cancelled := sonarr.Cancelled();
      HeardOne(mid, CancelRead(cancelled));
      if cancelled {
        why := Some(CalledOff);
        StoppedAs(data, id, CalledOff);
        CancelStop(data, id, rows, found, now, before, mid, sonarr.said);
        return;
      }
      d := Some(wanted);
      SearchOn(data, id, parent.value, eids.value, wanted, rows, found, now, before, mid, sonarr.said);
    }

    lemma RecordedStop(d: Data, id: string, why: Obstacle, rows: seq<QueueRow>, found: seq<Target>, now: Time,
                       said: seq<Reading>)
      requires id in d.operations && StopsSearch(c, d, id, Override(), [], [], why) && IsRecorded(why)
      ensures SearchDecided(d, id, None, Some(why), rows, found, now, said, said)
    {
      hide StopsSearch;
      RecordedAnyway(c, d, id, Override(), why, said);
    }

    lemma ReadStop(d: Data, id: string, why: Obstacle, rows: seq<QueueRow>, found: seq<Target>, now: Time,
                   before: seq<Reading>, after: seq<Reading>)
      requires id in d.operations && StopsSearch(c, d, id, Override(), before, after, why)
      ensures SearchDecided(d, id, None, Some(why), rows, found, now, before, after)
    {
      hide StopsSearch;
    }

    lemma SearchShaped(d: Data, id: string, parent: Attempt, eids: seq<int>, wanted: Decision, rows: seq<QueueRow>,
                       found: seq<Target>,
                       before: seq<Reading>, after: seq<Reading>)
      requires Unbarred(d, id, parent) && Targeted(d, id, eids, rows, found, before, after)
      requires wanted == Decision(Kind.Search, parent.decision.fingerprint, Sorting.Sorted(eids),
                                  parent.decision.seriesIDs, [], false, false, false)
      ensures SearchFor(c, d, id, before, after, wanted) && wanted.episodeIDs != []
          && multiset(wanted.episodeIDs) == multiset(eids)
    {
      hide Heard, Proves, Policy.ClientAllowed, Policy.Competes, Policy.SeriesAllowed, Wanted, Searches, HasUnresolved;
      SearchesThat(parent, eids, wanted);
      SortedMembers(eids);
    }

    lemma GateStop(d: Data, id: string, wanted: Decision, rows: seq<QueueRow>, found: seq<Target>, now: Time,
                   before: seq<Reading>,
                   after: seq<Reading>)
      requires id in d.operations && SearchFor(c, d, id, before, after, wanted)
      requires State.Gate(c, d, id, wanted, now, d.operations[id].removalID, Override()) != Open
      ensures SearchDecided(d, id, None, Some(GateShut(wanted, now)), rows, found, now, before, after)
    {
      hide SearchFor, State.Gate, Heard;
    }

    lemma CancelStop(d: Data, id: string, rows: seq<QueueRow>, found: seq<Target>, now: Time, before: seq<Reading>,
                     mid: seq<Reading>,
                     after: seq<Reading>)
      requires id in d.operations && before <= mid <= after && Heard(mid, after, CancelRead(true))
      ensures SearchDecided(d, id, None, Some(CalledOff), rows, found, now, before, after)
    {
      hide SearchFor, State.Gate, Heard;
      HeardWithin(before, mid, after, after);
    }

    lemma SearchOn(d: Data, id: string, parent: Attempt, eids: seq<int>, wanted: Decision, rows: seq<QueueRow>,
                   found: seq<Target>, now: Time,
                   before: seq<Reading>, mid: seq<Reading>, after: seq<Reading>)
      requires before <= mid <= after && Unbarred(d, id, parent) && Targeted(d, id, eids, rows, found, before, mid)
      requires SearchFor(c, d, id, before, mid, wanted) && wanted.episodeIDs != []
          && multiset(wanted.episodeIDs) == multiset(eids)
      requires State.Gate(c, d, id, wanted, now, d.operations[id].removalID, Override()) == Open && wanted.kind.Search?
      ensures SearchDecided(d, id, Some(wanted), None, rows, found, now, before, after)
    {
      hide SearchFor, State.Gate, Heard, TargetsRead, Wanted, Unbarred, Policy.ClientAllowed, Policy.Competes;
      SearchForWithin(c, d, d, id, before, before, mid, after, wanted);
      HeardWithin(before, before, mid, after);
      TargetsWithin(c, before, before, mid, after, d.operations[id].episodeIDs, found);
      assert Targeted(d, id, eids, rows, found, before, after);
    }

    /** The result of a search: one for the episodes just decided on is sent, or something named stops it and leaves its
        mark, or the record cannot be saved. */
    ghost predicate SearchedAs(d: Data, e: Data, id: string, log: seq<Tx>, more: seq<Tx>, err: Option<Error>,
                               why: Option<Obstacle>,
                               before: seq<Reading>, after: seq<Reading>) {
      && id in d.operations
      && if more == log then
           || err == Some(SaveFailed)
           || (why.Some? && StopsSearch(c, d, id, Override(), before, after, why.value) && e == Stopped(d, id, why))
         else
           && |more| == |log| + 1 && id in d.issues
           && var a := more[|log|].attempt;
              Sends(log, more, id, a.decision, map[], d.issues[id].title) && SearchFor(c, d, id, before, after, a.decision)
    }

    /** Searches for replacements of one verified removal, after deciding afresh. */
    method Search(id: string, ghost at: Time) returns (err: Option<Error>, ghost why: Option<Obstacle>)
      requires Valid() && !Harmless() && at <= S().clock && Prompt(store.data.attempts, at)
      requires id in store.data.operations && store.data.operations[id].state.PendingSearch?
      modifies clock, sonarr, store`data, store`disk, store`run
      ensures Valid() && at <= S().clock && Prompt(store.data.attempts, at) && old(store.run) <= store.run
          && Unscanned(old(S()), S())
      ensures SameTimes(old(store.data).issues, store.data.issues) && OthersSame(old(store.data), store.data, id)
      ensures err.None? || err == Some(SaveFailed)
      ensures Accounted(c, pattern, old(S()).log, S().log, old(sonarr.sent), sonarr.sent, old(sonarr.said), sonarr.said)
      ensures SearchedAs(old(store.data), store.data, id, old(S()).log, S().log, err, why, old(sonarr.said),
                         sonarr.said)
    {
      hide Chain, Enabled, Apply, State.Gate, Prompt, SameTimes, SameRecord, Heard, SearchDecided, SearchedAs,
          Accounted, OthersSame, Stopped;
      hide Committed, Warranted;
      ghost var data, log := store.data, S().log;
      ghost var first, sent := sonarr.said, sonarr.sent;
      var d: Option<Decision>;
      ghost var rows: seq<QueueRow>;
      ghost var found: seq<Target>;
      d, err, why, rows, found := SearchDecision(id);
      StoppedFacts(data, id, why);
      ghost var mid := sonarr.said;
      NothingAccounted(c, pattern, log, sent, first, mid);
      if err.Some? || d.None? {
        NotSearched(data, id, log, why, rows, found, S().clock, first, mid);
        return;
      }
      ghost var decided := S().clock;
      SearchFacts(data, id, d.value, why, rows, found, decided, first, mid);
      var now := Now();
      Ledger.GateStaysOpen(c, store.data, id, d.value, decided, now, store.data.operations[id].removalID, Override());
      SearchWarranted(c, S(), id, d.value);
      err := Commit(id, d.value, d.value, now, map[], at);
      CommitSearches(data, store.data, id, d.value, log, S().log, sent, sonarr.sent, err, why, rows, found, decided,
                     first, mid, sonarr.said);
    }

    lemma NotSearched(d: Data, id: string, log: seq<Tx>, why: Option<Obstacle>, rows: seq<QueueRow>, found: seq<Target>,
                      now: Time,
                      before: seq<Reading>, after: seq<Reading>)
      requires SearchDecided(d, id, None, why, rows, found, now, before, after)
      ensures SearchedAs(d, Stopped(d, id, why), id, log, log, None, why, before, after)
    {
      hide StopsSearch;
    }

    lemma SearchFacts(d: Data, id: string, wanted: Decision, why: Option<Obstacle>, rows: seq<QueueRow>,
                      found: seq<Target>, now: Time,
                      before: seq<Reading>, after: seq<Reading>)
      requires SearchDecided(d, id, Some(wanted), why, rows, found, now, before, after)
      ensures id in d.issues && Stopped(d, id, why) == d && wanted.kind.Search? && c.cleanupEnabled
          && c.replacementSearch
      ensures State.Gate(c, d, id, wanted, now, d.operations[id].removalID, Override()) == Open
    {
      hide SearchFor, State.Gate, Heard, TargetsRead, Wanted, Policy.ClientAllowed, Policy.Competes, Proves,
          HasUnresolved;
    }

    lemma CommitSearches(d: Data, e: Data, id: string, wanted: Decision, log: seq<Tx>, more: seq<Tx>,
                         sent: seq<Attempt>, resent: seq<Attempt>,
                         err: Option<Error>, why: Option<Obstacle>, rows: seq<QueueRow>, found: seq<Target>,
                             decided: Time,
                         before: seq<Reading>, mid: seq<Reading>, after: seq<Reading>)
      requires SearchDecided(d, id, Some(wanted), why, rows, found, decided, before, mid) && before <= mid <= after
      requires Committed(d, id, wanted, map[], log, more, sent, resent, err)
      ensures Accounted(c, pattern, log, more, sent, resent, before, after)
      ensures SearchedAs(d, e, id, log, more, err, why, before, after)
    {
      hide SearchFor, State.Gate, Heard, TargetsRead, Wanted, Policy.ClientAllowed, Policy.Competes, Proves,
          HasUnresolved, FromTargets;
      if more == log {
        NothingAccounted(c, pattern, log, sent, before, after);
      } else {
        var a := more[|log|].attempt;
        var eids :| Targeted(d, id, eids, rows, found, before, mid);
        SearchedTargets(c, d, id, before, mid, rows, found, a);
        JustifiedWithin(c, pattern, before, before, mid, after, a);
        OneAccounted(c, pattern, log, more, sent, resent, before, after);
        SearchForWithin(c, d, d, id, before, before, mid, after, wanted);
      }
    }

    // -------------------------------------------------------------- reconciliation

    /** What a verdict means for the attempt's continuation and observation. */
    method Conclude(j: nat, b: Attempt, now: Time)
      requires j < |store.data.attempts|
      modifies store`data
      ensures store.data == Settle(c, old(store.data), j, b, now)
    {
      store.data := store.data.(attempts := store.data.attempts[j := b]);
      if b.Completed() {
        if b.kind.Search? && b.downloadID in store.data.operations {
          store.data := store.data.(operations := store.data.operations[b.downloadID := store.data.operations[b.downloadID].(state := Finished)]);
        }
        if b.kind.RemoveUnusable? && c.replacementSearch {
          store.data := store.data.(operations := store.data.operations[b.downloadID := Operation(b.id, b.downloadID, b.decision.episodeIDs, PendingSearch)]);
        }
        if b.downloadID in store.data.issues {
          store.data := store.data.(issues := store.data.issues[b.downloadID := store.data.issues[b.downloadID].(state := Resolved, resolvedAt := now)]);
        }
      } else if b.outcome.KnownFailed? && b.kind.Search? && b.downloadID in store.data.operations {
        store.data := store.data.(operations := store.data.operations[b.downloadID := store.data.operations[b.downloadID].(state := Finished)]);
      }
    }

    /** Records the verdict on one attempt, with what it means and the failure of a required read. */
    method Impose(j: nat, b: Attempt, broken: bool, now: Time, ghost absent: bool, ghost evidence: Reads)
      requires Valid() && 0 < now <= S().clock && j < |store.data.attempts| && store.data.attempts[j].Unresolved()
      requires ReadsFor(store.data.attempts[j], evidence) && b == Verdict(store.data.attempts[j], absent, evidence, now)
      modifies store`data, store`run
      ensures Valid() && Quiet(old(S()), S()) && S().clock == old(S()).clock && old(store.run) <= store.run
      ensures store.data == if broken then Settle(c, old(store.data), j, b, now).(readFailure := true) else Settle(c, old(store.data), j, b, now)
    {
      hide Chain, Enabled, Apply, Moves, Verdict, Settle;
      VerifyStep(c, S(), j, absent, evidence, now);
      Conclude(j, b, now);
      store.Did(Action.Verify(j, absent, evidence, now));
      if broken { ReadFailure(); }
    }

    /** Verifies one attempt against evidence read now: the verdict on it, with what that means for its continuation
        and its observation, and the failure of a required read. No other attempt changes. */
    method Verify(j: nat, queue: seq<QueueRow>, now: Time) returns (ghost evidence: Reads)
      requires Valid() && 0 < now <= S().clock && j < |store.data.attempts| && store.data.attempts[j].Unresolved()
      modifies sonarr`said, store`data, store`run
      ensures Valid() && Quiet(old(S()), S()) && S().clock == old(S()).clock && old(store.run) <= store.run
      ensures ReadsFor(old(store.data).attempts[j], evidence) && old(sonarr.said) <= sonarr.said
      ensures Heard(old(sonarr.said), sonarr.said, EvidenceRead(old(store.data).attempts[j], evidence))
      ensures store.data == Reconciled(c, old(store.data), j, queue, evidence, now)
      ensures exists b :: store.data.attempts == old(store.data).attempts[j := b] && Moves(old(store.data).attempts[j], b, now)
    {
      hide Chain, Enabled, Apply, Moves, Verdict, Weigh, Settle, Heard, Reconciled;
      ghost var data := store.data;
      var a := store.data.attempts[j];
      KindKnown(c, store.run, j);
      var read := sonarr.Evidence(a);
      HeardOne(old(sonarr.said), EvidenceRead(a, read));
      evidence := read;
      ghost var absent := forall q :: q in queue ==> q.downloadID != a.downloadID;
      var b, broken := Verification.Judge(a, queue, read, now);
      VerdictMoves(a, absent, evidence, now);
      ReconciledAs(c, data, j, queue, evidence, now, b, broken);
      Impose(j, b, broken, now, absent, evidence);
    }

    /** Verifies every unresolved attempt, the uncertain and partial ones too, each once and against evidence read for
        it: each ends in its verdict, with what that means, and no other attempt changes. Afterwards none is left merely
        awaited past its deadline. */
    method VerifyAll(queue: seq<QueueRow>, now: Time) returns (ghost evidence: seq<Reads>)
      requires Valid() && 0 < now <= S().clock
      modifies sonarr`said, store`data, store`run
      ensures Valid() && Quiet(old(S()), S()) && S().clock == old(S()).clock && old(store.run) <= store.run
      ensures old(sonarr.said) <= sonarr.said && Prompt(store.data.attempts, now)
      ensures |evidence| == |old(store.data).attempts| && EvidenceFits(old(store.data).attempts, evidence)
      ensures store.data == AllReconciled(c, old(store.data), queue, evidence, now, |evidence|)
      ensures forall j :: 0 <= j < |evidence| && old(store.data).attempts[j].Unresolved() ==>
                Heard(old(sonarr.said), sonarr.said, EvidenceRead(old(store.data).attempts[j], evidence[j]))
    {
      hide Chain, Enabled, Apply, Heard, Reconciled;
      ghost var data, said := store.data, sonarr.said;
      evidence := [];
      for j := 0 to |store.data.attempts|
        invariant Valid() && Quiet(old(S()), S()) && S().clock == old(S()).clock && old(store.run) <= store.run
        invariant |store.data.attempts| == |data.attempts| && store.data.attempts[j..] == data.attempts[j..]
        invariant Prompt(store.data.attempts[..j], now) && said <= sonarr.said
        invariant |evidence| == j && EvidenceFits(data.attempts[..j], evidence)
        invariant store.data == AllReconciled(c, data, queue, evidence, now, j)
        invariant forall k :: 0 <= k < j && data.attempts[k].Unresolved() ==> Heard(said, sonarr.said, EvidenceRead(data.attempts[k], evidence[k]))
      {
        ghost var s, mid := store.data.attempts, sonarr.said;
        assert s[j..][0] == data.attempts[j..][0];
        ghost var read := NoReads(s[j]);
        if store.data.attempts[j].Unresolved() {
          read := Verify(j, queue, now);
          HeardWithin(said, mid, sonarr.said, sonarr.said);
          assert store.data.attempts[..j] == s[..j];
        }
        HeardWithin(said, said, mid, sonarr.said);
        assert store.data.attempts[..j + 1] == s[..j] + [store.data.attempts[j]];
        assert data.attempts[..j + 1] == data.attempts[..j] + [data.attempts[j]];
        ReconciledMore(c, data, queue, evidence, read, now, j);
        evidence := evidence + [read];
      }
      assert store.data.attempts[..|store.data.attempts|] == store.data.attempts;
      assert data.attempts[..|data.attempts|] == data.attempts;
    }

    // -------------------------------------------------------------- plans

    /** The allowance of one cycle: neither limit is used up by the plans made so far, and no plan shares an episode. */
    method PlanGate(d: Decision, plans: seq<Plan>, now: Time) returns (ok: bool)
      ensures ok <==>
        && |plans| < c.perScan && |plans| + State.Budget(store.data, now) < c.perHour
        && forall p :: p in plans ==> !Shares(d.episodeIDs, p.decision.episodeIDs)
    {
      var used := Ledger.Budget(store.data, now);
      if |plans| >= c.perScan || |plans| + used >= c.perHour { return false; }
      for j := 0 to |plans|
        invariant forall p :: p in plans[..j] ==> !Shares(d.episodeIDs, p.decision.episodeIDs)
      {
        assert plans[..j + 1] == plans[..j] + [plans[j]] && plans[j] in plans;
        var shared := Ledger.Overlaps(d.episodeIDs, plans[j].decision.episodeIDs);
        if shared { return false; }
      }
      assert plans[..|plans|] == plans;
      ok := true;
    }

    /** How a protected download is reported: in progress, or uncertain once any of its effects is. */
    method Protection(id: string) returns (state: IssueState)
      ensures state == Guarded(store.data.attempts, id) && (state == InProgress || state == Unsure)
    {
      state := InProgress;
      for j := 0 to |store.data.attempts|
        invariant state == Guarded(store.data.attempts[..j], id)
      {
        var a := store.data.attempts[j];
        assert store.data.attempts[..j + 1] == store.data.attempts[..j] + [a] && a in store.data.attempts[..j + 1];
        if a.downloadID == id && (a.outcome.Uncertain? || a.outcome.Partial?) {
          state := Unsure;
        }
      }
      assert store.data.attempts[..|store.data.attempts|] == store.data.attempts;
    }

    /** A dry run records each recommendation once: a new record exactly if none of this kind is there for the download
        and the candidate. */
    method Recommend(id: string, d: Decision, now: Time)
      requires Valid() && request.None? && c.dryRun && now == S().clock
      modifies store`data, store`run
      ensures Valid() && Quiet(old(S()), S()) && S().clock == now && old(store.run) <= store.run
      ensures store.data == old(store.data).(attempts := store.data.attempts)
      ensures Advises(old(store.data).attempts, store.data.attempts, id, d, now)
      ensures forall at :: Prompt(old(store.data).attempts, at) ==> Prompt(store.data.attempts, at)
    {
      hide Chain, MaxID;
      for j := |store.data.attempts| downto 0
        invariant forall k :: j <= k < |store.data.attempts| ==> !Advice(store.data.attempts[k], id, d)
      {
        var a := store.data.attempts[j];
        if a.downloadID == id && a.dryRun && a.decision.fingerprint == d.fingerprint && a.kind == d.kind {
          assert Advice(a, id, d) && a in store.data.attempts;
          return;
        }
      }
      var next := Ledger.NextID(store.data);
      var a := Attempt(false, "", false, next, id, d.kind, true, now, now, Recommended, 0, false, d, map[], {}, false, false, "");
      store.data := store.data.(attempts := store.data.attempts + [a]);
      store.Did(Action.Recommend(id, d));
    }

    /** The wait of one candidate: an override stands in for it. */
    method HasWaited(id: string, d: Decision) returns (ok: bool)
      requires id in store.data.issues && !d.kind.Search?
      ensures ok == WaitedFor(c, store.data.issues, Override(), Plan(id, d))
    {
      var wait, elapsed := c.recoveryWait, store.data.issues[id].elapsed;
      if !d.kind.Import? {
        wait, elapsed := CleanupWait(c, Some(d)), CleanupElapsed(store.data.issues[id]);
      }
      ok := elapsed >= wait || Override();
    }

    /** The new state of one candidate, with the decision it rests on; whether it is recoverable now. */
    method Assess(id: string, view: Option<View>, now: Time) returns (recoverable: bool)
      requires Valid() && id in store.data.issues && now == S().clock && (view.Some? ==> !view.value.decision.kind.Search?)
      modifies store`data, store`run
      ensures Valid() && Aside(old(S()), S()) && old(store.run) <= store.run
      ensures store.data == Assessed(old(store.data), id, Standing(c, old(store.data), Override(), id, view, now),
                                     Basis(old(store.data), id, view))
      ensures recoverable <==> Standing(c, old(store.data), Override(), id, view, now) == Some(Recoverable)
    {
      hide Chain, Enabled, Apply, State.Gate, SameTimes, WaitedFor, HasUnresolved, Guarded, Noted;
      recoverable := false;
      SameTimesSelf(store.data.issues);
      var pending := Ledger.HasPending(store.data, id);
      if pending {
        var state := Protection(id);
        SetIssue(id, state, None);
        return;
      }
      if view.None? { return; }
      var d := view.value.decision;
      if d.kind == Defer { SetIssue(id, PolicyBlocked, Some(d)); return; }
      var waited := HasWaited(id, d);
      if !waited { SetIssue(id, Waiting, Some(d)); return; }
      var why := Ledger.Gate(c, store.data, id, d, now, 0, Override());
      if why != Open {
        SetIssue(id, if why == RollingHour || why == Exhausted then ExhaustedState else RetryWaiting, Some(d));
        return;
      }
      SetIssue(id, Recoverable, Some(d));
      recoverable := true;
    }

    /** One candidate: its new state, with the decision it rests on. Only one that is recoverable is recommended, by
        a dry run, or planned. */
    method PlanIssue(id: string, view: Option<View>, plans: seq<Plan>, now: Time,
                     ghost at: Time) returns (plan: Option<Decision>)
      requires Valid() && id in store.data.issues && now == S().clock && Prompt(store.data.attempts, at)
      requires view.Some? ==> !view.value.decision.kind.Search?
      modifies sonarr`said, store`data, store`run
      ensures Valid() && Quiet(old(S()), S()) && S().clock == now && old(store.run) <= store.run
          && old(sonarr.said) <= sonarr.said
      ensures Prompt(store.data.attempts, at) && SameTimes(old(store.data).issues, store.data.issues)
      ensures store.data.operations == old(store.data).operations
      ensures var state := Standing(c, old(store.data), Override(), id, view, now);
              && store.data == Assessed(old(store.data), id, state,
                                        Basis(old(store.data), id, view)).(attempts := store.data.attempts)
              && (if state == Some(Recoverable) && request.None? && c.dryRun
                  then view.Some? && Advises(old(store.data).attempts, store.data.attempts, id, view.value.decision, now)
                  else store.data.attempts == old(store.data).attempts)
      ensures plan.None? && Standing(c, old(store.data), Override(), id, view, now) == Some(Recoverable) && !(request.None? && c.dryRun) ==>
        view.Some? && NoRoom(store.data, view.value.decision, plans, now, old(sonarr.said), sonarr.said)
      ensures plan.Some? ==>
        && Standing(c, old(store.data), Override(), id, view, now) == Some(Recoverable) && view.Some?
        && plan == Some(view.value.decision)
        && plan.value.kind != Defer && !plan.value.kind.Search?
        && WaitedFor(c, store.data.issues, Override(), Plan(id, plan.value))
        && !(request.None? && c.dryRun) && State.Gate(c, store.data, id, plan.value, now, 0, Override()) == Open
        && |plans| < c.perScan && |plans| + State.Budget(store.data, now) < c.perHour && !store.data.readFailure
        && forall p :: p in plans ==> !Shares(plan.value.episodeIDs, p.decision.episodeIDs)
    {
      hide Chain, Enabled, Apply, State.Gate, SameTimes, Prompt, WaitedFor, HasUnresolved, Guarded, Standing, Shares;
      hide State.Budget, Heard, Advises;
      plan := None;
      ghost var data := store.data;
      var recoverable := Assess(id, view, now);
      if !recoverable { return; }
      StandsOpen(c, data, Override(), id, view, now);
      var d := view.value.decision;
      WaitedStill(c, data.issues, store.data.issues, Override(), Plan(id, d));
      GateOfAttempts(c, data, store.data, id, d, now, Override());
      if request.None? && c.dryRun { Recommend(id, d, now); return; }
      if store.data.readFailure { return; }
      var cancelled := sonarr.Cancelled();
      HeardOne(old(sonarr.said), CancelRead(cancelled));
      if cancelled { return; }
      var allowed := PlanGate(d, plans, now);
      if allowed {
        plan := Some(d);
      }
    }

    /** Why a recoverable candidate is not planned: a failed read, cancellation, a used allowance, or an episode of a
        plan that is there already. */
    ghost predicate NoRoom(d: Data, action: Decision, plans: seq<Plan>, now: Time, before: seq<Reading>,
                           after: seq<Reading>) {
      || d.readFailure || Heard(before, after, CancelRead(true))
      || |plans| >= c.perScan || |plans| + State.Budget(d, now) >= c.perHour
      || exists p :: p in plans && Shares(action.episodeIDs, p.decision.episodeIDs)
    }

    /** The plans of a cycle: within the allowance, for selected downloads, each ready to be executed. */
    ghost predicate Planned(plans: seq<Plan>)
      reads store
      requires store.run != []
    {
      && |plans| <= c.perScan && Ready(c, store.data, Override(), plans) && NoShare(plans)
      && Offers(S(), pattern, plans)
      && (forall p :: p in plans ==> Selected(p.id)) && (plans != [] ==> !(request.None? && c.dryRun))
    }

    /** One recorded observation, on top of the plans made so far: assessed, and planned or recommended if it is
        recoverable and there is room. */
    method Consider(id: string, views: map<string, View>, plans: seq<Plan>, now: Time,
                    ghost at: Time) returns (more: seq<Plan>)
      requires Valid() && now == S().clock && Prompt(store.data.attempts, at) && id in store.data.issues && Selected(id)
      requires ViewsOffered(S(), pattern, views) && Planned(plans) && forall p :: p in plans ==> !p.decision.kind.Search?
      modifies sonarr`said, store`data, store`run
      ensures Valid() && Quiet(old(S()), S()) && S().clock == now && old(store.run) <= store.run
          && old(sonarr.said) <= sonarr.said
      ensures Prompt(store.data.attempts, at) && Planned(more) && forall p :: p in more ==> !p.decision.kind.Search?
      ensures SameTimes(old(store.data).issues, store.data.issues)
      ensures Considered(old(store.data), store.data, id, ViewAt(views, id), plans, more, now, old(sonarr.said),
                         sonarr.said)
    {
      hide Chain, Enabled, Apply, SameTimes, Prompt, WaitedFor, Shares, State.Gate, State.Budget, Ready, NoShare;
      hide Offers, Standing, Assessed, Offered, Rejections.Caused, Advises, NoRoom;
      ghost var data, before := store.data, S();
      var plan := PlanIssue(id, ViewAt(views, id), plans, now, at);
      ReadyStill(c, data, store.data, Override(), plans);
      OffersStill(before, S(), pattern, plans);
      more := plans;
      if plan.Some? {
        OfferedStill(before, S(), id, plan.value);
        ReadyMore(c, store.data, Override(), plans, Plan(id, plan.value));
        OffersMore(S(), pattern, plans, Plan(id, plan.value));
        NoShareMore(plans, Plan(id, plan.value));
        more := plans + [Plan(id, plan.value)];
      }
    }

    /** What considering one candidate does: its new state, a recommendation in a background dry run, and otherwise a
        plan unless there is no room for it. */
    ghost predicate Considered(d: Data, e: Data, id: string, view: Option<View>, plans: seq<Plan>, more: seq<Plan>,
                               now: Time,
                               before: seq<Reading>, after: seq<Reading>)
      requires id in d.issues
    {
      var state := Standing(c, d, Override(), id, view, now);
      && e == Assessed(d, id, state, Basis(d, id, view)).(attempts := e.attempts)
      && (if state == Some(Recoverable) && request.None? && c.dryRun
          then view.Some? && Advises(d.attempts, e.attempts, id, view.value.decision, now) else e.attempts == d.attempts)
      && (if state == Some(Recoverable) && !(request.None? && c.dryRun)
          then view.Some? && (more == plans + [Plan(id, view.value.decision)]
                              || (more == plans && NoRoom(e, view.value.decision, plans, now, before, after)))
          else more == plans)
    }

    /** A recorded observation that a cycle considers. */
    predicate Candidate(d: Data, gone: set<string>, id: string) {
      id in d.issues && !d.issues[id].state.Resolved? && Selected(id) && id !in gone
    }

    function Candidates(d: Data, gone: set<string>): set<string> {
      set id | id in d.issues && Candidate(d, gone, id)
    }

    /** The candidates so far, each as if it were the only one: what is recorded of them, the recommendations, and the
        plans. */
    ghost predicate Assessment(d: Data, e: Data, who: set<string>, views: map<string, View>, plans: seq<Plan>,
                               now: Time,
                               before: seq<Reading>, after: seq<Reading>) {
      && before <= after && who <= d.issues.Keys && AllAssessed(c, d, e, Override(), views, now, who)
      && AllAdvised(c, d, e, Override(), views, now, who, request.None? && c.dryRun)
      && (!(request.None? && c.dryRun) ==> forall id :: id in who && Recovers(c, d, Override(), views, now, id) ==>
            Plan(id, views[id].decision) in plans || NoRoom(e, views[id].decision, plans, now, before, after))
      && forall p :: p in plans ==> p.id in who && Recovers(c, d, Override(), views, now, p.id) && p.decision == views[p.id].decision
    }

    lemma AssessedNone(d: Data, views: map<string, View>, now: Time, said: seq<Reading>)
      ensures Assessment(d, d, {}, views, [], now, said, said)
    {
    }

    lemma AssessedOne(d: Data, e: Data, f: Data, who: set<string>, id: string, views: map<string, View>,
                      plans: seq<Plan>,
                      more: seq<Plan>, now: Time, before: seq<Reading>, mid: seq<Reading>, after: seq<Reading>)
      requires Assessment(d, e, who, views, plans, now, before, mid) && id in d.issues && id !in who && mid <= after
      requires id in e.issues && Considered(e, f, id, ViewAt(views, id), plans, more, now, mid, after)
      ensures Assessment(d, f, who + {id}, views, more, now, before, after)
    {
      hide Standing, Shares, LiveSince, Heard, Advises, Guarded, HasUnresolved, AllAssessed, AllAdvised;
      StandingSame(c, d, e, Override(), id, ViewAt(views, id), now, who, views, request.None? && c.dryRun);
      HeardWithin(before, before, mid, after);
      HeardWithin(before, mid, after, after);
      OneAssessed(c, d, e, f, Override(), views, now, who, id);
      OneAdvised(c, d, e, f, Override(), views, now, who, id, request.None? && c.dryRun);
      if !(request.None? && c.dryRun) {
        forall x | x in who + {id} && Recovers(c, d, Override(), views, now, x)
          ensures Plan(x, views[x].decision) in more || NoRoom(f, views[x].decision, more, now, before, after)
        {
          assert f.attempts == e.attempts && f.readFailure == e.readFailure;
        }
      }
    }

    /** Considers every candidate, in any order: each gets the state that it has on its own, each recoverable one is
        planned unless there is no room for it or, in a background dry run, recommended once, and nothing else changes.
        */
    method PlanIssues(views: map<string, View>, gone: set<string>, now: Time, ghost at: Time) returns (plans: seq<Plan>)
      requires Valid() && now == S().clock && Prompt(store.data.attempts, at) && c.perScan > 0
      requires ViewsOffered(S(), pattern, views)
      modifies sonarr`said, store`data, store`run
      ensures Valid() && Quiet(old(S()), S()) && S().clock == now && old(store.run) <= store.run
      ensures Prompt(store.data.attempts, at) && Planned(plans) && forall p :: p in plans ==> !p.decision.kind.Search?
      ensures old(sonarr.said) <= sonarr.said
      ensures Assessment(old(store.data), store.data, Candidates(old(store.data), gone),
                         views, plans, now, old(sonarr.said), sonarr.said)
    {
      hide Chain, Enabled, Apply, SameTimes, Prompt, WaitedFor, Shares, Ready, NoShare, Offers, ViewsOffered;
      hide Assessment, Considered;
      plans := [];
      ghost var data, said := store.data, sonarr.said;
      NoPlans(c, store.data, Override(), S(), pattern);
      AssessedNone(data, views, now, said);
      var todo := set id | id in store.data.issues && !store.data.issues[id].state.Resolved?;
      ghost var who: set<string> := {};
      SameTimesSelf(store.data.issues);
      while todo != {}
        invariant Valid() && Quiet(old(S()), S()) && S().clock == now && old(store.run) <= store.run
        invariant Prompt(store.data.attempts, at) && Planned(plans) && (forall p :: p in plans ==> !p.decision.kind.Search?)
        invariant SameTimes(data.issues, store.data.issues) && todo <= data.issues.Keys && said <= sonarr.said
        invariant forall id :: id in who <==> id in data.issues && Candidate(data, gone, id) && id !in todo
        invariant forall id :: id in todo ==> !data.issues[id].state.Resolved?
        invariant forall id :: id in data.issues && !data.issues[id].state.Resolved? ==> id in todo || id in who || !Candidate(data, gone, id)
        invariant Assessment(data, store.data, who, views, plans, now, said, sonarr.said)
        decreases |todo|
      {
        var id := Sets.Take(todo);
        todo := todo - {id};
        if !Selected(id) || id in gone { continue; }
        ghost var mid, between, first := store.data, sonarr.said, plans;
        SameTimesKeys(data.issues, mid.issues, id);
        ViewsStill(old(S()), S(), pattern, views);
        plans := Consider(id, views, plans, now, at);
        SameTimesTrans(data.issues, mid.issues, store.data.issues);
        AssessedOne(data, mid, store.data, who, id, views, first, plans, now, said, between, sonarr.said);
        who := who + {id};
      }
      assert who == Candidates(data, gone);
    }

    /** Why a continuation has no plan: something stops its search, or there is no room for it. A continuation that is
        not waiting, not selected, or seen by a background dry run is left alone. */
    ghost predicate Continued(d: Data, e: Data, id: string, plans: seq<Plan>, now: Time, before: seq<Reading>,
                              after: seq<Reading>)
      requires id in d.operations
    {
      && id in e.operations
      && if !d.operations[id].state.PendingSearch? || !Selected(id) || (request.None? && c.dryRun) then e.operations[id] == d.operations[id]
         else
           || (e.operations[id] == d.operations[id] && exists wanted ::
                 SearchFor(c, d, id, before, after, wanted) && (Plan(id, wanted) in plans || NoRoom(e, wanted, plans, now, before, after)))
           || (exists why :: StopsSearch(c, d.(readFailure := e.readFailure), id, Override(), before, after, why)
                             && e.operations[id] == Stopped(d, id, Some(why)).operations[id])
    }

    /** One waiting continuation, on top of the plans made so far: planned, unless something stops it or leaves no room.
        */
    method ConsiderSearch(id: string, plans: seq<Plan>, now: Time, ghost at: Time) returns (more: seq<Plan>)
      requires Valid() && at <= now <= S().clock && Prompt(store.data.attempts, at) && Planned(plans)
      requires id in store.data.operations && store.data.operations[id].state.PendingSearch? && Selected(id)
          && !(request.None? && c.dryRun)
      requires forall p :: p in plans && p.decision.kind.Search? ==> p.id != id
      modifies clock, sonarr`said, store`data, store`run
      ensures Valid() && Quiet(old(S()), S()) && S().clock >= old(S()).clock && old(store.run) <= store.run
          && old(sonarr.said) <= sonarr.said
      ensures Prompt(store.data.attempts, at) && Planned(more) && plans <= more && forall p :: p in more[|plans|..] ==> p.id == id
      ensures SearchConsidered(old(store.data), store.data, id, plans, more, now, old(sonarr.said), sonarr.said)
    {
      hide Chain, Enabled, Apply, SameTimes, SameRecord, Prompt, WaitedFor, State.Gate, HasUnresolved, OthersSame,
          Ready, NoShare;
      hide Shares, StopsSearch, SearchFor, Heard, Offers, SearchDecided, SearchConsidered, State.Budget, Stopped;
      ghost var data, said := store.data, sonarr.said;
      var d: Option<Decision>;
      var err: Option<Error>;
      ghost var why: Option<Obstacle>;
      ghost var rows: seq<QueueRow>;
      ghost var found: seq<Target>;
      d, err, why, rows, found := SearchDecision(id);
      StoppedFacts(data, id, why);
      ReadyBut(c, data, store.data, Override(), plans, id);
      OffersStill(old(S()), S(), pattern, plans);
      more := plans;
      if d.None? {
        SearchStopped(data, id, plans, now, why, rows, found, S().clock, said, sonarr.said);
        return;
      }
      SearchFacts(data, id, d.value, why, rows, found, S().clock, said, sonarr.said);
      var allowed := PlanGate(d.value, plans, now);
      if allowed {
        ReadySearch(c, store.data, Override(), plans, Plan(id, d.value));
        OffersMore(S(), pattern, plans, Plan(id, d.value));
        NoShareMore(plans, Plan(id, d.value));
        more := plans + [Plan(id, d.value)];
      }
      SearchGiven(data, id, d.value, plans, more, now, why, rows, found, S().clock, said, sonarr.said);
    }

    /** What considering one continuation does. */
    ghost predicate SearchConsidered(d: Data, e: Data, id: string, plans: seq<Plan>, more: seq<Plan>, now: Time,
                                     before: seq<Reading>,
                                     after: seq<Reading>) {
      && id in d.operations
      && ((e == d && exists wanted ::
             && SearchFor(c, d, id, before, after, wanted)
             && (more == plans + [Plan(id, wanted)] || (more == plans && NoRoom(d, wanted, plans, now, before, after))))
          || (more == plans && exists why :: StopsSearch(c, d, id, Override(), before, after, why) && e == Stopped(d, id, Some(why))))
    }

    lemma SearchStopped(d: Data, id: string, plans: seq<Plan>, now: Time, why: Option<Obstacle>, rows: seq<QueueRow>,
                        found: seq<Target>,
                        decided: Time, before: seq<Reading>, after: seq<Reading>)
      requires SearchDecided(d, id, None, why, rows, found, decided, before, after)
      ensures SearchConsidered(d, Stopped(d, id, why), id, plans, plans, now, before, after)
    {
      hide StopsSearch, SearchFor, Stopped;
    }

    lemma SearchGiven(d: Data, id: string, wanted: Decision, plans: seq<Plan>, more: seq<Plan>, now: Time,
                      why: Option<Obstacle>,
                      rows: seq<QueueRow>, found: seq<Target>, decided: Time, before: seq<Reading>, after: seq<Reading>)
      requires SearchDecided(d, id, Some(wanted), why, rows, found, decided, before, after)
      requires more == plans + [Plan(id, wanted)] || (more == plans && NoRoom(d, wanted, plans, now, before, after))
      ensures SearchConsidered(d, d, id, plans, more, now, before, after)
    {
      hide StopsSearch, SearchFor, Stopped, NoRoom, Targeted, Unbarred, State.Gate, Wanted;
    }

    /** Plans for continuations, whether or not their queue rows still exist: each waiting one is planned, or something
        named stops it or leaves no room for it, and it is finished only by that. */
    method PlanSearches(first: seq<Plan>, now: Time, ghost at: Time) returns (plans: seq<Plan>)
      requires Valid() && at <= now <= S().clock && Prompt(store.data.attempts, at) && Planned(first)
      requires forall p :: p in first ==> !p.decision.kind.Search?
      modifies clock, sonarr`said, store`data, store`run
      ensures Valid() && Quiet(old(S()), S()) && S().clock >= old(S()).clock && old(store.run) <= store.run
          && old(sonarr.said) <= sonarr.said
      ensures Prompt(store.data.attempts, at) && Planned(plans) && first <= plans
      ensures AllContinued(old(store.data), store.data, {}, plans, now, old(sonarr.said), sonarr.said)
    {
      hide Chain, Enabled, Apply, Prompt, Planned, AllContinued, SearchConsidered;
      plans := first;
      ghost var data, said := store.data, sonarr.said;
      var todo := store.data.operations.Keys;
      NoSearches(first, todo);
      NoneContinued(data, first, now, said);
      while todo != {}
        invariant Valid() && Quiet(old(S()), S()) && S().clock >= old(S()).clock && old(store.run) <= store.run
        invariant Prompt(store.data.attempts, at) && Planned(plans) && first <= plans && said <= sonarr.said
        invariant forall p :: p in plans && p.decision.kind.Search? ==> p.id !in todo
        invariant AllContinued(data, store.data, todo, plans, now, said, sonarr.said)
        decreases |todo|
      {
        var id := Sets.Take(todo);
        ghost var before := todo;
        todo := todo - {id};
        ghost var mid, between, made := store.data, sonarr.said, plans;
        StillThere(data, mid, before, id, plans, now, said, between);
        if !store.data.operations[id].state.PendingSearch? || !Selected(id) || (request.None? && c.dryRun) {
          LeftAlone(data, mid, before, id, plans, now, said, between);
          continue;
        }
        plans := ConsiderSearch(id, plans, now, at);
        ContinuedOne(data, mid, store.data, before, id, made, plans, now, said, between, sonarr.said);
        PlansApart(made, plans, id, todo);
      }
    }

    /** All continuations but these were decided on, and nothing else changed. */
    ghost predicate AllContinued(d: Data, e: Data, todo: set<string>, plans: seq<Plan>, now: Time, before: seq<Reading>,
                                 after: seq<Reading>) {
      && before <= after && e == d.(operations := e.operations, readFailure := e.readFailure)
      && e.operations.Keys == d.operations.Keys
      && (d.readFailure ==> e.readFailure) && todo <= d.operations.Keys
      && (forall id :: id in todo ==> e.operations[id] == d.operations[id])
      && (forall id :: id in d.operations && id !in todo ==> Continued(d, e, id, plans, now, before, after))
    }

    lemma NoneContinued(d: Data, plans: seq<Plan>, now: Time, said: seq<Reading>)
      ensures AllContinued(d, d, d.operations.Keys, plans, now, said, said)
    {
    }

    lemma PlansApart(made: seq<Plan>, plans: seq<Plan>, id: string, todo: set<string>)
      requires made <= plans && (forall p :: p in plans[|made|..] ==> p.id == id) && id !in todo
      requires forall p :: p in made && p.decision.kind.Search? ==> p.id !in todo
      ensures forall p :: p in plans && p.decision.kind.Search? ==> p.id !in todo
    {
      assert plans == made + plans[|made|..];
    }

    lemma StillThere(d: Data, m: Data, todo: set<string>, id: string, plans: seq<Plan>, now: Time, before: seq<Reading>,
                     after: seq<Reading>)
      requires AllContinued(d, m, todo, plans, now, before, after) && id in todo
      ensures id in d.operations && id in m.operations && m.operations[id] == d.operations[id]
    {
      hide Continued;
    }

    lemma LeftAlone(d: Data, e: Data, todo: set<string>, id: string, plans: seq<Plan>, now: Time, before: seq<Reading>,
                    after: seq<Reading>)
      requires AllContinued(d, e, todo, plans, now, before, after) && id in todo
      requires id in e.operations && (!e.operations[id].state.PendingSearch? || !Selected(id)
                                      || (request.None? && c.dryRun))
      ensures AllContinued(d, e, todo - {id}, plans, now, before, after)
    {
      hide StopsSearch, SearchFor, NoRoom, Stopped;
    }

    /** One more continuation decided on; the others stay as they were. */
    lemma ContinuedOne(d: Data, m: Data, e: Data, todo: set<string>, id: string, made: seq<Plan>, plans: seq<Plan>,
                       now: Time,
                       before: seq<Reading>, mid: seq<Reading>, after: seq<Reading>)
      requires AllContinued(d, m, todo, made, now, before, mid) && id in todo && mid <= after && made <= plans
      requires id in m.operations && m.operations[id].state.PendingSearch? && Selected(id)
          && !(request.None? && c.dryRun)
      requires SearchConsidered(m, e, id, made, plans, now, mid, after)
      ensures AllContinued(d, e, todo - {id}, plans, now, before, after)
    {
      hide Heard, Shares, StopsSearch, SearchFor, Continued, NoRoom;
      ContinuedThis(d, m, e, id, made, plans, now, before, mid, after);
      forall x | x in d.operations && x !in todo ensures Continued(d, e, x, plans, now, before, after) {
        ContinuedStill(d, m, e, x, made, plans, now, before, mid, after);
      }
    }

    lemma ContinuedThis(d: Data, m: Data, e: Data, id: string, made: seq<Plan>, plans: seq<Plan>, now: Time,
                        before: seq<Reading>,
                        mid: seq<Reading>, after: seq<Reading>)
      requires id in d.operations && m == d.(operations := m.operations, readFailure := m.readFailure)
          && id in m.operations
      requires m.operations[id] == d.operations[id] && before <= mid <= after
      requires d.operations[id].state.PendingSearch? && Selected(id) && !(request.None? && c.dryRun)
      requires SearchConsidered(m, e, id, made, plans, now, mid, after)
      ensures Continued(d, e, id, plans, now, before, after)
    {
      hide Heard, Shares, State.Budget, StopsSearch, SearchFor;
      HeardWithin(before, mid, after, after);
      if e == m && exists wanted ::
           && SearchFor(c, m, id, mid, after, wanted)
           && (plans == made + [Plan(id, wanted)] || (plans == made && NoRoom(m, wanted, made, now, mid, after))) {
        var wanted :| SearchFor(c, m, id, mid, after, wanted)
                      && (plans == made + [Plan(id, wanted)]
                          || (plans == made && NoRoom(m, wanted, made, now, mid, after)));
        SearchForWithin(c, m, d, id, before, mid, after, after, wanted);
        BudgetOf(m, e, now);
        assert Plan(id, wanted) in plans || NoRoom(e, wanted, plans, now, before, after);
      } else {
        var why :| StopsSearch(c, m, id, Override(), mid, after, why) && e == Stopped(m, id, Some(why));
        StopsWithin(c, m, d.(readFailure := e.readFailure), id, Override(), before, mid, after, after, why);
      }
    }

    lemma BudgetOf(d: Data, e: Data, now: Time)
      requires d.attempts == e.attempts
      ensures State.Budget(d, now) == State.Budget(e, now)
    {
    }

    /** A decision on one continuation leaves the decisions on others as they were. */
    lemma ContinuedStill(d: Data, m: Data, e: Data, id: string, made: seq<Plan>, plans: seq<Plan>, now: Time,
                         before: seq<Reading>, mid: seq<Reading>, after: seq<Reading>)
      requires id in d.operations && Continued(d, m, id, made, now, before, mid) && before <= mid <= after
          && made <= plans
      requires id in e.operations && id in m.operations && e.operations[id] == m.operations[id]
      requires e.attempts == m.attempts == d.attempts && e.issues == m.issues == d.issues && (m.readFailure ==> e.readFailure)
      ensures Continued(d, e, id, plans, now, before, after)
    {
      hide Heard, Shares, StopsSearch, SearchFor, State.Budget;
      HeardWithin(before, before, mid, after);
      BudgetOf(m, e, now);
      if !(!d.operations[id].state.PendingSearch? || !Selected(id) || (request.None? && c.dryRun)) {
        if m.operations[id] == d.operations[id] && exists wanted ::
             SearchFor(c, d, id, before, mid, wanted) && (Plan(id, wanted) in made || NoRoom(m, wanted, made, now, before, mid)) {
          var wanted :| SearchFor(c, d, id, before, mid, wanted) && (Plan(id, wanted) in made || NoRoom(m, wanted, made, now, before, mid));
          SearchForWithin(c, d, d, id, before, before, mid, after, wanted);
          assert Plan(id, wanted) in plans || NoRoom(e, wanted, plans, now, before, after);
        } else {
          var why :| StopsSearch(c, d.(readFailure := m.readFailure), id, Override(), before, mid, why)
                     && m.operations[id] == Stopped(d, id, Some(why)).operations[id];
          StopsWithin(c, d.(readFailure := m.readFailure), d.(readFailure := e.readFailure), id, Override(), before,
                      before, mid, after, why);
        }
      }
    }

    /** The log grew by at most n entries, all for selected downloads and on behalf of this request. */
    ghost predicate SentFor(before: seq<Tx>, after: seq<Tx>, n: nat) {
      && before <= after && |after| <= |before| + n
      && forall k :: |before| <= k < |after| ==> Selected(after[k].attempt.downloadID) && after[k].request == request
    }

    /** An action for the plan was sent. */
    ghost predicate Executed(p: Plan, before: seq<Tx>, after: seq<Tx>) {
      exists k :: |before| <= k < |after| && after[k].attempt.downloadID == p.id && after[k].attempt.kind == p.decision.kind
    }

    /** The plan was left undone: the work was called off, or in one of these states a read had failed or something
        stopped the action. */
    ghost predicate Skipped(p: Plan, states: seq<Sys>, before: seq<Reading>, after: seq<Reading>) {
      || Heard(before, after, CancelRead(true))
      || exists s :: s in states && StoppedIn(p, s.mem.data, before, after)
    }

    ghost predicate StoppedIn(p: Plan, d: Data, before: seq<Reading>, after: seq<Reading>) {
      || d.readFailure
      || (p.decision.kind.Search? && p.id in d.operations && exists why :: StopsSearch(c, d, p.id, Override(), before, after, why))
      || (!p.decision.kind.Search? && p.id in d.issues && exists why :: StopsExecution(c, pattern, d, p.id, p.decision, Override(), before, after, why))
    }

    /** Carries out one plan, a search or an import or removal, unless something named stops it. */
    method Carry(p: Plan, ghost at: Time) returns (err: Option<Error>)
      requires Valid() && !Harmless() && at <= S().clock && Prompt(store.data.attempts, at)
      requires WaitedFor(c, store.data.issues, Override(), p) && p.decision.kind != Defer
      requires if p.decision.kind.Search? then p.id in store.data.operations && store.data.operations[p.id].state.PendingSearch?
               else Offered(S(), p.id, p.decision) && Rejections.Caused(p.decision, pattern)
      modifies clock, sonarr, store`data, store`disk, store`run
      ensures Valid() && at <= S().clock && old(store.run) <= store.run && Prompt(store.data.attempts, at)
          && Unscanned(old(S()), S())
      ensures SameTimes(old(store.data).issues, store.data.issues) && OthersSame(old(store.data), store.data, p.id)
      ensures !p.decision.kind.Search? ==> store.data.operations == old(store.data).operations
      ensures old(sonarr.said) <= sonarr.said && old(S()).log <= S().log && OneMore(old(S()).log, S().log, p.id)
      ensures err.None? || err == Some(SaveFailed)
      ensures Accounted(c, pattern, old(S()).log, S().log, old(sonarr.sent), sonarr.sent, old(sonarr.said), sonarr.said)
      ensures err.None? ==> Executed(p, old(S()).log, S().log) || StoppedIn(p, old(store.data), old(sonarr.said), sonarr.said)
    {
      hide Chain, Enabled, Apply, SameTimes, Prompt, WaitedFor, OthersSame, Offered, Rejections.Caused, Justified;
      hide FromObservation, SearchFor, StopsSearch, StopsExecution, Heard, HasUnresolved, State.Gate;
      ghost var data, log := store.data, S().log;
      if p.decision.kind.Search? {
        ghost var why: Option<Obstacle>;
        err, why := Search(p.id, at);
        if S().log != log {
          SearchKind(c, data, p.id, old(sonarr.said), sonarr.said, S().log[|log|].attempt.decision);
        }
      } else {
        ghost var seen: Policy.Observation;
        ghost var why: Option<Obstacle>;
        err, seen, why := Execute(p.id, p.decision, at);
        OperationsSame(data, store.data, p.id);
      }
    }

    /** At most one entry was added, for this download and in the name of the request. */
    ghost predicate OneMore(before: seq<Tx>, after: seq<Tx>, id: string) {
      after == before || (|after| == |before| + 1 && before <= after && after[|before|].attempt.downloadID == id && after[|before|].request == request)
    }

    /** The first k plans are behind us: carried out or stopped, and everything sent since is accounted for. */
    ghost predicate Underway(plans: seq<Plan>, k: nat, s: Sys, n: nat, sent: seq<Attempt>, said: seq<Reading>)
      reads store, sonarr
      requires store.run != []
    {
      && k <= |plans| && 0 < n <= |store.run| && s.log <= S().log && said <= sonarr.said
      && Offers(s, pattern, plans) && (forall p :: p in plans ==> Selected(p.id)) && Unscanned(s, S()) && S().previous == s.previous
      && SentFor(s.log, S().log, k) && Ready(c, store.data, Override(), plans[k..])
      && Accounted(c, pattern, s.log, S().log, sent, sonarr.sent, said, sonarr.said)
      && CarriedOut(plans[..k], s.log, S().log, store.run[n - 1..], said, sonarr.said)
    }

    /** The next plan, unless a read has failed or the work is called off. */
    method ExecuteNext(plans: seq<Plan>, k: nat, ghost s: Sys, ghost n: nat, ghost sent: seq<Attempt>,
                       ghost said: seq<Reading>,
                       ghost at: Time) returns (err: Option<Error>)
      requires Valid() && !Harmless() && at <= S().clock && Prompt(store.data.attempts, at)
      requires k < |plans| && Underway(plans, k, s, n, sent, said)
      modifies clock, sonarr, store`data, store`disk, store`run
      ensures Valid() && at <= S().clock && old(store.run) <= store.run && Prompt(store.data.attempts, at)
      ensures Unscanned(s, S()) && said <= sonarr.said && SentFor(s.log, S().log, k + 1)
      ensures err.None? || err == Some(SaveFailed)
      ensures Accounted(c, pattern, s.log, S().log, sent, sonarr.sent, said, sonarr.said)
      ensures err.None? ==> Underway(plans, k + 1, s, n, sent, said)
    {
      hide Chain, Enabled, Apply, SameTimes, Prompt, WaitedFor, OthersSame, Ready, Offers, Offered;
      hide Rejections.Caused, Accounted, Executed, Skipped, StoppedIn, Heard, CarriedOut, SentFor, OneMore;
      err := None;
      var p := plans[k];
      assert p in plans && plans[k..] == [p] + plans[k + 1..] && p in plans[k..];
      OffersStill(s, S(), pattern, plans);
      PlanFacts(c, S(), Override(), pattern, plans, plans[k..], p);
      ghost var data, log, mid, resent, run := store.data, S().log, sonarr.said, sonarr.sent, store.run;
      ReadyRest(c, data, Override(), p, plans[k + 1..]);
      var cancelled := sonarr.Cancelled();
      ghost var asked := sonarr.said;
      HeardOne(mid, CancelRead(cancelled));
      if cancelled || store.data.readFailure {
        NoMore(log, p.id);
        SentMore(s.log, log, log, k, p.id);
        NothingAccounted(c, pattern, log, resent, mid, asked);
        AccountedMore(c, pattern, s.log, log, log, sent, resent, resent, said, mid, mid, asked);
        PlanSkipped(p, data, run, mid, asked, cancelled);
        CarriedMore(plans, k, s.log, log, log, run, run, n, said, mid, mid, asked);
        return;
      }
      err := Carry(p, at);
      AccountedMore(c, pattern, s.log, log, S().log, sent, resent, sonarr.sent, said, mid, asked, sonarr.said);
      SentMore(s.log, log, S().log, k, p.id);
      if err.Some? { return; }
      ReadyAfter(c, data, store.data, Override(), p, plans[k + 1..]);
      PlanCarried(p, data, log, S().log, run, store.run, asked, sonarr.said);
      CarriedMore(plans, k, s.log, log, S().log, run, store.run, n, said, mid, asked, sonarr.said);
    }

    lemma NoMore(log: seq<Tx>, id: string)
      ensures OneMore(log, log, id)
    {
    }

    /** Executes the plans in order. Every plan is carried out, or something named stops it; a failed save ends it all.
        Whatever is sent is for a selected download and rests on what was read for it. */
    method ExecuteAll(plans: seq<Plan>, ghost at: Time) returns (err: Option<Error>)
      requires Valid() && at <= S().clock && Prompt(store.data.attempts, at) && Planned(plans)
      requires request.Some? ==> request.value.execute
      modifies clock, sonarr, store`data, store`disk, store`run
      ensures Valid() && at <= S().clock && old(store.run) <= store.run && Prompt(store.data.attempts, at)
      ensures SentFor(old(S()).log, S().log, |plans|) && Unscanned(old(S()), S()) && old(sonarr.said) <= sonarr.said
      ensures err.None? || err == Some(SaveFailed)
      ensures Accounted(c, pattern, old(S()).log, S().log, old(sonarr.sent), sonarr.sent, old(sonarr.said), sonarr.said)
      ensures err.None? ==>
        CarriedOut(plans, old(S()).log, S().log, store.run[|old(store.run)| - 1..], old(sonarr.said), sonarr.said)
    {
      hide Chain, Enabled, Apply, Prompt, Ready, NoShare, Offers, Accounted, CarriedOut, SentFor;
      err := None;
      ghost var n, s, sent, said := |store.run|, S(), sonarr.sent, sonarr.said;
      NothingAccounted(c, pattern, s.log, sent, said, said);
      NothingSentFor(s.log, 0);
      NoneCarried(s.log, store.run[n - 1..], said);
      assert plans[0..] == plans && plans[..0] == [];
      for k := 0 to |plans|
        invariant Valid() && at <= S().clock && old(store.run) <= store.run && Prompt(store.data.attempts, at)
        invariant err.None? && Underway(plans, k, s, n, sent, said)
      {
        err := ExecuteNext(plans, k, s, n, sent, said, at);
        if err.Some? {
          SentFewer(s.log, S().log, k + 1, |plans|);
          return;
        }
      }
      assert plans[..|plans|] == plans;
    }

    lemma NoneCarried(log: seq<Tx>, states: seq<Sys>, said: seq<Reading>)
      ensures CarriedOut([], log, log, states, said, said)
    {
    }

    lemma PlanSkipped(p: Plan, d: Data, run: seq<Sys>, mid: seq<Reading>, asked: seq<Reading>, cancelled: bool)
      requires Heard(mid, asked, CancelRead(cancelled)) && (cancelled || d.readFailure) && run != []
          && run[|run| - 1].mem.data == d
      ensures Skipped(p, run[|run| - 1..], mid, asked)
    {
      hide Heard, StopsSearch, StopsExecution;
      assert run[|run| - 1..][0] == run[|run| - 1];
    }

    lemma PlanCarried(p: Plan, d: Data, log: seq<Tx>, more: seq<Tx>, run: seq<Sys>, longer: seq<Sys>,
                      asked: seq<Reading>, after: seq<Reading>)
      requires run != [] && run <= longer && run[|run| - 1].mem.data == d
      requires Executed(p, log, more) || StoppedIn(p, d, asked, after)
      ensures Executed(p, log, more) || Skipped(p, longer[|run| - 1..], asked, after)
    {
      hide Heard, StoppedIn;
      assert longer[|run| - 1..][0] == run[|run| - 1];
    }

    /** One more plan carried out or skipped, after the others. */
    lemma CarriedMore(plans: seq<Plan>, k: nat, log: seq<Tx>, mid: seq<Tx>, more: seq<Tx>, run: seq<Sys>,
                      longer: seq<Sys>, n: nat,
                      before: seq<Reading>, between: seq<Reading>, asked: seq<Reading>, after: seq<Reading>)
      requires k < |plans| && log <= mid <= more && run <= longer && 0 < n <= |run|
      requires before <= between <= asked <= after
      requires CarriedOut(plans[..k], log, mid, run[n - 1..], before, between)
      requires Executed(plans[k], mid, more) || Skipped(plans[k], longer[|run| - 1..], asked, after)
      ensures CarriedOut(plans[..k + 1], log, more, longer[n - 1..], before, after)
    {
      hide Executed, Skipped;
      assert plans[..k + 1] == plans[..k] + [plans[k]];
      assert run[n - 1..] <= longer[n - 1..];
      forall p | p in plans[..k] ensures Executed(p, log, more) || Skipped(p, longer[n - 1..], before, after) {
        if Executed(p, log, mid) {
          ExecutedWithin(p, log, log, mid, more);
        } else {
          SkippedWithin(p, run[n - 1..], longer[n - 1..], 0, before, before, between, after);
        }
      }
      if Executed(plans[k], mid, more) {
        ExecutedWithin(plans[k], log, mid, more, more);
      } else {
        assert longer[|run| - 1..] == longer[n - 1..][|run| - n..];
        SkippedWithin(plans[k], longer[|run| - 1..], longer[n - 1..], |run| - n, before, asked, after, after);
      }
    }

    lemma ExecutedWithin(p: Plan, a: seq<Tx>, b: seq<Tx>, e: seq<Tx>, f: seq<Tx>)
      requires a <= b <= e <= f && Executed(p, b, e)
      ensures Executed(p, a, f)
    {
      var k :| |b| <= k < |e| && e[k].attempt.downloadID == p.id && e[k].attempt.kind == p.decision.kind;
      assert f[k] == e[k];
    }

    lemma SkippedWithin(p: Plan, states: seq<Sys>, longer: seq<Sys>, n: nat, a: seq<Reading>, b: seq<Reading>,
                        e: seq<Reading>,
                        f: seq<Reading>)
      requires a <= b <= e <= f && n <= |longer| && states <= longer[n..] && Skipped(p, states, b, e)
      ensures Skipped(p, longer, a, f)
    {
      hide Heard, StoppedIn;
      HeardWithin(a, b, e, f);
      if s :| s in states && StoppedIn(p, s.mem.data, b, e) {
        StoppedWithin(p, s.mem.data, a, b, e, f);
        var i :| 0 <= i < |states| && states[i] == s;
        assert longer[n..][i] == s && longer[n + i] == s;
      }
    }

    lemma SentMore(first: seq<Tx>, before: seq<Tx>, after: seq<Tx>, k: nat, id: string)
      requires SentFor(first, before, k) && Selected(id) && OneMore(before, after, id)
      ensures SentFor(first, after, k + 1)
    {
    }

    lemma StoppedWithin(p: Plan, d: Data, a: seq<Reading>, b: seq<Reading>, e: seq<Reading>, f: seq<Reading>)
      requires a <= b <= e <= f && StoppedIn(p, d, b, e)
      ensures StoppedIn(p, d, a, f)
    {
      hide StopsSearch, StopsExecution;
      if d.readFailure {
      } else if p.decision.kind.Search? {
        var why :| StopsSearch(c, d, p.id, Override(), b, e, why);
        StopsWithin(c, d, d, p.id, Override(), a, b, e, f, why);
      } else {
        var why :| StopsExecution(c, pattern, d, p.id, p.decision, Override(), b, e, why);
        ExecutionWithin(c, pattern, d, p.id, p.decision, Override(), a, b, e, f, why);
      }
    }

    lemma SentFewer(first: seq<Tx>, after: seq<Tx>, k: nat, n: nat)
      requires SentFor(first, after, k) && k <= n
      ensures SentFor(first, after, n)
    {
    }

    // -------------------------------------------------------------- cycles

    /** More downloads than a report may list: the selection, or everything tracked or awaiting a search. */
    method SelectionTooLarge(groups: map<string, seq<QueueRow>>) returns (b: bool)
      ensures b <==>
        && request.Some?
        && |if request.value.downloads != {} then request.value.downloads
            else groups.Keys + set id | id in store.data.operations && store.data.operations[id].state.PendingSearch?| > MAX_DOWNLOADS
    {
      if request.None? { return false; }
      var ids := request.value.downloads;
      if ids == {} {
        ids := groups.Keys + set id | id in store.data.operations && store.data.operations[id].state.PendingSearch?;
      }
      b := |ids| > MAX_DOWNLOADS;
    }

    /** All candidate observations of a scan, or nothing if one required read failed. */
    method ObserveAll(groups: map<string, seq<QueueRow>>, queue: seq<QueueRow>)
      returns (r: Read<map<string, View>>, ghost seen: map<string, Policy.Observation>)
      modifies sonarr`said
      ensures old(sonarr.said) <= sonarr.said
      ensures r.Got? ==> forall id :: id in r.value <==> id in groups && Selected(id) && Queue.Eligible(groups[id])
      ensures r.Got? ==> forall id :: id in r.value ==> id in seen && ViewOf(c, pattern, groups[id], queue, id, seen[id], r.value[id])
      ensures r.Got? ==> forall id :: id in r.value ==> id in seen && Heard(old(sonarr.said), sonarr.said, DownloadRead(id, Got(seen[id])))
      ensures r.Unavailable? ==> exists id :: id in groups && Selected(id) && Heard(old(sonarr.said), sonarr.said, DownloadRead(id, Unavailable))
    {
      hide Queue.Eligible, Rejections.Refused, Rejections.RefusalOf, Rejections.RefusalDecides, Rejections.EvaluationOf;
      hide Rejections.Caused, Heard, Rejections.Decided;
      var views: map<string, View> := map[];
      ghost var before := sonarr.said;
      seen := map[];
      var todo := groups.Keys;
      while todo != {}
        invariant todo <= groups.Keys && before <= sonarr.said
        invariant forall id :: id in views ==> id in seen && Heard(before, sonarr.said, DownloadRead(id, Got(seen[id])))
        invariant forall id :: id in views <==> id in groups && id !in todo && Selected(id) && Queue.Eligible(groups[id])
        invariant forall id :: id in views ==> id in seen && ViewOf(c, pattern, groups[id], queue, id, seen[id], views[id])
        decreases |todo|
      {
        var id := Sets.Take(todo);
        todo := todo - {id};
        if !Selected(id) || !Queue.Eligible(groups[id]) { continue; }
        ghost var mid := sonarr.said;
        var read := sonarr.Observe(id, groups[id], queue);
        HeardOne(mid, DownloadRead(id, read));
        HeardWithin(before, before, mid, sonarr.said);
        HeardWithin(before, mid, sonarr.said, sonarr.said);
        if read.Unavailable? { return Unavailable, seen; }
        var view := Rejections.Decide(c, read.value, pattern);
        assert ViewOf(c, pattern, groups[id], queue, id, read.value, view);
        views, seen := views[id := view], seen[id := read.value];
      }
      r := Got(views);
    }

    /** Publishes a complete scan. */
    method Publish(groups: map<string, seq<QueueRow>>, views: map<string, View>, now: Time)
      requires Valid() && now == S().clock && forall id :: id in groups ==> groups[id] != []
      requires MAX_DURATION < now && S().previous <= now && AfterAll(S().scans, now)
          && Observes(c, request, Sights(groups, views))
      modifies this`previous, store`data, store`run
      ensures Valid() && S().log == old(S()).log && S().disk == old(S()).disk && S().clock == now
          && old(store.run) <= store.run
      ensures previous == now && S().scans == old(S()).scans + [Complete(now, Sights(groups, views))]
      ensures S().seen == old(S()).seen + [Complete(now, Sights(groups, views))]
      ensures store.data == old(store.data).(
        issues := Scanned(c, old(previous), now, old(store.data), Sights(groups, views)), readFailure := false)
    {
      hide Chain, Scanned, Observes;
      var sights := Sights(groups, views);
      var issues := Scanning.Reconcile(c, previous, now, store.data, sights);
      store.data := store.data.(issues := issues, readFailure := false);
      previous := now;
      store.Did(Action.Scan(now, sights));
    }

    /** What a manual selection names that is neither queued nor awaiting a search. */
    function GoneFrom(d: Data, groups: map<string, seq<QueueRow>>): set<string> {
      if request.None? then {}
      else set id | id in request.value.downloads && id !in groups
                    && !(id in d.operations && d.operations[id].state.PendingSearch?)
    }

    /** What planning made of reconciled data: every candidate assessed on its own, every continuation planned or
        stopped, and nothing else changed. */
    ghost predicate Worked(d: Data, gone: set<string>, views: map<string, View>, now: Time, w: Work,
                           before: seq<Reading>,
                           after: seq<Reading>) {
      && Assessment(d, w.assessed, Candidates(d, gone), views, w.first, now, before, after)
      && w.first <= w.plans && |w.plans| <= c.perScan
      && AllContinued(w.assessed, w.planned, {}, w.plans, now, before, after)
    }

    /** Every plan was carried out, or something named stopped it. */
    ghost predicate CarriedOut(plans: seq<Plan>, log: seq<Tx>, more: seq<Tx>, states: seq<Sys>, before: seq<Reading>,
                               after: seq<Reading>) {
      forall p :: p in plans ==> Executed(p, log, more) || Skipped(p, states, before, after)
    }

    lemma AssessmentWithin(d: Data, e: Data, who: set<string>, views: map<string, View>, plans: seq<Plan>, now: Time,
                           a: seq<Reading>, b: seq<Reading>, f: seq<Reading>, g: seq<Reading>)
      requires Assessment(d, e, who, views, plans, now, b, f) && a <= b <= f <= g
      ensures Assessment(d, e, who, views, plans, now, a, g)
    {
      hide Heard, Shares, State.Budget, AllAssessed, AllAdvised, Recovers;
      HeardWithin(a, b, f, g);
    }

    lemma ContinuedWithin(d: Data, e: Data, id: string, plans: seq<Plan>, now: Time, a: seq<Reading>, b: seq<Reading>,
                          f: seq<Reading>, g: seq<Reading>)
      requires id in d.operations && Continued(d, e, id, plans, now, b, f) && a <= b <= f <= g
      ensures Continued(d, e, id, plans, now, a, g)
    {
      hide Heard, Shares, StopsSearch, SearchFor, State.Budget;
      HeardWithin(a, b, f, g);
      if !(!d.operations[id].state.PendingSearch? || !Selected(id) || (request.None? && c.dryRun)) {
        if e.operations[id] == d.operations[id] && exists wanted ::
             SearchFor(c, d, id, b, f, wanted) && (Plan(id, wanted) in plans || NoRoom(e, wanted, plans, now, b, f)) {
          var wanted :| SearchFor(c, d, id, b, f, wanted) && (Plan(id, wanted) in plans || NoRoom(e, wanted, plans, now, b, f));
          SearchForWithin(c, d, d, id, a, b, f, g, wanted);
          assert Plan(id, wanted) in plans || NoRoom(e, wanted, plans, now, a, g);
        } else {
          var why :| StopsSearch(c, d.(readFailure := e.readFailure), id, Override(), b, f, why)
                     && e.operations[id] == Stopped(d, id, Some(why)).operations[id];
          StopsWithin(c, d.(readFailure := e.readFailure), d.(readFailure := e.readFailure), id, Override(), a, b, f, g,
                      why);
        }
      }
    }

    /** Planning and execution, once the scan is published and every attempt verified. */
    method Act(groups: map<string, seq<QueueRow>>, views: map<string, View>, now: Time) returns (err: Option<Error>,
        ghost work: Work)
      requires Valid() && now == S().clock && Prompt(store.data.attempts, now) && c.perScan > 0
      requires ViewsOffered(S(), pattern, views)
      modifies clock, sonarr, store`data, store`disk, store`run
      ensures Valid() && now <= S().clock && old(store.run) <= store.run && Prompt(store.data.attempts, now)
      ensures SentFor(old(S()).log, S().log, c.perScan) && Unscanned(old(S()), S()) && old(sonarr.said) <= sonarr.said
      ensures Harmless() ==> S().log == old(S()).log
      ensures request.Some? && !request.value.execute ==> store.disk == old(store.disk)
      ensures err != Some(Unsupported) && err != Some(Error.SelectionTooLarge) && err != Some(ReceiptMissing)
          && err != Some(ObservationMissing)
      ensures Accounted(c, pattern, old(S()).log, S().log, old(sonarr.sent), sonarr.sent, old(sonarr.said), sonarr.said)
      ensures Worked(old(store.data), GoneFrom(old(store.data), groups), views, now, work, old(sonarr.said),
                     sonarr.said)
      ensures if request.Some? && !request.value.execute then store.data == work.planned
              else err.None? ==> CarriedOut(work.plans, old(S()).log, S().log, store.run[|old(store.run)| - 1..], old(sonarr.said), sonarr.said)
    {
      hide Chain, Enabled, Apply, SameTimes, Prompt, Ready, Assessment, AllContinued, CarriedOut, Accounted, Candidate,
          Worked;
      hide NoShare, Offers;
      ghost var data, said, log, sent, run := store.data, sonarr.said, S().log, sonarr.sent, store.run;
      NothingAccounted(c, pattern, log, sent, said, said);
      var first := PlanIssues(views, GoneFrom(store.data, groups), now, now);
      ghost var assessed, mid := store.data, sonarr.said;
      var plans := PlanSearches(first, now, now);
      err := None;
      work := Work(first, assessed, plans, store.data);
      ghost var between, later := sonarr.said, store.run;
      WorkedOne(data, GoneFrom(data, groups), views, now, work, said, mid, between);
      NothingAccounted(c, pattern, log, sent, said, between);
      var large: bool := *;
      if request.Some? && large { return Some(ReportTooLarge), work; }
      if request.None? || request.value.execute {
        err := ExecuteAll(plans, now);
        SentFewer(log, S().log, |plans|, c.perScan);
        WorkedWithin(data, GoneFrom(data, groups), views, now, work, said, said, between, sonarr.said);
        AccountedMore(c, pattern, log, log, S().log, sent, sent, sonarr.sent, said, between, between, sonarr.said);
        if err.None? {
          CarriedFrom(plans, log, S().log, store.run, |later|, |run|, said, between, sonarr.said);
        }
      }
    }

    lemma AllContinuedWithin(d: Data, e: Data, plans: seq<Plan>, now: Time, a: seq<Reading>, b: seq<Reading>,
                             f: seq<Reading>,
                             g: seq<Reading>)
      requires AllContinued(d, e, {}, plans, now, b, f) && a <= b <= f <= g
      ensures AllContinued(d, e, {}, plans, now, a, g)
    {
      hide Continued;
      forall id | id in d.operations ensures Continued(d, e, id, plans, now, a, g) {
        ContinuedWithin(d, e, id, plans, now, a, b, f, g);
      }
    }

    lemma WorkedOne(d: Data, gone: set<string>, views: map<string, View>, now: Time, w: Work, before: seq<Reading>,
                    mid: seq<Reading>,
                    after: seq<Reading>)
      requires before <= mid <= after && w.first <= w.plans && |w.plans| <= c.perScan
      requires Assessment(d, w.assessed, Candidates(d, gone), views, w.first, now, before, mid)
      requires AllContinued(w.assessed, w.planned, {}, w.plans, now, mid, after)
      ensures Worked(d, gone, views, now, w, before, after)
    {
      hide Assessment, AllContinued, Candidate;
      AssessmentWithin(d, w.assessed, Candidates(d, gone), views, w.first, now, before, before, mid, after);
      AllContinuedWithin(w.assessed, w.planned, w.plans, now, before, mid, after, after);
    }

    lemma WorkedWithin(d: Data, gone: set<string>, views: map<string, View>, now: Time, w: Work, a: seq<Reading>,
                       b: seq<Reading>,
                       e: seq<Reading>, f: seq<Reading>)
      requires Worked(d, gone, views, now, w, b, e) && a <= b <= e <= f
      ensures Worked(d, gone, views, now, w, a, f)
    {
      hide Assessment, AllContinued, Candidate;
      AssessmentWithin(d, w.assessed, Candidates(d, gone), views, w.first, now, a, b, e, f);
      AllContinuedWithin(w.assessed, w.planned, w.plans, now, a, b, e, f);
    }

    lemma CarriedWithin(plans: seq<Plan>, log: seq<Tx>, more: seq<Tx>, run: seq<Sys>, longer: seq<Sys>, n: nat,
                        a: seq<Reading>,
                        b: seq<Reading>, e: seq<Reading>, f: seq<Reading>)
      requires 0 < n <= |longer| && run <= longer[n - 1..] && a <= b <= e <= f
          && CarriedOut(plans, log, more, run, b, e)
      ensures CarriedOut(plans, log, more, longer[n - 1..], a, f)
    {
      hide Executed, Skipped;
      forall p | p in plans ensures Executed(p, log, more) || Skipped(p, longer[n - 1..], a, f) {
        if !Executed(p, log, more) {
          SkippedWithin(p, run, longer[n - 1..], 0, a, b, e, f);
        }
      }
    }

    /** States from some point on are among those from an earlier one. */
    lemma CarriedFrom(plans: seq<Plan>, log: seq<Tx>, more: seq<Tx>, run: seq<Sys>, m: nat, n: nat,
                      before: seq<Reading>,
                      mid: seq<Reading>, after: seq<Reading>)
      requires 0 < n <= m <= |run| && before <= mid <= after && CarriedOut(plans, log, more, run[m - 1..], mid, after)
      ensures CarriedOut(plans, log, more, run[n - 1..], before, after)
    {
      hide Executed, Skipped;
      assert run[m - 1..] == run[n - 1..][m - n..];
      forall p | p in plans ensures Executed(p, log, more) || Skipped(p, run[n - 1..], before, after) {
        if !Executed(p, log, more) {
          SkippedWithin(p, run[m - 1..], run[n - 1..], m - n, before, mid, after, after);
        }
      }
    }

    /** Retention and the final save. A manual cycle reports a failed read instead of saving over it. */
    method Wrap(now: Time) returns (err: Option<Error>)
      requires Valid() && 0 < now <= S().clock && Prompt(store.data.attempts, now)
      modifies store`data, store`disk, store`run
      ensures Valid() && S().clock == old(S()).clock && old(store.run) <= store.run && Prompt(store.data.attempts, now)
      ensures S().log == old(S()).log && Unscanned(old(S()), S()) && store.data == State.Prune(c, old(store.data), now)
      ensures request.Some? && !request.value.execute ==> store.disk == old(store.disk)
      ensures err.None? && !(request.Some? && !request.value.execute) ==> store.disk == store.data
      ensures err.None? || err == Some(ReadFailed) || err == Some(SaveFailed)
    {
      hide Chain, Prompt, State.Prune;
      ghost var d := store.data;
      store.Prune(now);
      PrunePrompt(c, d, now, now);
      store.Did(Retention(now));
      if request.Some? && store.data.readFailure { return Some(ReadFailed); }
      var saved := Save();
      err := if saved then None else Some(SaveFailed);
    }

    /** A queue just read, its groups, and a view of exactly the selected eligible downloads, each what policy says of
        an observation just read. */
    ghost predicate Surveyed(queue: seq<QueueRow>, groups: map<string, seq<QueueRow>>, views: map<string, View>,
                             seen: map<string, Policy.Observation>, before: seq<Reading>, after: seq<Reading>) {
      && before <= after && Heard(before, after, QueueRead(Got(queue)))
      && (forall id :: id in groups <==> id != "" && Queue.RowsOf(queue, id) != [])
      && (forall id :: id in groups ==> groups[id] == Queue.RowsOf(queue, id))
      && (forall id :: id in views <==> id in groups && Selected(id) && Queue.Eligible(groups[id]))
      && (forall id :: id in views ==>
            && id in seen && Heard(before, after, DownloadRead(id, Got(seen[id])))
            && ViewOf(c, pattern, groups[id], queue, id, seen[id], views[id]))
    }

    /** Every unresolved attempt was verified against this queue and evidence just read. */
    ghost predicate ReconciledIn(x: Course, now: Time, before: seq<Reading>, after: seq<Reading>) {
      && EvidenceFits(x.scanned.attempts, x.evidence)
      && x.reconciled == AllReconciled(c, x.scanned, x.queue, x.evidence, now, |x.evidence|)
      && forall j :: 0 <= j < |x.evidence| && x.scanned.attempts[j].Unresolved() ==>
           Heard(before, after, EvidenceRead(x.scanned.attempts[j], x.evidence[j]))
    }

    /** The course of a cycle whose scan was complete: the records that follow from what was surveyed, then the
        verdicts, then the plans. */
    ghost predicate Coursed(d: Data, previous: Time, now: Time, x: Course, before: seq<Reading>, after: seq<Reading>) {
      && Surveyed(x.queue, x.groups, x.views, x.seen, before, after)
      && x.scanned == d.(issues := Scanned(c, previous, now, d, Sights(x.groups, x.views)), readFailure := false)
      && ReconciledIn(x, now, before, after)
      && Worked(x.reconciled, GoneFrom(x.reconciled, x.groups), x.views, now, x.work, before, after)
    }

    /** A required read failed, or the work was called off. */
    ghost predicate Disturbed(before: seq<Reading>, after: seq<Reading>) {
      || Heard(before, after, VersionRead(Unavailable)) || Heard(before, after, QueueRead(Unavailable))
      || Heard(before, after, CancelRead(true)) || exists id :: Heard(before, after, DownloadRead(id, Unavailable))
    }

    lemma DisturbedWithin(a: seq<Reading>, b: seq<Reading>, d: seq<Reading>, e: seq<Reading>)
      requires a <= b <= d <= e && Disturbed(b, d)
      ensures Disturbed(a, e)
    {
      hide Heard;
      HeardWithin(a, b, d, e);
    }

    lemma JustDisturbed(before: seq<Reading>, after: seq<Reading>, x: Reading)
      requires Heard(before, after, x)
      requires x == VersionRead(Unavailable) || x == QueueRead(Unavailable) || x == CancelRead(true)
          || (x.DownloadRead? && x.seen.Unavailable?)
      ensures Disturbed(before, after)
    {
      hide Heard;
    }

    lemma SurveyDone(queue: seq<QueueRow>, groups: map<string, seq<QueueRow>>, views: map<string, View>,
                     seen: map<string, Policy.Observation>, a: seq<Reading>, b: seq<Reading>, d: seq<Reading>,
                         e: seq<Reading>, f: seq<Reading>)
      requires a <= b <= d <= e <= f && Heard(b, d, QueueRead(Got(queue)))
      requires forall id :: id in groups <==> id != "" && Queue.RowsOf(queue, id) != []
      requires forall id :: id in groups ==> groups[id] == Queue.RowsOf(queue, id)
      requires forall id :: id in views <==> id in groups && Selected(id) && Queue.Eligible(groups[id])
      requires forall id :: id in views ==> id in seen && ViewOf(c, pattern, groups[id], queue, id, seen[id], views[id])
      requires forall id :: id in views ==> id in seen && Heard(d, e, DownloadRead(id, Got(seen[id])))
      ensures Surveyed(queue, groups, views, seen, a, f)
    {
      hide Heard, ViewOf, Queue.Eligible, Queue.RowsOf;
      HeardWithin(a, b, d, f);
      HeardWithin(a, d, e, f);
    }

    /** Reads everything that a scan needs. It is unreadable only for a read that failed or if it is called off. */
    method Survey() returns (r: Survey, ghost seen: map<string, Policy.Observation>)
      modifies sonarr`said
      ensures old(sonarr.said) <= sonarr.said
      ensures r.Foreign? ==> Heard(old(sonarr.said), sonarr.said, VersionRead(Got(false)))
      ensures r.Oversized? ==> request.Some?
      ensures r.Unreadable? ==> Disturbed(old(sonarr.said), sonarr.said)
      ensures r.Taken? ==> Surveyed(r.queue, r.groups, r.views, seen, old(sonarr.said), sonarr.said)
    {
      hide Heard, Disturbed, Surveyed, ViewOf, Queue.Eligible, Queue.RowsOf;
      ghost var s0 := sonarr.said;
      seen := map[];
      var version := sonarr.Version();
      ghost var s1 := sonarr.said;
      HeardOne(s0, VersionRead(version));
      if version.Unavailable? { JustDisturbed(s0, s1, VersionRead(version)); return Unreadable, seen; }
      if !version.value { return Foreign, seen; }
      var queue := sonarr.Queue();
      ghost var s2 := sonarr.said;
      HeardOne(s1, QueueRead(queue));
      if queue.Unavailable? {
        JustDisturbed(s1, s2, QueueRead(queue));
        DisturbedWithin(s0, s1, s2, s2);
        return Unreadable, seen;
      }
      var groups := Queue.Group(queue.value);
      var large := SelectionTooLarge(groups);
      if large { return Oversized, seen; }
      var views: Read<map<string, View>>;
      views, seen := ObserveAll(groups, queue.value);
      ghost var s3 := sonarr.said;
      var cancelled := sonarr.Cancelled();
      ghost var s4 := sonarr.said;
      HeardOne(s3, CancelRead(cancelled));
      if views.Unavailable? {
        ghost var id :| Heard(s2, s3, DownloadRead(id, Unavailable));
        JustDisturbed(s2, s3, DownloadRead(id, Unavailable));
        DisturbedWithin(s0, s2, s3, s4);
        return Unreadable, seen;
      }
      if cancelled {
        JustDisturbed(s3, s4, CancelRead(cancelled));
        DisturbedWithin(s0, s3, s4, s4);
        return Unreadable, seen;
      }
      SurveyDone(queue.value, groups, views.value, seen, s0, s1, s2, s3, s4);
      r := Taken(queue.value, groups, views.value);
    }

    /** What was done with a complete survey. */
    ghost predicate Conducted(d: Data, previous: Time, now: Time, x: Course, before: seq<Reading>,
                              after: seq<Reading>) {
      && before <= after
      && x.scanned == d.(issues := Scanned(c, previous, now, d, Sights(x.groups, x.views)), readFailure := false)
      && ReconciledIn(x, now, before, after)
      && Worked(x.reconciled, GoneFrom(x.reconciled, x.groups), x.views, now, x.work, before, after)
    }

    lemma Conducts(d: Data, previous: Time, now: Time, y: Course, x: Course, before: seq<Reading>, mid: seq<Reading>,
                   after: seq<Reading>)
      requires before <= mid <= after && x == y.(work := x.work) && ReconciledIn(y, now, before, mid)
      requires x.scanned == d.(issues := Scanned(c, previous, now, d, Sights(x.groups, x.views)), readFailure := false)
      requires Worked(x.reconciled, GoneFrom(x.reconciled, x.groups), x.views, now, x.work, mid, after)
      ensures Conducted(d, previous, now, x, before, after)
    {
      hide Heard, Scanned, AllReconciled, Worked, GoneFrom;
      HeardWithin(before, before, mid, after);
      WorkedWithin(x.reconciled, GoneFrom(x.reconciled, x.groups), x.views, now, x.work, before, mid, after, after);
    }

    lemma SurveyedWithin(queue: seq<QueueRow>, groups: map<string, seq<QueueRow>>, views: map<string, View>,
                         seen: map<string, Policy.Observation>, before: seq<Reading>, mid: seq<Reading>,
                             after: seq<Reading>)
      requires Surveyed(queue, groups, views, seen, before, mid) && mid <= after
      ensures Surveyed(queue, groups, views, seen, before, after)
    {
      hide Heard, ViewOf, Queue.Eligible, Queue.RowsOf;
      HeardWithin(before, before, mid, after);
    }

    lemma ReconciledWithin(x: Course, now: Time, before: seq<Reading>, mid: seq<Reading>, after: seq<Reading>)
      requires ReconciledIn(x, now, mid, after) && before <= mid <= after
      ensures ReconciledIn(x, now, before, after)
    {
      hide Heard, AllReconciled;
      HeardWithin(before, mid, after, after);
    }

    lemma CourseTaken(d: Data, previous: Time, now: Time, x: Course, before: seq<Reading>, mid: seq<Reading>,
                      after: seq<Reading>)
      requires Surveyed(x.queue, x.groups, x.views, x.seen, before, mid) && Conducted(d, previous, now, x, mid, after)
          && before <= mid
      ensures Coursed(d, previous, now, x, before, after)
    {
      hide Surveyed, ReconciledIn, Scanned, Worked, GoneFrom;
      SurveyedWithin(x.queue, x.groups, x.views, x.seen, before, mid, after);
      ReconciledWithin(x, now, before, mid, after);
      WorkedWithin(x.reconciled, GoneFrom(x.reconciled, x.groups), x.views, now, x.work, before, mid, after, after);
    }

    /** What a survey gives to the scan that is published from it. */
    lemma SurveyObserves(queue: seq<QueueRow>, groups: map<string, seq<QueueRow>>, views: map<string, View>,
                         seen: map<string, Policy.Observation>, before: seq<Reading>, after: seq<Reading>)
      requires Surveyed(queue, groups, views, seen, before, after)
      ensures Observes(c, request, Sights(groups, views)) && forall id :: id in groups ==> groups[id] != []
    {
      hide Heard, Observes, ViewOf, Queue.Eligible;
      SightsObserved(c, pattern, request, groups, queue, seen, views);
    }

    lemma SurveyOffers(s: Sys, queue: seq<QueueRow>, groups: map<string, seq<QueueRow>>, views: map<string, View>,
                       seen: map<string, Policy.Observation>, before: seq<Reading>, after: seq<Reading>, now: Time)
      requires Surveyed(queue, groups, views, seen, before, after)
      requires s.previous != 0 && s.seen != [] && s.seen[|s.seen| - 1] == Complete(now, Sights(groups, views))
      ensures ViewsOffered(s, pattern, views)
    {
      hide Heard, ViewOf, Queue.Eligible, ViewsOffered;
      ViewsAreOffered(c, pattern, s, groups, queue, seen, views, now);
    }

    /** What a cycle has done so far: plans carried out, or in a preview only made. */
    ghost predicate Acted(x: Course, log: seq<Tx>, n: nat, before: seq<Reading>)
      reads store, sonarr
      requires store.run != []
    {
      && 0 < n <= |store.run| && before <= sonarr.said
      && if request.Some? && !request.value.execute then store.data == x.work.planned
         else CarriedOut(x.work.plans, log, S().log, store.run[n - 1..], before, sonarr.said)
    }

    /** Publishes a survey and verifies every attempt. */
    method Renew(queue: seq<QueueRow>, groups: map<string, seq<QueueRow>>, views: map<string, View>, now: Time,
                 ghost seen: map<string, Policy.Observation>, ghost first: seq<Reading>) returns (ghost course: Course)
      requires Valid() && now == S().clock && Surveyed(queue, groups, views, seen, first, sonarr.said)
      requires MAX_DURATION < now && S().previous <= now && AfterAll(S().scans, now)
      modifies this`previous, sonarr`said, store`data, store`run
      ensures Valid() && old(store.run) <= store.run && now == S().clock && old(sonarr.said) <= sonarr.said
      ensures previous == now && S().scans == old(S()).scans + [Complete(now, Sights(groups, views))]
      ensures S().log == old(S()).log && S().disk == old(S()).disk && Prompt(store.data.attempts, now)
          && ViewsOffered(S(), pattern, views)
      ensures course.queue == queue && course.groups == groups && course.views == views && course.seen == seen
          && store.data == course.reconciled
      ensures course.scanned == old(store.data).(
        issues := Scanned(c, old(previous), now, old(store.data), Sights(groups, views)), readFailure := false)
      ensures ReconciledIn(course, now, old(sonarr.said), sonarr.said)
    {
      hide Chain, Enabled, Apply, Prompt, AfterAll, Scanned, Observes, ViewsOffered, Heard, Surveyed, AllReconciled,
          EvidenceFits, Sights;
      ghost var said := sonarr.said;
      SurveyObserves(queue, groups, views, seen, first, said);
      Publish(groups, views, now);
      ghost var scanned := store.data;
      ghost var evidence := VerifyAll(queue, now);
      course := Course(queue, groups, views, seen, scanned, evidence, store.data, Work([], store.data, [], store.data));
      SurveyOffers(S(), queue, groups, views, seen, first, said, now);
    }

    /** Publishes a survey, verifies every attempt, plans and acts. */
    method Conduct(queue: seq<QueueRow>, groups: map<string, seq<QueueRow>>, views: map<string, View>, now: Time,
                   ghost seen: map<string, Policy.Observation>, ghost first: seq<Reading>)
      returns (err: Option<Error>, ghost course: Course)
      requires Valid() && now == S().clock && c.perScan > 0 && Surveyed(queue, groups, views, seen, first, sonarr.said)
      requires MAX_DURATION < now && S().previous <= now && AfterAll(S().scans, now)
      modifies this`previous, clock, sonarr, store`data, store`disk, store`run
      ensures Valid() && old(store.run) <= store.run && now <= S().clock && old(sonarr.said) <= sonarr.said
      ensures previous == now && S().scans == old(S()).scans + [Complete(now, Sights(groups, views))]
      ensures err != Some(ReceiptMissing) && err != Some(ObservationMissing) && err != Some(Unsupported)
      ensures SentFor(old(S()).log, S().log, c.perScan) && (Harmless() ==> S().log == old(S()).log)
      ensures request.Some? && !request.value.execute ==> store.disk == old(store.disk)
      ensures err != Some(Error.SelectionTooLarge) ==> Prompt(store.data.attempts, now)
      ensures course.queue == queue && course.groups == groups && course.views == views && course.seen == seen
      ensures err != Some(Error.SelectionTooLarge) ==> Conducted(old(store.data), old(previous), now, course, old(sonarr.said), sonarr.said)
      ensures Accounted(c, pattern, old(S()).log, S().log, old(sonarr.sent), sonarr.sent, old(sonarr.said), sonarr.said)
      ensures err.None? ==> Acted(course, old(S()).log, |old(store.run)|, old(sonarr.said))
    {
      hide Chain, Enabled, Apply, Prompt, AfterAll, Scanned, Observes, ViewsOffered, Accounted, Heard, Surveyed,
          ReconciledIn;
      hide Conducted, Worked, CarriedOut, SentFor, GoneFrom, Sights;
      ghost var data, said, log, sent, last, n := store.data, sonarr.said, S().log, sonarr.sent, previous, |store.run|;
      course := Renew(queue, groups, views, now, seen, first);
      ghost var mid, m := sonarr.said, |store.run|;
      NothingAccounted(c, pattern, log, sent, said, mid);
      NothingSentFor(log, c.perScan);
      var large := SelectionTooLarge(groups);
      if large { return Some(Error.SelectionTooLarge), course; }
      ghost var work: Work;
      ghost var renewed := course;
      err, work := Act(groups, views, now);
      course := course.(work := work);
      AccountedMore(c, pattern, log, log, S().log, sent, sent, sonarr.sent, said, mid, mid, sonarr.said);
      Conducts(data, last, now, renewed, course, said, mid, sonarr.said);
      if err.None? && !(request.Some? && !request.value.execute) {
        CarriedFrom(work.plans, log, S().log, store.run, m, n, said, mid, sonarr.said);
      }
    }

    /** The end of a successful cycle: plans carried out unless it is a preview, and the data pruned. */
    ghost predicate Ended(x: Course, now: Time, log: seq<Tx>, n: nat, before: seq<Reading>)
      reads store, sonarr
      requires store.run != []
    {
      && 0 < n <= |store.run|
      && if request.Some? && !request.value.execute then store.data == State.Prune(c, x.work.planned, now)
         else
           && (exists s :: s in store.run[n - 1..] && store.data == State.Prune(c, s.mem.data, now))
           && CarriedOut(x.work.plans, log, S().log, store.run[n - 1..], before, sonarr.said)
    }

    /** Retention and the final save of a cycle. */
    method End(now: Time, ghost x: Course, ghost log: seq<Tx>, ghost n: nat,
               ghost before: seq<Reading>) returns (err: Option<Error>)
      requires Valid() && 0 < now <= S().clock && Prompt(store.data.attempts, now) && Acted(x, log, n, before)
      modifies store`data, store`disk, store`run
      ensures Valid() && S().clock == old(S()).clock && old(store.run) <= store.run && Prompt(store.data.attempts, now)
      ensures S().log == old(S()).log && Unscanned(old(S()), S())
      ensures request.Some? && !request.value.execute ==> store.disk == old(store.disk)
      ensures err.None? && !(request.Some? && !request.value.execute) ==> store.disk == store.data
      ensures err.None? || err == Some(ReadFailed) || err == Some(SaveFailed)
      ensures Ended(x, now, log, n, before)
    {
      hide Chain, Prompt, State.Prune, CarriedOut, Enabled, Apply;
      ghost var run := store.run;
      err := Wrap(now);
      if !(request.Some? && !request.value.execute) {
        assert run[n - 1..] <= store.run[n - 1..];
        CarriedWithin(x.work.plans, log, S().log, run[n - 1..], store.run, n, before, before, sonarr.said, sonarr.said);
        assert store.run[n - 1..][|run| - n] == run[|run| - 1];
      }
    }

    /** One cycle: a complete scan or a failed one, reconciliation, plans, at most as many mutations as configured,
        and retention, each by steps of the transition system. Previews and background dry runs send nothing, and
        previews save nothing. Unless the instance is unsupported or a selection too large, exactly one scan is
        recorded, and no attempt is left merely awaited past its deadline. A cycle fails its scan only for a read that
        failed or if it is called off, and otherwise takes exactly its course: every record, every unresolved
        attempt, every candidate and every continuation is dealt with, every plan is carried out unless something named
        stops it, and everything sent rests on what was read. */
    method Cycle() returns (err: Option<Error>, ghost at: Time, ghost course: Course)
      requires Valid()
      modifies this`previous, clock, sonarr, store`data, store`disk, store`run
      ensures Valid() && old(store.run) <= store.run && old(clock.time) < at <= clock.time
          && old(sonarr.said) <= sonarr.said
      ensures err != Some(ReceiptMissing) && err != Some(ObservationMissing)
      ensures SentFor(old(S()).log, S().log, c.perScan)
      ensures Harmless() ==> S().log == old(S()).log
      ensures request.Some? && !request.value.execute ==> store.disk == old(store.disk)
      ensures err.None? && !(request.Some? && !request.value.execute) ==> store.disk == store.data
      ensures err != Some(Unsupported) && err != Some(Error.SelectionTooLarge) ==>
        && Prompt(store.data.attempts, at)
        && if previous == at then S().scans == old(S()).scans + [Complete(at, Sights(course.groups, course.views))]
           else previous == 0 && S().scans == old(S()).scans + [Gap]
      ensures Accounted(c, pattern, old(S()).log, S().log, old(sonarr.sent), sonarr.sent, old(sonarr.said), sonarr.said)
      ensures Cycled(old(store.data), old(previous), at, err, course, store.data, previous, old(sonarr.said),
                     sonarr.said)
      ensures err.None? && previous == at ==> Ended(course, at, old(S()).log, |old(store.run)|, old(sonarr.said))
    {
      hide Chain, Enabled, Apply, Prompt, AfterAll, Scanned, Accounted, Heard, Expire, Missed, Disturbed, Surveyed;
      hide Conducted, Coursed, SentFor, Ended, CarriedOut, State.Prune;
      ghost var run, said, log, sent, data, last := store.run, sonarr.said, S().log, sonarr.sent, store.data, previous;
      course := NoCourse(data);
      var now := Now();
      at := now;
      ScanReady(c, run, S(), now);
      NothingSentFor(log, c.perScan);
      ghost var seen: map<string, Policy.Observation>;
      var survey: Survey;
      survey, seen := Survey();
      ghost var mid, n := sonarr.said, |store.run|;
      NothingAccounted(c, pattern, log, sent, said, mid);
      match survey
      case Unreadable => err := Failed(now);
      case Foreign => err := Some(Unsupported);
      case Oversized => err := Some(Error.SelectionTooLarge);
      case Taken(queue, groups, views) =>
        err, course := Conduct(queue, groups, views, now, seen, said);
        AccountedMore(c, pattern, log, log, S().log, sent, sent, sonarr.sent, said, mid, mid, sonarr.said);
        if err != Some(Error.SelectionTooLarge) {
          CourseTaken(data, last, now, course, said, mid, sonarr.said);
        }
        if err.None? {
          ActedFrom(course, log, n, |run|, said, mid);
          err := End(now, course, log, |run|, said);
        }
    }

    lemma ActedFrom(x: Course, log: seq<Tx>, m: nat, n: nat, before: seq<Reading>, mid: seq<Reading>)
      requires store.run != [] && Acted(x, log, m, mid) && 0 < n <= m && before <= mid
      ensures Acted(x, log, n, before)
    {
      hide CarriedOut;
      if !(request.Some? && !request.value.execute) {
        CarriedFrom(x.work.plans, log, S().log, store.run, m, n, before, mid, sonarr.said);
      }
    }

    lemma NothingSentFor(log: seq<Tx>, n: nat)
      ensures SentFor(log, log, n)
    {
    }

    // -------------------------------------------------------------- manual requests

    /** A cycle of this service: it started from these data, and unless the instance is unsupported or the selection too
        large it took its course, or failed its scan for a reason that was read. */
    ghost predicate Cycled(d: Data, last: Time, at: Time, err: Option<Error>, x: Course, e: Data, end: Time,
                           before: seq<Reading>,
                           after: seq<Reading>) {
      && (err == Some(Unsupported) ==> Heard(before, after, VersionRead(Got(false))))
      && (err != Some(Unsupported) && err != Some(Error.SelectionTooLarge) ==>
            if end == at then Coursed(d, last, at, x, before, after)
            else end == 0 && Disturbed(before, after) && e == Expire(d, at).(issues := Missed(Expire(d, at).issues), readFailure := true))
    }

    /** A preview: a whole cycle on a projection of the store. Nothing of the service changes, and the projected
        cycle itself sends nothing and saves nothing, but otherwise runs on the same data as a real one. */
    method Preview(req: Request) returns (err: Option<Error>, ghost worker: Service, ghost at: Time,
                                          ghost course: Course)
      requires Valid() && !req.execute
      modifies clock, sonarr
      ensures Valid() && fresh(worker) && worker.request == Some(req) && worker.c == c && worker.pattern == pattern
          && worker.Valid()
      ensures worker.S().log == old(S()).log && worker.S().disk.data == old(S()).disk.data
          && old(clock.time) < at <= clock.time
      ensures sonarr.sent == old(sonarr.sent) && old(sonarr.said) <= sonarr.said
      ensures worker.Cycled(old(store.data), old(previous), at, err, course, worker.store.data, worker.previous,
                            old(sonarr.said), sonarr.said)
    {
      hide Chain, Justified, Coursed, Ended, Disturbed, Prompt, Expire, Missed, SentFor;
      PreviewChain(c, store.run, req);
      var projection := new Store.At(c, store.data, store.disk, [S().(request := Some(req))]);
      var working := new Service(projection, clock, sonarr, pattern, Some(req), previous);
      err, at, course := working.Cycle();
      worker := working;
    }

    /** Accepts a request for execution: its receipt is durable before anything is done, or it is refused. */
    method Admit(req: Request, now: Time) returns (ok: bool)
      requires Valid() && request.None? && req.execute && WellFormed(req) && req.id !in store.data.triggers
      requires now == clock.time && now >= S().clock && req.issued <= now + SECOND && req.expires > now
      modifies clock, store`data, store`disk, store`run
      ensures store.Valid() && S().phase.Idle? && S().previous == previous && S().clock <= clock.time
          && old(store.run) <= store.run
      ensures S().log == old(S()).log && S().request == if ok then Some(req) else None
      ensures if ok then store.data == Begun(old(store.data), req, clock.time) && store.disk == store.data
              else store.data == old(store.data)
    {
      hide Chain;
      store.Did(Tick(now));
      var accepted := clock.Now();
      var before := store.data;
      store.data := store.data.(triggers := store.data.triggers[req.id := Receipt(req, accepted, 0, Accepted, VERSION, req.id, [])]);
      var save := store.Write();
      if !save.Saved? {
        store.data := before;
      }
      store.Did(Accept(req, accepted, save));
      ok := save.Saved?;
    }

    /** Closes the receipt of a request after its cycle. */
    method CloseReceipt(req: Request, worker: Service) returns (saved: bool)
      requires worker.Valid() && worker.request == Some(req) && req.execute && request.None?
      requires worker.store == store && worker.clock == clock && worker.c == c && worker != this
      modifies this`previous, clock, store`data, store`disk, store`run
      ensures Valid() && old(store.run) <= store.run && S().log == old(worker.S()).log
          && previous == old(worker.previous)
      ensures req.id in old(store.data).triggers && store.data == Closed(old(store.data), req.id, clock.time)
      ensures saved ==> store.disk == store.data
    {
      hide Chain, Enabled, Apply;
      var done := worker.Now();
      ReceiptHeld(c, store.run);
      store.data := store.data.(triggers := store.data.triggers[req.id := store.data.triggers[req.id].(
                                  status := Done, finished := done, reportVersion := VERSION, reportRequestID := req.id)]);
      FinishStep(c, S(), done);
      store.Did(Finish(done));
      previous := worker.previous;
      PersistEnabled(c, S());
      saved := store.Save();
    }

    /** An execution: the receipt, one cycle by a worker that shares the store, and the closed receipt. */
    method Perform(req: Request, now: Time) returns (reply: Reply, ghost worker: Service?, ghost at: Time,
                                                     ghost course: Course)
      requires Valid() && request.None? && req.execute && WellFormed(req) && req.id !in store.data.triggers
      requires now == clock.time && now >= S().clock && req.issued <= now + SECOND && req.expires > now
      modifies this`previous, clock, sonarr, store`data, store`disk, store`run
      ensures Valid() && old(store.run) <= store.run && (reply.Ran? || reply == NotAccepted)
          && old(sonarr.said) <= sonarr.said
      ensures reply == NotAccepted ==> S().log == old(S()).log && store.data == old(store.data)
      ensures SentBy(c, req, old(S()).log, S().log)
      ensures reply.Ran? ==> req.id in store.data.triggers && store.data.triggers[req.id].status.Done?
      ensures Accounted(c, pattern, old(S()).log, S().log, old(sonarr.sent), sonarr.sent, old(sonarr.said), sonarr.said)
      ensures reply.Ran? ==> worker != null && fresh(worker) && RanFor(req, worker, reply.err, old(store.data), store.data, old(previous), at, clock.time, course, old(sonarr.said))
    {
      hide Chain, Enabled, Apply, WellFormed, Accounted, Coursed, Ended, Disturbed, RanFor, Expire, Missed, Begun;
      ghost var log, data, last, said := S().log, store.data, previous, sonarr.said;
      worker, at, course := null, 0, NoCourse(data);
      NothingAccounted(c, pattern, log, sonarr.sent, sonarr.said, sonarr.said);
      var admitted := Admit(req, now);
      if !admitted { return NotAccepted, null, 0, course; }
      ghost var accepted := clock.time;
      var working := new Service(store, clock, sonarr, pattern, Some(req), previous);
      var err: Option<Error>;
      err, at, course := working.Cycle();
      ghost var after, end := store.data, working.previous;
      SentInName(working, req, log, S().log);
      var saved := CloseReceipt(req, working);
      worker := working;
      RunsFor(req, working, err, data, store.data, last, accepted, at, clock.time, course, after, end, said);
      reply := Ran(err, saved);
    }

    /** One cycle ran for the request, on the data at hand with its receipt just opened, and what it left has the
        receipt closed. */
    ghost predicate RanFor(req: Request, worker: Service, err: Option<Error>, d: Data, f: Data, last: Time, at: Time,
                           done: Time, x: Course,
                           before: seq<Reading>)
      reads sonarr
    {
      && worker.request == Some(req) && worker.c == c && worker.pattern == pattern
      && exists accepted, e, end ::
           && worker.Cycled(Begun(d, req, accepted), last, at, err, x, e, end, before, sonarr.said)
           && req.id in e.triggers && f == Closed(e, req.id, done)
    }

    lemma RunsFor(req: Request, worker: Service, err: Option<Error>, d: Data, f: Data, last: Time, accepted: Time,
                  at: Time, done: Time, x: Course,
                  e: Data, end: Time, before: seq<Reading>)
      requires worker.request == Some(req) && worker.c == c && worker.pattern == pattern
      requires worker.Cycled(Begun(d, req, accepted), last, at, err, x, e, end, before, sonarr.said)
      requires req.id in e.triggers && f == Closed(e, req.id, done)
      ensures RanFor(req, worker, err, d, f, last, at, done, x, before)
    {
      hide Coursed, Disturbed, Heard, Expire, Missed, Begun, Closed;
    }

    lemma SentInName(worker: Service, req: Request, before: seq<Tx>, after: seq<Tx>)
      requires worker.request == Some(req) && worker.c == c && c.perScan >= 0
          && worker.SentFor(before, after, c.perScan)
      ensures SentBy(c, req, before, after)
    {
    }

    /** The request was carried out by a worker: one cycle, with its receipt around it if it was an execution. */
    ghost predicate Carried(req: Request, worker: Service, err: Option<Error>, d: Data, f: Data, last: Time, at: Time,
                            done: Time, x: Course,
                            said: seq<Reading>)
      reads sonarr
    {
      && worker.request == Some(req) && worker.c == c && worker.pattern == pattern
      && if req.execute then exists before :: said <= before <= sonarr.said && RanFor(req, worker, err, d, f, last, at, done, x, before)
         else exists before, e, end :: said <= before <= sonarr.said && worker.Cycled(d, last, at, err, x, e, end, before, sonarr.said)
    }

    /** One manual request. A request identifier that was accepted before only returns its receipt; a preview
        leaves everything alone; an execution is one cycle on behalf of the request, for its selection only, and
        always closes its receipt. */
    method Manual(req: Request) returns (reply: Reply, ghost worker: Service?, ghost at: Time, ghost course: Course)
      requires Valid() && request.None?
      modifies this`previous, clock, sonarr, store`data, store`disk, store`run
      ensures Valid() && old(store.run) <= store.run
      ensures reply.Malformed? <==> !WellFormed(req)
      ensures reply.Expired? ==> req.issued > clock.time + SECOND || req.expires <= clock.time
      ensures reply.Withdrawn? ==> Heard(old(sonarr.said), sonarr.said, CancelRead(true))
      ensures reply.Conflicting? || reply.Replayed? ==> req.execute && req.id in old(store.data).triggers
      ensures req.execute && WellFormed(req) && req.id in old(store.data).triggers ==>
        && store.run == old(store.run) && store.data == old(store.data) && store.disk == old(store.disk)
        && reply == if SameRequest(old(store.data).triggers[req.id].request, req) then Replayed(old(store.data).triggers[req.id]) else Conflicting
      ensures !req.execute ==>
        store.run == old(store.run) && store.data == old(store.data) && store.disk == old(store.disk) && previous == old(previous)
      ensures !reply.Ran? ==> S().log == old(S()).log && store.data == old(store.data)
      ensures SentBy(c, req, old(S()).log, S().log)
      ensures reply.Ran? && req.execute ==> req.id in store.data.triggers && store.data.triggers[req.id].status.Done?
      ensures Accounted(c, pattern, old(S()).log, S().log, old(sonarr.sent), sonarr.sent, old(sonarr.said), sonarr.said)
      ensures reply.Ran? ==> worker != null && fresh(worker)
      ensures reply.Ran? ==> Carried(req, worker, reply.err, old(store.data), store.data, old(previous), at, clock.time, course, old(sonarr.said))
    {
      hide Chain, WellFormed, Accounted, Heard, Cycled, Begun, Closed;
      worker, at, course := null, 0, NoCourse(store.data);
      NothingAccounted(c, pattern, S().log, sonarr.sent, sonarr.said, sonarr.said);
      if !WellFormed(req) { return Malformed, null, 0, course; }
      if req.execute && req.id in store.data.triggers {
        var receipt := store.data.triggers[req.id];
        return (if SameRequest(receipt.request, req) then Replayed(receipt) else Conflicting), null, 0, course;
      }
      var now := clock.Now();
      if req.issued > now + SECOND || req.expires <= now { return Expired, null, 0, course; }
      ghost var log, sent, said := S().log, sonarr.sent, sonarr.said;
      var cancelled := sonarr.Cancelled();
      HeardOne(said, CancelRead(cancelled));
      ghost var asked := sonarr.said;
      NothingAccounted(c, pattern, log, sent, said, asked);
      if cancelled { return Withdrawn, null, 0, course; }
      if !req.execute {
        var failed: Option<Error>;
        failed, worker, at, course := Preview(req);
        NothingAccounted(c, pattern, log, sent, said, sonarr.said);
        reply := Ran(failed, true);
        return;
      }
      reply, worker, at, course := Perform(req, now);
      AccountedMore(c, pattern, log, log, S().log, sent, sent, sonarr.sent, said, asked, asked, sonarr.said);
    }
  }

  /** The data with the receipt of a request just accepted. */
  function Begun(d: Data, req: Request, accepted: Time): Data {
    d.(triggers := d.triggers[req.id := Receipt(req, accepted, 0, Accepted, VERSION, req.id, [])])
  }

  /** The data with a receipt closed. */
  function Closed(d: Data, id: string, now: Time): Data
    requires id in d.triggers
  {
    d.(triggers := d.triggers[id := d.triggers[id].(status := Done, finished := now, reportVersion := VERSION, reportRequestID := id)])
  }

  datatype Reply =
    | Malformed | Conflicting | Replayed(receipt: Receipt) | Expired | Withdrawn | NotAccepted | Ran(err: Option<Error>, saved: bool)

  predicate SameRequest(a: Request, b: Request) {
    && a.version == b.version && a.execute == b.execute && a.overrideWait == b.overrideWait
    && a.downloads == b.downloads
    && a.issued == b.issued && a.expires == b.expires
  }

  /** Two requests under one identifier are the same request exactly if nothing in them differs. */
  lemma SameRequestIff(a: Request, b: Request)
    ensures SameRequest(a, b) && a.id == b.id <==> a == b
  {
  }

  /** The log grew by at most one cycle's allowance, only for what the request selects and only in its name. */
  predicate SentBy(c: Config, req: Request, before: seq<Tx>, after: seq<Tx>) {
    && before <= after && |after| <= |before| + (if c.perScan > 0 then c.perScan else 0)
    && forall k :: |before| <= k < |after| ==>
         && (req.downloads == {} || after[k].attempt.downloadID in req.downloads) && after[k].request == Some(req)
  }

  lemma PreviewChain(c: Config, run: seq<Sys>, req: Request)
    requires run != [] && Chain(c, run) && !req.execute
    ensures Chain(c, [run[|run| - 1].(request := Some(req))])
  {
    hide ImageOK, LogOK;
    ChainKeeps(c, run, |run| - 1);
  }

  lemma ReceiptHeld(c: Config, run: seq<Sys>)
    requires run != [] && Chain(c, run)
    ensures var s := run[|run| - 1];
            s.clock > 0 && (s.request.Some? && s.request.value.execute ==> s.request.value.id in s.mem.data.triggers)
  {
    hide ImageOK, LogOK, PhaseOK, TimesOK;
    ChainKeeps(c, run, |run| - 1);
  }

  lemma ContinuationHeld(c: Config, run: seq<Sys>, id: string)
    requires run != [] && Chain(c, run)
    ensures var d := run[|run| - 1].mem.data; id in d.operations && !d.operations[id].state.Finished? ==> id in d.issues
  {
    hide LogOK, PhaseOK, RequestOK, TimesOK, Sound, Remembers, NoReplay, Once, Linked;
    ChainKeeps(c, run, |run| - 1);
  }

  lemma FinishStep(c: Config, s: Sys, now: Time)
    requires s.phase.Idle? && 0 < now <= s.clock && s.request.Some? && s.request.value.execute
        && s.request.value.id in s.mem.data.triggers
    ensures Enabled(c, s, Finish(now))
    ensures var id, d := s.request.value.id, s.mem.data;
            Apply(c, s, Finish(now)) == s.(request := None, mem := s.mem.(data := d.(triggers := d.triggers[id := d.triggers[id].(
              status := Done, finished := now, reportVersion := VERSION, reportRequestID := id)])))
  {
  }

  /** A reading later than everything before is a fit instant for a scan. */
  lemma ScanReady(c: Config, run: seq<Sys>, s: Sys, now: Time)
    requires run != [] && Chain(c, run) && s == run[|run| - 1].(clock := now) && now > run[|run| - 1].clock
    ensures MAX_DURATION < now && s.previous <= now && AfterAll(s.scans, now) && c.perScan > 0
  {
    hide ImageOK, LogOK, PhaseOK, RequestOK, TimesOK;
    ChainKeeps(c, run, |run| - 1);
  }

  lemma PrunePrompt(c: Config, d: Data, now: Time, at: Time)
    requires Prompt(d.attempts, at)
    ensures Prompt(State.Prune(c, d, now).attempts, at)
  {
    Retention.KeptMembers(c, PruneRest(c, d, now), d.attempts, now);
  }

  lemma NotStopped(d: Data, id: string)
    requires id in d.operations
    ensures Stopped(d, id, None) == d
  {
  }

  lemma StoppedAs(d: Data, id: string, why: Obstacle)
    requires id in d.operations
    ensures Stopped(d, id, Some(why)) ==
            if why.SearchOnRecord? || why.NothingLacking? then CloseOperation(d, id)
            else if why.QueueUnread? || why.TargetUnread? then d.(readFailure := true) else d
  {
  }

  /** Being stopped touches no attempt, no observation and no other continuation. */
  lemma StoppedFacts(d: Data, id: string, why: Option<Obstacle>)
    requires id in d.operations
    ensures var e := Stopped(d, id, why);
            e.attempts == d.attempts && e.issues == d.issues && e.triggers == d.triggers && OthersSame(d, e, id)
            && SameTimes(d.issues, e.issues)
  {
  }

  /** No two plans concern the same episode. */
  predicate NoShare(plans: seq<Plan>) {
    forall i, j :: 0 <= i < j < |plans| ==> !Shares(plans[j].decision.episodeIDs, plans[i].decision.episodeIDs)
  }

  lemma NoShareMore(plans: seq<Plan>, p: Plan)
    requires NoShare(plans) && forall q :: q in plans ==> !Shares(p.decision.episodeIDs, q.decision.episodeIDs)
    ensures NoShare(plans + [p])
  {
    hide Shares;
  }

  /** Recommendations are nothing to the gate. */
  lemma GateWithout(c: Config, d: Data, e: Data, a: Attempt, id: string, decision: Decision, now: Time, override: bool)
    requires e.attempts == d.attempts + [a] && a.dryRun
    ensures State.Gate(c, e, id, decision, now, 0, override) == State.Gate(c, d, id, decision, now, 0, override)
  {
    var s, t := d.attempts, e.attempts;
    Retention.ConflictAppend(c, s, a, id, decision, now, 0, override);
    assert State.LiveSince(t, now - HOUR) == State.LiveSince(s, now - HOUR);
    assert State.Tries(t, id, decision) == State.Tries(s, id, decision);
    assert State.TooSoon(c, t, id, decision, now) == State.TooSoon(c, s, id, decision, now) by {
      assert forall j :: 0 <= j < |s| ==> t[j] == s[j];
    }
  }

  lemma {:induction false} GateIgnores(c: Config, d: Data, e: Data, id: string, decision: Decision, now: Time,
                                       override: bool)
    requires d.attempts <= e.attempts && forall k :: |d.attempts| <= k < |e.attempts| ==> e.attempts[k].dryRun
    ensures State.Gate(c, e, id, decision, now, 0, override) == State.Gate(c, d, id, decision, now, 0, override)
    decreases |e.attempts|
  {
    hide State.Gate;
    if e.attempts == d.attempts {
      GateOfAttempts(c, d, e, id, decision, now, override);
    } else {
      var n := |e.attempts| - 1;
      var f := e.(attempts := e.attempts[..n]);
      GateIgnores(c, d, f, id, decision, now, override);
      assert e.attempts == f.attempts + [e.attempts[n]];
      GateWithout(c, f, e, e.attempts[n], id, decision, now, override);
    }
  }

  lemma SameProtection(s: seq<Attempt>, t: seq<Attempt>, id: string)
    requires s <= t && forall k :: |s| <= k < |t| ==> t[k].dryRun && t[k].outcome.Recommended?
    ensures Guarded(t, id) == Guarded(s, id)
    ensures (exists a :: a in t && a.downloadID == id && a.Unresolved()) <==> exists a :: a in s && a.downloadID == id && a.Unresolved()
  {
    assert forall a :: a in s ==> a in t;
    assert forall a :: a in t ==> a in s || (a.dryRun && a.outcome.Recommended?);
  }

  /** A candidate stands as it stood before others were assessed and recommended. */
  lemma StandingSame(c: Config, d: Data, e: Data, override: bool, id: string, view: Option<View>, now: Time,
                     who: set<string>,
                     views: map<string, View>, dry: bool)
    requires AllAssessed(c, d, e, override, views, now, who) && AllAdvised(c, d, e, override, views, now, who, dry)
    requires id in d.issues && id !in who
    ensures Standing(c, e, override, id, view, now) == Standing(c, d, override, id, view, now)
    ensures Basis(e, id, view) == Basis(d, id, view) && e.issues[id] == d.issues[id]
  {
    hide State.Gate, Recovers, ObservedWait, NeededWait, Guarded;
    SameProtection(d.attempts, e.attempts, id);
    if view.Some? {
      GateIgnores(c, d, e, id, view.value.decision, now, override);
    }
  }

  lemma OneAssessed(c: Config, d: Data, e: Data, f: Data, override: bool, views: map<string, View>, now: Time,
                    who: set<string>, id: string)
    requires AllAssessed(c, d, e, override, views, now, who) && id in d.issues && id !in who && id in e.issues
    requires Standing(c, e, override, id, ViewAt(views, id), now) == Standing(c, d, override, id, ViewAt(views, id),
        now)
    requires Basis(e, id, ViewAt(views, id)) == Basis(d, id, ViewAt(views, id))
    requires f == Assessed(e, id, Standing(c, e, override, id, ViewAt(views, id), now),
                           Basis(e, id, ViewAt(views, id))).(attempts := f.attempts)
    ensures AllAssessed(c, d, f, override, views, now, who + {id})
  {
    hide Standing, Basis;
  }

  lemma OneAdvised(c: Config, d: Data, e: Data, f: Data, override: bool, views: map<string, View>, now: Time,
                   who: set<string>, id: string,
                   dry: bool)
    requires AllAdvised(c, d, e, override, views, now, who, dry)
    requires if dry && Recovers(c, d, override, views, now, id) then Advises(e.attempts, f.attempts, id, views[id].decision, now)
             else f.attempts == e.attempts
    ensures AllAdvised(c, d, f, override, views, now, who + {id}, dry)
  {
    hide Standing;
    var s, t := e.attempts, f.attempts;
    assert s <= t && forall k :: 0 <= k < |s| ==> t[k] == s[k];
    if |t| > |s| {
      assert Advice(t[|s|], id, views[id].decision);
      forall i | 0 <= i < |s| ensures !Advice(t[i], id, views[id].decision) {
        assert s[i] in s;
      }
    }
    forall k | |d.attempts| <= k < |s| ensures Unadvised(t, k, t[k].downloadID, t[k].decision) {
      assert Unadvised(s, k, s[k].downloadID, s[k].decision);
    }
  }

  /** The gate looks at attempts alone. */
  lemma GateOfAttempts(c: Config, d: Data, e: Data, id: string, decision: Decision, now: Time, override: bool)
    requires d.attempts == e.attempts
    ensures State.Gate(c, d, id, decision, now, 0, override) == State.Gate(c, e, id, decision, now, 0, override)
  {
  }

  lemma OthersFrom(d: Data, m: Data, e: Data, id: string)
    requires m.operations == d.operations && OthersSame(m, e, id)
    ensures OthersSame(d, e, id)
  {
  }

  lemma OperationsSame(d: Data, e: Data, id: string)
    requires e.operations == d.operations
    ensures OthersSame(d, e, id)
  {
  }

  /** Without its first plan the rest stay ready, and none of them searches for what the first searches for. */
  lemma ReadyRest(c: Config, d: Data, override: bool, p: Plan, rest: seq<Plan>)
    requires Ready(c, d, override, [p] + rest)
    ensures Ready(c, d, override, rest)
    ensures p.decision.kind.Search? ==> forall q :: q in rest && q.decision.kind.Search? ==> q.id != p.id
  {
    hide WaitedFor;
    var all := [p] + rest;
    assert forall q :: q in rest ==> q in all;
    forall i, j | 0 <= i < j < |rest| && rest[i].decision.kind.Search? && rest[j].decision.kind.Search? ensures rest[i].id != rest[j].id {
      assert all[i + 1] == rest[i] && all[j + 1] == rest[j];
    }
    forall q | q in rest && q.decision.kind.Search? && p.decision.kind.Search? ensures q.id != p.id {
      var j :| 0 <= j < |rest| && rest[j] == q;
      assert all[0] == p && all[j + 1] == q;
    }
  }

  /** The view of one download is what policy says of an observation made over these rows: the refusal with its
      causes and targets, and the decision, which is the refusal or the evaluation of that observation. */
  ghost predicate ViewOf(c: Config, pattern: string -> bool, rows: seq<QueueRow>, queue: seq<QueueRow>, id: string,
                         o: Policy.Observation, v: View) {
    && o.downloadID == id && o.rows == rows && o.queue == queue
    && v.rejected == Rejections.Refused(c, o) && Rejections.RefusalOf(c, o, pattern, v.rejectedDecision)
    && Rejections.Decided(c, o, pattern, v.decision) && (Rejections.RefusalDecides(c, o) ==> v.decision == v.rejectedDecision)
    && Rejections.Caused(v.decision, pattern) && v.Coherent() && Policy.InScope(c, rows, v.decision)
  }

  /** What a scan publishes reads candidates exactly where it should. */
  lemma SightsObserved(c: Config, pattern: string -> bool, request: Option<Request>,
                       groups: map<string, seq<QueueRow>>, queue: seq<QueueRow>,
                       seen: map<string, Policy.Observation>, views: map<string, View>)
    requires forall id :: id in views <==> id in groups && Selects(request, id) && Queue.Eligible(groups[id])
    requires forall id :: id in views ==> id in seen && ViewOf(c, pattern, groups[id], queue, id, seen[id], views[id])
    ensures Observes(c, request, Sights(groups, views))
  {
    hide Queue.Eligible, Rejections.Refused, Rejections.RefusalOf, Rejections.RefusalDecides, Rejections.Decided;
    hide Rejections.Caused;
  }

  /** Once published, the views are what the last scan decided. */
  lemma ViewsAreOffered(c: Config, pattern: string -> bool, s: Sys, groups: map<string, seq<QueueRow>>,
                        queue: seq<QueueRow>,
                        seen: map<string, Policy.Observation>, views: map<string, View>, now: Time)
    requires forall id :: id in views ==> id in groups && id in seen && ViewOf(c, pattern, groups[id], queue, id, seen[id], views[id])
    requires s.previous != 0 && s.seen != [] && s.seen[|s.seen| - 1] == Complete(now, Sights(groups, views))
    ensures ViewsOffered(s, pattern, views)
  {
    hide Rejections.Refused, Rejections.RefusalOf, Rejections.RefusalDecides, Rejections.Decided;
    hide Rejections.Caused;
  }

  /** Every plan is for a real action that has waited or a continuation still to be searched, and no two plans
      search for the same continuation. */
  predicate Ready(c: Config, data: Data, override: bool, plans: seq<Plan>) {
    && (forall p :: p in plans ==> WaitedFor(c, data.issues, override, p) && p.decision.kind != Defer)
    && (forall p :: p in plans && p.decision.kind.Search? ==> p.id in data.operations && data.operations[p.id].state.PendingSearch?)
    && (forall i, j :: 0 <= i < j < |plans| && plans[i].decision.kind.Search? && plans[j].decision.kind.Search? ==> plans[i].id != plans[j].id)
  }

  /** Every plan for an import or a removal is what the last scan decided, with the causes of its candidate. */
  ghost predicate Offers(s: Sys, pattern: string -> bool, plans: seq<Plan>) {
    forall p :: p in plans && !p.decision.kind.Search? ==> Offered(s, p.id, p.decision) && Rejections.Caused(p.decision, pattern)
  }

  lemma NoPlans(c: Config, d: Data, override: bool, s: Sys, pattern: string -> bool)
    ensures Ready(c, d, override, []) && NoShare([]) && Offers(s, pattern, [])
  {
  }

  lemma OffersStill(s: Sys, t: Sys, pattern: string -> bool, plans: seq<Plan>)
    requires Offers(s, pattern, plans) && t.seen == s.seen && t.previous == s.previous
    ensures Offers(t, pattern, plans)
  {
    hide Rejections.Caused;
  }

  /** What one of the plans rests on. */
  lemma PlanFacts(c: Config, s: Sys, override: bool, pattern: string -> bool, plans: seq<Plan>, left: seq<Plan>,
                  p: Plan)
    requires Ready(c, s.mem.data, override, left) && Offers(s, pattern, plans) && p in left && p in plans
    ensures WaitedFor(c, s.mem.data.issues, override, p) && p.decision.kind != Defer
    ensures p.decision.kind.Search? ==> p.id in s.mem.data.operations && s.mem.data.operations[p.id].state.PendingSearch?
    ensures !p.decision.kind.Search? ==> Offered(s, p.id, p.decision) && Rejections.Caused(p.decision, pattern)
  {
    hide WaitedFor, Offered, Rejections.Caused;
  }

  lemma OfferedStill(s: Sys, t: Sys, id: string, d: Decision)
    requires Offered(s, id, d) && t.seen == s.seen && t.previous == s.previous
    ensures Offered(t, id, d)
  {
  }

  lemma ViewsStill(s: Sys, t: Sys, pattern: string -> bool, views: map<string, View>)
    requires ViewsOffered(s, pattern, views) && t.seen == s.seen && t.previous == s.previous
    ensures ViewsOffered(t, pattern, views)
  {
    hide Rejections.Caused;
  }

  lemma OffersMore(s: Sys, pattern: string -> bool, plans: seq<Plan>, p: Plan)
    requires Offers(s, pattern, plans)
    requires !p.decision.kind.Search? ==> Offered(s, p.id, p.decision) && Rejections.Caused(p.decision, pattern)
    ensures Offers(s, pattern, plans + [p])
  {
    hide Offered, Rejections.Caused;
  }

  /** Every view is what the last scan decided, with the causes of its candidate. */
  ghost predicate ViewsOffered(s: Sys, pattern: string -> bool, views: map<string, View>) {
    forall id :: id in views ==>
      Offered(s, id, views[id].decision) && Rejections.Caused(views[id].decision, pattern) && !views[id].decision.kind.Search?
  }

  lemma SameTimesKeys(a: map<string, Issue>, b: map<string, Issue>, id: string)
    requires SameTimes(a, b) && id in a
    ensures id in b
  {
  }

  lemma NoSearches(plans: seq<Plan>, todo: set<string>)
    requires forall p :: p in plans ==> !p.decision.kind.Search?
    ensures forall p :: p in plans && p.decision.kind.Search? ==> p.id !in todo
  {
  }

  lemma ReadyStill(c: Config, d: Data, e: Data, override: bool, plans: seq<Plan>)
    requires Ready(c, d, override, plans) && SameTimes(d.issues, e.issues) && e.operations == d.operations
    ensures Ready(c, e, override, plans)
  {
    hide WaitedFor;
    forall p | p in plans ensures WaitedFor(c, e.issues, override, p) {
      WaitedStill(c, d.issues, e.issues, override, p);
    }
  }

  /** A change to one continuation leaves the plans ready that do not search for it. */
  lemma ReadyBut(c: Config, d: Data, e: Data, override: bool, plans: seq<Plan>, id: string)
    requires Ready(c, d, override, plans) && SameTimes(d.issues, e.issues) && OthersSame(d, e, id)
    requires forall p :: p in plans && p.decision.kind.Search? ==> p.id != id
    ensures Ready(c, e, override, plans)
  {
    hide WaitedFor;
    forall p | p in plans ensures WaitedFor(c, e.issues, override, p) {
      WaitedStill(c, d.issues, e.issues, override, p);
    }
  }

  lemma ReadyAfter(c: Config, d: Data, e: Data, override: bool, p: Plan, rest: seq<Plan>)
    requires Ready(c, d, override, rest) && SameTimes(d.issues, e.issues) && OthersSame(d, e, p.id)
    requires p.decision.kind.Search? ==> forall q :: q in rest && q.decision.kind.Search? ==> q.id != p.id
    requires !p.decision.kind.Search? ==> e.operations == d.operations
    ensures Ready(c, e, override, rest)
  {
    if p.decision.kind.Search? {
      ReadyBut(c, d, e, override, rest, p.id);
    } else {
      ReadyStill(c, d, e, override, rest);
    }
  }

  lemma ReadyMore(c: Config, d: Data, override: bool, plans: seq<Plan>, p: Plan)
    requires Ready(c, d, override, plans) && WaitedFor(c, d.issues, override, p) && p.decision.kind != Defer
        && !p.decision.kind.Search?
    ensures Ready(c, d, override, plans + [p])
  {
    hide WaitedFor;
  }

  lemma ReadySearch(c: Config, d: Data, override: bool, plans: seq<Plan>, p: Plan)
    requires Ready(c, d, override, plans) && p.decision.kind.Search? && p.id in d.issues
    requires p.id in d.operations && d.operations[p.id].state.PendingSearch?
    requires forall q :: q in plans && q.decision.kind.Search? ==> q.id != p.id
    ensures Ready(c, d, override, plans + [p])
  {
    hide ObservedWait, NeededWait;
    assert forall j :: 0 <= j < |plans| ==> plans[j] in plans;
  }

  lemma KindKnown(c: Config, run: seq<Sys>, j: nat)
    requires Chain(c, run) && j < |run[|run| - 1].mem.data.attempts| && run[|run| - 1].mem.data.attempts[j].Unresolved()
    ensures run[|run| - 1].mem.data.attempts[j].kind != Defer
  {
    ChainKeeps(c, run, |run| - 1);
    var s := run[|run| - 1];
    assert Member(s.mem.data.attempts[j], s.mem.settled, s.clock);
  }

  /** A read failure is on record from then on. */
  function Blamed(d: Data, broken: bool): Data {
    if broken then d.(readFailure := true) else d
  }

  /** The data after one attempt was verified. */
  function Reconciled(c: Config, d: Data, j: nat, queue: seq<QueueRow>, evidence: Reads, now: Time): Data
    requires j < |d.attempts| && ReadsFor(d.attempts[j], evidence)
  {
    var a := d.attempts[j];
    var absent := forall q :: q in queue ==> q.downloadID != a.downloadID;
    Blamed(Settle(c, d, j, Verdict(a, absent, evidence, now), now), Weigh(a, absent, evidence, now).Broken?)
  }

  lemma ReconciledAs(c: Config, d: Data, j: nat, queue: seq<QueueRow>, evidence: Reads, now: Time, b: Attempt,
                     broken: bool)
    requires j < |d.attempts| && ReadsFor(d.attempts[j], evidence)
    requires var absent := forall q :: q in queue ==> q.downloadID != d.attempts[j].downloadID;
             b == Verdict(d.attempts[j], absent, evidence, now) && broken == Weigh(d.attempts[j], absent, evidence, now).Broken?
    ensures Reconciled(c, d, j, queue, evidence, now) == if broken then Settle(c, d, j, b, now).(readFailure := true) else Settle(c, d, j, b, now)
    ensures Reconciled(c, d, j, queue, evidence, now).attempts == d.attempts[j := b]
  {
    hide Verdict, Weigh;
  }

  predicate EvidenceFits(s: seq<Attempt>, evidence: seq<Reads>) {
    |evidence| == |s| && forall j :: 0 <= j < |s| ==> ReadsFor(s[j], evidence[j])
  }

  /** The verdict on one attempt against this queue and evidence, if it is unresolved. */
  function Reviewed(a: Attempt, queue: seq<QueueRow>, evidence: Reads, now: Time): Attempt
    requires ReadsFor(a, evidence)
  {
    if a.Unresolved() then Verdict(a, forall q :: q in queue ==> q.downloadID != a.downloadID, evidence, now) else a
  }

  /** The data after the first n attempts were verified, in their order: those that were unresolved. */
  function AllReconciled(c: Config, d: Data, queue: seq<QueueRow>, evidence: seq<Reads>, now: Time, n: nat): (e: Data)
    requires n <= |d.attempts| && n <= |evidence| && forall j :: 0 <= j < n ==> ReadsFor(d.attempts[j], evidence[j])
    ensures |e.attempts| == |d.attempts| && forall j :: n <= j < |d.attempts| ==> e.attempts[j] == d.attempts[j]
  {
    if n == 0 then d
    else
      var e := AllReconciled(c, d, queue, evidence, now, n - 1);
      if d.attempts[n - 1].Unresolved() then
        ReconciledAttempts(c, e, n - 1, queue, evidence[n - 1], now);
        Reconciled(c, e, n - 1, queue, evidence[n - 1], now)
      else e
  }

  lemma SettledAttempts(c: Config, d: Data, j: nat, b: Attempt, now: Time)
    requires j < |d.attempts|
    ensures Settle(c, d, j, b, now).attempts == d.attempts[j := b]
  {
  }

  lemma ReconciledAttempts(c: Config, d: Data, j: nat, queue: seq<QueueRow>, evidence: Reads, now: Time)
    requires j < |d.attempts| && ReadsFor(d.attempts[j], evidence) && d.attempts[j].Unresolved()
    ensures Reconciled(c, d, j, queue, evidence, now).attempts == d.attempts[j := Reviewed(d.attempts[j], queue, evidence, now)]
  {
    hide Verdict, Weigh, Settle;
    SettledAttempts(c, d, j, Reviewed(d.attempts[j], queue, evidence, now), now);
  }

  /** Each of them ends in its own verdict, whatever the others meant for continuations and observations. */
  lemma {:induction false} AllReviewed(c: Config, d: Data, queue: seq<QueueRow>, evidence: seq<Reads>, now: Time, n: nat)
    requires n <= |d.attempts| && n <= |evidence| && forall j :: 0 <= j < n ==> ReadsFor(d.attempts[j], evidence[j])
    ensures forall j :: 0 <= j < n ==>
              AllReconciled(c, d, queue, evidence, now, n).attempts[j] == Reviewed(d.attempts[j], queue, evidence[j], now)
  {
    hide Reconciled, Verdict;
    if n > 0 {
      AllReviewed(c, d, queue, evidence, now, n - 1);
      var e := AllReconciled(c, d, queue, evidence, now, n - 1);
      if d.attempts[n - 1].Unresolved() {
        ReconciledAttempts(c, e, n - 1, queue, evidence[n - 1], now);
      }
    }
  }

  lemma ReconciledMore(c: Config, d: Data, queue: seq<QueueRow>, evidence: seq<Reads>, read: Reads, now: Time, n: nat)
    requires |evidence| == n < |d.attempts| && EvidenceFits(d.attempts[..n], evidence) && ReadsFor(d.attempts[n], read)
    ensures EvidenceFits(d.attempts[..n + 1], evidence + [read])
    ensures var e := AllReconciled(c, d, queue, evidence, now, n);
            e.attempts[n] == d.attempts[n]
            && AllReconciled(c, d, queue, evidence + [read], now, n + 1) ==
                 if d.attempts[n].Unresolved() then Reconciled(c, e, n, queue, read, now) else e
  {
    hide Reconciled;
    assert d.attempts[..n + 1] == d.attempts[..n] + [d.attempts[n]];
    assert forall j :: 0 <= j < n ==> d.attempts[..n][j] == d.attempts[j];
    SameEvidence(c, d, queue, evidence, evidence + [read], now, n);
    var e := AllReconciled(c, d, queue, evidence, now, n);
  }

  lemma {:induction false} SameEvidence(c: Config, d: Data, queue: seq<QueueRow>, evidence: seq<Reads>,
                                        more: seq<Reads>, now: Time, n: nat)
    requires n <= |d.attempts| && n <= |evidence| && n <= |more| && evidence[..n] == more[..n]
    requires forall j :: 0 <= j < n ==> ReadsFor(d.attempts[j], evidence[j])
    ensures forall j :: 0 <= j < n ==> ReadsFor(d.attempts[j], more[j])
    ensures AllReconciled(c, d, queue, evidence, now, n) == AllReconciled(c, d, queue, more, now, n)
  {
    hide Reconciled;
    assert forall j :: 0 <= j < n ==> more[j] == more[..n][j] == evidence[..n][j] == evidence[j];
    if n > 0 {
      assert evidence[..n - 1] == evidence[..n][..n - 1] && more[..n - 1] == more[..n][..n - 1];
      SameEvidence(c, d, queue, evidence, more, now, n - 1);
    }
  }

  /** Nothing was read, since nothing was asked. */
  function NoReads(a: Attempt): (r: Reads)
    ensures ReadsFor(a, r)
  {
    Reads(Unavailable, Unavailable, seq(|a.decision.episodeIDs|, _ => Unavailable), Unavailable)
  }

  lemma VerifyStep(c: Config, s: Sys, j: nat, absent: bool, evidence: Reads, now: Time)
    requires s.phase.Idle? && 0 < now <= s.clock && j < |s.mem.data.attempts| && s.mem.data.attempts[j].Unresolved()
    requires ReadsFor(s.mem.data.attempts[j], evidence)
    ensures Enabled(c, s, Action.Verify(j, absent, evidence, now))
    ensures var b, t := Verdict(s.mem.data.attempts[j], absent, evidence, now), Apply(c, s, Action.Verify(j, absent, evidence, now));
            && t == s.(mem := t.mem) && t.mem.data == Settle(c, s.mem.data, j, b, now)
            && t.mem.data.attempts == s.mem.data.attempts[j := b]
  {
    hide Verdict;
  }

  lemma SortedMembers(s: seq<int>)
    ensures (forall e :: e in Sorting.Sorted(s) ==> e in s) && (s != [] ==> Sorting.Sorted(s) != [])
  {
    var r := Sorting.Sorted(s);
    assert |r| == |multiset(r)| == |multiset(s)| == |s|;
    assert forall e :: e in r ==> e in multiset(r);
  }

  lemma NoteStep(c: Config, s: Sys, id: string, state: IssueState, basis: Option<Decision>)
    requires s.phase.Idle? && id in s.mem.data.issues && state != Resolved
    ensures Enabled(c, s, Note(id, state, basis))
    ensures var i := s.mem.data.issues[id];
            var issues := s.mem.data.issues[id := i.(state := state, decision := if basis.Some? then basis else i.decision)];
            && Apply(c, s, Note(id, state, basis)) == s.(mem := s.mem.(data := s.mem.data.(issues := issues)))
            && SameTimes(s.mem.data.issues, issues) && issues.Keys == s.mem.data.issues.Keys
  {
  }

  /** Nothing was sent or recorded, and observed times and continuations are what they were. */
  predicate Aside(s: Sys, t: Sys) {
    && Quiet(s, t) && t.clock == s.clock && t.mem.data.attempts == s.mem.data.attempts
    && t.mem.data.operations == s.mem.data.operations
    && SameTimes(s.mem.data.issues, t.mem.data.issues)
  }

  lemma SameTimesSelf(a: map<string, Issue>)
    ensures SameTimes(a, a)
  {
  }

  lemma SameTimesTrans(a: map<string, Issue>, b: map<string, Issue>, d: map<string, Issue>)
    requires SameTimes(a, b) && SameTimes(b, d)
    ensures SameTimes(a, d)
  {
  }

  /** A plan that survived its checks may go on. */
  lemma CheckedStill(v: Service, s: Sys, t: Sys, id: string, planned: Decision, d: Decision, files: map<int, int>,
                     seen: Policy.Observation, why: Option<Obstacle>, before: seq<Reading>, after: seq<Reading>)
    requires Aside(s, t) && t.previous == s.previous && Offered(s, id, planned)
    requires WaitedFor(v.c, s.mem.data.issues, v.Override(), Plan(id, planned)) && planned.kind != Defer
    requires v.Rechecked(s.mem.data, t.mem.data, id, planned, Some((d, files)), seen, why, before, after)
    requires Rejections.Caused(planned, v.pattern)
    ensures before <= after && id in s.mem.data.issues && t.mem.data == s.mem.data
    ensures id in s.mem.data.issues && v.Passes(s.mem.data, id, planned, d, files, seen, before, after)
    ensures Offered(t, id, planned) && Agrees(d, planned) && Policy.SeriesInScope(v.c, d) && d.kind == planned.kind
    ensures WaitedFor(v.c, t.mem.data.issues, v.Override(), Plan(id, planned))
  {
    hide Rejections.Caused, WaitedFor, SameTimes, Heard, FromObservation, Queue.QueueIdentity;
    OfferedStill(s, t, id, planned);
    Rejections.SameCauses(d, planned, v.pattern);
  }

  lemma FilesKept(o: Policy.Observation, files: map<int, int>)
    requires files == map eid | eid in o.episodes && o.episodes[eid].fileID.Some? :: o.episodes[eid].fileID.value
    ensures FilesOf(o, files)
  {
  }

  lemma NoRows()
    ensures !Queue.Eligible([])
  {
  }

  lemma PromptAfter(s: seq<Attempt>, t: seq<Attempt>, at: Time, now: Time)
    requires Prompt(s, at) && at <= now
    requires t == s || exists a :: t == s + [a] && a.started == now
    ensures Prompt(t, at)
  {
  }

  /** Continuations of other downloads are untouched. */
  predicate OthersSame(d: Data, e: Data, id: string) {
    e.operations.Keys == d.operations.Keys && forall x :: x in d.operations && x != id ==> e.operations[x] == d.operations[x]
  }

  lemma TransmitStep(c: Config, s: Sys)
    requires s.phase.Armed?
    ensures Enabled(c, s, Action.Transmit)
    ensures Apply(c, s, Action.Transmit) == s.(log := s.log + [s.phase.tx], sentAt := s.sentAt + [s.clock],
                                               phase := Sent(s.phase.tx))
  {
  }

  lemma RespondStep(c: Config, s: Sys, reply: Read<int>)
    requires s.phase.Sent? && s.mem.data.attempts != []
    ensures Enabled(c, s, Respond(reply))
    ensures Apply(c, s, Respond(reply)) == s.(mem := s.mem.(data := Answered(s.mem.data, reply)), phase := Idle)
  {
    hide Answered;
  }

  lemma PersistEnabled(c: Config, s: Sys)
    requires s.phase.Idle? && (s.request.Some? ==> s.request.value.execute)
    ensures forall save :: Enabled(c, s, Persist(save))
              && Apply(c, s, Persist(save)) == s.(disk := AfterSave(save, s.disk, s.mem),
                                                  saved := SavedAfter(save, s.saved, s.seen))
  {
  }

  lemma MissStep(c: Config, s: Sys, now: Time)
    requires s.phase.Idle? && 0 < now <= s.clock
    ensures Enabled(c, s, Miss(now))
    ensures var e := Expire(s.mem.data, now);
            && Apply(c, s, Miss(now)) == s.(mem := s.mem.(data := e.(issues := Missed(e.issues), readFailure := true)),
                                            previous := 0,
                                            scans := s.scans + [Gap], seen := s.seen + [Gap])
            && e.(issues := Missed(e.issues), readFailure := true).attempts == e.attempts
  {
    hide Expire, Missed;
  }

  lemma AnsweredFacts(d: Data, reply: Read<int>, at: Time)
    requires d.attempts != [] && Prompt(d.attempts, at)
    requires d.attempts[|d.attempts| - 1].outcome.Intent? && !d.attempts[|d.attempts| - 1].dryRun
    ensures var e := Answered(d, reply);
            && Prompt(e.attempts, at) && e.issues == d.issues
            && OthersSame(d, e, d.attempts[|d.attempts| - 1].downloadID)
            && (d.attempts[|d.attempts| - 1].kind != Search ==> e.operations == d.operations)
  {
  }

  /** What a new action rests on: what the last scan decided for the same candidate and the same causes, after it has
      waited, or a continuation to search for. */
  predicate Warranted(c: Config, s: Sys, id: string, d: Decision, planned: Decision) {
    if d.kind.Search? then Continuable(c, s.mem.data, id)
    else Offered(s, id, planned) && Agrees(d, planned) && Policy.SeriesInScope(c, d) && WaitedFor(c, s.mem.data.issues, s.Override(), Plan(id, planned))
  }

  lemma SearchWarranted(c: Config, s: Sys, id: string, d: Decision)
    requires d.kind.Search? && Continuable(c, s.mem.data, id)
    ensures Warranted(c, s, id, d, d)
  {
  }

  lemma MayReserveNow(c: Config, s: Sys, id: string, d: Decision, planned: Decision, before: map<int, int>)
    requires s.phase.Idle? && id in s.mem.data.issues && d.kind != Defer
    requires if s.request.Some? then s.request.value.execute && s.request.value.id in s.mem.data.triggers else !c.dryRun
    requires State.Gate(c, s.mem.data, id, d, s.clock, ParentID(s.mem.data, id, d.kind), s.Override()) == Open
    requires Warranted(c, s, id, d, planned)
    ensures forall save :: Enabled(c, s, Action.Reserve(id, d, planned, before, save))
  {
    hide State.Gate;
  }

  lemma ReserveStep(c: Config, s: Sys, id: string, d: Decision, planned: Decision, before: map<int, int>, save: Save)
    requires Enabled(c, s, Action.Reserve(id, d, planned, before, save))
    ensures var a := NewAttempt(s, id, d, before);
            var t := Apply(c, s, Action.Reserve(id, d, planned, before, save));
            && t.mem.data == Recorded(s.mem.data, a) && t.disk.data == (if save.NotSaved? then s.disk.data else t.mem.data)
            && t.log == s.log && t.clock == s.clock && t.previous == s.previous && t.request == s.request
            && Unscanned(s, t)
            && t.phase == (if save.Saved? then Armed(Intention(s, id, d, before)) else Idle)
            && Intention(s, id, d, before).attempt == a && Intention(s, id, d, before).request == s.request
  {
    hide State.Gate, Recorded, MaxID;
  }

  lemma RecordedFacts(d: Data, a: Attempt)
    ensures var e := Recorded(d, a);
            && e.attempts == d.attempts + [a] && e.operations == d.operations && SameTimes(d.issues, e.issues)
            && e.readFailure == d.readFailure
  {
  }

  lemma ExpirePrompt(d: Data, now: Time)
    ensures Prompt(Expire(d, now).attempts, now)
  {
  }
}
