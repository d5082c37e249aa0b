/** The durable data of the service and the pure questions asked of it. */
module State {
  import opened Types

  datatype Outcome = Intent | Pending | Uncertain | Partial | Verified | Submitted | KnownFailed | Recommended

  datatype Attempt = Attempt(
    manual: bool, requestID: string, waitOverride: bool, id: int, downloadID: string,
    kind: Kind, dryRun: bool, started: Time, finished: Time, outcome: Outcome, commandID: int, ack: bool,
    decision: Decision, beforeFiles: map<int, int>, verifiedEpisodes: set<int>,
    removalVerified: bool, blocklistVerified: bool, title: string)
  {
    /** A live effect whose result is still unknown; it protects its download and episodes. */
    predicate Unresolved() {
      !dryRun && (outcome.Intent? || outcome.Pending? || outcome.Uncertain? || outcome.Partial?)
    }

    /** The instant retention and retry spacing count from. */
    function End(): Time { if finished == 0 then started else finished }

    predicate Completed() { outcome.Verified? || outcome.Submitted? }
  }

  datatype IssueState =
    | Fresh | PolicyBlocked | Resolved | InProgress | Unsure | Waiting | RetryWaiting | ExhaustedState | Recoverable

  datatype Issue = Issue(
    downloadID: string, identity: multiset<RowKey>, rows: seq<QueueRow>, title: string,
    firstSeen: Time, eligibleSince: Time, lastSeen: Time, eligible: bool, elapsed: Duration,
    rejected: bool, rejectedElapsed: Duration, rejectedLastSeen: Time,
    recoveryDue: Time, cleanupDue: Time, state: IssueState, decision: Option<Decision>, resolvedAt: Time)

  datatype OperationState = PendingSearch | SearchAttempted | Finished

  datatype Operation = Operation(removalID: int, downloadID: string, episodeIDs: seq<int>, state: OperationState)

  /** A manual request. The selection is sorted and compacted on receipt, so it is a set. */
  datatype Request = Request(
    version: int, id: string, execute: bool, overrideWait: bool, downloads: set<string>, issued: Time, expires: Time)

  datatype ReceiptStatus = Accepted | Done | Interrupted

  datatype Receipt = Receipt(
    request: Request, accepted: Time, finished: Time, status: ReceiptStatus,
    reportVersion: int, reportRequestID: string, attemptIDs: seq<int>)

  datatype Data = Data(
    triggers: map<string, Receipt>, issues: map<string, Issue>, attempts: seq<Attempt>,
    operations: map<string, Operation>, readFailure: bool)

  // ---------------------------------------------------------------- overlap and budget

  predicate Shares(xs: seq<int>, ys: seq<int>) {
    exists e :: e in xs && e in ys
  }

  /** The attempt concerns the download or one of the episodes. */
  predicate Touches(a: Attempt, id: string, episodes: seq<int>) {
    a.downloadID == id || Shares(episodes, a.decision.episodeIDs)
  }

  predicate Related(a: Attempt, b: Attempt) {
    Touches(a, b.downloadID, b.decision.episodeIDs)
  }

  /** The live attempts started after the instant. */
  ghost function LiveSince(s: seq<Attempt>, t: Time): set<int> {
    set j | 0 <= j < |s| && !s[j].dryRun && s[j].started > t
  }

  /** Mutations charged to the rolling hour that ends now. */
  ghost function Budget(d: Data, now: Time): nat {
    |LiveSince(d.attempts, now - HOUR)|
  }

  // ---------------------------------------------------------------- the gate

  datatype Why = Open | RollingHour | Protected | Cooldown | Exhausted | RetrySpacing

  /** What one recorded attempt says against a new action. */
  function Conflict(c: Config, a: Attempt, id: string, d: Decision, now: Time, parent: int, override: bool): Why {
    if a.dryRun || !Touches(a, id, d.episodeIDs) then Open
    else if a.Unresolved() then Protected
    else if a.id != parent && a.Completed() && now - a.finished < c.episodeCooldown && !override then Cooldown
    else Open
  }

  /** The first objection in recording order. */
  function FirstConflict(c: Config, s: seq<Attempt>, id: string, d: Decision, now: Time, parent: int,
                         override: bool): Why {
    if s == [] then Open
    else
      var w := Conflict(c, s[0], id, d, now, parent, override);
      if w != Open then w else FirstConflict(c, s[1..], id, d, now, parent, override)
  }

  /** An earlier live import of the same download and candidate. */
  predicate IsTry(a: Attempt, id: string, d: Decision) {
    !a.dryRun && a.downloadID == id && a.kind.Import? && a.decision.fingerprint == d.fingerprint
  }

  ghost function Tries(s: seq<Attempt>, id: string, d: Decision): set<int> {
    set j | 0 <= j < |s| && IsTry(s[j], id, d)
  }

  ghost predicate TooSoon(c: Config, s: seq<Attempt>, id: string, d: Decision, now: Time) {
    exists j :: 0 <= j < |s| && IsTry(s[j], id, d) && s[j].End() > 0 && now - s[j].End() < c.retryInterval
  }

  /** The answer of the gate: open, or the first reason to refuse. */
  ghost function Gate(c: Config, data: Data, id: string, d: Decision, now: Time, parent: int, override: bool): Why {
    if Budget(data, now) >= c.perHour then RollingHour
    else
      var w := FirstConflict(c, data.attempts, id, d, now, parent, override);
      if w != Open then w
      else if !d.kind.Import? then Open
      else if |Tries(data.attempts, id, d)| >= c.maxAttempts then Exhausted
      else if TooSoon(c, data.attempts, id, d, now) then RetrySpacing
      else Open
  }

  // ---------------------------------------------------------------- identifiers

  function MaxID(s: seq<Attempt>): (n: int)
    ensures n >= 0 && forall a :: a in s ==> a.id <= n
    ensures n == 0 || exists a :: a in s && a.id == n
  {
    if s == [] then 0
    else
      var n := MaxID(s[..|s| - 1]);
      if s[|s| - 1].id > n then s[|s| - 1].id else n
  }

  predicate HasUnresolved(d: Data, id: string) {
    exists a :: a in d.attempts && a.downloadID == id && a.Unresolved()
  }

  // ---------------------------------------------------------------- retention

  /** A download or its continuation still needs this record. */
  predicate Needed(d: Data, a: Attempt) {
    || (a.downloadID in d.issues && !d.issues[a.downloadID].state.Resolved?)
    || (a.downloadID in d.operations && !d.operations[a.downloadID].state.Finished?
        && d.operations[a.downloadID].removalID == a.id)
  }

  predicate Retain(c: Config, d: Data, a: Attempt, now: Time) {
    || a.Unresolved() || Needed(d, a)
    || a.started > now - HOUR || a.finished > now - c.episodeCooldown || a.End() > now - c.retention
  }

  /** Some effect of the request, or a continuation of one, still needs the receipt. */
  predicate ReceiptNeeded(c: Config, d: Data, id: string, now: Time) {
    exists a :: a in d.attempts && a.requestID == id &&
      (Retain(c, d, a, now) || (a.downloadID in d.operations && !d.operations[a.downloadID].state.Finished?))
  }

  predicate DropsReceipt(c: Config, d: Data, id: string, now: Time)
    requires id in d.triggers
  {
    var r := d.triggers[id];
    !r.status.Accepted? && !ReceiptNeeded(c, d, id, now) && r.finished != 0 && now - r.finished > c.retention
  }

  predicate DropsIssue(c: Config, d: Data, id: string, now: Time) {
    && id in d.issues
    && d.issues[id].state.Resolved? && d.issues[id].resolvedAt != 0 && now - d.issues[id].resolvedAt > c.retention
    && !HasUnresolved(d, id)
    && !(id in d.operations && !d.operations[id].state.Finished?)
  }

  function KeptReceipts(c: Config, d: Data, now: Time): map<string, Receipt> {
    map id | id in d.triggers && !DropsReceipt(c, d, id, now) :: d.triggers[id]
  }

  function KeptIssues(c: Config, d: Data, now: Time): map<string, Issue> {
    map id | id in d.issues && !DropsIssue(c, d, id, now) :: d.issues[id]
  }

  function KeptOperations(c: Config, d: Data, now: Time): map<string, Operation> {
    map id | id in d.operations && !DropsIssue(c, d, id, now) :: d.operations[id]
  }

  /** A receipt that stays names the attempt. */
  predicate Named(triggers: map<string, Receipt>, aid: int) {
    exists id :: id in triggers && aid in triggers[id].attemptIDs
  }

  predicate Keeps(c: Config, d: Data, a: Attempt, now: Time) {
    Named(d.triggers, a.id) || Retain(c, d, a, now)
  }

  /** The attempts that the rest of the store still keeps, in order. */
  function KeptAttempts(c: Config, d: Data, s: seq<Attempt>, now: Time): seq<Attempt> {
    if s == [] then []
    else
      var r := KeptAttempts(c, d, s[..|s| - 1], now);
      if Keeps(c, d, s[|s| - 1], now) then r + [s[|s| - 1]] else r
  }

  /** Retention: receipts first, then resolved observations with their continuations. */
  function PruneRest(c: Config, d: Data, now: Time): Data {
    d.(triggers := KeptReceipts(c, d, now), issues := KeptIssues(c, d, now), operations := KeptOperations(c, d, now))
  }

  /** Retention of the whole store: attempts last, against what is left of the rest. */
  function Prune(c: Config, d: Data, now: Time): Data {
    var rest := PruneRest(c, d, now);
    rest.(attempts := KeptAttempts(c, rest, d.attempts, now))
  }

  // ---------------------------------------------------------------- receipts

  const VERSION := 1
  const MAX_DOWNLOADS := 1000
  const MAX_TIMEOUT: Duration := 2 * MINUTE

  predicate IsHex(ch: char) {
    '0' <= ch <= '9' || 'a' <= ch <= 'f' || 'A' <= ch <= 'F'
  }

  /** The structural checks of a request, independent of the clock. */
  predicate WellFormed(r: Request) {
    && r.version == VERSION
    && (if r.execute then |r.id| == 32 && forall ch :: ch in r.id ==> IsHex(ch) else r.id == "")
    && r.issued != 0 && r.expires > r.issued && r.expires - r.issued <= MAX_TIMEOUT
    && "" !in r.downloads && |r.downloads| <= MAX_DOWNLOADS
  }

  predicate ReceiptOK(id: string, r: Receipt) {
    && r.request.id == id && r.request.execute && WellFormed(r.request) && r.accepted != 0
    && r.reportVersion == VERSION && r.reportRequestID == id
  }

  predicate Distinct(xs: seq<int>) {
    forall i, j :: 0 <= i < j < |xs| ==> xs[i] != xs[j]
  }

  /** The attempt carries the evidence that the receipt refers to. */
  predicate Evidence(s: seq<Attempt>, id: string, aid: int) {
    exists a :: a in s && a.id == aid && a.requestID == id && a.manual
  }

  /** The store invariant checked when a store is opened: receipts and manual attempts name each other. */
  predicate Linked(d: Data) {
    && (forall id :: id in d.triggers ==>
          ReceiptOK(id, d.triggers[id]) && Distinct(d.triggers[id].attemptIDs)
          && forall aid :: aid in d.triggers[id].attemptIDs ==> Evidence(d.attempts, id, aid))
    && (forall a :: a in d.attempts && a.requestID != "" ==>
          a.requestID in d.triggers && a.manual && a.id in d.triggers[a.requestID].attemptIDs)
  }

  // ---------------------------------------------------------------- restart repair

  function RepairAttempt(a: Attempt): Attempt {
    if a.outcome.Intent? then a.(outcome := Uncertain) else a
  }

  function RepairReceipt(r: Receipt, now: Time): Receipt {
    if r.status.Accepted? then r.(status := Interrupted, finished := now) else r
  }

  /** What opening a store makes of its contents: interrupted intents become uncertain, never pending again. */
  function Repair(d: Data, now: Time): Data {
    d.(attempts := seq(|d.attempts|, i requires 0 <= i < |d.attempts| => RepairAttempt(d.attempts[i])),
       triggers := map id | id in d.triggers :: RepairReceipt(d.triggers[id], now))
  }
}
