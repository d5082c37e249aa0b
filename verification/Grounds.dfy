/** What an action rests on, and what alone can stop one: in terms of what was read for it. */
module Grounds {
  import opened Types
  import opened State
  import opened System
  import opened Remote
  import Fingerprints
  import Policy
  import Queue
  import Rejections
  import Sorting

  // ---------------------------------------------------------------- what was sent, and why

  /** The files that the episodes of an observation had. */
  ghost predicate FilesOf(o: Policy.Observation, before: map<int, int>) {
    && (forall eid :: eid in before <==> eid in o.episodes && o.episodes[eid].fileID.Some?)
    && (forall eid :: eid in before ==> o.episodes[eid].fileID == Some(before[eid]))
  }

  /** An import or removal is what policy decided of an observation of its own rows, both just read, and it remembers
      the files that were there. */
  ghost predicate FromObservation(c: Config, pattern: string -> bool, before: seq<Reading>, after: seq<Reading>,
                                  seen: Policy.Observation, id: string, d: Decision, files: map<int, int>) {
    && Heard(before, after, QueueRead(Got(seen.queue))) && Heard(before, after, DownloadRead(id, Got(seen)))
    && seen.downloadID == id && seen.rows == Queue.RowsOf(seen.queue, id) && Queue.Eligible(seen.rows)
    && Rejections.Decided(c, seen, pattern, d) && FilesOf(seen, files)
  }

  /** A search is for episodes in scope, each just read as monitored and without an acceptable file, and no download in
      a queue just read competes for them. */
  ghost predicate FromTargets(c: Config, before: seq<Reading>, after: seq<Reading>, queue: seq<QueueRow>, a: Attempt) {
    && Heard(before, after, QueueRead(Got(queue))) && a.decision.episodeIDs != [] && a.beforeFiles == map[]
    && (forall e :: e in a.decision.episodeIDs ==> JustLacking(c, before, after, e))
    && (forall q :: q in queue ==> !Policy.Competes(q, "", a.decision.episodeIDs))
  }

  ghost predicate JustLacking(c: Config, before: seq<Reading>, after: seq<Reading>, eid: int) {
    exists t :: Heard(before, after, EpisodeRead(eid, Got(t))) && Lacking(t) && Policy.SeriesAllowed(c, t.seriesID)
  }

  ghost predicate Justified(c: Config, pattern: string -> bool, before: seq<Reading>, after: seq<Reading>, a: Attempt) {
    if a.kind.Search? then exists queue :: FromTargets(c, before, after, queue, a)
    else exists seen :: FromObservation(c, pattern, before, after, seen, a.downloadID, a.decision, a.beforeFiles)
  }

  /** Whatever was logged was transmitted, in that order and once each, nothing else was transmitted, and all of it
      rests on what was read meanwhile. */
  ghost predicate Accounted(c: Config, pattern: string -> bool, log: seq<Tx>, more: seq<Tx>,
                            sent: seq<Attempt>, resent: seq<Attempt>, before: seq<Reading>, after: seq<Reading>) {
    && log <= more && sent <= resent && before <= after && |resent| - |sent| == |more| - |log|
    && forall k :: |log| <= k < |more| ==>
         resent[|sent| + k - |log|] == more[k].attempt && Justified(c, pattern, before, after, more[k].attempt)
  }

  lemma JustifiedWithin(c: Config, pattern: string -> bool, a: seq<Reading>, b: seq<Reading>, d: seq<Reading>,
                        e: seq<Reading>, t: Attempt)
    requires a <= b <= d <= e && Justified(c, pattern, b, d, t)
    ensures Justified(c, pattern, a, e, t)
  {
    hide Heard, Queue.RowsOf, Queue.Eligible, Rejections.Decided, FilesOf, Policy.SeriesAllowed, Policy.Competes,
        Lacking;
    HeardWithin(a, b, d, e);
    if t.kind.Search? {
      var queue :| FromTargets(c, b, d, queue, t);
      forall x | x in t.decision.episodeIDs ensures JustLacking(c, a, e, x) {
        assert JustLacking(c, b, d, x);
      }
      assert FromTargets(c, a, e, queue, t);
    } else {
      var seen :| FromObservation(c, pattern, b, d, seen, t.downloadID, t.decision, t.beforeFiles);
      assert FromObservation(c, pattern, a, e, seen, t.downloadID, t.decision, t.beforeFiles);
    }
  }

  lemma NothingAccounted(c: Config, pattern: string -> bool, log: seq<Tx>, sent: seq<Attempt>, before: seq<Reading>,
                         after: seq<Reading>)
    requires before <= after
    ensures Accounted(c, pattern, log, log, sent, sent, before, after)
  {
  }

  lemma OneAccounted(c: Config, pattern: string -> bool, log: seq<Tx>, more: seq<Tx>, sent: seq<Attempt>,
                     resent: seq<Attempt>, before: seq<Reading>, after: seq<Reading>)
    requires log <= more && |more| == |log| + 1 && before <= after && resent == sent + [more[|log|].attempt]
    requires Justified(c, pattern, before, after, more[|log|].attempt)
    ensures Accounted(c, pattern, log, more, sent, resent, before, after)
  {
    hide Justified;
  }

  lemma AccountedMore(c: Config, pattern: string -> bool, log: seq<Tx>, mid: seq<Tx>, more: seq<Tx>, sent: seq<Attempt>,
                      between: seq<Attempt>, resent: seq<Attempt>, a: seq<Reading>, b: seq<Reading>, d: seq<Reading>,
                      e: seq<Reading>)
    requires Accounted(c, pattern, log, mid, sent, between, a, b) && b <= d
    requires Accounted(c, pattern, mid, more, between, resent, d, e)
    ensures Accounted(c, pattern, log, more, sent, resent, a, e)
  {
    hide Justified;
    forall k | |log| <= k < |more|
      ensures resent[|sent| + k - |log|] == more[k].attempt && Justified(c, pattern, a, e, more[k].attempt)
    {
      if k < |mid| {
        assert mid[k] == more[k] && between[|sent| + k - |log|] == mid[k].attempt;
        JustifiedWithin(c, pattern, a, a, b, e, mid[k].attempt);
      } else {
        JustifiedWithin(c, pattern, a, d, e, e, more[k].attempt);
      }
    }
  }

  // ---------------------------------------------------------------- what can stop an action

  datatype Obstacle =
    | QueueUnread
    | DownloadUnread
    | RowsChanged(queue: seq<QueueRow>)
    | DecisionChanged(seen: Policy.Observation, other: Decision)
    | GateShut(refused: Decision, at: Time)
    | CalledOff
    | NotConfigured
    | ReadsFailed
    | StillOpen
    | RemovalUnproved
    | SearchOnRecord
    | ClientExcluded(row: QueueRow)
    | TargetUnread(eid: int)
    | TargetExcluded(eid: int, target: Target)
    | NothingLacking(found: seq<Target>)
    | Contested(queue: seq<QueueRow>, found: seq<Target>)

  /** What stops a planned import or removal: an unreadable queue or download, rows that are no longer those on record,
      another decision, a gate that is shut to the fresh decision, or cancellation. */
  ghost predicate StopsExecution(c: Config, pattern: string -> bool, d: Data, id: string, planned: Decision,
                                 override: bool,
                                 before: seq<Reading>, after: seq<Reading>, o: Obstacle)
    requires id in d.issues
  {
    match o
    case QueueUnread => Heard(before, after, QueueRead(Unavailable))
    case DownloadUnread => Heard(before, after, DownloadRead(id, Unavailable))
    case RowsChanged(queue) =>
      && Heard(before, after, QueueRead(Got(queue)))
      && var rows := if id == "" then [] else Queue.RowsOf(queue, id);
         !Queue.Eligible(rows) || Queue.QueueIdentity(rows) != d.issues[id].identity
    case DecisionChanged(seen, other) =>
      && Heard(before, after, DownloadRead(id, Got(seen))) && Rejections.Decided(c, seen, pattern, other)
      && (other.kind != planned.kind || other.fingerprint != planned.fingerprint)
    case GateShut(refused, at) =>
      && (exists seen :: Heard(before, after, DownloadRead(id, Got(seen))) && Rejections.Decided(c, seen, pattern, refused))
      && refused.kind == planned.kind && refused.fingerprint == planned.fingerprint
      && State.Gate(c, d, id, refused, at, 0, override) != Open
    case CalledOff => Heard(before, after, CancelRead(true))
    case _ => false
  }

  /** The removal that a continuation names: the first attempt under its identifier, if that is a verified unusable
      removal. */
  ghost predicate Proves(s: seq<Attempt>, removal: int, j: int) {
    && 0 <= j < |s| && s[j].id == removal && (forall i :: 0 <= i < j ==> s[i].id != removal)
    && s[j].kind.RemoveUnusable? && s[j].outcome.Verified?
  }

  /** What stops the search of a continuation. */
  ghost predicate StopsSearch(c: Config, d: Data, id: string, override: bool, before: seq<Reading>, after: seq<Reading>,
                              o: Obstacle)
    requires id in d.operations
  {
    var op := d.operations[id];
    match o
    case NotConfigured => !c.cleanupEnabled || !c.replacementSearch
    case ReadsFailed => d.readFailure
    case StillOpen => exists a :: a in d.attempts && a.downloadID == id && a.Unresolved()
    case RemovalUnproved => forall j :: !Proves(d.attempts, op.removalID, j)
    case SearchOnRecord => exists a :: a in d.attempts && !a.dryRun && a.downloadID == id && a.kind.Search?
    case QueueUnread => Heard(before, after, QueueRead(Unavailable))
    case ClientExcluded(row) => id in d.issues && row in d.issues[id].rows && !Policy.ClientAllowed(c, row.client)
    case TargetUnread(eid) => eid in op.episodeIDs && Heard(before, after, EpisodeRead(eid, Unavailable))
    case TargetExcluded(eid, t) =>
      && eid in op.episodeIDs && Heard(before, after, EpisodeRead(eid, Got(t)))
      && (!Policy.SeriesAllowed(c, t.seriesID) || t.seriesMonitored.None?)
    case NothingLacking(found) => TargetsRead(c, before, after, op.episodeIDs, found) && Wanted(op.episodeIDs, found) == []
    case Contested(queue, found) =>
      && Heard(before, after, QueueRead(Got(queue))) && TargetsRead(c, before, after, op.episodeIDs, found)
      && exists q :: q in queue && Policy.Competes(q, "", Wanted(op.episodeIDs, found))
    case GateShut(refused, at) =>
      && SearchFor(c, d, id, before, after, refused)
      && State.Gate(c, d, id, refused, at, op.removalID, override) != Open
    case CalledOff => Heard(before, after, CancelRead(true))
    case _ => false
  }

  /** The search of a continuation: for exactly those of its episodes that lack a file, each of them read, in ascending
      order, and for the candidate of its removal. */
  ghost predicate SearchFor(c: Config, d: Data, id: string, before: seq<Reading>, after: seq<Reading>, wanted: Decision)
    requires id in d.operations
  {
    exists found, j ::
      && TargetsRead(c, before, after, d.operations[id].episodeIDs, found)
      && Proves(d.attempts, d.operations[id].removalID, j)
      && Searches(d.attempts[j], Wanted(d.operations[id].episodeIDs, found), wanted)
  }

  ghost predicate Searches(removal: Attempt, episodes: seq<int>, wanted: Decision) {
    && wanted.kind.Search? && wanted.fingerprint == removal.decision.fingerprint
    && wanted.seriesIDs == removal.decision.seriesIDs
    && multiset(wanted.episodeIDs) == multiset(episodes) && (forall i, j :: 0 <= i < j < |wanted.episodeIDs| ==> wanted.episodeIDs[i] <= wanted.episodeIDs[j])
    && wanted.files == [] && !wanted.blocklist && !wanted.episodeMismatch && !wanted.executableWarning
  }

  /** What being stopped leaves behind: only a search on record or nothing left to search for finishes the continuation,
      and only a failed read is remembered. */
  function Stopped(d: Data, id: string, why: Option<Obstacle>): Data
    requires id in d.operations
  {
    if why.Some? && (why.value.SearchOnRecord? || why.value.NothingLacking?) then
      d.(operations := d.operations[id := d.operations[id].(state := Finished)])
    else if why.Some? && (why.value.QueueUnread? || why.value.TargetUnread?) then d.(readFailure := true)
    else d
  }

  lemma SearchedTargets(c: Config, d: Data, id: string, before: seq<Reading>, after: seq<Reading>, queue: seq<QueueRow>,
                        found: seq<Target>, a: Attempt)
    requires id in d.operations && TargetsRead(c, before, after, d.operations[id].episodeIDs, found)
    requires Heard(before, after, QueueRead(Got(queue))) && a.beforeFiles == map[] && a.decision.episodeIDs != []
    requires multiset(a.decision.episodeIDs) == multiset(Wanted(d.operations[id].episodeIDs, found))
    requires !Policy.Competing(queue, "", Wanted(d.operations[id].episodeIDs, found))
    ensures FromTargets(c, before, after, queue, a)
  {
    hide Policy.Done, Heard, Policy.SeriesAllowed;
    var eids := d.operations[id].episodeIDs;
    var at := WantedAt(eids, found);
    forall e ensures e in a.decision.episodeIDs <==> e in Wanted(eids, found) {
      assert e in a.decision.episodeIDs <==> e in multiset(a.decision.episodeIDs);
      assert e in Wanted(eids, found) <==> e in multiset(Wanted(eids, found));
    }
    forall e | e in a.decision.episodeIDs ensures JustLacking(c, before, after, e) {
      var i :| 0 <= i < |Wanted(eids, found)| && Wanted(eids, found)[i] == e;
      assert at[i] in at;
      assert Heard(before, after, EpisodeRead(eids[at[i]], Got(found[at[i]])));
      assert Lacking(found[at[i]]);
    }
  }

  lemma SearchesThat(removal: Attempt, episodes: seq<int>, wanted: Decision)
    requires wanted == Decision(Kind.Search, removal.decision.fingerprint, Sorting.Sorted(episodes),
                                removal.decision.seriesIDs, [],
                                false, false, false)
    ensures Searches(removal, episodes, wanted)
  {
  }

  lemma SearchForWithin(c: Config, m: Data, d: Data, id: string, a: seq<Reading>, b: seq<Reading>, e: seq<Reading>,
                        f: seq<Reading>, wanted: Decision)
    requires a <= b <= e <= f && id in m.operations && id in d.operations && m.operations[id] == d.operations[id]
    requires m.attempts == d.attempts && SearchFor(c, m, id, b, e, wanted)
    ensures SearchFor(c, d, id, a, f, wanted)
  {
    hide Searches, Wanted, Heard, Policy.SeriesAllowed;
    var found, j :| TargetsRead(c, b, e, m.operations[id].episodeIDs, found) && Proves(m.attempts, m.operations[id].removalID, j)
                    && Searches(m.attempts[j], Wanted(m.operations[id].episodeIDs, found), wanted);
    TargetsWithin(c, a, b, e, f, m.operations[id].episodeIDs, found);
  }

  lemma StopsWithin(c: Config, m: Data, d: Data, id: string, override: bool, a: seq<Reading>, b: seq<Reading>,
                    e: seq<Reading>,
                    f: seq<Reading>, why: Obstacle)
    requires a <= b <= e <= f && id in m.operations && id in d.operations && m.operations[id] == d.operations[id]
    requires m.attempts == d.attempts && m.issues == d.issues && (m.readFailure ==> d.readFailure)
    requires StopsSearch(c, m, id, override, b, e, why)
    ensures StopsSearch(c, d, id, override, a, f, why)
  {
    hide Wanted, Heard, Policy.SeriesAllowed, Policy.ClientAllowed, Policy.Competes, SearchFor, FirstConflict, Budget,
        TargetsRead;
    HeardWithin(a, b, e, f);
    match why
    case NothingLacking(found) => TargetsWithin(c, a, b, e, f, m.operations[id].episodeIDs, found);
    case Contested(queue, found) => TargetsWithin(c, a, b, e, f, m.operations[id].episodeIDs, found);
    case GateShut(refused, at) =>
      SearchForWithin(c, m, d, id, a, b, e, f, refused);
      assert State.Gate(c, d, id, refused, at, m.operations[id].removalID, override)
          == State.Gate(c, m, id, refused, at, m.operations[id].removalID, override) by { GateOf(c, m, d, id, refused, at, m.operations[id].removalID, override); }
    case _ =>
  }

  lemma GateOf(c: Config, m: Data, d: Data, id: string, decision: Decision, now: Time, parent: int, override: bool)
    requires m.attempts == d.attempts
    ensures State.Gate(c, d, id, decision, now, parent, override) == State.Gate(c, m, id, decision, now, parent,
        override)
  {
  }

  lemma ExecutionWithin(c: Config, pattern: string -> bool, d: Data, id: string, planned: Decision, override: bool,
                        a: seq<Reading>, b: seq<Reading>, e: seq<Reading>, f: seq<Reading>, why: Obstacle)
    requires a <= b <= e <= f && id in d.issues && StopsExecution(c, pattern, d, id, planned, override, b, e, why)
    ensures StopsExecution(c, pattern, d, id, planned, override, a, f, why)
  {
    hide Heard, Rejections.Decided, State.Gate, Queue.Eligible, Queue.QueueIdentity, Queue.RowsOf;
    HeardWithin(a, b, e, f);
  }

  lemma SearchKind(c: Config, d: Data, id: string, before: seq<Reading>, after: seq<Reading>, wanted: Decision)
    requires id in d.operations && SearchFor(c, d, id, before, after, wanted)
    ensures wanted.kind.Search?
  {
    hide Heard, Policy.SeriesAllowed, Wanted;
  }

  /** The obstacles that the record alone shows. */
  predicate IsRecorded(o: Obstacle) {
    o.NotConfigured? || o.ReadsFailed? || o.StillOpen? || o.RemovalUnproved? || o.SearchOnRecord?
  }

  lemma RecordStops(c: Config, d: Data, id: string, override: bool, o: Obstacle)
    requires id in d.operations && IsRecorded(o)
    requires o.NotConfigured? ==> !c.cleanupEnabled || !c.replacementSearch
    requires o.ReadsFailed? ==> d.readFailure
    requires o.StillOpen? ==> HasUnresolved(d, id)
    requires o.RemovalUnproved? ==> forall j :: !Proves(d.attempts, d.operations[id].removalID, j)
    requires o.SearchOnRecord? ==> exists a :: a in d.attempts && !a.dryRun && a.downloadID == id && a.kind.Search?
    ensures StopsSearch(c, d, id, override, [], [], o)
  {
    hide Proves;
  }

  lemma RecordedAnyway(c: Config, d: Data, id: string, override: bool, o: Obstacle, said: seq<Reading>)
    requires id in d.operations && IsRecorded(o) && StopsSearch(c, d, id, override, [], [], o)
    ensures StopsSearch(c, d, id, override, said, said, o)
  {
    hide Proves;
  }

  lemma ReadingStops(c: Config, d: Data, id: string, override: bool, before: seq<Reading>, after: seq<Reading>,
                     o: Obstacle)
    requires id in d.operations && (o.QueueUnread? || o.ClientExcluded? || o.NothingLacking? || o.Contested?)
    requires o.QueueUnread? ==> Heard(before, after, QueueRead(Unavailable))
    requires o.ClientExcluded? ==> id in d.issues && o.row in d.issues[id].rows && !Policy.ClientAllowed(c, o.row.client)
    requires o.NothingLacking? ==>
      TargetsRead(c, before, after, d.operations[id].episodeIDs, o.found) && Wanted(d.operations[id].episodeIDs, o.found) == []
    requires o.Contested? ==>
      && Heard(before, after, QueueRead(Got(o.queue)))
      && TargetsRead(c, before, after, d.operations[id].episodeIDs, o.found)
      && Policy.Competing(o.queue, "", Wanted(d.operations[id].episodeIDs, o.found))
    ensures StopsSearch(c, d, id, override, before, after, o)
  {
    hide Heard, Policy.Competes, Policy.ClientAllowed, Policy.SeriesAllowed, Wanted;
  }

  lemma TargetStops(c: Config, d: Data, id: string, override: bool, before: seq<Reading>, mid: seq<Reading>,
                    after: seq<Reading>, o: Obstacle)
    requires id in d.operations && before <= mid <= after && (o.TargetUnread? || o.TargetExcluded?)
    requires o.eid in d.operations[id].episodeIDs
    requires o.TargetUnread? ==> Heard(mid, after, EpisodeRead(o.eid, Unavailable))
    requires o.TargetExcluded? ==>
      && Heard(mid, after, EpisodeRead(o.eid, Got(o.target)))
      && (!Policy.SeriesAllowed(c, o.target.seriesID) || o.target.seriesMonitored.None?)
    ensures StopsSearch(c, d, id, override, before, after, o)
  {
    hide Heard, Policy.SeriesAllowed;
    HeardWithin(before, mid, after, after);
  }
}
