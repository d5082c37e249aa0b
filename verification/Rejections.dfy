/** Cleanup of downloads that Sonarr itself refuses to import, and the choice between it and evaluation. */
module Rejections {
  import opened Types
  import opened Queue
  import opened Policy
  import opened Sorting
  import opened Fingerprints
  import opened Evaluation
  import Waiting

  /** Unicode white space. */
  predicate IsSpace(ch: char) {
    var n := ch as int;
    || 9 <= n <= 13 || n == 32 || n == 0x85 || n == 0xA0 || n == 0x1680 || 0x2000 <= n <= 0x200A
    || n == 0x2028 || n == 0x2029 || n == 0x202F || n == 0x205F || n == 0x3000
  }

  predicate Blank(s: string) {
    forall ch :: ch in s ==> IsSpace(ch)
  }

  /** The scope names series at all. */
  predicate Restricted(c: Config) { c.includeSeries != [] || c.excludeSeries != [] }

  /** Identifiers are absent (zero) or positive, and a known series is in scope. */
  predicate TargetOK(c: Config, series: int, episode: int) {
    series >= 0 && episode >= 0 && (series > 0 ==> SeriesAllowed(c, series))
  }

  predicate RowOK(c: Config, o: Observation, q: QueueRow) {
    q.downloadID == o.downloadID && ClientAllowed(c, q.client) && TargetOK(c, OrZero(q.seriesID), OrZero(q.episodeID))
  }

  predicate QueueKnowsSeries(o: Observation) {
    exists q :: q in o.rows && Known(q)
  }

  predicate VerdictOK(r: Rejection) { !Blank(r.reason) && KnownRejection(r) }

  predicate RejectedFileOK(c: Config, o: Observation, f: Preview) {
    && f.id > 0 && !Blank(f.path) && f.downloadID == o.downloadID
    && (HasExecutableWarning(o.rows) || f.rejections.Some?)
    && !(Restricted(c) && OrZero(f.series) <= 0 && !QueueKnowsSeries(o)) && TargetOK(c, OrZero(f.series), 0)
    && (forall pe :: pe in f.episodes ==> TargetOK(c, pe.seriesID, pe.id))
    && (forall r :: r in Reasons(f) ==> VerdictOK(r))
  }

  predicate OtherFile(f: Preview, g: Preview) { f.id != g.id && f.path != g.path }

  predicate RowsOK(c: Config, o: Observation) {
    && Eligible(o.rows) && (o.preview != [] || HasExecutableWarning(o.rows))
    && (forall q :: q in o.rows ==> RowOK(c, o, q))
    && !(Restricted(c) && !QueueKnowsSeries(o) && o.preview == [])
  }

  predicate RejectedFilesOK(c: Config, o: Observation, fs: seq<Preview>) {
    (forall f :: f in fs ==> RejectedFileOK(c, o, f)) && Pairwise(fs, OtherFile)
  }

  /** Sonarr refuses the whole download, or warns of an executable, and the download is in scope. */
  predicate Refused(c: Config, o: Observation) {
    && RowsOK(c, o) && RejectedFilesOK(c, o, o.preview)
    && (HasExecutableWarning(o.rows) || exists f :: f in o.preview && Reasons(f) != [])
  }

  predicate Unexpected(fs: seq<Preview>, pattern: string -> bool) {
    exists f, r :: f in fs && r in Reasons(f) && r.rtype == "permanent" && pattern(r.reason)
  }

  /** The same, read off a fingerprint: the candidate decides whether its rejections name unexpected episodes. */
  predicate Mismatch(fp: Fingerprint, pattern: string -> bool) {
    exists m, r :: m in fp.files && r in m.rejections && r.rtype == "permanent" && pattern(r.reason)
  }

  /** The causes that need no wait are those of the candidate, and only a blocked removal has any. */
  predicate Caused(d: Decision, pattern: string -> bool) {
    && (d.episodeMismatch <==> d.kind.RemoveBlocked? && Mismatch(d.fingerprint, pattern))
    && (d.executableWarning <==> d.kind.RemoveBlocked? && d.fingerprint.executableWarning)
  }

  function Positive(xs: set<int>): set<int> { set x | x in xs && x > 0 }

  function EpisodeTargets(rows: seq<QueueRow>, fs: seq<Preview>): set<int> {
    Positive((set q | q in rows :: OrZero(q.episodeID)) + (set f, pe | f in fs && pe in f.episodes :: pe.id))
  }

  function SeriesTargets(rows: seq<QueueRow>, fs: seq<Preview>): set<int> {
    Positive((set q | q in rows :: OrZero(q.seriesID)) + (set f | f in fs :: OrZero(f.series))
             + (set f, pe | f in fs && pe in f.episodes :: pe.seriesID))
  }

  /** Another unfinished download wants one of the targets, or may. */
  predicate Contested(o: Observation) {
    exists q :: q in o.queue && (o.downloadID == "" || q.downloadID != o.downloadID) && !Done(q)
      && (q.episodeID.None? || q.episodeID.value <= 0 || q.episodeID.value in EpisodeTargets(o.rows, o.preview))
  }

  /** What a refusal comes to. */
  function RefusalKind(c: Config, o: Observation): Kind {
    if Refused(c, o) && c.cleanupEnabled && !Contested(o) then RemoveBlocked else Defer
  }

  /** What is decided for one download: executable warnings leave only cleanup, and a refusal stands in for a
      deferred evaluation. */
  function DecisionKind(c: Config, o: Observation): Kind {
    if HasExecutableWarning(o.rows) || KindOf(c, o) == Defer then RefusalKind(c, o) else KindOf(c, o)
  }

  lemma CompetingIsContested(o: Observation, ids: seq<int>)
    requires multiset(ids) == multiset(EpisodeTargets(o.rows, o.preview))
    ensures Competing(o.queue, o.downloadID, ids) == Contested(o)
  {
    hide EpisodeTargets, Done;
    forall e ensures e in ids <==> e in EpisodeTargets(o.rows, o.preview) {
      assert e in ids <==> e in multiset(ids);
    }
  }

  // ---------------------------------------------------------------- the loops

  lemma PositiveOne(x: int)
    ensures Positive({x}) == if x > 0 then {x} else {}
  {
  }

  lemma OneTarget(s: seq<int>, xs: set<int>, x: int)
    requires multiset(s) == multiset(xs)
    ensures if x in s then xs + {x} == xs else multiset(s + [x]) == multiset(xs + {x})
    ensures xs + {} == xs
  {
    assert x in s <==> x in multiset(s);
    assert x in xs <==> x in multiset(xs);
  }

  /** The targets collected so far, each once. */
  class Targets {
    var series: seq<int>
    var episodes: seq<int>

    ghost predicate Holds(ss: set<int>, es: set<int>)
      reads this
    {
      && multiset(series) == multiset(ss) && multiset(episodes) == multiset(es)
    }

    constructor ()
      ensures Holds({}, {})
    {
      series, episodes := [], [];
    }

    /** Adds one target, or refuses it and leaves the rest of the download undecided. */
    method Add(c: Config, s: int, e: int, ghost ss: set<int>, ghost es: set<int>) returns (ok: bool)
      requires Holds(ss, es)
      modifies this
      ensures ok == TargetOK(c, s, e)
      ensures ok ==> Holds(ss + Positive({s}), es + Positive({e}))
    {
      hide SeriesAllowed, Positive;
      PositiveOne(s);
      PositiveOne(e);
      if s < 0 || e < 0 { return false; }
      if s > 0 {
        if !SeriesAllowed(c, s) { return false; }
        OneTarget(series, ss, s);
        if s !in series {
          series := series + [s];
        }
      }
      OneTarget(episodes, es, e);
      if e > 0 && e !in episodes {
        episodes := episodes + [e];
      }
      ok := true;
    }
  }

  lemma RowTargets(rows: seq<QueueRow>, k: nat)
    requires k < |rows|
    ensures SeriesTargets(rows[..k + 1], []) == SeriesTargets(rows[..k], []) + Positive({OrZero(rows[k].seriesID)})
    ensures EpisodeTargets(rows[..k + 1], []) == EpisodeTargets(rows[..k], []) + Positive({OrZero(rows[k].episodeID)})
  {
    assert rows[..k + 1] == rows[..k] + [rows[k]];
  }

  lemma NoTargets()
    ensures SeriesTargets([], []) == {} && EpisodeTargets([], []) == {}
  {
  }

  method CheckRows(c: Config, o: Observation, t: Targets) returns (ok: bool, known: bool)
    requires t.Holds({}, {})
    modifies t
    ensures ok <==> forall q :: q in o.rows ==> RowOK(c, o, q)
    ensures ok ==> known == QueueKnowsSeries(o) && t.Holds(SeriesTargets(o.rows, []), EpisodeTargets(o.rows, []))
  {
    hide SeriesTargets, EpisodeTargets, SeriesAllowed, ClientAllowed, Positive;
    known := false;
    NoTargets();
    assert o.rows[..0] == [];
    for k := 0 to |o.rows|
      invariant forall q :: q in o.rows[..k] ==> RowOK(c, o, q)
      invariant known <==> exists q :: q in o.rows[..k] && Known(q)
      invariant t.Holds(SeriesTargets(o.rows[..k], []), EpisodeTargets(o.rows[..k], []))
    {
      var q := o.rows[k];
      assert o.rows[..k + 1] == o.rows[..k] + [q] && q in o.rows && q in o.rows[..k + 1];
      if q.downloadID != o.downloadID || !ClientAllowed(c, q.client) { return false, known; }
      known := known || (q.seriesID.Some? && q.seriesID.value > 0);
      RowTargets(o.rows, k);
      var added := t.Add(c, OrZero(q.seriesID), OrZero(q.episodeID), SeriesTargets(o.rows[..k], []), EpisodeTargets(o.rows[..k], []));
      if !added { return false, known; }
    }
    assert o.rows[..|o.rows|] == o.rows;
    ok := true;
  }

  function Trimmed(f: Preview, k: nat): Preview
    requires k <= |f.episodes|
  {
    f.(episodes := f.episodes[..k])
  }

  /** The targets of one file, on top of those already collected. */
  method CheckTargets(c: Config, f: Preview, t: Targets, ghost ss: set<int>, ghost es: set<int>) returns (ok: bool)
    requires t.Holds(ss, es)
    modifies t
    ensures ok <==> TargetOK(c, OrZero(f.series), 0) && forall pe :: pe in f.episodes ==> TargetOK(c, pe.seriesID, pe.id)
    ensures ok ==> t.Holds(ss + SeriesTargets([], [f]), es + EpisodeTargets([], [f]))
  {
    hide SeriesTargets, EpisodeTargets, SeriesAllowed, Positive;
    ok := t.Add(c, OrZero(f.series), 0, ss, es);
    if !ok { return; }
    FirstTargets(f);
    assert es + {} == es;
    for k := 0 to |f.episodes|
      invariant ok && forall pe :: pe in f.episodes[..k] ==> TargetOK(c, pe.seriesID, pe.id)
      invariant t.Holds(ss + SeriesTargets([], [Trimmed(f, k)]), es + EpisodeTargets([], [Trimmed(f, k)]))
    {
      var pe := f.episodes[k];
      assert f.episodes[..k + 1] == f.episodes[..k] + [pe] && pe in f.episodes;
      MoreTargets(f, k);
      ok := t.Add(c, pe.seriesID, pe.id, ss + SeriesTargets([], [Trimmed(f, k)]), es + EpisodeTargets([], [Trimmed(f, k)]));
      if !ok { return; }
      Regroup(ss, SeriesTargets([], [Trimmed(f, k)]), Positive({pe.seriesID}));
      Regroup(es, EpisodeTargets([], [Trimmed(f, k)]), Positive({pe.id}));
    }
    assert f.episodes[..|f.episodes|] == f.episodes && Trimmed(f, |f.episodes|) == f;
  }

  lemma FirstTargets(f: Preview)
    ensures SeriesTargets([], [Trimmed(f, 0)]) == Positive({OrZero(f.series)})
        && EpisodeTargets([], [Trimmed(f, 0)]) == {} == Positive({0})
  {
  }

  lemma Regroup(a: set<int>, b: set<int>, d: set<int>)
    ensures a + b + d == a + (b + d)
  {
  }

  lemma MoreTargets(f: Preview, k: nat)
    requires k < |f.episodes|
    ensures SeriesTargets([], [Trimmed(f, k + 1)]) == SeriesTargets([],
                                                                    [Trimmed(f, k)]) + Positive({f.episodes[k].seriesID})
    ensures EpisodeTargets([], [Trimmed(f, k + 1)]) == EpisodeTargets([],
                                                                      [Trimmed(f, k)]) + Positive({f.episodes[k].id})
  {
    assert f.episodes[..k + 1] == f.episodes[..k] + [f.episodes[k]];
  }

  method CheckVerdicts(f: Preview, pattern: string -> bool) returns (ok: bool, mismatch: bool)
    ensures ok <==> forall r :: r in Reasons(f) ==> VerdictOK(r)
    ensures ok ==> mismatch == Unexpected([f], pattern)
  {
    var rs := Reasons(f);
    mismatch := false;
    for k := 0 to |rs|
      invariant forall r :: r in rs[..k] ==> VerdictOK(r)
      invariant mismatch <==> exists r :: r in rs[..k] && r.rtype == "permanent" && pattern(r.reason)
    {
      assert rs[..k + 1] == rs[..k] + [rs[k]] && rs[k] in rs && rs[k] in rs[..k + 1];
      if Blank(rs[k].reason) || (rs[k].rtype != "temporary" && rs[k].rtype != "permanent") { return false, false; }
      mismatch := mismatch || (rs[k].rtype == "permanent" && pattern(rs[k].reason));
    }
    assert rs[..|rs|] == rs;
    if mismatch {
      var r :| r in rs && r.rtype == "permanent" && pattern(r.reason);
      assert f in [f] && r in Reasons(f);
    }
    ok := true;
  }

  method CheckRejectedFile(c: Config, o: Observation, f: Preview, known: bool, warning: bool, pattern: string -> bool,
                           t: Targets,
                           ghost ss: set<int>, ghost es: set<int>)
    returns (ok: bool, mismatch: bool)
    requires t.Holds(ss, es) && known == QueueKnowsSeries(o) && warning == HasExecutableWarning(o.rows)
    modifies t
    ensures ok == RejectedFileOK(c, o, f)
    ensures ok ==> mismatch == Unexpected([f], pattern) && t.Holds(ss + SeriesTargets([], [f]), es + EpisodeTargets([], [f]))
  {
    hide Blank, Eligible, HasExecutableWarning, SeriesAllowed, Unexpected, SeriesTargets, EpisodeTargets, VerdictOK;
    hide QueueKnowsSeries;
    mismatch := false;
    if f.id <= 0 || Blank(f.path) || f.downloadID != o.downloadID || (!warning && f.rejections.None?) { return false, false; }
    if Restricted(c) && OrZero(f.series) <= 0 && !known { return false, false; }
    var scoped := CheckTargets(c, f, t, ss, es);
    if !scoped { return false, false; }
    ok, mismatch := CheckVerdicts(f, pattern);
  }

  /** What the loop over the preview has established after k files. */
  ghost predicate Collected(c: Config, o: Observation, pattern: string -> bool, k: nat, ids: set<int>,
                            paths: set<string>, rejected: bool, mismatch: bool) {
    && k <= |o.preview| && RejectedFilesOK(c, o, o.preview[..k])
    && ids == (set f | f in o.preview[..k] :: f.id) && paths == (set f | f in o.preview[..k] :: f.path)
    && (rejected <==> HasExecutableWarning(o.rows) || exists f :: f in o.preview[..k] && Reasons(f) != [])
    && mismatch == Unexpected(o.preview[..k], pattern)
  }

  lemma Collects(c: Config, o: Observation, pattern: string -> bool, k: nat, ids: set<int>, paths: set<string>,
                 rejected: bool, mismatch: bool)
    requires Collected(c, o, pattern, k, ids, paths, rejected, mismatch) && k < |o.preview|
    ensures var f := o.preview[k];
            if RejectedFileOK(c, o, f) && f.id !in ids && f.path !in paths then
              Collected(c, o, pattern, k + 1, ids + {f.id}, paths + {f.path}, rejected || Reasons(f) != [], mismatch || Unexpected([f], pattern))
            else !RejectedFilesOK(c, o, o.preview)
  {
    hide RejectedFileOK, HasExecutableWarning;
    var f := o.preview[k];
    assert o.preview[..k + 1] == o.preview[..k] + [f] && f in o.preview && f in [f];
    if RejectedFilesOK(c, o, o.preview) {
      forall g | g in o.preview[..k] ensures OtherFile(g, f) {
        var i :| 0 <= i < k && o.preview[i] == g;
        assert OtherFile(o.preview[i], o.preview[k]);
      }
    }
  }

  lemma TargetsGrow(o: Observation, k: nat)
    requires k < |o.preview|
    ensures SeriesTargets(o.rows, o.preview[..k + 1]) == SeriesTargets(o.rows, o.preview[..k]) + SeriesTargets([],
        [o.preview[k]])
    ensures EpisodeTargets(o.rows, o.preview[..k + 1]) == EpisodeTargets(o.rows, o.preview[..k]) + EpisodeTargets([],
        [o.preview[k]])
  {
    assert o.preview[..k + 1] == o.preview[..k] + [o.preview[k]];
  }

  /** The decision to remove a refused download; the second result records a refusal in scope even while
      cleanup is disabled. The pattern is Sonarr's wording for unexpected episodes. */
  method RejectedCleanup(c: Config, o: Observation, pattern: string -> bool) returns (d: Decision, present: bool)
    ensures present == Refused(c, o) && IsFingerprint(o, d.fingerprint)
    ensures present ==>
      && Ascending(d.episodeIDs) && multiset(d.episodeIDs) == multiset(EpisodeTargets(o.rows, o.preview))
      && Ascending(d.seriesIDs) && multiset(d.seriesIDs) == multiset(SeriesTargets(o.rows, o.preview))
    ensures d.kind == RefusalKind(c, o)
    ensures d.episodeMismatch <==> d.kind.RemoveBlocked? && Unexpected(o.preview, pattern)
    ensures d.executableWarning <==> d.kind.RemoveBlocked? && HasExecutableWarning(o.rows)
    ensures d.files == [] && !d.blocklist
  {
    hide Eligible, HasExecutableWarning, IsFingerprint, RowOK, RejectedFileOK, RejectedFilesOK, Collected, Unexpected;
    hide SeriesTargets, EpisodeTargets, QueueKnowsSeries, Competing, Contested;
    var fp := FingerprintOf(o);
    d, present := Decision(Defer, fp, [], [], [], false, false, false), false;
    var warning := HasExecutableWarning(o.rows);
    if !Eligible(o.rows) || (o.preview == [] && !warning) { return; }
    var t := new Targets();
    var fine, known := CheckRows(c, o, t);
    if !fine || (Restricted(c) && !known && o.preview == []) { return; }
    var ids: set<int>, paths: set<string> := {}, {};
    var rejected, mismatch := warning, false;
    NothingCollected(c, o, pattern);
    for k := 0 to |o.preview|
      invariant Collected(c, o, pattern, k, ids, paths, rejected, mismatch)
      invariant t.Holds(SeriesTargets(o.rows, o.preview[..k]), EpisodeTargets(o.rows, o.preview[..k]))
    {
      var f := o.preview[k];
      Collects(c, o, pattern, k, ids, paths, rejected, mismatch);
      TargetsGrow(o, k);
      var ok, odd := CheckRejectedFile(c, o, f, known, warning, pattern, t, SeriesTargets(o.rows, o.preview[..k]), EpisodeTargets(o.rows, o.preview[..k]));
      if f.id in ids || f.path in paths || !ok { return; }
      ids, paths, rejected, mismatch := ids + {f.id}, paths + {f.path}, rejected || Reasons(f) != [], mismatch || odd;
    }
    AllCollected(c, o, pattern, ids, paths, rejected, mismatch);
    assert o.preview[..|o.preview|] == o.preview;
    if rejected {
      present := true;
      d := d.(episodeIDs := Sorted(t.episodes), seriesIDs := Sorted(t.series));
      CompetingIsContested(o, d.episodeIDs);
      if c.cleanupEnabled && !Competing(o.queue, o.downloadID, d.episodeIDs) {
        d := d.(kind := RemoveBlocked, episodeMismatch := mismatch, executableWarning := warning);
      }
    }
  }

  lemma NothingCollected(c: Config, o: Observation, pattern: string -> bool)
    ensures Collected(c, o, pattern, 0, {}, {}, HasExecutableWarning(o.rows), false)
    ensures o.preview[..0] == []
  {
  }

  lemma AllCollected(c: Config, o: Observation, pattern: string -> bool, ids: set<int>, paths: set<string>,
                     rejected: bool, mismatch: bool)
    requires Collected(c, o, pattern, |o.preview|, ids, paths, rejected, mismatch)
    ensures RejectedFilesOK(c, o, o.preview) && mismatch == Unexpected(o.preview, pattern)
    ensures rejected <==> HasExecutableWarning(o.rows) || exists f :: f in o.preview && Reasons(f) != []
  {
    assert o.preview[..|o.preview|] == o.preview;
  }

  /** A refused download never reaches outside the configured scope: every series it names is allowed, every
      row belongs to an allowed client, and under a series scope some series is named at all. */
  lemma RefusedInScope(c: Config, o: Observation)
    requires Refused(c, o)
    ensures forall s :: s in SeriesTargets(o.rows, o.preview) ==> SeriesAllowed(c, s)
    ensures forall q :: q in o.rows ==> ClientAllowed(c, q.client)
    ensures Restricted(c) ==> SeriesTargets(o.rows, o.preview) != {}
  {
    hide SeriesAllowed, ClientAllowed, Blank, HasExecutableWarning, Eligible;
    if Restricted(c) {
      if QueueKnowsSeries(o) {
        var q :| q in o.rows && Known(q);
        assert OrZero(q.seriesID) in SeriesTargets(o.rows, o.preview);
      } else {
        assert o.preview[0] in o.preview;
        assert OrZero(o.preview[0].series) in SeriesTargets(o.rows, o.preview);
      }
    }
  }

  /** A refused download is removed only if it is finished and its own, all of it was read and some file of it was
      rejected or it carries the warning, and no unfinished row of another download wants one of its episodes or may. */
  lemma RefusalActs(c: Config, o: Observation)
    requires RefusalKind(c, o).RemoveBlocked?
    ensures c.cleanupEnabled && o.downloadID != "" && o.rows != [] && forall q :: q in o.rows ==>
              && q.downloadID == o.downloadID && q.status == "completed"
              && (q.trackedState == "importBlocked" || q.trackedState == "importFailed"
                  || q.trackedState == "importPending")
              && q.client != "" && q.client !in c.excludeClients
              && (c.includeClients == [] || q.client in c.includeClients)
    ensures forall f :: f in o.preview ==>
              && f.id > 0 && f.downloadID == o.downloadID && (exists ch :: ch in f.path && !IsSpace(ch))
              && (f.rejections.Some? ==> forall r :: r in f.rejections.value ==>
                    (r.rtype == "permanent" || r.rtype == "temporary") && exists ch :: ch in r.reason && !IsSpace(ch))
    ensures forall i, j :: 0 <= i < j < |o.preview| ==> o.preview[i].id != o.preview[j].id && o.preview[i].path != o.preview[j].path
    ensures || (exists f :: f in o.preview && f.rejections.Some? && f.rejections.value != [])
            || exists q, m :: q in o.rows && q.trackedStatus == "warning" && m in q.statusMessages && "Caution: Found executable file" in m.messages
    ensures forall q :: q in o.queue && q.downloadID != o.downloadID ==>
              || (q.status == "completed" && (q.trackedState == "importBlocked" || q.trackedState == "importFailed" || q.trackedState == "imported"))
              || (q.episodeID.Some? && q.episodeID.value > 0
                  && (forall r :: r in o.rows ==> r.episodeID != q.episodeID)
                  && forall f, pe :: f in o.preview && pe in f.episodes ==> pe.id != q.episodeID.value)
  {
    hide TargetOK, QueueKnowsSeries, RejectedFileOK, IsSpace;
    var first := o.rows[0];
    assert first in o.rows && RowOK(c, o, first) && RowEligible(first);
    forall i, j | 0 <= i < j < |o.preview| ensures OtherFile(o.preview[i], o.preview[j]) {
    }
    forall f | f in o.preview
      ensures f.id > 0 && f.downloadID == o.downloadID && exists ch :: ch in f.path && !IsSpace(ch)
      ensures f.rejections.Some? ==> forall r :: r in f.rejections.value ==>
                (r.rtype == "permanent" || r.rtype == "temporary") && exists ch :: ch in r.reason && !IsSpace(ch)
    {
      RejectedFileMeans(c, o, f);
    }
    forall q | q in o.queue && q.downloadID != o.downloadID && !Done(q)
      ensures q.episodeID.Some? && q.episodeID.value > 0 && q.episodeID.value !in EpisodeTargets(o.rows, o.preview)
    {
    }
    forall q, e | q in o.queue && q.episodeID == Some(e) && e > 0 && e !in EpisodeTargets(o.rows, o.preview)
      ensures (forall r :: r in o.rows ==> r.episodeID != Some(e)) && forall f, pe :: f in o.preview && pe in f.episodes ==> pe.id != e
    {
      NotTarget(o, e);
    }
  }

  lemma RejectedFileMeans(c: Config, o: Observation, f: Preview)
    requires RejectedFileOK(c, o, f)
    ensures f.id > 0 && f.downloadID == o.downloadID && exists ch :: ch in f.path && !IsSpace(ch)
    ensures f.rejections.Some? ==> forall r :: r in f.rejections.value ==>
              (r.rtype == "permanent" || r.rtype == "temporary") && exists ch :: ch in r.reason && !IsSpace(ch)
  {
    hide TargetOK, QueueKnowsSeries, IsSpace, HasExecutableWarning;
    if f.rejections.Some? {
      forall r | r in f.rejections.value
        ensures (r.rtype == "permanent" || r.rtype == "temporary") && exists ch :: ch in r.reason && !IsSpace(ch)
      {
        assert r in Reasons(f);
      }
    }
  }

  lemma NotTarget(o: Observation, e: int)
    requires e > 0 && e !in EpisodeTargets(o.rows, o.preview)
    ensures (forall r :: r in o.rows ==> r.episodeID != Some(e)) && forall f, pe :: f in o.preview && pe in f.episodes ==> pe.id != e
  {
    assert forall r :: r in o.rows && OrZero(r.episodeID) > 0 ==> OrZero(r.episodeID) in EpisodeTargets(o.rows, o.preview);
    assert forall f, pe :: f in o.preview && pe in f.episodes && pe.id > 0 ==> pe.id in EpisodeTargets(o.rows, o.preview);
  }

  // ---------------------------------------------------------------- the decision for a download

  lemma RejectionsKept(f: Preview, m: Material)
    requires IsMaterial(f, m)
    ensures forall r :: r in m.rejections <==> r in Reasons(f)
  {
    hide SortedBy;
    assert forall r :: r in m.rejections <==> r in multiset(m.rejections);
    assert forall r :: r in Reasons(f) <==> r in multiset(Reasons(f));
  }

  lemma FileBehind(o: Observation, ms: seq<Material>, files: seq<Material>, m: Material) returns (f: Preview)
    requires AreMaterials(o.preview, ms) && Sorts(ms, files, PathOf) && m in files
    ensures f in o.preview && forall r :: r in m.rejections <==> r in Reasons(f)
  {
    hide Sorts, IsMaterial;
    var i := FileOfMaterial(o.preview, ms, files, m);
    f := o.preview[i];
    RejectionsKept(f, m);
  }

  lemma MaterialBehind(o: Observation, ms: seq<Material>, files: seq<Material>, f: Preview) returns (m: Material)
    requires AreMaterials(o.preview, ms) && Sorts(ms, files, PathOf) && f in o.preview
    ensures m in files && forall r :: r in m.rejections <==> r in Reasons(f)
  {
    hide AreMaterials, IsMaterial, SortedBy;
    m := MaterialAt(o.preview, ms, f);
    RejectionsKept(f, m);
    assert m in multiset(files);
  }

  /** A fingerprint keeps every rejection of the files, so it fixes whether they name unexpected episodes. */
  lemma MismatchOf(o: Observation, fp: Fingerprint, pattern: string -> bool)
    requires IsFingerprint(o, fp)
    ensures Mismatch(fp, pattern) == Unexpected(o.preview, pattern)
  {
    hide QueueIdentity, HasExecutableWarning, AreMaterials, Sorts, Reasons;
    var ms: seq<Material> :| AreMaterials(o.preview, ms) && Sorts(ms, fp.files, PathOf);
    if Mismatch(fp, pattern) {
      var m, r :| m in fp.files && r in m.rejections && r.rtype == "permanent" && pattern(r.reason);
      var f := FileBehind(o, ms, fp.files, m);
      assert f in o.preview && r in Reasons(f);
    }
    if Unexpected(o.preview, pattern) {
      var f, r :| f in o.preview && r in Reasons(f) && r.rtype == "permanent" && pattern(r.reason);
      var m := MaterialBehind(o, ms, fp.files, f);
      assert m in fp.files && r in m.rejections;
    }
  }

  lemma CausedShown(d: Decision, pattern: string -> bool)
    requires Caused(d, pattern)
    ensures Waiting.Shown(d)
  {
  }

  /** Decisions of one kind on one candidate have the same causes. */
  lemma SameCauses(d: Decision, e: Decision, pattern: string -> bool)
    requires Caused(d, pattern) && Caused(e, pattern) && d.kind == e.kind && d.fingerprint == e.fingerprint
    ensures d.episodeMismatch == e.episodeMismatch && d.executableWarning == e.executableWarning
  {
  }

  /** The refusal of a download: its kind, its causes and its targets. */
  ghost predicate RefusalOf(c: Config, o: Observation, pattern: string -> bool, d: Decision) {
    && d.kind == RefusalKind(c, o) && IsFingerprint(o, d.fingerprint) && d.files == [] && !d.blocklist
    && (d.episodeMismatch <==> d.kind.RemoveBlocked? && Unexpected(o.preview, pattern))
    && (d.executableWarning <==> d.kind.RemoveBlocked? && HasExecutableWarning(o.rows))
    && (Refused(c, o) ==>
          && Ascending(d.episodeIDs) && multiset(d.episodeIDs) == multiset(EpisodeTargets(o.rows, o.preview))
          && Ascending(d.seriesIDs) && multiset(d.seriesIDs) == multiset(SeriesTargets(o.rows, o.preview)))
  }

  /** The evaluated decision: its kind, the intended episodes, and what it would submit. */
  ghost predicate EvaluationOf(c: Config, o: Observation, d: Decision) {
    && d.kind == KindOf(c, o) && IsFingerprint(o, d.fingerprint) && d.episodeIDs == o.intended
    && (d.kind != Defer ==> ImportsOf(o.preview, d.files) && Ascending(d.seriesIDs) && multiset(d.seriesIDs) == multiset(SeriesFor(o)))
    && (d.blocklist <==> d.kind.RemoveUnusable? && c.blocklist) && !d.episodeMismatch && !d.executableWarning
  }

  /** Whether the refusal stands in for the evaluated decision. */
  predicate RefusalDecides(c: Config, o: Observation) {
    HasExecutableWarning(o.rows) || (KindOf(c, o) == Defer && Refused(c, o))
  }

  /** What is decided of an observation. */
  ghost predicate Decided(c: Config, o: Observation, pattern: string -> bool, d: Decision) {
    if RefusalDecides(c, o) then RefusalOf(c, o, pattern, d) else EvaluationOf(c, o, d)
  }

  /** What is decided is acted on as it was observed. An evaluated action concerns the intended episodes and submits
      every previewed file as it was previewed; the removal of a refused download submits nothing, is not
      blocklisted and concerns exactly the episodes that its rows or files name. */
  lemma DecidedMeans(c: Config, o: Observation, pattern: string -> bool, d: Decision)
    requires Decided(c, o, pattern, d)
    ensures d.kind == DecisionKind(c, o) && IsFingerprint(o, d.fingerprint)
    ensures d.kind.Import? || d.kind.RemoveRedundant? || d.kind.RemoveUnusable? ==>
      && d.kind == KindOf(c, o) && d.episodeIDs == o.intended && |d.files| == |o.preview|
      && (forall k :: 0 <= k < |d.files| ==> Submits(o.preview[k], d.files[k]))
      && (d.blocklist <==> d.kind.RemoveUnusable? && c.blocklist)
      && forall id :: id in d.seriesIDs <==>
           || (exists f :: f in o.preview && f.series == Some(id))
           || exists e :: e in o.intended && e in o.episodes && o.episodes[e].seriesID == id
                          && forall f, pe :: f in o.preview && pe in f.episodes ==> pe.id != e
    ensures d.kind.RemoveBlocked? ==>
      && (forall id :: id in d.seriesIDs <==>
            && id > 0
            && ((exists q :: q in o.rows && q.seriesID == Some(id)) || (exists f :: f in o.preview && f.series == Some(id))
                || exists f, pe :: f in o.preview && pe in f.episodes && pe.seriesID == id))
      && Refused(c, o) && d.files == [] && !d.blocklist
      && forall e :: e in d.episodeIDs <==>
           e > 0 && ((exists q :: q in o.rows && q.episodeID == Some(e)) || exists f, pe :: f in o.preview && pe in f.episodes && pe.id == e)
  {
    hide IsFingerprint, Refused, Contested, KindOf, HasExecutableWarning, ImportsOf, Submits, Unexpected;
    KindNeverSearch(c, o);
    if d.kind.Import? || d.kind.RemoveRedundant? || d.kind.RemoveUnusable? {
      SubmitsPreview(c, o, d.files);
      SameElements(d.seriesIDs, SeriesFor(o));
    }
    if d.kind.RemoveBlocked? {
      SameElements(d.episodeIDs, EpisodeTargets(o.rows, o.preview));
      SameElements(d.seriesIDs, SeriesTargets(o.rows, o.preview));
    }
  }

  lemma RefusalInScope(c: Config, o: Observation, pattern: string -> bool, d: Decision)
    requires RefusalOf(c, o, pattern, d)
    ensures InScope(c, o.rows, d)
  {
    hide Refused, IsFingerprint, EpisodeTargets, SeriesTargets, SeriesAllowed, ClientAllowed, Unexpected;
    hide HasExecutableWarning, Contested;
    if d.kind != Defer {
      RefusedInScope(c, o);
      SameElements(d.seriesIDs, SeriesTargets(o.rows, o.preview));
    }
  }

  lemma SameElements(s: seq<int>, xs: set<int>)
    requires multiset(s) == multiset(xs)
    ensures (forall x :: x in s <==> x in xs) && (s == [] <==> xs == {})
  {
    assert forall x :: x in s <==> x in multiset(s);
    assert forall x :: x in xs <==> x in multiset(xs);
    if s != [] {
      assert s[0] in s;
    }
  }

  /** A coherent observation concerns only what the scope allows. */
  lemma CoherentInScope(c: Config, o: Observation)
    requires Coherent(c, o)
    ensures (forall q :: q in o.rows ==> ClientAllowed(c, q.client)) && SeriesFor(o) != {}
    ensures forall id :: id in SeriesFor(o) ==> SeriesAllowed(c, id)
  {
    hide SeriesAllowed, ClientAllowed, Eligible, Competing, Pairwise, Agreed;
    assert o.preview[0] in o.preview;
    assert FileOK(c, o, o.preview[0]) && o.preview[0].series.value in SeriesFor(o);
    forall id | id in SeriesFor(o) ensures SeriesAllowed(c, id) {
      if f :| f in o.preview && f.series.Some? && f.series.value == id {
        assert FileOK(c, o, f);
      } else {
        var e :| e in o.intended && e in o.episodes && !Previewed(o.preview, e) && o.episodes[e].seriesID == id;
        assert Satisfied(c, o, e);
      }
    }
  }

  lemma EvaluationInScope(c: Config, o: Observation, d: Decision)
    requires EvaluationOf(c, o, d)
    ensures InScope(c, o.rows, d)
  {
    hide IsFingerprint, ImportsOf, SeriesFor, SeriesAllowed, ClientAllowed, Coherent, Importable, Redundant, Unusable;
    if d.kind != Defer {
      CoherentInScope(c, o);
      SameElements(d.seriesIDs, SeriesFor(o));
    }
  }

  /** The decision for one download, with the refusal that its waiting clock follows. */
  method Decide(c: Config, o: Observation, pattern: string -> bool) returns (v: Waiting.View)
    ensures v.rejected == Refused(c, o) && RefusalOf(c, o, pattern, v.rejectedDecision)
    ensures Decided(c, o, pattern, v.decision) && (RefusalDecides(c, o) ==> v.decision == v.rejectedDecision)
    ensures v.decision.kind == DecisionKind(c, o) && IsFingerprint(o, v.decision.fingerprint)
    ensures Caused(v.decision, pattern) && v.Coherent() && InScope(c, o.rows, v.decision)
  {
    hide HasExecutableWarning, Refused, KindOf, Contested, Unexpected, EpisodeTargets, SeriesTargets, Mismatch;
    hide SeriesFor, ImportsOf;
    hide Waiting.Permanent, InScope;
    var refusal, present := RejectedCleanup(c, o, pattern);
    KindNeverSearch(c, o);
    MismatchOf(o, refusal.fingerprint, pattern);
    CausedShown(refusal, pattern);
    RefusalInScope(c, o, pattern, refusal);
    if HasExecutableWarning(o.rows) {
      return Waiting.View(present, refusal, refusal);
    }
    var d := Evaluate(c, o);
    if d.kind == Defer && present {
      return Waiting.View(present, refusal, refusal);
    }
    EvaluationInScope(c, o, d);
    v := Waiting.View(present, refusal, d);
  }

  lemma KindNeverSearch(c: Config, o: Observation)
    ensures KindOf(c, o) != Search && KindOf(c, o) != RemoveBlocked
  {
    hide Coherent, Importable, Redundant, Unusable;
  }
}
