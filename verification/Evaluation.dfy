/** The evaluation loops, with their accumulators and early exits, against the declarative verdicts. */
module Evaluation {
  import opened Types
  import opened Queue
  import opened Profiles
  import opened Policy
  import opened Sorting
  import opened Fingerprints
  import Sets

  function IDs(f: Preview): set<int> {
    set pe | pe in f.episodes :: pe.id
  }

  /** The import command for one previewed file. */
  function ImportOf(f: Preview): ImportFile
    requires f.series.Some? && f.languages.Some? && f.indexerFlags.Some?
  {
    ImportFile(f.path, f.folderName, f.series.value, Sorted(Mapped(f.episodes, EpisodeID)), f.quality, f.languages.value,
               f.releaseGroup, f.indexerFlags.value, f.releaseType, f.downloadID)
  }

  predicate ImportsOf(fs: seq<Preview>, imports: seq<ImportFile>) {
    |imports| == |fs| && forall k :: 0 <= k < |fs| ==>
      fs[k].series.Some? && fs[k].languages.Some? && fs[k].indexerFlags.Some? && imports[k] == ImportOf(fs[k])
  }

  /** The series of the previewed files and of the satisfied episodes outside the preview. */
  function SeriesFor(o: Observation): set<int> {
    (set f | f in o.preview && f.series.Some? :: f.series.value)
    + (set id | id in o.intended && id in o.episodes && !Previewed(o.preview, id) :: o.episodes[id].seriesID)
  }

  // ---------------------------------------------------------------- loops of one file

  method CheckRejections(f: Preview) returns (known: bool, unusable: bool, redundant: bool)
    requires f.rejections.Some?
    ensures known <==> forall r :: r in f.rejections.value ==> KnownRejection(r)
    ensures known ==> unusable == FileUnusable(f) && (redundant <==> forall r :: r in f.rejections.value ==> RedundantVerdict(r))
  {
    hide KnownRejection, UnusableVerdict, RedundantVerdict;
    var rs := f.rejections.value;
    unusable, redundant := |rs| > 0, true;
    for k := 0 to |rs|
      invariant forall r :: r in rs[..k] ==> KnownRejection(r)
      invariant unusable <==> |rs| > 0 && forall r :: r in rs[..k] ==> UnusableVerdict(r)
      invariant redundant <==> forall r :: r in rs[..k] ==> RedundantVerdict(r)
    {
      assert rs[..k + 1] == rs[..k] + [rs[k]] && rs[k] in rs && rs[k] in rs[..k + 1];
      if !KnownRejection(rs[k]) { return false, false, false; }
      if !UnusableVerdict(rs[k]) {
        unusable := false;
      }
      if !RedundantVerdict(rs[k]) {
        redundant := false;
      }
    }
    assert rs[..|rs|] == rs;
    known := true;
  }

  method CheckAgreement(rows: seq<QueueRow>, series: int) returns (ok: bool)
    ensures ok == Agreed(rows, series)
  {
    var known, matched := false, false;
    for k := 0 to |rows|
      invariant known <==> exists q :: q in rows[..k] && Known(q)
      invariant matched <==> exists q :: q in rows[..k] && Known(q) && q.seriesID.value == series
    {
      assert rows[..k + 1] == rows[..k] + [rows[k]];
      if rows[k].seriesID.Some? && rows[k].seriesID.value > 0 {
        assert Known(rows[k]);
        known := true;
        if rows[k].seriesID.value == series {
          matched := true;
        }
      }
    }
    assert rows[..|rows|] == rows;
    ok := !(known && !matched);
  }

  method CheckEpisode(o: Observation, f: Preview, p: Profile, pe: PreviewEpisode)
    returns (ok: bool, importable: bool, redundant: bool)
    requires f.series.Some? && pe.id > 0 && pe.seriesID == f.series.value && pe.id in o.intended
    ensures ok == KnownEpisode(o, f.series.value, pe)
    ensures ok ==>
      && importable == Improves(p, o.propers, f, CurrentFile(o, pe))
      && redundant == AddsNothing(p, o.propers, f, CurrentFile(o, pe))
  {
    hide Compare, CurrentAcceptable, GroupsOK, CutoffIn, ScoreOK;
    ok, importable, redundant := false, true, true;
    if pe.id !in o.episodes { return; }
    var e := o.episodes[pe.id];
    if e.id != pe.id || e.seriesID != f.series.value || e.hasFile.None? || e.fileID.None? || e.monitored.None? { return; }
    if !e.hasFile.value {
      if e.fileID.value != 0 { return; }
      redundant := false;
      if !Acceptable(Candidate(f), p) {
        importable := false;
      }
    } else {
      if e.fileID.value !in o.files { return; }
      var current := o.files[e.fileID.value];
      if current.id != e.fileID.value || current.seriesID != f.series.value { return; }
      if !Acceptable(current, p) {
        redundant := false;
      }
      var v := Compare(f.quality, f.formats, f.score, current, p, o.propers);
      if !v.upgrade {
        importable := false;
      }
      if v.order > 0 || v.upgrade {
        redundant := false;
      }
      if v.order == 0 && v.why != Equal {
        redundant := false;
      }
      EqualOrUnknown(f.quality, f.formats, f.score, current, p, o.propers);
    }
    ok := true;
  }

  method CheckEpisodes(o: Observation, f: Preview, p: Profile, seen: set<int>)
    returns (ok: bool, importable: bool, redundant: bool, grown: set<int>)
    requires f.series.Some?
    ensures ok <==>
      && (forall pe :: pe in f.episodes ==> KnownEpisode(o, f.series.value, pe))
      && Pairwise(f.episodes, OtherEpisode) && IDs(f) !! seen
    ensures ok ==>
      && grown == seen + IDs(f)
      && (importable <==> forall pe :: pe in f.episodes ==> Improves(p, o.propers, f, CurrentFile(o, pe)))
      && (redundant <==> forall pe :: pe in f.episodes ==> AddsNothing(p, o.propers, f, CurrentFile(o, pe)))
  {
    hide Improves, AddsNothing;
    var pes := f.episodes;
    ok, importable, redundant, grown := false, true, true, seen;
    for k := 0 to |pes|
      invariant forall pe :: pe in pes[..k] ==> KnownEpisode(o, f.series.value, pe)
      invariant forall i, j :: 0 <= i < j < k ==> pes[i].id != pes[j].id
      invariant grown == seen + set pe | pe in pes[..k] :: pe.id
      invariant (set pe | pe in pes[..k] :: pe.id) !! seen
      invariant importable <==> forall pe :: pe in pes[..k] ==> Improves(p, o.propers, f, CurrentFile(o, pe))
      invariant redundant <==> forall pe :: pe in pes[..k] ==> AddsNothing(p, o.propers, f, CurrentFile(o, pe))
    {
      var pe := pes[k];
      assert pes[..k + 1] == pes[..k] + [pe] && pe in pes && pe in pes[..k + 1];
      if pe.id <= 0 || pe.id in grown || pe.seriesID != f.series.value || pe.id !in o.intended {
        if pe.id in grown {
          MetAgain(f, k, seen);
        }
        return;
      }
      var known, gains, idle := CheckEpisode(o, f, p, pe);
      if !known { return; }
      importable, redundant := importable && gains, redundant && idle;
      grown := grown + {pe.id};
    }
    assert pes[..|pes|] == pes;
    ok := true;
  }

  lemma MetAgain(f: Preview, k: nat, seen: set<int>)
    requires k < |f.episodes| && f.episodes[k].id in seen + set pe | pe in f.episodes[..k] :: pe.id
    ensures !(Pairwise(f.episodes, OtherEpisode) && IDs(f) !! seen)
  {
    var pe := f.episodes[k];
    assert pe in f.episodes;
    if pe.id in seen {
      assert pe.id in IDs(f);
    } else {
      var i :| 0 <= i < k && f.episodes[i].id == pe.id;
      assert !OtherEpisode(f.episodes[i], f.episodes[k]);
    }
  }

  /** What the comparison says of redundancy: upgrades and improvements are positive, and of the neutral
      results only equality is knowledge. */
  lemma EqualOrUnknown(q: Quality, formats: Option<seq<int>>, score: Option<int>, current: EpisodeFile, p: Profile,
                       propers: string)
    ensures var v := Compare(q, formats, score, current, p, propers);
            && (v.upgrade ==> v.order > 0) && (v.why == Equal ==> v.order == 0)
            && (v.order == 0 ==> v.why == Equal || v.why == Unknown)
  {
    hide Ranked, RankOf, CutoffOf, ScoreOK, RevisionCompare;
  }

  method CheckFile(c: Config, o: Observation, f: Preview, paths: set<string>, seen: set<int>)
    returns (ok: bool, importable: bool, redundant: bool, unusable: bool, grown: set<int>)
    ensures ok <==> FileOK(c, o, f) && f.path !in paths && IDs(f) !! seen
    ensures ok ==>
      && grown == seen + IDs(f)
      && importable == FileImportable(c, o, f) && redundant == FileRedundant(c, o, f) && unusable == FileUnusable(f)
  {
    hide Compare, Acceptable, GroupsOK, CutoffIn, KnownEpisode, Improves, AddsNothing;
    ok, importable, redundant, unusable, grown := false, false, false, false, seen;
    if !Described(o, f) || f.path in paths || !KnownRelease(f) { return; }
    var agreed := CheckAgreement(o.rows, f.series.value);
    if !agreed { return; }
    if f.series.value !in o.series { return; }
    var s := o.series[f.series.value];
    if s.id != f.series.value || s.monitored.None? || s.profileID <= 0 || !SeriesAllowed(c, s.id) { return; }
    if s.seriesType != "standard" && s.seriesType != "daily" && s.seriesType != "anime" { return; }
    if s.profileID !in o.profiles { return; }
    var p := o.profiles[s.profileID];
    if p.id != s.profileID { return; }
    var ranks := ProfileRanks(p);
    if ranks.None? { return; }
    var known, poor, idle := CheckRejections(f);
    if !known { return; }
    var fine, gains, adds, more := CheckEpisodes(o, f, p, seen);
    if !fine { return; }
    ok, importable, redundant, unusable, grown := true, gains && f.rejections.value == [], adds && idle, poor, more;
  }

  // ---------------------------------------------------------------- evaluation

  /** One more file: it must be well formed and apart from every file before it. */
  lemma OneMoreFile(c: Config, o: Observation, k: nat)
    requires k < |o.preview| && FilesOK(c, o, o.preview[..k])
    ensures FilesOK(c, o, o.preview[..k + 1]) <==>
              && FileOK(c, o, o.preview[k]) && o.preview[k].path !in (set g | g in o.preview[..k] :: g.path)
              && IDs(o.preview[k]) !! set g, pe | g in o.preview[..k] && pe in g.episodes :: pe.id
  {
    hide FileOK;
    var fs, f := o.preview[..k + 1], o.preview[k];
    assert fs == o.preview[..k] + [f];
    if FilesOK(c, o, fs) {
      forall i | 0 <= i < k ensures Separate(o.preview[i], f) {
        assert Separate(fs[i], fs[k]);
      }
      assert forall g :: g in o.preview[..k] ==> Separate(g, f);
    } else if FileOK(c, o, f) {
      forall a, b | 0 <= a < b < k ensures Separate(fs[a], fs[b]) {
        assert Separate(o.preview[..k][a], o.preview[..k][b]);
      }
      var i, j :| 0 <= i < j <= k && !Separate(fs[i], fs[j]);
      NotSeparate(o, i, k);
    }
  }

  lemma NotSeparate(o: Observation, i: nat, k: nat)
    requires i < k < |o.preview| && !Separate(o.preview[i], o.preview[k])
    ensures o.preview[k].path in (set g | g in o.preview[..k] :: g.path)
         || !(IDs(o.preview[k]) !! set g, pe | g in o.preview[..k] && pe in g.episodes :: pe.id)
  {
    var g, f := o.preview[i], o.preview[k];
    assert g in o.preview[..k];
    if g.path != f.path {
      var x, y :| x in g.episodes && y in f.episodes && x.id == y.id;
      assert y.id in IDs(f) && x.id in set g, pe | g in o.preview[..k] && pe in g.episodes :: pe.id;
    }
  }

  lemma PrefixFiles(c: Config, o: Observation, k: nat)
    requires k <= |o.preview| && !FilesOK(c, o, o.preview[..k])
    ensures !FilesOK(c, o, o.preview)
  {
    hide FileOK;
    if FilesOK(c, o, o.preview) {
      forall i, j | 0 <= i < j < k ensures Separate(o.preview[..k][i], o.preview[..k][j]) {
        assert Separate(o.preview[i], o.preview[j]);
      }
    }
  }

  /** The accumulators after the first k files. */
  ghost predicate Accumulated(c: Config, o: Observation, k: nat, paths: set<string>, seen: set<int>, series: set<int>,
                              importable: bool, redundant: bool, unusable: bool, imports: seq<ImportFile>)
  {
    && k <= |o.preview| && FilesOK(c, o, o.preview[..k])
    && paths == (set g | g in o.preview[..k] :: g.path)
    && seen == (set g, pe | g in o.preview[..k] && pe in g.episodes :: pe.id)
    && series == (set g | g in o.preview[..k] && g.series.Some? :: g.series.value)
    && importable == Importable(c, o, o.preview[..k]) && redundant == Redundant(c, o, o.preview[..k])
    && unusable == Unusable(c, o, o.preview[..k]) && ImportsOf(o.preview[..k], imports)
  }

  lemma Accumulates(c: Config, o: Observation, k: nat, paths: set<string>, seen: set<int>, series: set<int>,
                    importable: bool, redundant: bool, unusable: bool, imports: seq<ImportFile>)
    requires Accumulated(c, o, k, paths, seen, series, importable, redundant, unusable, imports)
    requires k < |o.preview| && FileOK(c, o, o.preview[k]) && o.preview[k].path !in paths && IDs(o.preview[k]) !! seen
    ensures var f := o.preview[k];
            Accumulated(c, o, k + 1, paths + {f.path}, seen + IDs(f), series + {f.series.value},
                        importable && FileImportable(c, o, f), redundant && FileRedundant(c, o, f), unusable && FileUnusable(f),
                        imports + [ImportOf(f)])
  {
    hide FileOK, FileImportable, FileRedundant, FileUnusable, ImportOf;
    var f := o.preview[k];
    OneMoreFile(c, o, k);
    assert o.preview[..k + 1] == o.preview[..k] + [f] && f in o.preview[..k + 1];
    DescribedFile(c, o, f);
  }

  lemma DescribedFile(c: Config, o: Observation, f: Preview)
    requires FileOK(c, o, f)
    ensures f.series.Some? && f.languages.Some? && f.indexerFlags.Some? && f.rejections.Some? && f.episodes != []
  {
  }

  /** The loop over intended episodes that no file previews. */
  method CheckIntended(c: Config, o: Observation, seen: set<int>, series: set<int>) returns (ok: bool, grown: set<int>)
    ensures ok <==> forall id :: id in o.intended && id !in seen ==> Satisfied(c, o, id)
    ensures ok ==> grown == series + set id | id in o.intended && id !in seen && id in o.episodes :: o.episodes[id].seriesID
  {
    hide CurrentAcceptable;
    ok, grown := false, series;
    for k := 0 to |o.intended|
      invariant forall id :: id in o.intended[..k] && id !in seen ==> Satisfied(c, o, id)
      invariant grown == series + set id | id in o.intended[..k] && id !in seen
          && id in o.episodes :: o.episodes[id].seriesID
    {
      var id := o.intended[k];
      assert o.intended[..k + 1] == o.intended[..k] + [id] && id in o.intended;
      if id !in seen {
        if id !in o.episodes { return; }
        var e := o.episodes[id];
        if e.hasFile != Some(true) || e.fileID.None? || !SeriesAllowed(c, e.seriesID) { return; }
        if e.seriesID !in o.series { return; }
        var s := o.series[e.seriesID];
        if s.profileID !in o.profiles || e.fileID.value !in o.files || o.files[e.fileID.value].seriesID != e.seriesID { return; }
        if !Acceptable(o.files[e.fileID.value], o.profiles[s.profileID]) { return; }
        grown := grown + {e.seriesID};
      }
    }
    assert o.intended[..|o.intended|] == o.intended;
    ok := true;
  }

  /** The gates that need no preview file: true when evaluation may go on. */
  method CheckGates(c: Config, o: Observation) returns (ok: bool)
    ensures ok == Gated(c, o)
  {
    hide Eligible, Competing;
    if !Eligible(o.rows) || !KnownPropers(o.propers) { return false; }
    for k := 0 to |o.rows|
      invariant forall q :: q in o.rows[..k] ==> RowInScope(c, o, q)
    {
      var q := o.rows[k];
      assert o.rows[..k + 1] == o.rows[..k] + [q] && q in o.rows;
      if q.downloadID != o.downloadID || !ClientAllowed(c, q.client) { return false; }
      if q.seriesID.Some? && q.seriesID.value > 0 && !SeriesAllowed(c, q.seriesID.value) { return false; }
    }
    assert o.rows[..|o.rows|] == o.rows;
    if o.preview == [] || !o.membershipComplete || o.intended == [] { return false; }
    if Competing(o.queue, o.downloadID, o.intended) { return false; }
    ok := true;
  }

  /** The elements of a set in ascending order. */
  method SortSet(s: set<int>) returns (r: seq<int>)
    ensures Ascending(r) && multiset(r) == multiset(s)
  {
    var rest, listed := s, [];
    while rest != {}
      invariant rest <= s && multiset(listed) == multiset(s - rest)
      decreases |rest|
    {
      var x := Sets.Take(rest);
      assert s - (rest - {x}) == (s - rest) + {x};
      rest, listed := rest - {x}, listed + [x];
    }
    assert s - rest == s;
    r := Sorted(listed);
  }

  lemma Summary(c: Config, o: Observation, paths: set<string>, seen: set<int>, series: set<int>, all: set<int>,
                importable: bool, redundant: bool, unusable: bool, imports: seq<ImportFile>, satisfied: bool)
    requires Gated(c, o) && Accumulated(c, o, |o.preview|, paths, seen, series, importable, redundant, unusable,
                                        imports)
    requires satisfied <==> forall id :: id in o.intended && id !in seen ==> Satisfied(c, o, id)
    requires all == series + set id | id in o.intended && id !in seen && id in o.episodes :: o.episodes[id].seriesID
    ensures satisfied == Coherent(c, o) && FilesOK(c, o, o.preview)
    ensures importable == Importable(c, o, o.preview) && redundant == Redundant(c, o, o.preview)
        && unusable == Unusable(c, o, o.preview)
    ensures ImportsOf(o.preview, imports) && all == SeriesFor(o)
  {
    hide FileOK, Gated, Satisfied, FileImportable, FileRedundant, FileUnusable, ImportOf;
    assert o.preview[..|o.preview|] == o.preview;
    assert forall id :: id in seen <==> Previewed(o.preview, id);
  }

  /** The evaluation of one download: every gate, every file and every episode in turn. */
  method Evaluate(c: Config, o: Observation) returns (d: Decision)
    ensures d.kind == KindOf(c, o) && d.episodeIDs == o.intended && IsFingerprint(o, d.fingerprint)
    ensures d.kind != Defer ==> ImportsOf(o.preview, d.files) && Ascending(d.seriesIDs) && multiset(d.seriesIDs) == multiset(SeriesFor(o))
    ensures d.blocklist <==> d.kind.RemoveUnusable? && c.blocklist
    ensures !d.episodeMismatch && !d.executableWarning
  {
    hide Gated, FileOK, FilesOK, Accumulated, IsFingerprint, Importable, Redundant, Unusable, SeriesFor, FileImportable;
    hide FileRedundant, FileUnusable, ImportOf, ImportsOf;
    var fp := FingerprintOf(o);
    d := Decision(Defer, fp, o.intended, [], [], false, false, false);
    var gated := CheckGates(c, o);
    if !gated { return; }
    var paths: set<string>, seen: set<int>, series: set<int>, imports: seq<ImportFile> := {}, {}, {}, [];
    var importable, redundant, unusable := true, true, true;
    NothingYet(c, o);
    for k := 0 to |o.preview|
      invariant Accumulated(c, o, k, paths, seen, series, importable, redundant, unusable, imports)
    {
      var f := o.preview[k];
      var ok, gains, idle, poor, grown := CheckFile(c, o, f, paths, seen);
      if !ok {
        FileRefused(c, o, k, paths, seen, series, importable, redundant, unusable, imports);
        d := d.(files := imports);
        return;
      }
      DescribedFile(c, o, f);
      Accumulates(c, o, k, paths, seen, series, importable, redundant, unusable, imports);
      paths, seen, series, imports := paths + {f.path}, grown, series + {f.series.value}, imports + [ImportOf(f)];
      importable, redundant, unusable := importable && gains, redundant && idle, unusable && poor;
    }
    d := d.(files := imports);
    var satisfied, all := CheckIntended(c, o, seen, series);
    if !satisfied {
      Summary(c, o, paths, seen, series, series + set id | id in o.intended && id !in seen && id in o.episodes :: o.episodes[id].seriesID,
              importable, redundant, unusable, imports, satisfied);
      return;
    }
    Summary(c, o, paths, seen, series, all, importable, redundant, unusable, imports, satisfied);
    var ids := SortSet(all);
    d := d.(seriesIDs := ids);
    if importable {
      if c.recoveryEnabled {
        d := d.(kind := Import);
      }
      return;
    }
    if redundant {
      if c.cleanupEnabled {
        d := d.(kind := RemoveRedundant);
      }
      return;
    }
    if unusable {
      if c.cleanupEnabled {
        d := d.(kind := RemoveUnusable, blocklist := c.blocklist);
      }
      return;
    }
  }

  lemma NothingYet(c: Config, o: Observation)
    ensures Accumulated(c, o, 0, {}, {}, {}, true, true, true, [])
  {
  }

  lemma FileRefused(c: Config, o: Observation, k: nat, paths: set<string>, seen: set<int>, series: set<int>,
                    importable: bool, redundant: bool, unusable: bool, imports: seq<ImportFile>)
    requires Accumulated(c, o, k, paths, seen, series, importable, redundant, unusable, imports) && k < |o.preview|
    requires !(FileOK(c, o, o.preview[k]) && o.preview[k].path !in paths && IDs(o.preview[k]) !! seen)
    ensures !Coherent(c, o)
  {
    hide FileOK, Importable, Redundant, Unusable, ImportsOf, Gated, Satisfied, Previewed, IDs, Separate;
    OneMoreFile(c, o, k);
    PrefixFiles(c, o, k + 1);
  }

  /** The submitted file is the previewed one: its path, series and every episode once, its quality, languages and
      flags as previewed. */
  predicate Submits(f: Preview, i: ImportFile) {
    && i.path == f.path && i.folderName == f.folderName && f.series == Some(i.seriesID) && i.quality == f.quality
    && f.languages == Some(i.languages) && i.releaseGroup == f.releaseGroup && f.indexerFlags == Some(i.indexerFlags)
    && i.releaseType == f.releaseType && i.downloadID == f.downloadID
    && |i.episodeIDs| == |f.episodes| && (forall pe :: pe in f.episodes ==> pe.id in i.episodeIDs)
    && (forall j, k :: 0 <= j < k < |i.episodeIDs| ==> i.episodeIDs[j] < i.episodeIDs[k])
  }

  /** What is decided is submitted file by file, and each file as it was previewed. */
  lemma SubmitsPreview(c: Config, o: Observation, files: seq<ImportFile>)
    requires KindOf(c, o) != Defer && ImportsOf(o.preview, files)
    ensures |files| == |o.preview| && forall k :: 0 <= k < |files| ==> Submits(o.preview[k], files[k])
  {
    hide FileOK, Gated, Satisfied, Importable, Redundant, Unusable, Submits, ImportOf;
    forall k | 0 <= k < |files| ensures Submits(o.preview[k], files[k]) {
      assert o.preview[k] in o.preview;
      SubmitsFile(c, o, o.preview[k]);
    }
  }

  lemma SubmitsFile(c: Config, o: Observation, f: Preview)
    requires FileOK(c, o, f) && f.series.Some? && f.languages.Some? && f.indexerFlags.Some?
    ensures Submits(f, ImportOf(f))
  {
    hide KnownSeries, KnownEpisode, Agreed, Sorted;
    var ids := Mapped(f.episodes, EpisodeID);
    var sorted := Sorted(ids);
    assert forall x, y :: 0 <= x < y < |ids| ==> OtherEpisode(f.episodes[x], f.episodes[y]) && ids[x] != ids[y];
    assert |sorted| == |multiset(sorted)| == |multiset(ids)|;
    forall pe | pe in f.episodes ensures pe.id in sorted {
      var k :| 0 <= k < |f.episodes| && f.episodes[k] == pe;
      assert ids[k] in multiset(sorted);
    }
    forall j, k | 0 <= j < k < |sorted| ensures sorted[j] < sorted[k] {
      if sorted[j] == sorted[k] {
        TwiceCounted(sorted, j, k);
        var x, y := TwoPositions(ids, sorted[j]);
      }
    }
  }

  // ---------------------------------------------------------------- what a verdict means

  /** The candidate fills a gap with a permitted file, or betters the file that is there. */
  predicate Gains(p: Profile, propers: string, f: Preview, current: Option<EpisodeFile>) {
    if current.None? then f.path != "" && Gradable(Candidate(f), p) && Permitted(Candidate(f), p)
    else Betters(Candidate(f), current.value, p, propers)
  }

  /** The file that is there is permitted, and the candidate is worse or just as good. */
  predicate Idle(p: Profile, propers: string, f: Preview, current: Option<EpisodeFile>) {
    && current.Some? && current.value.path != "" && KnownPropers(propers)
    && Gradable(Candidate(f), p) && Gradable(current.value, p) && Permitted(current.value, p)
    && (Worse(Candidate(f), current.value, p, propers) || AsGood(Candidate(f), current.value, p, propers))
  }

  lemma GainsIff(p: Profile, propers: string, f: Preview, current: Option<EpisodeFile>)
    ensures Improves(p, propers, f, current) <==> Gains(p, propers, f, current)
    ensures AddsNothing(p, propers, f, current) <==> Idle(p, propers, f, current)
  {
    hide Compare, Acceptable, Gradable, Permitted, Betters, Replaces;
    AcceptableIff(Candidate(f), p);
    if current.Some? {
      ReplacesIff(Candidate(f), current.value, p, propers);
      AcceptableIff(current.value, p);
      OrderMeans(Candidate(f), current.value, p, propers);
      EqualOrUnknown(f.quality, f.formats, f.score, current.value, p, propers);
    }
  }

  predicate FillsOrUpgrades(c: Config, o: Observation, f: Preview, pe: PreviewEpisode)
    requires FileOK(c, o, f) && pe in f.episodes
  {
    f.rejections.value == [] && Gains(ProfileFor(c, o, f), o.propers, f, CurrentFile(o, pe))
  }

  /** An import only ever fills gaps acceptably or upgrades: each previewed episode once, intended, and of an
      unrejected file; every other intended episode is already satisfied. */
  lemma ImportMeans(c: Config, o: Observation)
    ensures KindOf(c, o).Import? <==>
      && c.recoveryEnabled && Coherent(c, o)
      && forall f, pe :: f in o.preview && pe in f.episodes ==> FillsOrUpgrades(c, o, f, pe)
  {
    hide Gated, FileOK, FileImportable, FillsOrUpgrades, Redundant, Unusable, Separate;
    if Coherent(c, o) {
      forall f | f in o.preview
        ensures FileImportable(c, o, f) <==> forall pe :: pe in f.episodes ==> FillsOrUpgrades(c, o, f, pe)
      {
        FileImportMeans(c, o, f);
      }
    }
  }

  lemma FileImportMeans(c: Config, o: Observation, f: Preview)
    requires FileOK(c, o, f)
    ensures FileImportable(c, o, f) <==> forall pe :: pe in f.episodes ==> FillsOrUpgrades(c, o, f, pe)
  {
    hide Improves, Gains;
    assert f.episodes[0] in f.episodes;
    forall pe | pe in f.episodes
      ensures Improves(ProfileFor(c, o, f), o.propers, f, CurrentFile(o, pe)) == Gains(ProfileFor(c, o, f), o.propers,
          f, CurrentFile(o, pe))
    {
      GainsIff(ProfileFor(c, o, f), o.propers, f, CurrentFile(o, pe));
    }
  }

  /** At most one verdict holds of a coherent observation, so the order in which they are tried is immaterial. */
  lemma VerdictsExclusive(c: Config, o: Observation)
    requires Coherent(c, o)
    ensures !(Importable(c, o, o.preview) && Redundant(c, o, o.preview))
    ensures !(Importable(c, o, o.preview) && Unusable(c, o, o.preview))
    ensures !(Redundant(c, o, o.preview) && Unusable(c, o, o.preview))
  {
    hide Compare, CurrentAcceptable, KnownSeries, Competing;
    var f := o.preview[0];
    assert FileOK(c, o, f) && f.episodes[0] in f.episodes;
    var pe := f.episodes[0];
    assert KnownEpisode(o, f.series.value, pe);
    assert f in o.preview;
    assert Importable(c, o, o.preview) ==> Improves(ProfileFor(c, o, f), o.propers, f, CurrentFile(o, pe));
    assert Redundant(c, o, o.preview) ==> AddsNothing(ProfileFor(c, o, f), o.propers, f, CurrentFile(o, pe));
    if CurrentFile(o, pe).Some? {
      EqualOrUnknown(f.quality, f.formats, f.score, CurrentFile(o, pe).value, ProfileFor(c, o, f), o.propers);
    }
    if f.rejections.value != [] {
      var r := f.rejections.value[0];
      assert r in f.rejections.value;
      VerdictTextsDiffer(r);
    }
  }

  lemma VerdictTextsDiffer(r: Rejection)
    ensures !(UnusableVerdict(r) && RedundantVerdict(r))
  {
    if r.reason == "Sample" {
      assert r.reason[0] != 'N';
    } else if r.reason == "No audio tracks detected" {
      assert r.reason[2] == ' ';
    }
  }

  /** The episode has a library file of its own series that is acceptable under the profile of that series. */
  predicate Held(o: Observation, id: int) {
    && id in o.episodes && o.episodes[id].hasFile == Some(true)
    && o.episodes[id].fileID.Some? && o.episodes[id].fileID.value in o.files
    && o.episodes[id].seriesID in o.series && o.series[o.episodes[id].seriesID].profileID in o.profiles
    && o.files[o.episodes[id].fileID.value].seriesID == o.episodes[id].seriesID
    && Acceptable(o.files[o.episodes[id].fileID.value], o.profiles[o.series[o.episodes[id].seriesID].profileID])
  }

  /** Every rejection of the file is Sonarr's wording for an inferior candidate, and for this episode the candidate
      adds nothing to the file that is there. */
  predicate LeavesAlone(c: Config, o: Observation, f: Preview, pe: PreviewEpisode)
    requires FileOK(c, o, f) && pe in f.episodes
  {
    && (forall r :: r in f.rejections.value ==> RedundantVerdict(r))
    && Idle(ProfileFor(c, o, f), o.propers, f, CurrentFile(o, pe))
  }

  /** A download is redundant exactly when every candidate, episode by episode, is worse than or as good as a permitted
      library file: in its group, or in the same group in its score or, where revisions count, its revision. */
  lemma RedundantMeans(c: Config, o: Observation)
    ensures KindOf(c, o).RemoveRedundant? <==>
      && c.cleanupEnabled && Coherent(c, o)
      && forall f, pe :: f in o.preview && pe in f.episodes ==> LeavesAlone(c, o, f, pe)
  {
    hide Gated, FileOK, FileRedundant, LeavesAlone, Importable, Unusable, Separate;
    if Coherent(c, o) {
      VerdictsExclusive(c, o);
      forall f | f in o.preview
        ensures FileRedundant(c, o, f) <==> forall pe :: pe in f.episodes ==> LeavesAlone(c, o, f, pe)
      {
        FileRedundantMeans(c, o, f);
      }
    }
  }

  lemma FileRedundantMeans(c: Config, o: Observation, f: Preview)
    requires FileOK(c, o, f)
    ensures FileRedundant(c, o, f) <==> forall pe :: pe in f.episodes ==> LeavesAlone(c, o, f, pe)
  {
    hide AddsNothing, Idle;
    assert f.episodes[0] in f.episodes;
    forall pe | pe in f.episodes
      ensures AddsNothing(ProfileFor(c, o, f), o.propers, f, CurrentFile(o, pe)) == Idle(ProfileFor(c, o, f), o.propers,
          f, CurrentFile(o, pe))
    {
      GainsIff(ProfileFor(c, o, f), o.propers, f, CurrentFile(o, pe));
    }
  }

  /** A download is unusable exactly when every previewed file was rejected, and only as a sample or without audio. */
  lemma UnusableMeans(c: Config, o: Observation)
    ensures KindOf(c, o).RemoveUnusable? <==>
      && c.cleanupEnabled && Coherent(c, o)
      && forall f :: f in o.preview ==>
           && f.rejections.Some? && f.rejections.value != []
           && forall r :: r in f.rejections.value ==> r.reason == "Sample" || r.reason == "No audio tracks detected"
  {
    hide Gated, FilesOK, Satisfied, Importable, Redundant;
    if Coherent(c, o) {
      VerdictsExclusive(c, o);
    }
  }

  /** A redundant download changes nothing: every intended episode, previewed or not, already has a file that is
      acceptable under the profile of its series, and no candidate would replace the file it is compared with. */
  lemma RedundantHeld(c: Config, o: Observation)
    requires KindOf(c, o).RemoveRedundant?
    ensures forall id :: id in o.intended ==> Held(o, id)
    ensures forall f, pe :: f in o.preview && pe in f.episodes ==> Outdone(c, o, f, pe)
  {
    hide KindOf, FileOK, Held, Outdone, Gated, Satisfied, Redundant;
    KindRedundant(c, o);
    forall f, pe | f in o.preview && pe in f.episodes ensures Outdone(c, o, f, pe) {
      RedundantFile(c, o, f, pe);
    }
    forall id | id in o.intended ensures Held(o, id) {
      if Previewed(o.preview, id) {
        var f :| f in o.preview && exists pe :: pe in f.episodes && pe.id == id;
        var pe :| pe in f.episodes && pe.id == id;
        RedundantFile(c, o, f, pe);
      } else {
        SatisfiedHeld(c, o, id);
      }
    }
  }

  /** The candidate would not replace the file that the episode has. */
  predicate Outdone(c: Config, o: Observation, f: Preview, pe: PreviewEpisode) {
    && FileOK(c, o, f) && pe in f.episodes && CurrentFile(o, pe).Some?
    && !Replaces(Candidate(f), CurrentFile(o, pe).value, ProfileFor(c, o, f), o.propers)
  }

  lemma SatisfiedHeld(c: Config, o: Observation, id: int)
    requires Satisfied(c, o, id)
    ensures Held(o, id)
  {
    hide Acceptable, SeriesAllowed;
  }

  lemma KindRedundant(c: Config, o: Observation)
    requires KindOf(c, o).RemoveRedundant?
    ensures Coherent(c, o) && Redundant(c, o, o.preview)
  {
    hide Coherent, Importable, Redundant, Unusable;
  }

  /** One episode of a redundant preview: known, held acceptably, and not replaceable by the candidate. */
  lemma RedundantFile(c: Config, o: Observation, f: Preview, pe: PreviewEpisode)
    requires Coherent(c, o) && Redundant(c, o, o.preview) && f in o.preview && pe in f.episodes
    ensures Outdone(c, o, f, pe) && Held(o, pe.id)
  {
    hide Compare, CurrentAcceptable, Gated, KnownSeries, Agreed;
    assert FileOK(c, o, f) && FileRedundant(c, o, f);
    assert KnownEpisode(o, f.series.value, pe) && AddsNothing(ProfileFor(c, o, f), o.propers, f, CurrentFile(o, pe));
    EqualOrUnknown(f.quality, f.formats, f.score, CurrentFile(o, pe).value, ProfileFor(c, o, f), o.propers);
    PreviewedHeld(c, o, f, pe);
  }

  lemma PreviewedHeld(c: Config, o: Observation, f: Preview, pe: PreviewEpisode)
    requires f.series.Some? && KnownSeries(c, o, f.series.value) && KnownEpisode(o, f.series.value, pe)
    requires CurrentFile(o, pe).Some? && Acceptable(CurrentFile(o, pe).value, ProfileFor(c, o, f))
    ensures Held(o, pe.id)
  {
    hide Acceptable, Ranked, SeriesAllowed;
  }

  // ---------------------------------------------------------------- when anything is done at all

  /** Whatever evaluation decides to do, it does for a download that is finished, its own and in scope: every row is
      completed, of this download and of an allowed client, and no unfinished row of another one wants an intended
      episode or may. */
  lemma ActsOnQueue(c: Config, o: Observation)
    requires KindOf(c, o) != Defer
    ensures o.downloadID != "" && o.rows != [] && forall q :: q in o.rows ==>
              && q.downloadID == o.downloadID && q.status == "completed"
              && (q.trackedState == "importBlocked" || q.trackedState == "importFailed"
                  || q.trackedState == "importPending")
              && q.client != "" && q.client !in c.excludeClients
              && (c.includeClients == [] || q.client in c.includeClients)
    ensures forall q :: q in o.queue && q.downloadID != o.downloadID ==>
              || (q.status == "completed" && (q.trackedState == "importBlocked" || q.trackedState == "importFailed" || q.trackedState == "imported"))
              || (q.episodeID.Some? && q.episodeID.value > 0 && q.episodeID.value !in o.intended)
  {
    hide FilesOK, Importable, Redundant, Unusable, Satisfied, Previewed;
    assert RowInScope(c, o, o.rows[0]) && RowEligible(o.rows[0]) by {
      assert o.rows[0] in o.rows;
    }
    forall q | q in o.queue && q.downloadID != o.downloadID
      ensures Done(q) || (q.episodeID.Some? && q.episodeID.value > 0 && q.episodeID.value !in o.intended)
    {
      assert !Competes(q, o.downloadID, o.intended);
    }
  }

  /** And only with a complete and consistent preview: files of allowed series with different paths, each with episodes
      that are intended, known, and previewed once; every intended episode is previewed or already has its acceptable
      file. */
  lemma ActsOnPreview(c: Config, o: Observation)
    requires KindOf(c, o) != Defer
    ensures o.membershipComplete && o.intended != [] && o.preview != []
    ensures forall f :: f in o.preview ==>
              && f.path != "" && f.downloadID == o.downloadID && f.episodes != [] && f.series.Some?
              && f.series.value > 0
              && f.series.value !in c.excludeSeries && (c.includeSeries == [] || f.series.value in c.includeSeries)
              && f.rejections.Some? && forall r :: r in f.rejections.value ==> r.rtype == "permanent" || r.rtype == "temporary"
    ensures forall f, pe :: f in o.preview && pe in f.episodes ==> PreviewedKnown(o, f, pe)
    ensures forall i, j, x, y :: 0 <= i < j < |o.preview| && x in o.preview[i].episodes && y in o.preview[j].episodes ==> x.id != y.id
    ensures forall i, j :: 0 <= i < j < |o.preview| ==> o.preview[i].path != o.preview[j].path
    ensures forall f, i, j :: f in o.preview && 0 <= i < j < |f.episodes| ==> f.episodes[i].id != f.episodes[j].id
    ensures forall id :: id in o.intended ==> Held(o, id) || exists f, pe :: f in o.preview && pe in f.episodes && pe.id == id
  {
    hide Importable, Redundant, Unusable, Satisfied, KnownEpisode, KnownSeries, Agreed, Competing, Eligible;
    CoherentActs(c, o);
    forall f, pe | f in o.preview && pe in f.episodes ensures PreviewedKnown(o, f, pe) {
      assert FileOK(c, o, f);
      KnownMeans(o, f, pe);
    }
    forall f | f in o.preview ensures f.series.Some? && SeriesAllowed(c, f.series.value) {
      SeriesKnown(c, o, f);
    }
    forall i, j | 0 <= i < j < |o.preview| ensures Separate(o.preview[i], o.preview[j]) {
    }
    forall f, i, j | f in o.preview && 0 <= i < j < |f.episodes| ensures OtherEpisode(f.episodes[i], f.episodes[j]) {
      assert FileOK(c, o, f);
    }
    forall id | id in o.intended ensures Held(o, id) || exists f, pe :: f in o.preview && pe in f.episodes && pe.id == id {
      if !Previewed(o.preview, id) {
        SatisfiedHeld(c, o, id);
      }
    }
  }

  /** The library state of a previewed episode is known: it is intended, of the series of its file, and has a file of
      that series or surely none. */
  predicate PreviewedKnown(o: Observation, f: Preview, pe: PreviewEpisode) {
    && pe.id > 0 && pe.id in o.intended && f.series == Some(pe.seriesID) && pe.id in o.episodes
    && o.episodes[pe.id].id == pe.id && o.episodes[pe.id].seriesID == pe.seriesID
    && ((o.episodes[pe.id].hasFile == Some(false) && o.episodes[pe.id].fileID == Some(0))
        || (o.episodes[pe.id].hasFile == Some(true) && o.episodes[pe.id].fileID.Some? && o.episodes[pe.id].fileID.value in o.files
            && o.files[o.episodes[pe.id].fileID.value].seriesID == pe.seriesID))
  }

  lemma KnownMeans(o: Observation, f: Preview, pe: PreviewEpisode)
    requires f.series.Some? && KnownEpisode(o, f.series.value, pe)
    ensures PreviewedKnown(o, f, pe)
  {
  }

  lemma SeriesKnown(c: Config, o: Observation, f: Preview)
    requires FileOK(c, o, f)
    ensures f.series.Some? && SeriesAllowed(c, f.series.value)
  {
    hide Ranked, KnownEpisode, Agreed;
  }

  lemma CoherentActs(c: Config, o: Observation)
    requires KindOf(c, o) != Defer
    ensures Coherent(c, o)
  {
    hide Coherent, Importable, Redundant, Unusable;
  }
}
