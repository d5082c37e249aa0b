/** The decision policy: what is done with one download, given everything observed about it. */
module Policy {
  import opened Types
  import opened Queue
  import opened Profiles
  import Sorting

  datatype PreviewEpisode = PreviewEpisode(id: int, seriesID: int)

  /** One file of the manual-import preview; absent fields and absent lists are None. */
  datatype Preview = Preview(
    id: int, path: string, folderName: string, downloadID: string, series: Option<int>, episodes: seq<PreviewEpisode>,
    quality: Quality, score: Option<int>, formats: Option<seq<int>>, rejections: Option<seq<Rejection>>,
    languages: Option<seq<int>>, releaseGroup: string, indexerFlags: Option<int>, releaseType: string)

  datatype Episode = Episode(id: int, seriesID: int, fileID: Option<int>, hasFile: Option<bool>, monitored: Option<bool>)

  datatype Series = Series(id: int, profileID: int, monitored: Option<bool>, seriesType: string)

  datatype Observation = Observation(
    downloadID: string, rows: seq<QueueRow>, queue: seq<QueueRow>, preview: seq<Preview>,
    episodes: map<int, Episode>, files: map<int, EpisodeFile>, series: map<int, Series>, profiles: map<int, Profile>,
    propers: string, intended: seq<int>, membershipComplete: bool)

  // ---------------------------------------------------------------- scope

  predicate SeriesAllowed(c: Config, id: int) {
    id > 0 && id !in c.excludeSeries && (c.includeSeries == [] || id in c.includeSeries)
  }

  predicate ClientAllowed(c: Config, name: string) {
    name != "" && name !in c.excludeClients && (c.includeClients == [] || name in c.includeClients)
  }

  predicate HasExecutableWarning(rows: seq<QueueRow>) {
    exists q :: q in rows && q.trackedStatus == "warning"
      && exists m :: m in q.statusMessages && "Caution: Found executable file" in m.messages
  }

  predicate Done(q: QueueRow) {
    q.status == "completed" && (q.trackedState == "importBlocked" || q.trackedState == "importFailed" || q.trackedState == "imported")
  }

  /** An unfinished row of another download with one of the episodes, or without a known one. */
  predicate Competes(q: QueueRow, download: string, episodes: seq<int>) {
    && (download == "" || q.downloadID != download) && !Done(q)
    && (q.episodeID.None? || q.episodeID.value <= 0 || q.episodeID.value in episodes)
  }

  predicate Competing(queue: seq<QueueRow>, download: string, episodes: seq<int>) {
    exists q :: q in queue && Competes(q, download, episodes)
  }

  // ---------------------------------------------------------------- coherence of an observation

  predicate RowInScope(c: Config, o: Observation, q: QueueRow) {
    && q.downloadID == o.downloadID && ClientAllowed(c, q.client)
    && (q.seriesID.Some? && q.seriesID.value > 0 ==> SeriesAllowed(c, q.seriesID.value))
  }

  /** The decision names only allowed series, and some series if the scope names series at all. */
  predicate SeriesInScope(c: Config, d: Decision) {
    && (forall id :: id in d.seriesIDs ==> SeriesAllowed(c, id))
    && (c.includeSeries != [] || c.excludeSeries != [] ==> d.seriesIDs != [])
  }

  /** Nothing is to be done, or only within the configured scope. */
  predicate InScope(c: Config, rows: seq<QueueRow>, d: Decision) {
    d.kind == Defer || ((forall q :: q in rows ==> ClientAllowed(c, q.client)) && SeriesInScope(c, d))
  }

  predicate Gated(c: Config, o: Observation) {
    && Eligible(o.rows) && KnownPropers(o.propers) && (forall q :: q in o.rows ==> RowInScope(c, o, q))
    && o.preview != [] && o.membershipComplete && o.intended != [] && !Competing(o.queue, o.downloadID, o.intended)
  }

  predicate Described(o: Observation, f: Preview) {
    && f.id > 0 && f.path != "" && f.downloadID == o.downloadID && f.series.Some? && f.series.value > 0
    && f.episodes != [] && ValidQuality(f.quality) && f.score.Some? && f.formats.Some? && f.rejections.Some?
    && f.languages.Some? && f.languages.value != [] && f.indexerFlags.Some? && f.indexerFlags.value >= 0
  }

  predicate KnownRelease(f: Preview) {
    f.releaseType == "singleEpisode" || f.releaseType == "multiEpisode" || f.releaseType == "seasonPack"
  }

  predicate Known(q: QueueRow) { q.seriesID.Some? && q.seriesID.value > 0 }

  /** The queue knows no series, or knows this one. */
  predicate Agreed(rows: seq<QueueRow>, series: int) {
    (exists q :: q in rows && Known(q)) ==> exists q :: q in rows && Known(q) && q.seriesID.value == series
  }

  predicate KnownSeries(c: Config, o: Observation, id: int) {
    && id in o.series && o.series[id].id == id && o.series[id].monitored.Some? && o.series[id].profileID > 0 && SeriesAllowed(c, id)
    && (o.series[id].seriesType == "standard" || o.series[id].seriesType == "daily" || o.series[id].seriesType == "anime")
    && o.series[id].profileID in o.profiles && o.profiles[o.series[id].profileID].id == o.series[id].profileID
    && Ranked(o.profiles[o.series[id].profileID])
  }

  predicate KnownRejection(r: Rejection) { r.rtype == "permanent" || r.rtype == "temporary" }

  /** The previewed episode is intended, belongs to the series, and its library state is known. */
  predicate KnownEpisode(o: Observation, series: int, pe: PreviewEpisode) {
    && pe.id > 0 && pe.seriesID == series && pe.id in o.intended && pe.id in o.episodes
    && var e := o.episodes[pe.id];
       && e.id == pe.id && e.seriesID == series && e.hasFile.Some? && e.fileID.Some? && e.monitored.Some?
       && if !e.hasFile.value then e.fileID.value == 0
          else e.fileID.value in o.files && o.files[e.fileID.value].id == e.fileID.value && o.files[e.fileID.value].seriesID == series
  }

  predicate OtherEpisode(x: PreviewEpisode, y: PreviewEpisode) { x.id != y.id }

  predicate FileOK(c: Config, o: Observation, f: Preview) {
    && Described(o, f) && KnownRelease(f) && Agreed(o.rows, f.series.value) && KnownSeries(c, o, f.series.value)
    && (forall r :: r in f.rejections.value ==> KnownRejection(r))
    && (forall pe :: pe in f.episodes ==> KnownEpisode(o, f.series.value, pe))
    && Sorting.Pairwise(f.episodes, OtherEpisode)
  }

  /** Two previewed files share neither a path nor an episode. */
  predicate Separate(f: Preview, g: Preview) {
    f.path != g.path && forall x, y :: x in f.episodes && y in g.episodes ==> x.id != y.id
  }

  predicate FilesOK(c: Config, o: Observation, fs: seq<Preview>) {
    (forall f :: f in fs ==> FileOK(c, o, f)) && Sorting.Pairwise(fs, Separate)
  }

  predicate Previewed(fs: seq<Preview>, id: int) {
    exists f :: f in fs && exists pe :: pe in f.episodes && pe.id == id
  }

  /** An intended episode outside the preview already has an acceptable library file. */
  predicate Satisfied(c: Config, o: Observation, id: int) {
    && id in o.episodes
    && var e := o.episodes[id];
       && e.hasFile == Some(true) && e.fileID.Some? && SeriesAllowed(c, e.seriesID) && e.seriesID in o.series
       && o.series[e.seriesID].profileID in o.profiles && e.fileID.value in o.files
       && o.files[e.fileID.value].seriesID == e.seriesID
       && Acceptable(o.files[e.fileID.value], o.profiles[o.series[e.seriesID].profileID])
  }

  predicate Coherent(c: Config, o: Observation) {
    && Gated(c, o) && FilesOK(c, o, o.preview)
    && forall id :: id in o.intended ==> Previewed(o.preview, id) || Satisfied(c, o, id)
  }

  // ---------------------------------------------------------------- verdicts

  function ProfileFor(c: Config, o: Observation, f: Preview): Profile
    requires f.series.Some? && KnownSeries(c, o, f.series.value)
  {
    o.profiles[o.series[f.series.value].profileID]
  }

  /** The previewed file as it would stand in the library. */
  function Candidate(f: Preview): EpisodeFile {
    EpisodeFile(0, 0, f.path, f.quality, f.score, f.formats)
  }

  function CurrentFile(o: Observation, pe: PreviewEpisode): Option<EpisodeFile>
    requires pe.id in o.episodes && o.episodes[pe.id].hasFile.Some? && o.episodes[pe.id].fileID.Some?
    requires o.episodes[pe.id].hasFile.value ==> o.episodes[pe.id].fileID.value in o.files
  {
    var e := o.episodes[pe.id];
    if e.hasFile.value then Some(o.files[e.fileID.value]) else None
  }

  /** The candidate fills a gap acceptably or is a permitted upgrade. */
  predicate Improves(p: Profile, propers: string, f: Preview, current: Option<EpisodeFile>) {
    if current.None? then Acceptable(Candidate(f), p)
    else Replaces(Candidate(f), current.value, p, propers)
  }

  /** The episode has an acceptable file and the candidate is proved equal or inferior to it. */
  predicate AddsNothing(p: Profile, propers: string, f: Preview, current: Option<EpisodeFile>) {
    && current.Some? && Acceptable(current.value, p)
    && var v := Compare(f.quality, f.formats, f.score, current.value, p, propers);
       v.order < 0 || v.why == Equal
  }

  predicate UnusableVerdict(r: Rejection) { r.reason == "Sample" || r.reason == "No audio tracks detected" }

  predicate RedundantVerdict(r: Rejection) {
    || "Not a Custom Format upgrade for existing episode file(s). New: " <= r.reason
    || "Not an upgrade for existing episode file(s). Existing quality: " <= r.reason
    || r.reason == "Not a quality revision upgrade for existing episode file(s)"
  }

  predicate FileImportable(c: Config, o: Observation, f: Preview)
    requires FileOK(c, o, f)
  {
    f.rejections.value == [] && forall pe :: pe in f.episodes ==> Improves(ProfileFor(c, o, f), o.propers, f, CurrentFile(o, pe))
  }

  predicate FileRedundant(c: Config, o: Observation, f: Preview)
    requires FileOK(c, o, f)
  {
    && (forall r :: r in f.rejections.value ==> RedundantVerdict(r))
    && forall pe :: pe in f.episodes ==> AddsNothing(ProfileFor(c, o, f), o.propers, f, CurrentFile(o, pe))
  }

  predicate FileUnusable(f: Preview)
    requires f.rejections.Some?
  {
    f.rejections.value != [] && forall r :: r in f.rejections.value ==> UnusableVerdict(r)
  }

  predicate Importable(c: Config, o: Observation, fs: seq<Preview>)
    requires FilesOK(c, o, fs)
  {
    forall f :: f in fs ==> FileImportable(c, o, f)
  }

  predicate Redundant(c: Config, o: Observation, fs: seq<Preview>)
    requires FilesOK(c, o, fs)
  {
    forall f :: f in fs ==> FileRedundant(c, o, f)
  }

  predicate Unusable(c: Config, o: Observation, fs: seq<Preview>)
    requires FilesOK(c, o, fs)
  {
    forall f :: f in fs ==> f.rejections.Some? && FileUnusable(f)
  }

  /** What is done with the download, declaratively: no order of checks, no accumulators. */
  function KindOf(c: Config, o: Observation): Kind {
    if !Coherent(c, o) then Defer
    else if Importable(c, o, o.preview) then if c.recoveryEnabled then Import else Defer
    else if Redundant(c, o, o.preview) then if c.cleanupEnabled then RemoveRedundant else Defer
    else if Unusable(c, o, o.preview) then if c.cleanupEnabled then RemoveUnusable else Defer
    else Defer
  }
}
