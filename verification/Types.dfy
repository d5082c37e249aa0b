/** Values shared by every component: instants, read results, Sonarr resources,
    configuration, and the policy decision that the service acts on. */
module Types {

  /** Nanoseconds since the zero instant of the clock that the service uses; 0 is that instant ("unset"). */
  type Time = int

  type Duration = int

  const SECOND: Duration := 1_000_000_000
  const MINUTE: Duration := 60 * SECOND
  const HOUR: Duration := 60 * MINUTE

  /** The largest representable duration. A real clock is always further than this from the zero
      time, so subtracting an unset instant exceeds every configured interval. */
  const MAX_DURATION: Duration := 0x7FFF_FFFF_FFFF_FFFF

  datatype Option<+T> = None | Some(value: T)

  /** A remote read: any failure, or any value. */
  datatype Read<+T> = Unavailable | Got(value: T)

  datatype StatusMessage = StatusMessage(messages: seq<string>)

  datatype QueueRow = QueueRow(
    id: int, downloadID: string, seriesID: Option<int>, episodeID: Option<int>, client: string,
    title: string, outputPath: string, status: string, trackedState: string, trackedStatus: string,
    statusMessages: seq<StatusMessage>)

  datatype Config = Config(
    dryRun: bool, pollInterval: Duration,
    recoveryEnabled: bool, recoveryWait: Duration, maxAttempts: int, retryInterval: Duration,
    cleanupEnabled: bool, cleanupWait: Duration, blocklist: bool, replacementSearch: bool,
    perScan: int, perHour: int, episodeCooldown: Duration, retention: Duration,
    includeSeries: seq<int>, excludeSeries: seq<int>,
    includeClients: seq<string>, excludeClients: seq<string>)

  /** What configuration loading guarantees before a service is built. */
  predicate ConfigOK(c: Config) {
    && 0 < c.pollInterval && 2 * c.pollInterval <= MAX_DURATION
    && 0 < c.recoveryWait <= c.cleanupWait <= MAX_DURATION
    && 0 < c.retryInterval <= MAX_DURATION && 0 < c.episodeCooldown <= MAX_DURATION
    && 0 < c.retention <= MAX_DURATION
    && 0 < c.maxAttempts && 0 < c.perScan && 0 < c.perHour
    && (c.blocklist || c.replacementSearch ==> c.cleanupEnabled)
  }

  datatype Kind = Defer | Import | RemoveRedundant | RemoveUnusable | RemoveBlocked | Search

  predicate IsRemoval(k: Kind) {
    k.RemoveRedundant? || k.RemoveUnusable? || k.RemoveBlocked?
  }

  datatype Quality = Quality(quality: Option<int>, revision: Option<Revision>)
  datatype Revision = Revision(version: Option<int>, real_: Option<int>, isRepack: Option<bool>)

  datatype Rejection = Rejection(reason: string, rtype: string)

  /** What queue identity keeps of one row. */
  datatype RowKey = RowKey(download: string, client: string, path: string, title: string, series: int, episode: int)

  /** What a fingerprint keeps of one previewed file. Identifier lists are fully sorted before hashing, so
      only their multiset matters; rejections and files keep the order their partial sort leaves. */
  datatype Material = Material(
    path: string, download: string, releaseType: string, series: int, episodes: multiset<int>,
    quality: Quality, formats: multiset<int>, score: Option<int>, rejections: seq<Rejection>)

  /** Hashing is taken to be injective, so a fingerprint is the hashed structure itself. */
  datatype Fingerprint = Fingerprint(
    queue: multiset<RowKey>, files: seq<Material>, intended: seq<int>, executableWarning: bool)

  datatype ImportFile = ImportFile(
    path: string, folderName: string, seriesID: int, episodeIDs: seq<int>, quality: Quality, languages: seq<int>,
    releaseGroup: string, indexerFlags: int, releaseType: string, downloadID: string)

  datatype Decision = Decision(
    kind: Kind, fingerprint: Fingerprint, episodeIDs: seq<int>, seriesIDs: seq<int>,
    files: seq<ImportFile>, blocklist: bool, episodeMismatch: bool, executableWarning: bool)
}
