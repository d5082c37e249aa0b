/** The fingerprint of an observation, and how far it depends on the order in which things were listed. */
module Fingerprints {
  import opened Types
  import opened Queue
  import opened Policy
  import opened Sorting

  function EpisodeID(pe: PreviewEpisode): int { pe.id }
  function ReasonOf(r: Rejection): string { r.reason }
  function PathOf(m: Material): string { m.path }

  function Reasons(f: Preview): seq<Rejection> {
    if f.rejections.Some? then f.rejections.value else []
  }

  function FormatIDs(f: Preview): seq<int> {
    if f.formats.Some? then f.formats.value else []
  }

  function MaterialWith(f: Preview, rejections: seq<Rejection>): Material {
    Material(f.path, f.downloadID, f.releaseType, OrZero(f.series), multiset(Mapped(f.episodes, EpisodeID)),
             f.quality, multiset(FormatIDs(f)), f.score, rejections)
  }

  /** The material of a file: everything sorted fully, except that rejections are sorted by reason alone. */
  predicate IsMaterial(f: Preview, m: Material) {
    Sorts(Reasons(f), m.rejections, ReasonOf) && m == MaterialWith(f, m.rejections)
  }

  predicate AreMaterials(fs: seq<Preview>, ms: seq<Material>) {
    |ms| == |fs| && forall k :: 0 <= k < |fs| ==> IsMaterial(fs[k], ms[k])
  }

  /** A possible fingerprint: the files are sorted by path alone. */
  ghost predicate IsFingerprint(o: Observation, fp: Fingerprint) {
    && fp.queue == QueueIdentity(o.rows) && fp.intended == o.intended
    && fp.executableWarning == HasExecutableWarning(o.rows)
    && exists ms :: AreMaterials(o.preview, ms) && Sorts(ms, fp.files, PathOf)
  }

  method FingerprintOf(o: Observation) returns (fp: Fingerprint)
    ensures IsFingerprint(o, fp)
  {
    var ms: seq<Material> := [];
    for k := 0 to |o.preview|
      invariant AreMaterials(o.preview[..k], ms)
    {
      var f := o.preview[k];
      var rejections := SortBy(Reasons(f), ReasonOf);
      assert IsMaterial(f, MaterialWith(f, rejections));
      ms := ms + [MaterialWith(f, rejections)];
    }
    assert o.preview[..|o.preview|] == o.preview;
    var files := SortBy(ms, PathOf);
    fp := Fingerprint(QueueIdentity(o.rows), files, o.intended, HasExecutableWarning(o.rows));
  }

  // ---------------------------------------------------------------- rearrangements

  /** The same file with its episodes, formats and rejections listed in another order. */
  predicate Alike(f: Preview, g: Preview) {
    && g == f.(episodes := g.episodes, formats := g.formats, rejections := g.rejections)
    && multiset(f.episodes) == multiset(g.episodes)
    && f.formats.Some? == g.formats.Some? && multiset(FormatIDs(f)) == multiset(FormatIDs(g))
    && f.rejections.Some? == g.rejections.Some? && multiset(Reasons(f)) == multiset(Reasons(g))
  }

  predicate AllAlike(fs: seq<Preview>, gs: seq<Preview>) {
    |fs| == |gs| && forall k :: 0 <= k < |fs| ==> Alike(fs[k], gs[k])
  }

  /** The same observation, read in another order throughout; `mid` has the inner order of one and the outer
      order of the other. Intended episodes are always listed in ascending order. */
  predicate Rearranged(o: Observation, mid: seq<Preview>, x: Observation) {
    && x == o.(rows := x.rows, queue := x.queue, preview := x.preview)
    && multiset(o.rows) == multiset(x.rows) && multiset(o.queue) == multiset(x.queue)
    && AllAlike(o.preview, mid) && multiset(mid) == multiset(x.preview)
  }

  /** The two files have the same material up to the order of their rejections. */
  predicate Indistinct(f: Preview, g: Preview) {
    MaterialWith(f, []) == MaterialWith(g, []) && multiset(Reasons(f)) == multiset(Reasons(g))
  }

  /** Reasons decide the rejections of every file, and paths decide the files. */
  predicate Decided(o: Observation) {
    && (forall f :: f in o.preview ==> KeyDecides(Reasons(f), ReasonOf))
    && (forall f, g :: f in o.preview && g in o.preview && f.path == g.path ==> Indistinct(f, g))
  }

  lemma {:induction false} QueuePermutes(s: seq<QueueRow>, t: seq<QueueRow>)
    requires multiset(s) == multiset(t)
    ensures QueueIdentity(s) == QueueIdentity(t)
  {
    QueueMapped(s);
    QueueMapped(t);
    MappedPermutes(s, t, KeyOfRow);
  }

  lemma {:induction false} QueueMapped(s: seq<QueueRow>)
    ensures QueueIdentity(s) == multiset(Mapped(s, KeyOfRow))
  {
    if s != [] {
      QueueMapped(s[1..]);
      assert Mapped(s, KeyOfRow) == [KeyOfRow(s[0])] + Mapped(s[1..], KeyOfRow);
    }
  }

  lemma WarningPermutes(s: seq<QueueRow>, t: seq<QueueRow>)
    requires multiset(s) == multiset(t)
    ensures HasExecutableWarning(s) == HasExecutableWarning(t)
  {
    assert forall q :: q in s <==> q in multiset(s);
    assert forall q :: q in t <==> q in multiset(t);
  }

  lemma MaterialUnique(f: Preview, g: Preview, m: Material, n: Material)
    requires Alike(f, g) && KeyDecides(Reasons(f), ReasonOf) && IsMaterial(f, m) && IsMaterial(g, n)
    ensures m == n
  {
    MappedPermutes(f.episodes, g.episodes, EpisodeID);
    assert forall r :: r in m.rejections ==> r in multiset(Reasons(f));
    SortedUnique(m.rejections, n.rejections, ReasonOf);
  }

  lemma MaterialsWithout(fs: seq<Preview>, ms: seq<Material>, k: nat)
    requires AreMaterials(fs, ms) && k < |fs|
    ensures AreMaterials(fs[..k] + fs[k + 1..], ms[..k] + ms[k + 1..]) && IsMaterial(fs[k], ms[k])
  {
    hide IsMaterial;
  }

  /** With the materials of some order at hand, another order has the same materials in its order. */
  lemma {:induction false} MaterialsPermute(fs: seq<Preview>, gs: seq<Preview>,
                                            ms: seq<Material>) returns (ns: seq<Material>)
    requires multiset(fs) == multiset(gs) && AreMaterials(fs, ms)
    ensures AreMaterials(gs, ns) && multiset(ns) == multiset(ms)
    decreases |gs|
  {
    hide IsMaterial;
    assert |fs| == |multiset(fs)| == |multiset(gs)| == |gs|;
    if gs == [] {
      ns := [];
    } else {
      var k := WithoutHead(gs, fs);
      MaterialsWithout(fs, ms, k);
      var rest := MaterialsPermute(fs[..k] + fs[k + 1..], gs[1..], ms[..k] + ms[k + 1..]);
      ns := [ms[k]] + rest;
      RemovedAt(ms, k);
      assert multiset(ns) == multiset{ms[k]} + multiset(rest);
    }
  }

  /** Where reasons decide the rejections and paths the files, the fingerprint is the same in every order. */
  lemma FingerprintPermutes(o: Observation, mid: seq<Preview>, x: Observation, fp: Fingerprint, xp: Fingerprint)
    requires Rearranged(o, mid, x) && Decided(o) && IsFingerprint(o, fp) && IsFingerprint(x, xp)
    ensures fp == xp
  {
    QueuePermutes(o.rows, x.rows);
    WarningPermutes(o.rows, x.rows);
    var ms: seq<Material> :| AreMaterials(o.preview, ms) && Sorts(ms, fp.files, PathOf);
    var ns: seq<Material> :| AreMaterials(x.preview, ns) && Sorts(ns, xp.files, PathOf);
    var ls := MaterialsPermute(x.preview, mid, ns);
    forall k | 0 <= k < |ms| ensures ms[k] == ls[k] {
      MaterialUnique(o.preview[k], mid[k], ms[k], ls[k]);
    }
    assert ms == ls;
    DecidedFiles(o, ms, fp.files);
    SortedUnique(fp.files, xp.files, PathOf);
  }

  lemma FileOfMaterial(fs: seq<Preview>, ms: seq<Material>, files: seq<Material>, m: Material) returns (i: nat)
    requires AreMaterials(fs, ms) && Sorts(ms, files, PathOf) && m in files
    ensures i < |fs| == |ms| && ms[i] == m && fs[i].path == m.path
  {
    assert m in multiset(files);
    i :| 0 <= i < |ms| && ms[i] == m;
    assert IsMaterial(fs[i], ms[i]);
  }

  lemma IndistinctMaterial(f: Preview, g: Preview, m: Material, n: Material)
    requires Indistinct(f, g) && KeyDecides(Reasons(f), ReasonOf) && IsMaterial(f, m) && IsMaterial(g, n)
    ensures m == n
  {
    assert forall r :: r in m.rejections ==> r in multiset(Reasons(f));
    SortedUnique(m.rejections, n.rejections, ReasonOf);
    assert MaterialWith(f, m.rejections) == MaterialWith(f, []).(rejections := m.rejections);
    assert MaterialWith(g, n.rejections) == MaterialWith(g, []).(rejections := n.rejections);
  }

  lemma DecidedFiles(o: Observation, ms: seq<Material>, files: seq<Material>)
    requires Decided(o) && AreMaterials(o.preview, ms) && Sorts(ms, files, PathOf)
    ensures KeyDecides(files, PathOf)
  {
    hide IsMaterial, Indistinct, Sorts;
    forall m, n | m in files && n in files && PathOf(m) == PathOf(n) ensures m == n {
      var i := FileOfMaterial(o.preview, ms, files, m);
      var j := FileOfMaterial(o.preview, ms, files, n);
      IndistinctMaterial(o.preview[i], o.preview[j], m, n);
    }
  }

  lemma OtherMaterial(fs: seq<Preview>, ms: seq<Material>, k: nat) returns (m: Material)
    requires AreMaterials(fs, ms) && k < |fs| && !KeyDecides(Reasons(fs[k]), ReasonOf)
    ensures AreMaterials(fs, ms[k := m]) && m != ms[k] && PathOf(m) == PathOf(ms[k])
  {
    assert IsMaterial(fs[k], ms[k]);
    var r := SortedAmbiguous(Reasons(fs[k]), ms[k].rejections, ReasonOf);
    m := MaterialWith(fs[k], r);
    assert IsMaterial(fs[k], m);
  }

  /** Two different rejections with the same reason leave the fingerprint of even one order undecided:
      whichever is computed, another was possible. */
  lemma ReasonsLeaveOpen(o: Observation, fp: Fingerprint, k: nat) returns (xp: Fingerprint)
    requires k < |o.preview| && !KeyDecides(Reasons(o.preview[k]), ReasonOf) && IsFingerprint(o, fp)
    ensures IsFingerprint(o, xp) && xp != fp
  {
    hide AreMaterials, Sorts, KeyDecides, QueueIdentity, HasExecutableWarning;
    var ms: seq<Material> :| AreMaterials(o.preview, ms) && Sorts(ms, fp.files, PathOf);
    MaterialCount(o.preview, ms);
    var m := OtherMaterial(o.preview, ms, k);
    var files := SortsSwapped(ms, fp.files, PathOf, k, m);
    xp := fp.(files := files);
  }

  lemma MaterialCount(fs: seq<Preview>, ms: seq<Material>)
    requires AreMaterials(fs, ms)
    ensures |ms| == |fs|
  {
  }

  lemma DistinctMaterials(f: Preview, g: Preview, m: Material, n: Material)
    requires !Indistinct(f, g) && IsMaterial(f, m) && IsMaterial(g, n)
    ensures m != n
  {
  }

  lemma MaterialAt(fs: seq<Preview>, ms: seq<Material>, f: Preview) returns (m: Material)
    requires AreMaterials(fs, ms) && f in fs
    ensures m in ms && IsMaterial(f, m) && m.path == f.path
  {
    var k :| 0 <= k < |fs| && fs[k] == f;
    m := ms[k];
  }

  /** So do two different files with the same path. */
  lemma PathsLeaveOpen(o: Observation, fp: Fingerprint, f: Preview, g: Preview) returns (xp: Fingerprint)
    requires f in o.preview && g in o.preview && f.path == g.path && !Indistinct(f, g) && IsFingerprint(o, fp)
    ensures IsFingerprint(o, xp) && xp != fp
  {
    hide AreMaterials, Sorts, Indistinct, IsMaterial, QueueIdentity, HasExecutableWarning;
    var ms: seq<Material> :| AreMaterials(o.preview, ms) && Sorts(ms, fp.files, PathOf);
    var m := MaterialAt(o.preview, ms, f);
    var n := MaterialAt(o.preview, ms, g);
    DistinctMaterials(f, g, m, n);
    var files := SortedAmbiguous(ms, fp.files, PathOf);
    xp := fp.(files := files);
  }

  lemma {:induction false} MaterialsExist(fs: seq<Preview>) returns (ms: seq<Material>)
    ensures AreMaterials(fs, ms)
  {
    ms := [];
    if fs != [] {
      var n := |fs| - 1;
      var rest := MaterialsExist(fs[..n]);
      var r := SortingExists(Reasons(fs[n]), ReasonOf);
      assert IsMaterial(fs[n], MaterialWith(fs[n], r));
      ms := rest + [MaterialWith(fs[n], r)];
    }
  }

  lemma FingerprintExists(o: Observation) returns (fp: Fingerprint)
    ensures IsFingerprint(o, fp)
  {
    hide AreMaterials, Sorts;
    var ms := MaterialsExist(o.preview);
    var files := SortingExists(ms, PathOf);
    fp := Fingerprint(QueueIdentity(o.rows), files, o.intended, HasExecutableWarning(o.rows));
  }

  /** When an observation has only one fingerprint, whichever way equal keys are sorted: exactly when reasons decide
      the rejections of every file and paths decide the files. */
  lemma FingerprintDeterminedIff(o: Observation)
    ensures Decided(o) <==> forall fp, xp :: IsFingerprint(o, fp) && IsFingerprint(o, xp) ==> fp == xp
  {
    hide IsFingerprint, KeyDecides, Indistinct;
    if Decided(o) {
      SelfRearranged(o);
      forall fp, xp | IsFingerprint(o, fp) && IsFingerprint(o, xp) ensures fp == xp {
        FingerprintPermutes(o, o.preview, o, fp, xp);
      }
    } else {
      var fp := FingerprintExists(o);
      if f :| f in o.preview && !KeyDecides(Reasons(f), ReasonOf) {
        var k :| 0 <= k < |o.preview| && o.preview[k] == f;
        var xp := ReasonsLeaveOpen(o, fp, k);
      } else {
        var f, g :| f in o.preview && g in o.preview && f.path == g.path && !Indistinct(f, g);
        var xp := PathsLeaveOpen(o, fp, f, g);
      }
    }
  }

  lemma SelfRearranged(o: Observation)
    ensures Rearranged(o, o.preview, o)
  {
  }

  // ---------------------------------------------------------------- what a fingerprint distinguishes

  /** The two files have the same path, download, release type, series, quality and score, and the same episodes,
      formats and rejections in some order. */
  predicate SameFile(f: Preview, g: Preview) {
    && f.path == g.path && f.downloadID == g.downloadID && f.releaseType == g.releaseType && f.quality == g.quality
    && f.score == g.score
    && (if f.series.Some? then f.series.value else 0) == (if g.series.Some? then g.series.value else 0)
    && multiset(seq(|f.episodes|, i requires 0 <= i < |f.episodes| => f.episodes[i].id))
         == multiset(seq(|g.episodes|, i requires 0 <= i < |g.episodes| => g.episodes[i].id))
    && multiset(if f.formats.Some? then f.formats.value else []) == multiset(if g.formats.Some? then g.formats.value else [])
    && multiset(if f.rejections.Some? then f.rejections.value else []) == multiset(if g.rejections.Some? then g.rejections.value else [])
  }

  /** The two rows agree in everything that identifies them. */
  predicate SameRow(q: QueueRow, r: QueueRow) {
    && q.downloadID == r.downloadID && q.client == r.client && q.outputPath == r.outputPath && q.title == r.title
    && (if q.seriesID.Some? then q.seriesID.value else 0) == (if r.seriesID.Some? then r.seriesID.value else 0)
    && (if q.episodeID.Some? then q.episodeID.value else 0) == (if r.episodeID.Some? then r.episodeID.value else 0)
  }

  /** The same candidate: files and rows correspond one to one, and intended episodes and the warning agree. */
  ghost predicate SameCandidate(o: Observation, x: Observation) {
    && o.intended == x.intended && HasExecutableWarning(o.rows) == HasExecutableWarning(x.rows)
    && (exists at :: Matches(o.preview, x.preview, at, SameFile))
    && (exists at :: Matches(o.rows, x.rows, at, SameRow))
  }

  /** What a fingerprint distinguishes: another observation can have it exactly if it is of the same candidate. */
  lemma FingerprintTellsIff(o: Observation, x: Observation, fp: Fingerprint)
    requires IsFingerprint(o, fp)
    ensures IsFingerprint(x, fp) <==> SameCandidate(o, x)
  {
    hide QueueIdentity, HasExecutableWarning, AreMaterials, Sorts, SameFile, SameRow, Matches;
    RowsTellIff(o.rows, x.rows);
    var ms: seq<Material> :| AreMaterials(o.preview, ms) && Sorts(ms, fp.files, PathOf);
    if IsFingerprint(x, fp) {
      var ns: seq<Material> :| AreMaterials(x.preview, ns) && Sorts(ns, fp.files, PathOf);
      SortsSame(ms, ns, fp.files);
      var at := FilesTell(o.preview, x.preview, ms, ns);
    }
    if SameCandidate(o, x) {
      var at :| Matches(o.preview, x.preview, at, SameFile);
      var ns := FilesShare(o.preview, x.preview, at, ms);
      SortsOther(ms, ns, fp.files);
    }
  }

  lemma SortsSame(ms: seq<Material>, ns: seq<Material>, files: seq<Material>)
    requires Sorts(ms, files, PathOf) && Sorts(ns, files, PathOf)
    ensures multiset(ms) == multiset(ns)
  {
  }

  lemma SortsOther(ms: seq<Material>, ns: seq<Material>, files: seq<Material>)
    requires Sorts(ms, files, PathOf) && multiset(ms) == multiset(ns)
    ensures Sorts(ns, files, PathOf)
  {
  }

  lemma IDsOf(f: Preview)
    ensures Mapped(f.episodes, EpisodeID) == seq(|f.episodes|, i requires 0 <= i < |f.episodes| => f.episodes[i].id)
  {
  }

  /** Files with the same material are the same in all that counts, and the other way round. */
  lemma MaterialTells(f: Preview, g: Preview, m: Material)
    requires IsMaterial(f, m)
    ensures IsMaterial(g, m) <==> SameFile(f, g)
  {
    hide SortedBy;
    IDsOf(f);
    IDsOf(g);
  }

  lemma FilesTell(fs: seq<Preview>, gs: seq<Preview>, ms: seq<Material>, ns: seq<Material>) returns (at: seq<int>)
    requires AreMaterials(fs, ms) && AreMaterials(gs, ns) && multiset(ms) == multiset(ns)
    ensures Matches(fs, gs, at, SameFile)
  {
    hide IsMaterial, SameFile;
    at := Rearrangement(ms, ns);
    forall i | 0 <= i < |at| ensures SameFile(fs[i], gs[at[i]]) {
      assert IsMaterial(fs[i], ms[i]) && IsMaterial(gs[at[i]], ns[at[i]]) && ms[i] == ns[at[i]];
      MaterialTells(fs[i], gs[at[i]], ms[i]);
    }
  }

  lemma FilesShare(fs: seq<Preview>, gs: seq<Preview>, at: seq<int>, ms: seq<Material>) returns (ns: seq<Material>)
    requires AreMaterials(fs, ms) && Matches(fs, gs, at, SameFile)
    ensures AreMaterials(gs, ns) && multiset(ms) == multiset(ns)
  {
    hide IsMaterial, SameFile;
    var back := Inverse(at);
    ns := seq(|gs|, k requires 0 <= k < |gs| => ms[back[k]]);
    forall k | 0 <= k < |gs| ensures IsMaterial(gs[k], ns[k]) {
      assert SameFile(fs[back[k]], gs[at[back[k]]]) && IsMaterial(fs[back[k]], ms[back[k]]);
      MaterialTells(fs[back[k]], gs[k], ms[back[k]]);
    }
    MatchedSame(ms, ns, at);
  }

  /** The same for rows: queue identity tells exactly the identifying fields of each row apart, in any order. */
  lemma RowsTellIff(s: seq<QueueRow>, t: seq<QueueRow>)
    ensures QueueIdentity(s) == QueueIdentity(t) <==> exists at :: Matches(s, t, at, SameRow)
  {
    hide QueueIdentity;
    QueueMapped(s);
    QueueMapped(t);
    var ks, kt := Mapped(s, KeyOfRow), Mapped(t, KeyOfRow);
    if multiset(ks) == multiset(kt) {
      var at := Rearrangement(ks, kt);
      forall i | 0 <= i < |at| ensures SameRow(s[i], t[at[i]]) {
        assert ks[i] == kt[at[i]];
      }
      assert Matches(s, t, at, SameRow);
    }
    if at :| Matches(s, t, at, SameRow) {
      forall i | 0 <= i < |at| ensures ks[i] == kt[at[i]] {
        assert SameRow(s[i], t[at[i]]);
      }
      MatchedSame(ks, kt, at);
    }
  }
}
