/** The decision does not depend on the order in which rows, files, episodes, formats or rejections are listed. */
module Order {
  import opened Types
  import opened Queue
  import opened Profiles
  import opened Policy
  import opened Sorting
  import opened Fingerprints
  import opened Evaluation
  import opened Rejections

  lemma SameMembers<T>(s: seq<T>, t: seq<T>)
    requires multiset(s) == multiset(t)
    ensures (forall x :: x in s <==> x in t) && |s| == |t|
  {
    assert |s| == |multiset(s)| == |multiset(t)| == |t|;
    forall x ensures x in s <==> x in t {
      assert x in s <==> x in multiset(s);
      assert x in t <==> x in multiset(t);
    }
  }

  // ---------------------------------------------------------------- scores

  lemma {:induction false} TotalWithout(fs: seq<FormatItem>, t: seq<int>, k: nat)
    requires WeightsOK(fs) && k < |t|
    ensures Total(fs, t) == Total(fs, t[..k] + t[k + 1..]) + WeightOf(fs, t[k])
  {
    var n := |t| - 1;
    if k < n {
      TotalWithout(fs, t[..n], k);
      var u := t[..k] + t[k + 1..];
      assert u[..|u| - 1] == t[..n][..k] + t[..n][k + 1..] && u[|u| - 1] == t[n];
    } else {
      assert t[..k] + t[k + 1..] == t[..n];
    }
  }

  lemma {:induction false} TotalPermutes(fs: seq<FormatItem>, s: seq<int>, t: seq<int>)
    requires WeightsOK(fs) && multiset(s) == multiset(t)
    ensures Total(fs, s) == Total(fs, t)
    decreases |s|
  {
    if s == [] {
      SameMembers(s, t);
    } else {
      var k := WithoutHead(s, t);
      TotalPermutes(fs, s[1..], t[..k] + t[k + 1..]);
      TotalWithout(fs, t, k);
      TotalWithout(fs, s, 0);
      assert s[..0] + s[0 + 1..] == s[1..];
    }
  }

  predicate Differ(x: int, y: int) { x != y }

  lemma ScorePermutes(p: Profile, f: Preview, g: Preview)
    requires Alike(f, g)
    ensures ScoreOK(p, f.formats, f.score) == ScoreOK(p, g.formats, g.score)
  {
    hide Total, WeightsOK, HasWeight;
    if f.formats.Some? && WeightsOK(Weights(p)) {
      SameMembers(f.formats.value, g.formats.value);
      TotalPermutes(Weights(p), f.formats.value, g.formats.value);
      DistinctPermutes(f.formats.value, g.formats.value);
    }
  }

  lemma DistinctPermutes(s: seq<int>, t: seq<int>)
    requires multiset(s) == multiset(t)
    ensures (forall i, j :: 0 <= i < j < |s| ==> s[i] != s[j]) <==> forall i, j :: 0 <= i < j < |t| ==> t[i] != t[j]
  {
    if forall i, j :: 0 <= i < j < |s| ==> s[i] != s[j] { DistinctStill(s, t); }
    if forall i, j :: 0 <= i < j < |t| ==> t[i] != t[j] { DistinctStill(t, s); }
  }

  lemma DistinctStill(s: seq<int>, t: seq<int>)
    requires multiset(s) == multiset(t) && forall i, j :: 0 <= i < j < |s| ==> s[i] != s[j]
    ensures forall i, j :: 0 <= i < j < |t| ==> t[i] != t[j]
  {
    assert Pairwise(s, Differ);
    PairwisePermutes(s, t, Differ);
    assert Pairwise(t, Differ);
    assert forall i, j :: 0 <= i < j < |t| ==> Differ(t[i], t[j]);
  }

  lemma ImprovesAlike(p: Profile, propers: string, f: Preview, g: Preview, current: Option<EpisodeFile>)
    requires Alike(f, g)
    ensures Improves(p, propers, f, current) == Improves(p, propers, g, current)
    ensures AddsNothing(p, propers, f, current) == AddsNothing(p, propers, g, current)
  {
    hide Ranked, RankOf, CutoffOf, ScoreOK, ValidQuality, RevisionCompare;
    ScorePermutes(p, f, g);
  }

  // ---------------------------------------------------------------- files

  lemma EpisodesPermute(f: Preview, g: Preview)
    requires Alike(f, g)
    ensures (forall pe :: pe in f.episodes <==> pe in g.episodes) && (f.episodes == [] <==> g.episodes == [])
    ensures Pairwise(f.episodes, OtherEpisode) == Pairwise(g.episodes, OtherEpisode)
    ensures (forall r :: r in Reasons(f) <==> r in Reasons(g)) && (Reasons(f) == [] <==> Reasons(g) == [])
  {
    SameMembers(f.episodes, g.episodes);
    SameMembers(Reasons(f), Reasons(g));
    if Pairwise(f.episodes, OtherEpisode) { PairwisePermutes(f.episodes, g.episodes, OtherEpisode); }
    if Pairwise(g.episodes, OtherEpisode) { PairwisePermutes(g.episodes, f.episodes, OtherEpisode); }
  }

  /** The same rows, in another order, with everything else alike. */
  predicate SameFacts(o: Observation, x: Observation) {
    && x == o.(rows := x.rows, queue := x.queue, preview := x.preview)
    && multiset(o.rows) == multiset(x.rows) && multiset(o.queue) == multiset(x.queue)
  }

  lemma RowsPermute(o: Observation, x: Observation)
    requires SameFacts(o, x)
    ensures forall series :: Agreed(o.rows, series) == Agreed(x.rows, series)
    ensures Eligible(o.rows) == Eligible(x.rows)
  {
    SameMembers(o.rows, x.rows);
  }

  lemma FileAlike(c: Config, o: Observation, x: Observation, f: Preview, g: Preview)
    requires SameFacts(o, x) && Alike(f, g)
    ensures FileOK(c, o, f) == FileOK(c, x, g)
  {
    hide Agreed, Eligible, ValidQuality, Ranked, SeriesAllowed;
    RowsPermute(o, x);
    EpisodesPermute(f, g);
  }

  lemma FileVerdictsAlike(c: Config, o: Observation, x: Observation, f: Preview, g: Preview)
    requires SameFacts(o, x) && Alike(f, g) && FileOK(c, o, f) && FileOK(c, x, g)
    ensures FileImportable(c, o, f) == FileImportable(c, x, g) && FileRedundant(c, o, f) == FileRedundant(c, x, g)
    ensures FileUnusable(f) == FileUnusable(g)
  {
    hide Improves, AddsNothing, Agreed, ValidQuality, Ranked, SeriesAllowed, RedundantVerdict;
    EpisodesPermute(f, g);
    forall pe | pe in f.episodes
      ensures Improves(ProfileFor(c, o, f), o.propers, f, CurrentFile(o, pe)) == Improves(ProfileFor(c, x, g), x.propers, g, CurrentFile(x, pe))
      ensures AddsNothing(ProfileFor(c, o, f), o.propers, f, CurrentFile(o, pe)) == AddsNothing(ProfileFor(c, x, g), x.propers, g, CurrentFile(x, pe))
    {
      ImprovesAlike(ProfileFor(c, o, f), o.propers, f, g, CurrentFile(o, pe));
    }
  }

  lemma SeparateAlike(f: Preview, g: Preview, h: Preview, k: Preview)
    requires Alike(f, g) && Alike(h, k)
    ensures Separate(f, h) == Separate(g, k)
  {
    EpisodesPermute(f, g);
    EpisodesPermute(h, k);
  }

  lemma FilesAlike(c: Config, o: Observation, x: Observation, fs: seq<Preview>, gs: seq<Preview>)
    requires SameFacts(o, x) && AllAlike(fs, gs)
    ensures FilesOK(c, o, fs) == FilesOK(c, x, gs)
    ensures FilesOK(c, o, fs) ==>
      && Importable(c, o, fs) == Importable(c, x, gs) && Redundant(c, o, fs) == Redundant(c, x, gs) && Unusable(c, o, fs) == Unusable(c, x, gs)
  {
    hide Alike, FileOK, Separate, FileImportable, FileRedundant, FileUnusable, SameFacts;
    forall k | 0 <= k < |fs| ensures FileOK(c, o, fs[k]) == FileOK(c, x, gs[k]) {
      FileAlike(c, o, x, fs[k], gs[k]);
    }
    forall i, j | 0 <= i < j < |fs| ensures Separate(fs[i], fs[j]) == Separate(gs[i], gs[j]) {
      SeparateAlike(fs[i], gs[i], fs[j], gs[j]);
    }
    PointwiseOK(c, o, x, fs, gs);
    if FilesOK(c, o, fs) {
      forall k | 0 <= k < |fs|
        ensures FileOK(c, o, fs[k]) && FileOK(c, x, gs[k]) && fs[k].rejections.Some? && gs[k].rejections.Some?
        ensures FileImportable(c, o, fs[k]) == FileImportable(c, x, gs[k]) && FileRedundant(c, o, fs[k]) == FileRedundant(c, x, gs[k])
        ensures FileUnusable(fs[k]) == FileUnusable(gs[k])
      {
        assert fs[k] in fs && gs[k] in gs;
        DescribedFile(c, o, fs[k]);
        DescribedFile(c, x, gs[k]);
        FileVerdictsAlike(c, o, x, fs[k], gs[k]);
      }
      PointwiseVerdicts(c, o, x, fs, gs);
    }
  }

  lemma PointwiseOK(c: Config, o: Observation, x: Observation, fs: seq<Preview>, gs: seq<Preview>)
    requires |fs| == |gs|
    requires forall k :: 0 <= k < |fs| ==> FileOK(c, o, fs[k]) == FileOK(c, x, gs[k])
    requires forall i, j :: 0 <= i < j < |fs| ==> Separate(fs[i], fs[j]) == Separate(gs[i], gs[j])
    ensures FilesOK(c, o, fs) == FilesOK(c, x, gs)
  {
    hide FileOK, Separate;
    if FilesOK(c, o, fs) {
      forall g | g in gs ensures FileOK(c, x, g) {
        var k :| 0 <= k < |gs| && gs[k] == g;
        assert fs[k] in fs;
      }
    }
    if FilesOK(c, x, gs) {
      forall f | f in fs ensures FileOK(c, o, f) {
        var k :| 0 <= k < |fs| && fs[k] == f;
        assert gs[k] in gs;
      }
    }
  }

  lemma VerdictsAt(c: Config, o: Observation, fs: seq<Preview>)
    requires FilesOK(c, o, fs)
    ensures forall k :: 0 <= k < |fs| ==> FileOK(c, o, fs[k]) && fs[k].rejections.Some?
    ensures Importable(c, o, fs) <==> forall k :: 0 <= k < |fs| ==> FileImportable(c, o, fs[k])
    ensures Redundant(c, o, fs) <==> forall k :: 0 <= k < |fs| ==> FileRedundant(c, o, fs[k])
    ensures Unusable(c, o, fs) <==> forall k :: 0 <= k < |fs| ==> FileUnusable(fs[k])
  {
    hide FileOK, Separate, FileImportable, FileRedundant, FileUnusable;
    forall k | 0 <= k < |fs| ensures fs[k] in fs && FileOK(c, o, fs[k]) && fs[k].rejections.Some? {
      DescribedFile(c, o, fs[k]);
    }
  }

  lemma PointwiseVerdicts(c: Config, o: Observation, x: Observation, fs: seq<Preview>, gs: seq<Preview>)
    requires |fs| == |gs| && FilesOK(c, o, fs) && FilesOK(c, x, gs)
    requires forall k :: 0 <= k < |fs| ==> FileOK(c, o, fs[k]) && FileOK(c, x, gs[k]) && fs[k].rejections.Some? && gs[k].rejections.Some?
    requires forall k :: 0 <= k < |fs| ==> FileImportable(c, o, fs[k]) == FileImportable(c, x, gs[k])
    requires forall k :: 0 <= k < |fs| ==> FileRedundant(c, o, fs[k]) == FileRedundant(c, x, gs[k])
    requires forall k :: 0 <= k < |fs| ==> FileUnusable(fs[k]) == FileUnusable(gs[k])
    ensures Importable(c, o, fs) == Importable(c, x, gs) && Redundant(c, o, fs) == Redundant(c, x, gs) && Unusable(c, o, fs) == Unusable(c, x, gs)
  {
    hide FileOK, FilesOK, FileImportable, FileRedundant, FileUnusable, Importable, Redundant, Unusable;
    VerdictsAt(c, o, fs);
    VerdictsAt(c, x, gs);
  }

  lemma FilesPermute(c: Config, o: Observation, fs: seq<Preview>, gs: seq<Preview>)
    requires multiset(fs) == multiset(gs) && FilesOK(c, o, fs)
    ensures FilesOK(c, o, gs)
    ensures Importable(c, o, fs) == Importable(c, o, gs) && Redundant(c, o, fs) == Redundant(c, o, gs) && Unusable(c, o, fs) == Unusable(c, o, gs)
  {
    hide FileOK, FileImportable, FileRedundant, FileUnusable;
    SameMembers(fs, gs);
    PairwisePermutes(fs, gs, Separate);
  }

  lemma PreviewedAlike(fs: seq<Preview>, gs: seq<Preview>, id: int)
    requires AllAlike(fs, gs) && Previewed(fs, id)
    ensures Previewed(gs, id)
  {
    var f :| f in fs && exists pe :: pe in f.episodes && pe.id == id;
    var k :| 0 <= k < |fs| && fs[k] == f;
    EpisodesPermute(fs[k], gs[k]);
    assert gs[k] in gs;
  }

  lemma AlikeSymmetric(fs: seq<Preview>, gs: seq<Preview>)
    requires AllAlike(fs, gs)
    ensures AllAlike(gs, fs)
  {
  }

  lemma GatesPermute(c: Config, o: Observation, mid: seq<Preview>, x: Observation)
    requires Rearranged(o, mid, x)
    ensures Gated(c, o) == Gated(c, x)
    ensures forall id :: Previewed(o.preview, id) == Previewed(x.preview, id)
  {
    hide Alike, ClientAllowed, SeriesAllowed, Done;
    SameMembers(o.rows, x.rows);
    SameMembers(o.queue, x.queue);
    SameMembers(mid, x.preview);
    assert forall q :: RowInScope(c, o, q) == RowInScope(c, x, q);
    AlikeSymmetric(o.preview, mid);
    forall id ensures Previewed(o.preview, id) == Previewed(x.preview, id) {
      if Previewed(o.preview, id) { PreviewedAlike(o.preview, mid, id); }
      if Previewed(mid, id) { PreviewedAlike(mid, o.preview, id); }
      assert Previewed(mid, id) == Previewed(x.preview, id);
    }
  }

  /** The kind of a decision is the same in every order. */
  lemma KindPermutes(c: Config, o: Observation, mid: seq<Preview>, x: Observation)
    requires Rearranged(o, mid, x)
    ensures KindOf(c, o) == KindOf(c, x)
  {
    hide Gated, AllAlike, FilesOK, Importable, Redundant, Unusable, Previewed, Acceptable;
    GatesPermute(c, o, mid, x);
    FilesAlike(c, o, x, o.preview, mid);
    if FilesOK(c, x, mid) { FilesPermute(c, x, mid, x.preview); }
    if FilesOK(c, x, x.preview) { FilesPermute(c, x, x.preview, mid); }
    assert forall id :: Satisfied(c, o, id) == Satisfied(c, x, id);
  }

  // ---------------------------------------------------------------- refusals

  lemma RejectedFileAlike(c: Config, o: Observation, x: Observation, f: Preview, g: Preview)
    requires SameFacts(o, x) && Alike(f, g)
    ensures RejectedFileOK(c, o, f) == RejectedFileOK(c, x, g)
  {
    hide Blank, SeriesAllowed, HasExecutableWarning, VerdictOK;
    SameMembers(o.rows, x.rows);
    WarningPermutes(o.rows, x.rows);
    EpisodesPermute(f, g);
  }

  lemma RejectedFilesAlike(c: Config, o: Observation, x: Observation, fs: seq<Preview>, gs: seq<Preview>)
    requires SameFacts(o, x) && AllAlike(fs, gs) && RejectedFilesOK(c, o, fs)
    ensures RejectedFilesOK(c, x, gs)
  {
    hide RejectedFileOK, SameFacts;
    forall g | g in gs ensures RejectedFileOK(c, x, g) {
      var k :| 0 <= k < |gs| && gs[k] == g;
      assert fs[k] in fs;
      RejectedFileAlike(c, o, x, fs[k], gs[k]);
    }
  }

  lemma RejectedFilesPermute(c: Config, x: Observation, fs: seq<Preview>, gs: seq<Preview>)
    requires multiset(fs) == multiset(gs) && RejectedFilesOK(c, x, fs)
    ensures RejectedFilesOK(c, x, gs)
  {
    hide RejectedFileOK;
    SameMembers(fs, gs);
    PairwisePermutes(fs, gs, OtherFile);
  }

  lemma SomeReasonAlike(fs: seq<Preview>, gs: seq<Preview>)
    requires AllAlike(fs, gs) && exists f :: f in fs && Reasons(f) != []
    ensures exists g :: g in gs && Reasons(g) != []
  {
    var f :| f in fs && Reasons(f) != [];
    var k :| 0 <= k < |fs| && fs[k] == f;
    EpisodesPermute(fs[k], gs[k]);
    assert gs[k] in gs;
  }

  lemma RowsOKPermutes(c: Config, o: Observation, mid: seq<Preview>, x: Observation)
    requires Rearranged(o, mid, x)
    ensures RowsOK(c, o) == RowsOK(c, x)
  {
    hide Alike, SeriesAllowed, ClientAllowed, RowEligible;
    SameMembers(o.rows, x.rows);
    SameMembers(mid, x.preview);
    WarningPermutes(o.rows, x.rows);
    assert forall q :: RowOK(c, o, q) == RowOK(c, x, q);
  }

  lemma RefusedOneWay(c: Config, o: Observation, mid: seq<Preview>, x: Observation)
    requires Rearranged(o, mid, x) && Refused(c, o)
    ensures Refused(c, x)
  {
    hide RowsOK, RejectedFilesOK, AllAlike, HasExecutableWarning;
    RowsOKPermutes(c, o, mid, x);
    RejectedFilesAlike(c, o, x, o.preview, mid);
    RejectedFilesPermute(c, x, mid, x.preview);
    WarningPermutes(o.rows, x.rows);
    SameMembers(mid, x.preview);
    if exists f :: f in o.preview && Reasons(f) != [] {
      SomeReasonAlike(o.preview, mid);
    }
  }

  lemma MiddleWitness(fs: seq<Preview>, gs: seq<Preview>, mid: seq<Preview>) returns (back: seq<Preview>)
    requires AllAlike(fs, mid) && multiset(mid) == multiset(gs)
    ensures AllAlike(gs, back) && multiset(back) == multiset(fs)
    decreases |gs|
  {
    hide Alike;
    SameMembers(mid, gs);
    if gs == [] {
      back := [];
    } else {
      var k := WithoutHead(gs, mid);
      var rest := MiddleWitness(fs[..k] + fs[k + 1..], gs[1..], mid[..k] + mid[k + 1..]);
      back := [fs[k]] + rest;
      RemovedAt(fs, k);
      assert multiset(back) == multiset{fs[k]} + multiset(rest);
      AlikeBack(fs[k], mid[k]);
    }
  }

  lemma AlikeBack(f: Preview, g: Preview)
    requires Alike(f, g)
    ensures Alike(g, f)
  {
  }

  /** Rearrangement is symmetric. */
  lemma RearrangedBack(o: Observation, mid: seq<Preview>, x: Observation) returns (back: seq<Preview>)
    requires Rearranged(o, mid, x)
    ensures Rearranged(x, back, o)
  {
    hide AllAlike;
    back := MiddleWitness(o.preview, x.preview, mid);
  }

  lemma RefusedPermutes(c: Config, o: Observation, mid: seq<Preview>, x: Observation)
    requires Rearranged(o, mid, x)
    ensures Refused(c, o) == Refused(c, x)
  {
    hide Refused, Rearranged;
    var back := RearrangedBack(o, mid, x);
    if Refused(c, o) { RefusedOneWay(c, o, mid, x); }
    if Refused(c, x) { RefusedOneWay(c, x, back, o); }
  }

  lemma TargetsAlike(fs: seq<Preview>, gs: seq<Preview>, f: Preview, pe: PreviewEpisode) returns (g: Preview)
    requires AllAlike(fs, gs) && f in fs && pe in f.episodes
    ensures g in gs && pe in g.episodes
  {
    var k :| 0 <= k < |fs| && fs[k] == f;
    EpisodesPermute(fs[k], gs[k]);
    g := gs[k];
  }

  lemma EpisodesWithin(o: Observation, mid: seq<Preview>, x: Observation)
    requires Rearranged(o, mid, x)
    ensures EpisodeTargets(o.rows, o.preview) <= EpisodeTargets(x.rows, x.preview)
  {
    hide Alike, AllAlike;
    SameMembers(o.rows, x.rows);
    SameMembers(mid, x.preview);
    forall e | e in EpisodeTargets(o.rows, o.preview) ensures e in EpisodeTargets(x.rows, x.preview) {
      if q :| q in o.rows && OrZero(q.episodeID) == e {
        assert q in x.rows;
      } else {
        var f, pe :| f in o.preview && pe in f.episodes && pe.id == e;
        var g := TargetsAlike(o.preview, mid, f, pe);
        assert g in x.preview;
      }
    }
  }

  /** Competition for the targets of a download is the same in every order. */
  lemma ContestedPermutes(o: Observation, mid: seq<Preview>, x: Observation)
    requires Rearranged(o, mid, x)
    ensures Contested(o) == Contested(x)
  {
    hide EpisodeTargets, AllAlike, Done;
    var back := RearrangedBack(o, mid, x);
    EpisodesWithin(o, mid, x);
    EpisodesWithin(x, back, o);
    SameMembers(o.queue, x.queue);
  }

  /** So is the decision that the service acts on, and the refusal that its waiting clock follows. */
  lemma DecisionPermutes(c: Config, o: Observation, mid: seq<Preview>, x: Observation)
    requires Rearranged(o, mid, x)
    ensures RefusalKind(c, o) == RefusalKind(c, x) && Refused(c, o) == Refused(c, x)
    ensures DecisionKind(c, o) == DecisionKind(c, x) && RefusalDecides(c, o) == RefusalDecides(c, x)
  {
    hide Refused, Contested, KindOf, AllAlike, HasExecutableWarning;
    RefusedPermutes(c, o, mid, x);
    ContestedPermutes(o, mid, x);
    KindPermutes(c, o, mid, x);
    WarningPermutes(o.rows, x.rows);
  }

  // ---------------------------------------------------------------- imports

  lemma ImportAlike(f: Preview, g: Preview)
    requires Alike(f, g) && f.series.Some? && f.languages.Some? && f.indexerFlags.Some?
    ensures g.series.Some? && g.languages.Some? && g.indexerFlags.Some? && ImportOf(f) == ImportOf(g)
  {
    var s, t := Mapped(f.episodes, EpisodeID), Mapped(g.episodes, EpisodeID);
    MappedPermutes(f.episodes, g.episodes, EpisodeID);
    AscendingUnique(Sorted(s), Sorted(t));
  }

  lemma ImportsWithout(fs: seq<Preview>, ms: seq<ImportFile>, k: nat)
    requires ImportsOf(fs, ms) && k < |fs|
    ensures ImportsOf(fs[..k] + fs[k + 1..], ms[..k] + ms[k + 1..])
  {
    hide ImportOf;
  }

  lemma {:induction false} ImportsPermute(fs: seq<Preview>, gs: seq<Preview>,
                                          ms: seq<ImportFile>) returns (ns: seq<ImportFile>)
    requires multiset(fs) == multiset(gs) && ImportsOf(fs, ms)
    ensures ImportsOf(gs, ns) && multiset(ns) == multiset(ms)
    decreases |gs|
  {
    hide ImportOf;
    SameMembers(fs, gs);
    if gs == [] {
      ns := [];
    } else {
      var k := WithoutHead(gs, fs);
      ImportsWithout(fs, ms, k);
      var rest := ImportsPermute(fs[..k] + fs[k + 1..], gs[1..], ms[..k] + ms[k + 1..]);
      ns := [ms[k]] + rest;
      RemovedAt(ms, k);
      assert multiset(ns) == multiset{ms[k]} + multiset(rest);
    }
  }

  /** So is the collection of files that an import would submit. */
  lemma ImportsPermuteThroughout(o: Observation, mid: seq<Preview>, x: Observation, ms: seq<ImportFile>,
                                 ns: seq<ImportFile>)
    requires Rearranged(o, mid, x) && ImportsOf(o.preview, ms) && ImportsOf(x.preview, ns)
    ensures multiset(ms) == multiset(ns)
  {
    hide ImportOf;
    forall k | 0 <= k < |mid|
      ensures mid[k].series.Some? && mid[k].languages.Some? && mid[k].indexerFlags.Some? && ms[k] == ImportOf(mid[k])
    {
      ImportAlike(o.preview[k], mid[k]);
    }
    var ls := ImportsPermute(mid, x.preview, ms);
    assert ls == ns;
  }
}
