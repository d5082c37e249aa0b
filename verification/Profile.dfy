/** Quality profiles: ranks, custom format scores, acceptability and the replacement comparator. */
module Profiles {
  import opened Types

  /** Name-only identities are reduced to their identifiers; an absent list differs from an empty one. */
  datatype ProfileItem = ProfileItem(id: int, quality: Option<int>, allowed: Option<bool>, items: seq<ProfileItem>)

  datatype FormatItem = FormatItem(format: int, score: Option<int>)

  datatype Profile = Profile(
    id: int, upgradeAllowed: Option<bool>, cutoff: Option<int>, cutoffScore: Option<int>, minScore: Option<int>,
    minUpgradeScore: Option<int>, items: Option<seq<ProfileItem>>, formatItems: Option<seq<FormatItem>>)

  datatype EpisodeFile = EpisodeFile(
    id: int, seriesID: int, path: string, quality: Quality, score: Option<int>, formats: Option<seq<int>>)

  datatype Rank = Rank(order: nat, allowed: bool)

  // ---------------------------------------------------------------- what a profile says

  predicate Complete(p: Profile) {
    && p.upgradeAllowed.Some? && p.cutoff.Some? && p.cutoffScore.Some? && p.minScore.Some?
    && p.minUpgradeScore.Some? && p.minUpgradeScore.value >= 0 && p.items.Some? && p.formatItems.Some?
  }

  /** A single quality is its own group. */
  function Children(item: ProfileItem): seq<ProfileItem> {
    if item.quality.Some? then [item] else item.items
  }

  predicate LeafOK(child: ProfileItem) {
    child.quality.Some? && child.quality.value >= 0 && child.allowed.Some? && child.items == []
  }

  predicate GroupOK(item: ProfileItem) {
    && item.allowed.Some? && Children(item) != [] && (item.quality.Some? ==> item.items == [])
    && forall ch :: ch in Children(item) ==> LeafOK(ch)
  }

  /** The group lists the quality. */
  predicate Lists(item: ProfileItem, q: int) {
    exists ch :: ch in Children(item) && ch.quality == Some(q)
  }

  predicate NoRepeats(children: seq<ProfileItem>) {
    forall i, j :: 0 <= i < j < |children| ==> children[i].quality != children[j].quality
  }

  predicate Apart(x: ProfileItem, y: ProfileItem) {
    forall a, b :: a in Children(x) && b in Children(y) ==> a.quality != b.quality
  }

  /** Every group is well formed and no quality is listed twice. */
  predicate GroupsOK(items: seq<ProfileItem>) {
    && (forall item :: item in items ==> GroupOK(item) && NoRepeats(Children(item)))
    && (forall i, j :: 0 <= i < j < |items| ==> Apart(items[i], items[j]))
  }

  predicate AtCutoff(item: ProfileItem, cutoff: int) {
    (item.id == cutoff && item.quality.None?) || Lists(item, cutoff)
  }

  /** The position of the last group that is, or lists, the cutoff; -1 if there is none. */
  function CutoffIn(items: seq<ProfileItem>, cutoff: int): (k: int)
    ensures -1 <= k < |items|
    ensures k >= 0 ==> AtCutoff(items[k], cutoff)
    ensures forall i :: k < i < |items| ==> !AtCutoff(items[i], cutoff)
  {
    if items == [] then -1
    else if AtCutoff(items[|items| - 1], cutoff) then |items| - 1
    else CutoffIn(items[..|items| - 1], cutoff)
  }

  function LeafOf(children: seq<ProfileItem>, q: int): (r: Option<ProfileItem>)
    ensures r.Some? ==> r.value in children && r.value.quality == Some(q)
    ensures r.None? ==> forall ch :: ch in children ==> ch.quality != Some(q)
  {
    if children == [] then None
    else if children[|children| - 1].quality == Some(q) then Some(children[|children| - 1])
    else LeafOf(children[..|children| - 1], q)
  }

  /** The rank of a quality: the position of its group, and whether both group and quality are allowed. */
  function RankIn(items: seq<ProfileItem>, q: int): (r: Option<Rank>)
    requires GroupsOK(items)
    ensures r.Some? ==> r.value.order < |items| && Lists(items[r.value.order], q)
    ensures r.None? ==> forall item :: item in items ==> !Lists(item, q)
  {
    if items == [] then None
    else
      var item := items[|items| - 1];
      assert GroupOK(item);
      var leaf := LeafOf(Children(item), q);
      if leaf.Some? then
        assert LeafOK(leaf.value);
        Some(Rank(|items| - 1, item.allowed.value && leaf.value.allowed.value))
      else RankIn(items[..|items| - 1], q)
  }

  predicate Ranked(p: Profile) {
    Complete(p) && GroupsOK(p.items.value) && CutoffIn(p.items.value, p.cutoff.value) >= 0
  }

  function RankOf(p: Profile, q: int): Option<Rank>
    requires Ranked(p)
  {
    RankIn(p.items.value, q)
  }

  function CutoffOf(p: Profile): (k: nat)
    requires Ranked(p)
  {
    CutoffIn(p.items.value, p.cutoff.value)
  }

  // ---------------------------------------------------------------- the loop over groups

  datatype Ranking = Ranking(ranks: map<int, Rank>, cutoff: nat)

  ghost predicate Knows(ranks: map<int, Rank>, items: seq<ProfileItem>)
    requires GroupsOK(items)
  {
    forall q :: (q in ranks <==> RankIn(items, q).Some?) && (q in ranks ==> Some(ranks[q]) == RankIn(items, q))
  }

  /** The leaves are well formed and repeat no quality, among themselves or of an earlier group. */
  ghost predicate NewLeaves(front: seq<ProfileItem>, leaves: seq<ProfileItem>) {
    && NoRepeats(leaves)
    && (forall ch :: ch in leaves ==> LeafOK(ch))
    && (forall x, a, b :: x in front && a in Children(x) && b in leaves ==> a.quality != b.quality)
  }

  /** The ranks of earlier groups, extended by the leaves of the group at this position. */
  ghost predicate Grows(ranks: map<int, Rank>, grown: map<int, Rank>, leaves: seq<ProfileItem>, i: nat, allowed: bool) {
    forall q ::
      var leaf := LeafOf(leaves, q);
      && (q in grown <==> q in ranks || leaf.Some?)
      && (q in grown ==> if leaf.None? then grown[q] == ranks[q]
                         else leaf.value.allowed.Some? && grown[q] == Rank(i, allowed && leaf.value.allowed.value))
  }

  lemma LeafAppend(leaves: seq<ProfileItem>, child: ProfileItem, q: int)
    ensures LeafOf(leaves + [child], q) == if child.quality == Some(q) then Some(child) else LeafOf(leaves, q)
  {
    assert (leaves + [child])[..|leaves|] == leaves;
  }

  lemma LeafRanked(ranks: map<int, Rank>, grown: map<int, Rank>, leaves: seq<ProfileItem>, child: ProfileItem, i: nat,
                   allowed: bool)
    requires Grows(ranks, grown, leaves, i, allowed) && LeafOK(child) && child.quality.value !in grown
    ensures Grows(ranks, grown[child.quality.value := Rank(i, allowed && child.allowed.value)], leaves + [child], i,
                  allowed)
  {
    hide LeafOf;
    forall q ensures LeafOf(leaves + [child], q) == if child.quality == Some(q) then Some(child) else LeafOf(leaves, q) {
      LeafAppend(leaves, child, q);
    }
  }

  lemma LeafAdded(items: seq<ProfileItem>, i: nat, ranks: map<int, Rank>, grown: map<int, Rank>,
                  leaves: seq<ProfileItem>, child: ProfileItem, allowed: bool)
    requires i < |items| && GroupsOK(items[..i]) && Knows(ranks, items[..i])
    requires NewLeaves(items[..i], leaves) && Grows(ranks, grown, leaves, i, allowed)
    requires LeafOK(child) && child.quality.value !in grown
    ensures NewLeaves(items[..i], leaves + [child])
    ensures Grows(ranks, grown[child.quality.value := Rank(i, allowed && child.allowed.value)], leaves + [child], i,
                  allowed)
  {
    hide GroupsOK, Knows;
    LeafRanked(ranks, grown, leaves, child, i, allowed);
    assert LeafOf(leaves, child.quality.value).None? && child.quality.value !in ranks;
    Unlisted(items, i, ranks, child.quality.value);
  }

  lemma RankAppend(items: seq<ProfileItem>, item: ProfileItem, q: int)
    requires GroupsOK(items) && GroupsOK(items + [item])
    ensures var leaf := LeafOf(Children(item), q);
            item.allowed.Some? && (leaf.Some? ==> leaf.value.allowed.Some?)
            && RankIn(items + [item], q) == if leaf.Some? then Some(Rank(|items|, item.allowed.value && leaf.value.allowed.value)) else RankIn(items, q)
  {
    assert (items + [item])[..|items|] == items && item in items + [item];
    assert GroupOK(item);
    var leaf := LeafOf(Children(item), q);
    assert leaf.Some? ==> LeafOK(leaf.value);
  }

  lemma GroupRanked(items: seq<ProfileItem>, item: ProfileItem, ranks: map<int, Rank>, grown: map<int, Rank>)
    requires GroupsOK(items) && GroupsOK(items + [item]) && Knows(ranks, items) && item.allowed.Some?
    requires Grows(ranks, grown, Children(item), |items|, item.allowed.value)
    ensures Knows(grown, items + [item])
  {
    hide LeafOf, RankIn, GroupsOK;
    forall q ensures (q in grown <==> RankIn(items + [item], q).Some?) && (q in grown ==> Some(grown[q]) == RankIn(items + [item], q)) {
      RankAppend(items, item, q);
    }
  }

  lemma GroupKnown(items: seq<ProfileItem>, i: nat, ranks: map<int, Rank>, grown: map<int, Rank>, cutoff: int)
    requires i < |items| && GroupsOK(items[..i]) && Knows(ranks, items[..i])
    requires items[i].allowed.Some? && Children(items[i]) != [] && (items[i].quality.Some? ==> items[i].items == [])
    requires NewLeaves(items[..i], Children(items[i]))
        && Grows(ranks, grown, Children(items[i]), i, items[i].allowed.value)
    ensures GroupsOK(items[..i + 1]) && Knows(grown, items[..i + 1])
    ensures CutoffIn(items[..i + 1], cutoff)
         == if (items[i].id == cutoff && items[i].quality.None?) || LeafOf(Children(items[i]), cutoff).Some? then i else CutoffIn(items[..i], cutoff)
  {
    hide Grows, Knows, GroupsOK, RankIn;
    GroupAdded(items, i);
    assert items[..i + 1][..i] == items[..i] && items[..i + 1] == items[..i] + [items[i]];
    GroupRanked(items[..i], items[i], ranks, grown);
  }

  lemma GroupBroken(items: seq<ProfileItem>, i: nat)
    requires i < |items| && (!GroupOK(items[i]) || !NoRepeats(Children(items[i])))
    ensures !GroupsOK(items[..i + 1])
  {
    assert items[..i + 1][i] in items[..i + 1];
  }

  /** The children of one group, added to the ranks of the groups before it. */
  method RankGroup(items: seq<ProfileItem>, i: nat, ranks: map<int, Rank>, cutoff: int,
                   at: int) returns (r: Option<map<int, Rank>>, k: int)
    requires i < |items| && GroupsOK(items[..i]) && Knows(ranks, items[..i]) && at == CutoffIn(items[..i], cutoff)
    ensures r.Some? <==> GroupsOK(items[..i + 1])
    ensures r.Some? ==> Knows(r.value, items[..i + 1]) && k == CutoffIn(items[..i + 1], cutoff)
  {
    hide GroupsOK, Knows, NewLeaves, Grows, CutoffIn;
    var item := items[i];
    r, k := None, at;
    if item.allowed.None? { GroupBroken(items, i); return; }
    var children := item.items;
    if item.quality.Some? {
      if children != [] { GroupBroken(items, i); return; }
      children := [item];
    }
    if children == [] { GroupBroken(items, i); return; }
    if item.id == cutoff && item.quality.None? {
      k := i;
    }
    var grown := ranks;
    NoLeaves(items[..i], ranks, i, item.allowed.value);
    for j := 0 to |children|
      invariant NewLeaves(items[..i], children[..j]) && Grows(ranks, grown, children[..j], i, item.allowed.value)
      invariant k == (if (item.id == cutoff && item.quality.None?) || LeafOf(children[..j], cutoff).Some? then i else at)
    {
      var child := children[j];
      assert children[..j] + [child] == children[..j + 1] && children[..j + 1][..j] == children[..j];
      if child.quality.None? || child.allowed.None? || child.items != [] {
        assert child in Children(item) && !LeafOK(child);
        GroupBroken(items, i);
        return;
      }
      var id := child.quality.value;
      if id in grown || id < 0 {
        assert child in Children(item);
        if id < 0 { GroupBroken(items, i); } else { Repeated(items, i, ranks, grown, j, id); }
        return;
      }
      LeafAdded(items, i, ranks, grown, children[..j], child, item.allowed.value);
      grown := grown[id := Rank(i, item.allowed.value && child.allowed.value)];
      if id == cutoff {
        k := i;
      }
    }
    assert children[..|children|] == children;
    GroupKnown(items, i, ranks, grown, cutoff);
    r := Some(grown);
  }

  lemma NoLeaves(front: seq<ProfileItem>, ranks: map<int, Rank>, i: nat, allowed: bool)
    ensures NewLeaves(front, []) && Grows(ranks, ranks, [], i, allowed)
  {
  }

  /** A quality met again breaks the profile, whether in this group or in one before it. */
  lemma Repeated(items: seq<ProfileItem>, i: nat, ranks: map<int, Rank>, grown: map<int, Rank>, j: nat, id: int)
    requires i < |items| && GroupsOK(items[..i]) && Knows(ranks, items[..i]) && items[i].allowed.Some?
    requires j < |Children(items[i])| && Children(items[i])[j].quality == Some(id)
    requires Grows(ranks, grown, Children(items[i])[..j], i, items[i].allowed.value) && id in grown
    ensures !GroupsOK(items[..i + 1])
  {
    var children, all := Children(items[i]), items[..i + 1];
    assert all[i] in all;
    if LeafOf(children[..j], id).Some? {
      var k :| 0 <= k < j && children[k].quality == Some(id);
      assert !NoRepeats(children);
    } else {
      var order := RankIn(items[..i], id).value.order;
      assert Lists(items[..i][order], id);
      var ch :| ch in Children(items[order]) && ch.quality == Some(id);
      assert children[j] in children;
      assert !Apart(all[order], all[i]);
    }
  }

  /** A quality without a rank is in no earlier group. */
  lemma Unlisted(items: seq<ProfileItem>, i: nat, ranks: map<int, Rank>, id: int)
    requires i < |items| && GroupsOK(items[..i]) && Knows(ranks, items[..i]) && id !in ranks
    ensures forall x, b :: x in items[..i] && b in Children(x) ==> b.quality != Some(id)
  {
    assert forall x :: x in items[..i] ==> !Lists(x, id);
  }

  lemma GroupAdded(items: seq<ProfileItem>, i: nat)
    requires i < |items| && GroupsOK(items[..i]) && GroupOK(items[i]) && NoRepeats(Children(items[i]))
    requires forall x, a, b :: x in items[..i] && a in Children(x) && b in Children(items[i]) ==> a.quality != b.quality
    ensures GroupsOK(items[..i + 1])
  {
    hide GroupOK, NoRepeats, Children;
    var all := items[..i + 1];
    assert all == items[..i] + [items[i]];
    forall k, l | 0 <= k < l < |all| ensures Apart(all[k], all[l]) {
      if l < i {
        assert Apart(items[..i][k], items[..i][l]);
      } else {
        assert all[k] in items[..i];
      }
    }
  }

  /** The loop over groups: an answer exactly for well-formed profiles, and then the ranks and the cutoff. */
  method ProfileRanks(p: Profile) returns (r: Option<Ranking>)
    ensures r.Some? <==> Ranked(p)
    ensures r.Some? ==> Knows(r.value.ranks, p.items.value) && r.value.cutoff == CutoffOf(p)
  {
    if !Complete(p) { return None; }
    var items := p.items.value;
    var ranks: map<int, Rank> := map[];
    var cutoff := -1;
    for i := 0 to |items|
      invariant GroupsOK(items[..i]) && Knows(ranks, items[..i]) && cutoff == CutoffIn(items[..i], p.cutoff.value)
    {
      var grown, k := RankGroup(items, i, ranks, p.cutoff.value, cutoff);
      if grown.None? {
        PrefixGroups(items, i + 1);
        return None;
      }
      ranks, cutoff := grown.value, k;
    }
    assert items[..|items|] == items;
    if cutoff < 0 { return None; }
    r := Some(Ranking(ranks, cutoff));
  }

  lemma PrefixGroups(items: seq<ProfileItem>, n: nat)
    requires n <= |items| && !GroupsOK(items[..n])
    ensures !GroupsOK(items)
  {
    if GroupsOK(items) {
      var front := items[..n];
      forall k, l | 0 <= k < l < |front| ensures Apart(front[k], front[l]) {
        assert Apart(items[k], items[l]);
      }
    }
  }

  // ---------------------------------------------------------------- custom format scores

  function Weights(p: Profile): seq<FormatItem> {
    if p.formatItems.Some? then p.formatItems.value else []
  }

  predicate WeightsOK(fs: seq<FormatItem>) {
    && (forall f :: f in fs ==> f.format > 0 && f.score.Some?)
    && (forall i, j :: 0 <= i < j < |fs| ==> fs[i].format != fs[j].format)
  }

  predicate HasWeight(fs: seq<FormatItem>, format: int) {
    exists f :: f in fs && f.format == format
  }

  function WeightOf(fs: seq<FormatItem>, format: int): (w: int)
    requires WeightsOK(fs)
    ensures forall f :: f in fs && f.format == format ==> f.score == Some(w)
  {
    if fs == [] then 0
    else if fs[|fs| - 1].format == format then assert fs[|fs| - 1] in fs; fs[|fs| - 1].score.value
    else WeightOf(fs[..|fs| - 1], format)
  }

  function Total(fs: seq<FormatItem>, formats: seq<int>): int
    requires WeightsOK(fs)
  {
    if formats == [] then 0
    else Total(fs, formats[..|formats| - 1]) + WeightOf(fs, formats[|formats| - 1])
  }

  /** The formats are known and distinct, and their weights add up to the reported score. */
  predicate ScoreOK(p: Profile, formats: Option<seq<int>>, reported: Option<int>) {
    && WeightsOK(Weights(p)) && formats.Some? && reported.Some?
    && (forall f :: f in formats.value ==> HasWeight(Weights(p), f))
    && (forall i, j :: 0 <= i < j < |formats.value| ==> formats.value[i] != formats.value[j])
    && Total(Weights(p), formats.value) == reported.value
  }

  /** The loops over weights and formats: an answer exactly for a reported score that the profile confirms. */
  method Score(p: Profile, formats: Option<seq<int>>, reported: Option<int>) returns (r: Option<int>)
    ensures r == if ScoreOK(p, formats, reported) then reported else None
  {
    if reported.None? || formats.None? { return None; }
    var fs, ids := Weights(p), formats.value;
    var weights: map<int, int> := map[];
    for i := 0 to |fs|
      invariant WeightsOK(fs[..i])
      invariant forall f :: f in weights <==> HasWeight(fs[..i], f)
      invariant forall f :: f in weights ==> weights[f] == WeightOf(fs[..i], f)
    {
      assert fs[..i + 1] == fs[..i] + [fs[i]] && fs[..i + 1][..i] == fs[..i] && fs[i] in fs;
      if fs[i].format <= 0 || fs[i].score.None? { return None; }
      if fs[i].format in weights { return None; }
      weights := weights[fs[i].format := fs[i].score.value];
    }
    assert fs[..|fs|] == fs;
    r := Sum(fs, weights, ids);
    if r.Some? && r.value != reported.value { return None; }
  }

  /** The sum of the weights of the formats, if each has one and none is repeated. */
  method Sum(fs: seq<FormatItem>, weights: map<int, int>, ids: seq<int>) returns (r: Option<int>)
    requires WeightsOK(fs) && (forall f :: f in weights <==> HasWeight(fs, f)) && (forall f :: f in weights ==> weights[f] == WeightOf(fs, f))
    ensures r == if (forall f :: f in ids ==> HasWeight(fs, f)) && (forall i, j :: 0 <= i < j < |ids| ==> ids[i] != ids[j])
                 then Some(Total(fs, ids)) else None
  {
    hide HasWeight, WeightOf, WeightsOK;
    var sum := 0;
    var seen: set<int> := {};
    for i := 0 to |ids|
      invariant sum == Total(fs, ids[..i])
      invariant seen == set k | 0 <= k < i :: ids[k]
      invariant forall k, l :: 0 <= k < l < i ==> ids[k] != ids[l]
      invariant forall k :: 0 <= k < i ==> HasWeight(fs, ids[k])
    {
      assert ids[..i + 1][..i] == ids[..i] && ids[i] in ids;
      if ids[i] !in weights || ids[i] in seen { return None; }
      seen := seen + {ids[i]};
      sum := sum + weights[ids[i]];
    }
    assert ids[..|ids|] == ids;
    r := Some(sum);
  }

  // ---------------------------------------------------------------- files

  predicate ValidQuality(q: Quality) {
    && q.quality.Some? && q.quality.value > 0 && q.revision.Some?
    && q.revision.value.version.Some? && q.revision.value.version.value >= 1
    && q.revision.value.real_.Some? && q.revision.value.real_.value >= 0 && q.revision.value.isRepack.Some?
  }

  function RevisionCompare(a: Quality, b: Quality): int
    requires ValidQuality(a) && ValidQuality(b)
  {
    var ra, rb := a.revision.value, b.revision.value;
    if ra.real_.value > rb.real_.value then 1
    else if ra.real_.value < rb.real_.value then -1
    else if ra.version.value > rb.version.value then 1
    else if ra.version.value < rb.version.value then -1
    else 0
  }

  /** Whether a current file meets its profile; nothing if that cannot be known. */
  function CurrentAcceptable(f: EpisodeFile, p: Profile): Option<bool> {
    if !Ranked(p) || !ValidQuality(f.quality) || f.path == "" then None
    else
      var r := RankOf(p, f.quality.quality.value);
      if r.None? || !ScoreOK(p, f.formats, f.score) then None
      else Some(r.value.allowed && f.score.value >= p.minScore.value)
  }

  predicate Acceptable(f: EpisodeFile, p: Profile) {
    CurrentAcceptable(f, p) == Some(true)
  }

  // ---------------------------------------------------------------- the comparator

  predicate KnownPropers(propers: string) {
    propers == "preferAndUpgrade" || propers == "doNotUpgrade" || propers == "doNotPrefer"
  }

  datatype Why =
    | Unknown | InferiorQuality | InferiorRevision | InferiorScore | Equal
    | NotAllowed | UpgradesDisabled | BetterQuality | CutoffMet | BetterRevision | BetterScore | ProperPolicy | ScoreUnmet

  datatype Comparison = Comparison(order: int, upgrade: bool, why: Why)

  /** Quality groups first, then the revision or format branch that applies. */
  function Compare(q: Quality, formats: Option<seq<int>>, reported: Option<int>, current: EpisodeFile, p: Profile,
                   propers: string): Comparison {
    if !Ranked(p) || !ValidQuality(q) || !ValidQuality(current.quality) || !KnownPropers(propers) then Comparison(0, false, Unknown)
    else
      var n, o := RankOf(p, q.quality.value), RankOf(p, current.quality.quality.value);
      if n.None? || o.None? || !ScoreOK(p, formats, reported) || !ScoreOK(p, current.formats, current.score) then Comparison(0, false, Unknown)
      else
        var ns, os, revision := reported.value, current.score.value, RevisionCompare(q, current.quality);
        var new_, was := n.value.order, o.value.order;
        if new_ < was then Comparison(-1, false, InferiorQuality)
        else if new_ == was && propers != "doNotPrefer" && revision < 0 then Comparison(-1, false, InferiorRevision)
        else if new_ == was && ns < os then Comparison(-1, false, InferiorScore)
        else if new_ == was && ns == os && (propers == "doNotPrefer" || revision == 0) then Comparison(0, false, Equal)
        else if !n.value.allowed || ns < p.minScore.value then Comparison(1, false, NotAllowed)
        else if !p.upgradeAllowed.value then Comparison(1, false, UpgradesDisabled)
        else if new_ > was then
          if was < CutoffOf(p) then Comparison(1, true, BetterQuality) else Comparison(1, false, CutoffMet)
        else if revision > 0 && q.quality.value == current.quality.quality.value && propers == "preferAndUpgrade" then Comparison(1, true, BetterRevision)
        else if ns > os && os < p.cutoffScore.value && ns - os >= p.minUpgradeScore.value then Comparison(1, true, BetterScore)
        else if revision > 0 && propers != "doNotPrefer" then Comparison(1, false, ProperPolicy)
        else Comparison(1, false, ScoreUnmet)
  }

  /** The candidate replaces the file. */
  predicate Replaces(new_: EpisodeFile, current: EpisodeFile, p: Profile, propers: string) {
    Compare(new_.quality, new_.formats, new_.score, current, p, propers).upgrade
  }

  /** Everything the comparator looks at in a file. */
  predicate Gradable(f: EpisodeFile, p: Profile) {
    Ranked(p) && ValidQuality(f.quality) && RankOf(p, f.quality.quality.value).Some? && ScoreOK(p, f.formats, f.score)
  }

  datatype Grade = Grade(order: int, score: int, real_: int, version: int)

  function GradeOf(f: EpisodeFile, p: Profile): Grade
    requires Gradable(f, p)
  {
    Grade(RankOf(p, f.quality.quality.value).value.order, f.score.value,
          f.quality.revision.value.real_.value, f.quality.revision.value.version.value)
  }

  predicate Above(a: Grade, b: Grade) {
    || a.order > b.order
    || (a.order == b.order && a.score > b.score)
    || (a.order == b.order && a.score == b.score && a.real_ > b.real_)
    || (a.order == b.order && a.score == b.score && a.real_ == b.real_ && a.version > b.version)
  }

  /** Whatever replaces a file is above it in one fixed order. */
  lemma ReplacementRises(new_: EpisodeFile, current: EpisodeFile, p: Profile, propers: string)
    requires Replaces(new_, current, p, propers)
    ensures Gradable(new_, p) && Gradable(current, p) && Above(GradeOf(new_, p), GradeOf(current, p))
  {
  }

  /** Each file of the chain replaces the one before it. */
  predicate Chain(files: seq<EpisodeFile>, p: Profile, propers: string) {
    forall i :: 0 <= i < |files| - 1 ==> Replaces(files[i + 1], files[i], p, propers)
  }

  /** No chain of replacements under one profile ever returns to a file, or to one graded like it. */
  lemma {:induction false} NoReplacementCycle(files: seq<EpisodeFile>, p: Profile, propers: string, i: nat, j: nat)
    requires Chain(files, p, propers) && i < j < |files|
    ensures Gradable(files[i], p) && Gradable(files[j], p) && Above(GradeOf(files[j], p), GradeOf(files[i], p))
    ensures files[i] != files[j]
  {
    hide Replaces, Gradable, GradeOf;
    assert Replaces(files[j - 1 + 1], files[j - 1], p, propers);
    ReplacementRises(files[j], files[j - 1], p, propers);
    if i < j - 1 {
      NoReplacementCycle(files, p, propers, i, j - 1);
    }
  }

  function Max(a: int, b: int): int { if a > b then a else b }

  /** How many replacements the cutoffs can still allow. */
  function Headroom(f: EpisodeFile, p: Profile): (n: nat)
    requires Gradable(f, p)
  {
    var span := Max(0, p.cutoffScore.value - p.minScore.value);
    var g := GradeOf(f, p);
    Product(Max(0, CutoffOf(p) - g.order), span + 1) + Max(0, p.cutoffScore.value - g.score)
  }

  function Product(a: nat, b: nat): (n: nat) {
    if a == 0 then 0 else Product(a - 1, b) + b
  }

  lemma {:induction false} ProductGrows(a: nat, b: nat, n: nat)
    requires a < b
    ensures Product(a, n) + n <= Product(b, n)
  {
    if a + 1 < b {
      ProductGrows(a, b - 1, n);
    }
  }

  /** Unless propers are both preferred and upgraded, a replacement leaves a group below the cutoff, or raises
      a score that is below its cutoff. */
  lemma ReplacementBelowCutoff(new_: EpisodeFile, current: EpisodeFile, p: Profile, propers: string)
    requires Replaces(new_, current, p, propers) && propers != "preferAndUpgrade"
    ensures Gradable(new_, p) && Gradable(current, p)
    ensures GradeOf(new_, p).score >= p.minScore.value
    ensures var n, o := GradeOf(new_, p), GradeOf(current, p);
            || (n.order > o.order && o.order < CutoffOf(p))
            || (n.order == o.order && n.score > o.score && o.score < p.cutoffScore.value)
  {
  }

  /** Such a replacement uses up some of the room below the cutoffs. */
  lemma ReplacementUsesHeadroom(new_: EpisodeFile, current: EpisodeFile, p: Profile, propers: string)
    requires Replaces(new_, current, p, propers) && propers != "preferAndUpgrade"
    ensures Gradable(new_, p) && Gradable(current, p) && Headroom(new_, p) < Headroom(current, p)
  {
    hide Compare, GradeOf, RankOf, CutoffOf, ScoreOK;
    ReplacementBelowCutoff(new_, current, p, propers);
    var span := Max(0, p.cutoffScore.value - p.minScore.value);
    var n, o := GradeOf(new_, p).order, GradeOf(current, p).order;
    if n > o {
      ProductGrows(Max(0, CutoffOf(p) - n), Max(0, CutoffOf(p) - o), span + 1);
    }
  }

  /** So such chains end: they are never longer than the room their first file leaves. */
  lemma {:induction false} ChainsEnd(files: seq<EpisodeFile>, p: Profile, propers: string)
    requires Chain(files, p, propers) && |files| > 1 && propers != "preferAndUpgrade"
    ensures Gradable(files[0], p) && |files| - 1 <= Headroom(files[0], p)
    decreases |files|
  {
    ReplacementUsesHeadroom(files[1], files[0], p, propers);
    if |files| > 2 {
      forall i | 0 <= i < |files[1..]| - 1 ensures Replaces(files[1..][i + 1], files[1..][i], p, propers) {
        assert Replaces(files[i + 1 + 1], files[i + 1], p, propers);
      }
      ChainsEnd(files[1..], p, propers);
    }
  }

  function Proper(f: EpisodeFile): EpisodeFile
    requires ValidQuality(f.quality)
  {
    var r := f.quality.revision.value;
    f.(quality := f.quality.(revision := Some(r.(version := Some(r.version.value + 1)))))
  }

  /** When propers are preferred and upgraded there is no such end: an acceptable file can always be replaced
      by its next revision. */
  lemma PropersNeverEnd(f: EpisodeFile, p: Profile)
    requires Acceptable(f, p) && p.upgradeAllowed == Some(true)
    ensures Acceptable(Proper(f), p) && Replaces(Proper(f), f, p, "preferAndUpgrade")
  {
    hide Ranked, RankOf, CutoffOf, ScoreOK;
  }

  // ---------------------------------------------------------------- what the comparison means

  /** A rank is the position of the one group that lists the quality, allowed only as group and as quality. */
  lemma RankIff(p: Profile, q: int)
    requires Ranked(p)
    ensures RankOf(p, q).Some? <==> exists item, ch :: item in p.items.value && ch in Children(item) && ch.quality == Some(q)
    ensures forall k, ch :: 0 <= k < |p.items.value| && ch in Children(p.items.value[k]) && ch.quality == Some(q) ==>
              RankOf(p, q) == Some(Rank(k, p.items.value[k].allowed == Some(true) && ch.allowed == Some(true)))
  {
    hide CutoffIn;
    forall k, ch | 0 <= k < |p.items.value| && ch in Children(p.items.value[k]) && ch.quality == Some(q)
      ensures RankOf(p, q) == Some(Rank(k, p.items.value[k].allowed == Some(true) && ch.allowed == Some(true)))
    {
      RankAt(p.items.value, k, ch, q);
    }
    if RankOf(p, q).Some? {
      var item := p.items.value[RankOf(p, q).value.order];
      assert Lists(item, q);
    }
  }

  lemma {:induction false} RankAt(items: seq<ProfileItem>, k: nat, ch: ProfileItem, q: int)
    requires GroupsOK(items) && k < |items| && ch in Children(items[k]) && ch.quality == Some(q)
    ensures RankIn(items, q) == Some(Rank(k, items[k].allowed == Some(true) && ch.allowed == Some(true)))
  {
    hide LeafOf, GroupsOK, Children, RankIn;
    var n := |items| - 1;
    var front := items[..n];
    assert items == front + [items[n]];
    GroupsFront(items);
    RankAppend(front, items[n], q);
    if k < n {
      NotListed(items, k, ch, q);
      RankAt(front, k, ch, q);
    } else {
      GroupLeaf(items, ch);
      LeafAlone(Children(items[n]), ch, q);
    }
  }

  lemma GroupsFront(items: seq<ProfileItem>)
    requires GroupsOK(items) && items != []
    ensures GroupsOK(items[..|items| - 1])
  {
    hide GroupOK, NoRepeats;
    var front := items[..|items| - 1];
    forall i, j | 0 <= i < j < |front| ensures Apart(front[i], front[j]) {
      assert Apart(items[i], items[j]);
    }
  }

  /** A quality of one group is in no later one. */
  lemma NotListed(items: seq<ProfileItem>, k: nat, ch: ProfileItem, q: int)
    requires GroupsOK(items) && k < |items| - 1 && ch in Children(items[k]) && ch.quality == Some(q)
    ensures LeafOf(Children(items[|items| - 1]), q).None?
  {
    hide GroupOK, NoRepeats;
    assert Apart(items[k], items[|items| - 1]);
  }

  lemma GroupLeaf(items: seq<ProfileItem>, ch: ProfileItem)
    requires GroupsOK(items) && items != [] && ch in Children(items[|items| - 1])
    ensures NoRepeats(Children(items[|items| - 1])) && items[|items| - 1].allowed.Some? && LeafOK(ch)
  {
    hide NoRepeats;
    assert items[|items| - 1] in items;
  }

  lemma LeafAlone(children: seq<ProfileItem>, ch: ProfileItem, q: int)
    requires NoRepeats(children) && ch in children && ch.quality == Some(q)
    ensures LeafOf(children, q) == Some(ch)
  {
    var leaf := LeafOf(children, q).value;
    var i :| 0 <= i < |children| && children[i] == leaf;
    var j :| 0 <= j < |children| && children[j] == ch;
  }

  /** Revisions in the order in which they count. */
  predicate LowerRevision(a: Grade, b: Grade) {
    a.real_ < b.real_ || (a.real_ == b.real_ && a.version < b.version)
  }

  /** The first file is worse in one thing that counts: its group, or in the same group its score or revision. */
  predicate Worse(f: EpisodeFile, g: EpisodeFile, p: Profile, propers: string)
    requires Gradable(f, p) && Gradable(g, p)
  {
    var a, b := GradeOf(f, p), GradeOf(g, p);
    || a.order < b.order
    || (a.order == b.order && (a.score < b.score || (propers != "doNotPrefer" && LowerRevision(a, b))))
  }

  /** The two files are equal in everything that counts. */
  predicate AsGood(f: EpisodeFile, g: EpisodeFile, p: Profile, propers: string)
    requires Gradable(f, p) && Gradable(g, p)
  {
    var a, b := GradeOf(f, p), GradeOf(g, p);
    a.order == b.order && a.score == b.score && (propers == "doNotPrefer" || (a.real_ == b.real_ && a.version == b.version))
  }

  /** The profile allows the quality of the file, and its score is enough. */
  predicate Permitted(f: EpisodeFile, p: Profile)
    requires Gradable(f, p)
  {
    RankOf(p, f.quality.quality.value).value.allowed && f.score.value >= p.minScore.value
  }

  lemma AcceptableIff(f: EpisodeFile, p: Profile)
    ensures Acceptable(f, p) <==> f.path != "" && Gradable(f, p) && Permitted(f, p)
  {
  }

  /** The comparison knows an order exactly of gradable files, and its sign is what their grades say. */
  lemma OrderMeans(f: EpisodeFile, g: EpisodeFile, p: Profile, propers: string)
    ensures var v := Compare(f.quality, f.formats, f.score, g, p, propers);
            && (v.why == Unknown <==> !(KnownPropers(propers) && Gradable(f, p) && Gradable(g, p)))
            && (v.order < 0 <==> v.why != Unknown && Worse(f, g, p, propers))
            && (v.why == Equal <==> v.why != Unknown && AsGood(f, g, p, propers))
  {
    hide ScoreOK, RankIn, GroupsOK, CutoffOf;
  }

  /** The file is allowed to replace the other: it is permitted and neither worse nor as good, and it leaves a group
      below the cutoff, is a later revision of the same quality where propers upgrade, or raises a score below its
      cutoff by at least the required step. */
  predicate Betters(f: EpisodeFile, g: EpisodeFile, p: Profile, propers: string) {
    && KnownPropers(propers) && Gradable(f, p) && Gradable(g, p) && Permitted(f, p) && p.upgradeAllowed == Some(true)
    && !Worse(f, g, p, propers)
    && var a, b := GradeOf(f, p), GradeOf(g, p);
       || (a.order > b.order && b.order < CutoffOf(p))
       || (a.order == b.order && propers == "preferAndUpgrade" && f.quality.quality == g.quality.quality && LowerRevision(b, a))
       || (a.order == b.order && a.score > b.score && b.score < p.cutoffScore.value && a.score - b.score >= p.minUpgradeScore.value)
  }

  lemma ReplacesIff(f: EpisodeFile, g: EpisodeFile, p: Profile, propers: string)
    ensures Replaces(f, g, p, propers) <==> Betters(f, g, p, propers)
  {
    hide ScoreOK, RankIn, GroupsOK, CutoffIn;
  }

  /** The weights that a file collects, counted along the profile. */
  function Collected(fs: seq<FormatItem>, formats: seq<int>): int {
    if fs == [] then 0
    else
      var f := fs[|fs| - 1];
      Collected(fs[..|fs| - 1], formats) + (if f.format in formats && f.score.Some? then f.score.value else 0)
  }

  /** A total is the sum of exactly those weights of the profile whose formats the file has. */
  lemma {:induction false} TotalCollects(fs: seq<FormatItem>, formats: seq<int>)
    requires WeightsOK(fs) && (forall f :: f in formats ==> HasWeight(fs, f))
    requires forall i, j :: 0 <= i < j < |formats| ==> formats[i] != formats[j]
    ensures Total(fs, formats) == Collected(fs, formats)
  {
    hide WeightOf;
    if formats == [] {
      NothingCollected(fs);
    } else {
      var n := |formats| - 1;
      assert formats == formats[..n] + [formats[n]];
      TotalCollects(fs, formats[..n]);
      OneCollected(fs, formats[..n], formats[n]);
    }
  }

  lemma {:induction false} NothingCollected(fs: seq<FormatItem>)
    ensures Collected(fs, []) == 0
  {
    if fs != [] {
      NothingCollected(fs[..|fs| - 1]);
    }
  }

  lemma {:induction false} OneCollected(fs: seq<FormatItem>, formats: seq<int>, x: int)
    requires WeightsOK(fs) && x !in formats
    ensures Collected(fs, formats + [x]) == Collected(fs, formats) + (if HasWeight(fs, x) then WeightOf(fs, x) else 0)
  {
    if fs != [] {
      var n := |fs| - 1;
      assert fs == fs[..n] + [fs[n]] && fs[n] in fs;
      OneCollected(fs[..n], formats, x);
      if fs[n].format == x {
        assert !HasWeight(fs[..n], x);
      } else {
        assert HasWeight(fs, x) <==> HasWeight(fs[..n], x);
      }
    }
  }

  /** The comparison alone is not an order: a higher score with a lower revision is inferior both ways. */
  lemma InferiorBothWays(a: EpisodeFile, b: EpisodeFile, p: Profile, propers: string)
    requires Gradable(a, p) && Gradable(b, p) && KnownPropers(propers)
    ensures Compare(a.quality, a.formats, a.score, b, p, propers).order == -1
            && Compare(b.quality, b.formats, b.score, a, p, propers).order == -1
       <==> GradeOf(a, p).order == GradeOf(b, p).order && propers != "doNotPrefer"
            && ((RevisionCompare(a.quality, b.quality) < 0 && a.score.value > b.score.value)
                || (RevisionCompare(a.quality, b.quality) > 0 && a.score.value < b.score.value))
  {
    hide Compare, RevisionCompare, Ranked, RankOf, ScoreOK;
    Inferior(a, b, p, propers);
    Inferior(b, a, p, propers);
    RevisionsOpposed(a.quality, b.quality);
  }

  /** When a file is inferior to another: by group, by revision if revisions count, or by score. */
  lemma Inferior(a: EpisodeFile, b: EpisodeFile, p: Profile, propers: string)
    requires Gradable(a, p) && Gradable(b, p) && KnownPropers(propers)
    ensures Compare(a.quality, a.formats, a.score, b, p, propers).order == -1 <==>
              || GradeOf(a, p).order < GradeOf(b, p).order
              || (GradeOf(a, p).order == GradeOf(b, p).order
                  && ((propers != "doNotPrefer" && RevisionCompare(a.quality, b.quality) < 0)
                      || a.score.value < b.score.value))
  {
    hide RevisionCompare, Ranked, RankOf, ScoreOK, CutoffOf;
  }

  lemma RevisionsOpposed(a: Quality, b: Quality)
    requires ValidQuality(a) && ValidQuality(b)
    ensures RevisionCompare(a, b) == -RevisionCompare(b, a)
  {
  }
}
