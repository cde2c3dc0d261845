/**
 The artist-relations pass (backend/internal/services/mbrels/mbrels.go): for each
 seed the strongest relations are kept per target, the best targets are acted on,
 and for each of them the most recent releases become candidates.
 */
module MbRels {
  import opened Basics
  import opened Sorting
  import opened ReleaseDates
  import opened Candidates

  const MAX_RELATED_PER_SEED: nat := 4
  const RELEASES_PER_RELATED: nat := 2
  const WINDOW_DAYS: int := 180
  const RECENCY_WINDOW: Time := WINDOW_DAYS * DAY
  const MIN_RECENCY: real := 0.3

  datatype Relation = Relation(kind: string, target: string, targetName: string)

  function Strength(kind: string): real {
    if kind == "member of band" || kind == "has member" then 1.0
    else if kind == "collaboration" || kind == "collaborator" then 0.9
    else if kind == "supporting musician" then 0.7
    else if kind == "performer" || kind == "vocal" || kind == "instrument" then 0.5
    else 0.3
  }

  // ── which targets ──

  /** Relation p is the first among the strongest to its target. */
  ghost predicate StrongestAt(rels: seq<Relation>, p: int) {
    && 0 <= p < |rels|
    && (forall q :: 0 <= q < |rels| && rels[q].target == rels[p].target ==>
        Strength(rels[q].kind) <= Strength(rels[p].kind))
    && (forall q :: 0 <= q < p && rels[q].target == rels[p].target ==> Strength(rels[q].kind) < Strength(rels[p].kind))
  }

  ghost predicate IsStrongest(rels: seq<Relation>, r: Relation) {
    exists p :: StrongestAt(rels, p) && rels[p] == r
  }

  function Targets(rels: seq<Relation>, excluded: set<string>): set<string> {
    set r | r in rels && r.target !in excluded :: r.target
  }

  ghost predicate ByTargetOk(rels: seq<Relation>, excluded: set<string>, byTarget: map<string, Relation>) {
    && byTarget.Keys == Targets(rels, excluded)
    && forall t :: t in byTarget ==> byTarget[t].target == t && IsStrongest(rels, byTarget[t])
  }

  lemma StrongestStep(rels: seq<Relation>, p: int, r: Relation)
    requires StrongestAt(rels, p)
    ensures r.target != rels[p].target || Strength(r.kind) <= Strength(rels[p].kind) ==> StrongestAt(rels + [r], p)
    ensures r.target == rels[p].target && Strength(r.kind) > Strength(rels[p].kind) ==> StrongestAt(rels + [r], |rels|)
  {
  }

  lemma TargetsStep(rels: seq<Relation>, r: Relation, excluded: set<string>)
    ensures Targets(rels + [r], excluded) == Targets(rels, excluded) + if r.target in excluded then {} else {r.target}
  {
    assert forall x :: x in rels + [r] <==> x in rels || x == r;
  }

  lemma StillStrongest(rels: seq<Relation>, best: Relation, r: Relation)
    requires IsStrongest(rels, best)
    ensures r.target != best.target || Strength(r.kind) <= Strength(best.kind) ==> IsStrongest(rels + [r], best)
    ensures r.target == best.target && Strength(r.kind) > Strength(best.kind) ==> IsStrongest(rels + [r], r)
  {
    var p :| StrongestAt(rels, p) && rels[p] == best;
    StrongestStep(rels, p, r);
    assert (rels + [r])[p] == best && (rels + [r])[|rels|] == r;
  }

  lemma FirstOfItsTarget(rels: seq<Relation>, excluded: set<string>, r: Relation)
    requires r.target !in excluded && r.target !in Targets(rels, excluded)
    ensures IsStrongest(rels + [r], r)
  {
    forall q | 0 <= q < |rels|
      ensures rels[q].target != r.target
    {
      assert rels[q] in rels;
    }
    assert StrongestAt(rels + [r], |rels|);
  }

  lemma ByTargetKept(rels: seq<Relation>, excluded: set<string>, byTarget: map<string, Relation>, r: Relation)
    requires ByTargetOk(rels, excluded, byTarget)
    requires r.target in excluded || (r.target in byTarget && Strength(r.kind) <= Strength(byTarget[r.target].kind))
    ensures ByTargetOk(rels + [r], excluded, byTarget)
  {
    TargetsStep(rels, r, excluded);
    forall t | t in byTarget
      ensures IsStrongest(rels + [r], byTarget[t])
    {
      assert t in Targets(rels, excluded) && t !in excluded;
      StillStrongest(rels, byTarget[t], r);
    }
  }

  lemma ByTargetReplaced(rels: seq<Relation>, excluded: set<string>, byTarget: map<string, Relation>, r: Relation)
    requires ByTargetOk(rels, excluded, byTarget) && r.target !in excluded
    requires r.target !in byTarget || Strength(r.kind) > Strength(byTarget[r.target].kind)
    ensures ByTargetOk(rels + [r], excluded, byTarget[r.target := r])
  {
    TargetsStep(rels, r, excluded);
    forall t | t in byTarget && t != r.target
      ensures IsStrongest(rels + [r], byTarget[t])
    {
      StillStrongest(rels, byTarget[t], r);
    }
    if r.target in byTarget {
      StillStrongest(rels, byTarget[r.target], r);
    } else {
      FirstOfItsTarget(rels, excluded, r);
    }
  }

  function ByStrength(): (Relation, Relation) -> bool {
    (a: Relation, b: Relation) => Strength(a.kind) >= Strength(b.kind)
  }

  /** A best choice of targets: distinct, not excluded, each with its strongest
      relation, strongest first, as many as allowed, and none left out is stronger. */
  ghost predicate IsSelection(rels: seq<Relation>, excluded: set<string>, chosen: seq<Relation>) {
    && |chosen| == Min(4, |Targets(rels, excluded)|)
    && (forall i :: 0 <= i < |chosen| ==> chosen[i].target !in excluded && IsStrongest(rels, chosen[i]))
    && (forall i, j :: 0 <= i < j < |chosen| ==> chosen[i].target != chosen[j].target)
    && StrongestFirst(chosen)
    && (forall r, i :: r in rels && r.target !in excluded && LeftOut(chosen, r) && 0 <= i < |chosen| ==>
          Strength(r.kind) <= Strength(chosen[i].kind))
  }

  ghost predicate LeftOut(chosen: seq<Relation>, r: Relation) {
    forall j :: 0 <= j < |chosen| ==> chosen[j].target != r.target
  }

  ghost predicate StrongestFirst(rels: seq<Relation>) {
    forall i, j :: 0 <= i < j < |rels| ==> Strength(rels[i].kind) >= Strength(rels[j].kind)
  }

  /** All values of byTarget, in some order. */
  ghost predicate ListsValues(byTarget: map<string, Relation>, all: seq<Relation>) {
    && (forall r :: r in all ==> r.target in byTarget && byTarget[r.target] == r)
    && (forall t :: t in byTarget ==> byTarget[t] in all)
    && NoDuplicates(all)
  }

  lemma ListedSize(byTarget: map<string, Relation>, all: seq<Relation>)
    requires ListsValues(byTarget, all) && forall t :: t in byTarget ==> byTarget[t].target == t
    ensures |all| == |byTarget.Keys|
  {
    var targets := seq(|all|, i requires 0 <= i < |all| => all[i].target);
    forall i, j | 0 <= i < j < |all|
      ensures targets[i] != targets[j]
    {
      assert all[i] in all && all[j] in all;
    }
    ElementsOfDistinct(targets);
    forall t
      ensures t in Elements(targets) <==> t in byTarget
    {
      if t in byTarget {
        var i :| 0 <= i < |all| && all[i] == byTarget[t];
        assert targets[i] == t;
      }
      if t in Elements(targets) {
        var i :| 0 <= i < |all| && targets[i] == t;
        assert all[i] in all;
      }
    }
    assert Elements(targets) == byTarget.Keys;
  }

  lemma SortedList(byTarget: map<string, Relation>, all: seq<Relation>)
    requires ListsValues(byTarget, all)
    ensures ListsValues(byTarget, StableSort(all, ByStrength()))
    ensures StrongestFirst(StableSort(all, ByStrength()))
  {
    var r := StableSort(all, ByStrength());
    assert TotalPreorder(ByStrength());
    StableSortSpec(all, ByStrength());
    PermutationKeepsElements(all, r);
    PermutationStaysDistinct(all, r);
    forall i, j | 0 <= i < j < |r|
      ensures Strength(r[i].kind) >= Strength(r[j].kind)
    {
      assert ByStrength()(r[i], r[j]);
    }
  }

  lemma RankedTargets(rels: seq<Relation>, excluded: set<string>, byTarget: map<string, Relation>,
                      ranked: seq<Relation>)
    requires ByTargetOk(rels, excluded, byTarget) && ListsValues(byTarget, ranked)
    ensures forall i :: 0 <= i < |ranked| ==> ranked[i].target !in excluded && IsStrongest(rels, ranked[i])
    ensures forall i, j :: 0 <= i < j < |ranked| ==> ranked[i].target != ranked[j].target
    ensures |ranked| == |Targets(rels, excluded)|
  {
    ListedSize(byTarget, ranked);
    forall i | 0 <= i < |ranked|
      ensures ranked[i].target in byTarget && byTarget[ranked[i].target] == ranked[i]
    {
      assert ranked[i] in ranked;
    }
  }

  lemma LeftOutAreWeaker(rels: seq<Relation>, excluded: set<string>, byTarget: map<string, Relation>,
                         ranked: seq<Relation>, n: nat)
    requires ByTargetOk(rels, excluded, byTarget) && ListsValues(byTarget, ranked) && StrongestFirst(ranked)
    requires n <= |ranked|
    ensures forall r, i :: r in rels && r.target !in excluded && LeftOut(ranked[..n], r) && 0 <= i < n ==>
              Strength(r.kind) <= Strength(ranked[i].kind)
  {
    forall r, i | r in rels && r.target !in excluded && LeftOut(ranked[..n], r) && 0 <= i < n
      ensures Strength(r.kind) <= Strength(ranked[i].kind)
    {
      assert r.target in Targets(rels, excluded);
      forall j | 0 <= j < n
        ensures ranked[j].target != r.target
      {
        assert ranked[..n][j] == ranked[j];
      }
      LeftOutIsWeaker(rels, byTarget, ranked, r, n, i);
    }
  }

  lemma TopIsSelection(rels: seq<Relation>, excluded: set<string>, byTarget: map<string, Relation>,
                       ranked: seq<Relation>)
    requires ByTargetOk(rels, excluded, byTarget) && ListsValues(byTarget, ranked) && StrongestFirst(ranked)
    ensures IsSelection(rels, excluded, ranked[..Min(MAX_RELATED_PER_SEED, |ranked|)])
  {
    var n := Min(MAX_RELATED_PER_SEED, |ranked|);
    var chosen := ranked[..n];
    RankedTargets(rels, excluded, byTarget, ranked);
    LeftOutAreWeaker(rels, excluded, byTarget, ranked, n);
    forall i | 0 <= i < n
      ensures chosen[i] == ranked[i]
    {
    }
  }

  lemma LeftOutIsWeaker(rels: seq<Relation>, byTarget: map<string, Relation>, ranked: seq<Relation>, r: Relation,
                        n: int, i: int)
    requires ListsValues(byTarget, ranked) && r in rels && r.target in byTarget && IsStrongest(rels, byTarget[r.target])
    requires byTarget[r.target].target == r.target
    requires StrongestFirst(ranked) && 0 <= i < n <= |ranked| && forall j :: 0 <= j < n ==> ranked[j].target != r.target
    ensures Strength(r.kind) <= Strength(ranked[i].kind)
  {
    var best := byTarget[r.target];
    var k :| 0 <= k < |ranked| && ranked[k] == best;
    var p :| StrongestAt(rels, p) && rels[p] == best;
    var q :| 0 <= q < |rels| && rels[q] == r;
    assert Strength(rels[q].kind) <= Strength(rels[p].kind);
  }

  /** The dedup, rank and cut of one seed. */
  method SelectTargets(rels: seq<Relation>, excluded: set<string>) returns (ranked: seq<Relation>)
    ensures IsSelection(rels, excluded, ranked)
  {
    var byTarget: map<string, Relation> := map[];
    assert rels[..0] == [];
    for i := 0 to |rels|
      invariant ByTargetOk(rels[..i], excluded, byTarget)
    {
      var r := rels[i];
      assert rels[..i + 1] == rels[..i] + [r];
      if r.target in excluded {
        ByTargetKept(rels[..i], excluded, byTarget, r);
        continue;
      }
      if r.target !in byTarget || Strength(r.kind) > Strength(byTarget[r.target].kind) {
        ByTargetReplaced(rels[..i], excluded, byTarget, r);
        byTarget := byTarget[r.target := r];
      } else {
        ByTargetKept(rels[..i], excluded, byTarget, r);
      }
    }
    assert rels[..|rels|] == rels;
    var all := ValuesOf(byTarget);
    SortedList(byTarget, all);
    ranked := StableSort(all, ByStrength());
    TopIsSelection(rels, excluded, byTarget, ranked);
    if |ranked| > MAX_RELATED_PER_SEED {
      ranked := ranked[..MAX_RELATED_PER_SEED];
    } else {
      assert ranked[..|ranked|] == ranked;
    }
  }

  /** Ranging over a map yields its values in no particular order. */
  method ValuesOf(byTarget: map<string, Relation>) returns (all: seq<Relation>)
    requires forall t :: t in byTarget ==> byTarget[t].target == t
    ensures ListsValues(byTarget, all)
  {
    all := [];
    var rest := byTarget.Keys;
    while rest != {}
      invariant rest <= byTarget.Keys && NoDuplicates(all)
      invariant forall r :: r in all ==> r.target in byTarget - rest && byTarget[r.target] == r
      invariant forall t :: t in byTarget && t !in rest ==> byTarget[t] in all
    {
      var t :| t in rest;
      all := all + [byTarget[t]];
      rest := rest - {t};
    }
  }

  // ── which releases ──

  /** Releases written and releases whose write failed, in the order tried. */
  datatype Scan = Scan(picked: seq<Release>, failed: seq<Release>)

  /** The pick loop over a list; fate(i) is what happens to a write of its i-th release. */
  function ScanOf(s: seq<Release>, cutoff: Time, fate: nat -> WriteFate): Scan {
    if s == [] then Scan([], []) else
    var n := |s| - 1;
    var before := ScanOf(s[..n], cutoff, fate);
    if |before.picked| >= RELEASES_PER_RELATED || !InWindow(s[n], cutoff) then before
    else if fate(n) == Written then before.(picked := before.picked + [s[n]])
    else before.(failed := before.failed + [s[n]])
  }

  /** Every in-window release is picked, or its write failed, or enough releases were
      picked and everything tried is at least as recent. */
  ghost predicate IsPick(rgs: seq<Release>, cutoff: Time, scan: Scan) {
    && |scan.picked| <= 2
    && multiset(scan.picked) + multiset(scan.failed) <= multiset(rgs)
    && (forall r :: r in scan.picked + scan.failed ==> InWindow(r, cutoff))
    && (forall r :: r in rgs && InWindow(r, cutoff) && r !in scan.picked && r !in scan.failed ==>
          |scan.picked| == 2 && NoneOlderThan(scan.picked + scan.failed, r))
  }

  ghost predicate NoneOlderThan(tried: seq<Release>, r: Release) {
    DayOfRelease(r).Some? && forall p :: p in tried ==>
        DayOfRelease(p).Some? && DayOfRelease(p).value >= DayOfRelease(r).value
  }

  function NewestFirst(): (Release, Release) -> bool {
    (a: Release, b: Release) => LexLe(b.firstReleaseDate, a.firstReleaseDate)
  }

  lemma NewestFirstOrders()
    ensures TotalPreorder(NewestFirst())
  {
    forall a, b
      ensures NewestFirst()(a, b) || NewestFirst()(b, a)
    {
      LexTotal(a.firstReleaseDate, b.firstReleaseDate);
    }
    forall a, b, c | NewestFirst()(a, b) && NewestFirst()(b, c)
      ensures NewestFirst()(a, c)
    {
      LexTransitive(c.firstReleaseDate, b.firstReleaseDate, a.firstReleaseDate);
    }
  }

  lemma EarlierInListNotOlder(s: seq<Release>, p: Release, r: Release)
    requires Sorted(s, NewestFirst()) && s != [] && r == s[|s| - 1] && p in s[..|s| - 1]
    requires DayOfRelease(p).Some? && DayOfRelease(r).Some?
    ensures DayOfRelease(p).value >= DayOfRelease(r).value
  {
    var i :| 0 <= i < |s| - 1 && s[..|s| - 1][i] == p;
    assert NewestFirst()(s[i], s[|s| - 1]);
    StringOrderRefinesDates(r.firstReleaseDate, p.firstReleaseDate);
  }

  lemma {:induction false} ScanTried(s: seq<Release>, cutoff: Time, fate: nat -> WriteFate)
    ensures var scan := ScanOf(s, cutoff, fate);
      && |scan.picked| <= RELEASES_PER_RELATED
      && multiset(scan.picked) + multiset(scan.failed) <= multiset(s)
      && (forall r :: r in scan.picked + scan.failed ==> InWindow(r, cutoff) && r in s)
  {
    if s != [] {
      assert s == s[..|s| - 1] + [s[|s| - 1]];
      ScanTried(s[..|s| - 1], cutoff, fate);
    }
  }

  /** On a list sorted newest first the scan leaves out only what is no newer. */
  lemma {:induction false} ScanLeavesOlder(s: seq<Release>, cutoff: Time, fate: nat -> WriteFate, r: Release)
    requires Sorted(s, NewestFirst()) && r in s && InWindow(r, cutoff)
    requires var scan := ScanOf(s, cutoff, fate); r !in scan.picked && r !in scan.failed
    ensures var scan := ScanOf(s, cutoff, fate);
      |scan.picked| == RELEASES_PER_RELATED && NoneOlderThan(scan.picked + scan.failed, r)
  {
    var front := s[..|s| - 1];
    ScanTried(front, cutoff, fate);
    if r in front {
      ScanLeavesOlder(front, cutoff, fate, r);
    } else {
      var scan := ScanOf(front, cutoff, fate);
      forall p | p in scan.picked + scan.failed
        ensures DayOfRelease(p).value >= DayOfRelease(r).value
      {
        EarlierInListNotOlder(s, p, r);
      }
    }
  }

  /** The scan of the sorted releases is a best pick. */
  lemma ScanIsPick(rgs: seq<Release>, cutoff: Time, fate: nat -> WriteFate)
    ensures IsPick(rgs, cutoff, ScanOf(StableSort(rgs, NewestFirst()), cutoff, fate))
  {
    var s := StableSort(rgs, NewestFirst());
    NewestFirstOrders();
    StableSortSpec(rgs, NewestFirst());
    PermutationKeepsElements(rgs, s);
    ScanTried(s, cutoff, fate);
    var scan := ScanOf(s, cutoff, fate);
    forall r | r in rgs && InWindow(r, cutoff) && r !in scan.picked && r !in scan.failed
      ensures |scan.picked| == RELEASES_PER_RELATED && NoneOlderThan(scan.picked + scan.failed, r)
    {
      ScanLeavesOlder(s, cutoff, fate, r);
    }
  }

  /** A full budget tries nothing more. */
  lemma {:induction false} FullScan(s: seq<Release>, cutoff: Time, fate: nat -> WriteFate, i: nat)
    requires i <= |s| && |ScanOf(s[..i], cutoff, fate).picked| >= RELEASES_PER_RELATED
    ensures ScanOf(s, cutoff, fate) == ScanOf(s[..i], cutoff, fate)
  {
    if i < |s| {
      var front := s[..|s| - 1];
      assert front[..i] == s[..i];
      FullScan(front, cutoff, fate, i);
    } else {
      assert s[..i] == s;
    }
  }

  lemma ScanStep(s: seq<Release>, cutoff: Time, fate: nat -> WriteFate, i: nat)
    requires i < |s|
    ensures var before := ScanOf(s[..i], cutoff, fate);
      ScanOf(s[..i + 1], cutoff, fate)
        == if |before.picked| >= RELEASES_PER_RELATED || !InWindow(s[i], cutoff) then before
           else if fate(i) == Written then before.(picked := before.picked + [s[i]])
           else before.(failed := before.failed + [s[i]])
  {
    assert s[..i + 1][..i] == s[..i];
  }

  /** The sort and the pick loop of one related artist. */
  method PickReleases(rgs: seq<Release>, cutoff: Time, fate: nat -> WriteFate) returns (scan: Scan, errors: nat)
    ensures scan == ScanOf(StableSort(rgs, NewestFirst()), cutoff, fate) && errors == |scan.failed|
    ensures IsPick(rgs, cutoff, scan)
  {
    ScanIsPick(rgs, cutoff, fate);
    var sorted := StableSort(rgs, NewestFirst());
    scan, errors := Scan([], []), 0;
    assert sorted[..0] == [];
    for i := 0 to |sorted|
      invariant scan == ScanOf(sorted[..i], cutoff, fate) && errors == |scan.failed|
    {
      if |scan.picked| >= RELEASES_PER_RELATED {
        FullScan(sorted, cutoff, fate, i);
        return;
      }
      ScanStep(sorted, cutoff, fate, i);
      var date := ParseDate(sorted[i].firstReleaseDate);
      if date.None? || DayNumber(date.value) * DAY < cutoff {
        continue;
      }
      if fate(i) != Written {
        scan, errors := scan.(failed := scan.failed + [sorted[i]]), errors + 1;
        continue;
      }
      scan := scan.(picked := scan.picked + [sorted[i]]);
    }
    assert sorted[..|sorted|] == sorted;
  }

  // ── the score ──

  function Recency(daysOld: real): real {
    var age := if daysOld < 0.0 then 0.0 else daysOld;
    var w := 1.0 - age / WINDOW_DAYS as real;
    if w < MIN_RECENCY then MIN_RECENCY else w
  }

  function Weight(strength: real, seedScore: real): real {
    strength * (1.0 + seedScore / 10.0)
  }

  function Score(strength: real, seedScore: real, daysOld: real): real {
    Weight(strength, seedScore) * Recency(daysOld)
  }

  lemma RecencyFalls(older: real, newer: real)
    requires older >= newer
    ensures MIN_RECENCY <= Recency(older) <= Recency(newer) <= 1.0
  {
  }

  lemma ProductOrder(f: real, a: real, b: real)
    requires f >= 0.0 && a <= b
    ensures f * a <= f * b
  {
    assert f * (b - a) >= 0.0;
  }

  ghost predicate NewerNeverLower(kind: string, seedScore: real) {
    forall older, newer :: older >= newer ==>
        Score(Strength(kind), seedScore, older) <= Score(Strength(kind), seedScore, newer)
  }

  /** Below -10 an old release outscores one of today. */
  lemma OlderScoresHigher(kind: string, seedScore: real)
    requires seedScore < -10.0
    ensures Score(Strength(kind), seedScore, 180.0) > Score(Strength(kind), seedScore, 0.0)
  {
    var f := Weight(Strength(kind), seedScore);
    assert f < 0.0;
    assert Recency(180.0) == MIN_RECENCY && Recency(0.0) == 1.0;
    assert f * MIN_RECENCY > f * 1.0;
  }

  lemma ScoresOrdered(strength: real, seedScore: real, older: real, newer: real)
    requires strength >= 0.0 && seedScore >= -10.0 && older >= newer
    ensures Score(strength, seedScore, older) <= Score(strength, seedScore, newer)
  {
    var f := Weight(strength, seedScore);
    ProductOrder(1.0 + seedScore / 10.0, 0.0, strength);
    RecencyFalls(older, newer);
    ProductOrder(f, Recency(older), Recency(newer));
  }

  /** A newer release never scores lower, exactly for seeds of at least -10. */
  lemma NewerScoresIff(kind: string, seedScore: real)
    ensures NewerNeverLower(kind, seedScore) <==> seedScore >= -10.0
  {
    if seedScore >= -10.0 {
      forall older: real, newer: real | older >= newer
        ensures Score(Strength(kind), seedScore, older) <= Score(Strength(kind), seedScore, newer)
      {
        ScoresOrdered(Strength(kind), seedScore, older, newer);
      }
    } else {
      OlderScoresHigher(kind, seedScore);
    }
  }

  // ── the whole pass ──

  datatype Seed = Seed(mbid: string, score: real)

  /** What MusicBrainz answers for seed i and for its j-th target, and what happens to
      the n-th write of that target. */
  datatype World = World(relations: nat -> Option<seq<Relation>>, browse: (nat, nat) -> Option<seq<Release>>,
                         write: (nat, nat, nat) -> WriteFate)

  /** A target acted on: None if its releases could not be browsed. */
  datatype Act = Act(relation: Relation, scan: Option<Scan>)

  function WriteOf(r: Release, kind: string, seedScore: real, started: Time): Write {
    Write(r.mbid, if DayOfRelease(r).Some? then Score(Strength(kind), seedScore, DaysOld(r, started)) else 0.0)
  }

  /** The candidate writes of one target, one seed, one pass. */
  function ActWrites(a: Act, seed: Seed, started: Time): seq<Write> {
    if a.scan.None? then [] else
    var picked := a.scan.value.picked;
    seq(|picked|, i requires 0 <= i < |picked| => WriteOf(picked[i], a.relation.kind, seed.score, started))
  }

  function SeedWrites(acts: seq<Act>, seed: Seed, started: Time): seq<Write> {
    if acts == [] then []
    else SeedWrites(acts[..|acts| - 1], seed, started) + ActWrites(acts[|acts| - 1], seed, started)
  }

  /** acts[i] is what was done for seed i, None if its relations could not be fetched. */
  function PassWrites(seeds: seq<Seed>, acts: seq<Option<seq<Act>>>, started: Time): seq<Write>
    requires |acts| <= |seeds|
  {
    if acts == [] then [] else
    var n := |acts| - 1;
    var before := PassWrites(seeds, acts[..n], started);
    if acts[n].None? then before else before + SeedWrites(acts[n].value, seeds[n], started)
  }

  function ActErrors(a: Act): nat {
    if a.scan.None? then 1 else |a.scan.value.failed|
  }

  function SeedErrors(acts: seq<Act>): nat {
    if acts == [] then 0 else SeedErrors(acts[..|acts| - 1]) + ActErrors(acts[|acts| - 1])
  }

  function PassErrors(acts: seq<Option<seq<Act>>>): nat {
    if acts == [] then 0 else
    var last := acts[|acts| - 1];
    PassErrors(acts[..|acts| - 1]) + if last.None? then 1 else SeedErrors(last.value)
  }

  function PassTargets(acts: seq<Option<seq<Act>>>): nat {
    if acts == [] then 0 else
    var last := acts[|acts| - 1];
    PassTargets(acts[..|acts| - 1]) + if last.None? then 0 else |last.value|
  }

  function RelationsOf(acts: seq<Act>): seq<Relation> {
    seq(|acts|, i requires 0 <= i < |acts| => acts[i].relation)
  }

  function Fates(w: World, i: nat, j: nat): nat -> WriteFate {
    (n: nat) => w.write(i, j, n)
  }

  /** The releases of target j of seed i were scanned newest first, if they could be browsed. */
  ghost predicate ActOk(w: World, i: nat, j: nat, cutoff: Time, a: Act) {
    var rgs := w.browse(i, j);
    a.scan == if rgs.None? then None else Some(ScanOf(StableSort(rgs.value, NewestFirst()), cutoff, Fates(w, i, j)))
  }

  /** Which makes it a best pick. */
  lemma ActIsPick(w: World, i: nat, j: nat, cutoff: Time, a: Act)
    requires ActOk(w, i, j, cutoff, a) && a.scan.Some?
    ensures w.browse(i, j).Some? && IsPick(w.browse(i, j).value, cutoff, a.scan.value)
  {
    ScanIsPick(w.browse(i, j).value, cutoff, Fates(w, i, j));
  }

  ghost predicate ActsOk(w: World, i: nat, cutoff: Time, acts: seq<Act>) {
    forall j: nat :: j < |acts| ==> ActOk(w, i, j, cutoff, acts[j])
  }

  lemma ActsOkAppend(w: World, i: nat, cutoff: Time, acts: seq<Act>, a: Act)
    requires ActsOk(w, i, cutoff, acts) && ActOk(w, i, |acts|, cutoff, a)
    ensures ActsOk(w, i, cutoff, acts + [a])
  {
  }

  /** Acts on seed i: a best selection of targets, a best pick of releases for each. */
  ghost predicate SeedOk(w: World, i: nat, excluded: set<string>, cutoff: Time, acts: Option<seq<Act>>) {
    var rels := w.relations(i);
    && (acts.None? <==> rels.None?)
    && (rels.Some? ==> IsSelection(rels.value, excluded, RelationsOf(acts.value)) && ActsOk(w, i, cutoff, acts.value))
  }

  // ── what a candidate row scores ──

  lemma RecencyIs(daysOld: real)
    ensures Recency(daysOld) == if daysOld <= 0.0 then 1.0 else if daysOld <= 126.0 then 1.0 - daysOld / 180.0 else 0.3
  {
  }

  /** recency is what a release of this date is worth at this time: 1 if it is not older than
      the pass, falling to 0.3 over 126 days. */
  ghost predicate RecencyAt(r: Release, started: Time, recency: real)
    requires DayOfRelease(r).Some?
  {
    var age := (started - DayOfRelease(r).value * 86400) as real / 86400.0;
    recency == if age <= 0.0 then 1.0 else if age <= 126.0 then 1.0 - age / 180.0 else 0.3
  }

  lemma RecencyOfRelease(r: Release, started: Time)
    requires DayOfRelease(r).Some?
    ensures RecencyAt(r, started, Recency(DaysOld(r, started)))
  {
    RecencyIs(DaysOld(r, started));
  }

  lemma ScoreIs(strength: real, seedScore: real, daysOld: real, recency: real)
    requires recency == Recency(daysOld)
    ensures Score(strength, seedScore, daysOld) == strength * (1.0 + seedScore / 10.0) * recency
  {
  }

  /** The candidate rows of a target are those of its picked releases. */
  lemma WriteAt(a: Act, seed: Seed, started: Time, i: nat)
    requires a.scan.Some? && i < |a.scan.value.picked|
    ensures |ActWrites(a, seed, started)| == |a.scan.value.picked|
    ensures ActWrites(a, seed, started)[i] == WriteOf(a.scan.value.picked[i], a.relation.kind, seed.score, started)
  {
  }

  lemma StrengthIs(kind: string)
    ensures Strength(kind) == if kind == "member of band" || kind == "has member" then 1.0
                              else if kind == "collaboration" || kind == "collaborator" then 0.9
                              else if kind == "supporting musician" then 0.7
                              else if kind == "performer" || kind == "vocal" || kind == "instrument" then 0.5
                              else 0.3
  {
  }

  /** The score of a candidate row: the relation's strength, times 1 plus a tenth of the
      seed's score, times the recency of the release. */
  lemma CandidateScore(r: Release, kind: string, seedScore: real, started: Time, row: Write)
    returns (strength: real, recency: real)
    requires DayOfRelease(r).Some? && row == WriteOf(r, kind, seedScore, started)
    ensures strength == Strength(kind) && RecencyAt(r, started, recency)
    ensures row.mbid == r.mbid && row.score == strength * (1.0 + seedScore / 10.0) * recency
  {
    strength, recency := Strength(kind), Recency(DaysOld(r, started));
    RecencyOfRelease(r, started);
    ScoreIs(strength, seedScore, DaysOld(r, started), recency);
  }

  function ScoreAs(kind: string, r: Release, seed: Seed, started: Time): real {
    WriteOf(r, kind, seed.score, started).score
  }

  lemma ScoresByStrength(strong: real, weak: real, seedScore: real, daysOld: real)
    requires strong > weak && seedScore > -10.0
    ensures Score(strong, seedScore, daysOld) > Score(weak, seedScore, daysOld)
  {
    ProductIncreases(weak, strong, 1.0 + seedScore / 10.0);
    RecencyFalls(daysOld, daysOld);
    ProductIncreases(Weight(weak, seedScore), Weight(strong, seedScore), Recency(daysOld));
  }

  lemma ProductIncreases(a: real, b: real, f: real)
    requires a < b && f > 0.0
    ensures a * f < b * f
  {
    assert (b - a) * f > 0.0;
  }

  /** For a seed above -10, the closer the relation the higher the same release scores:
      band membership, collaboration, supporting, performing, anything else. */
  lemma CloserKindScoresHigher(r: Release, seed: Seed, started: Time, other: string)
    requires DayOfRelease(r).Some? && seed.score > -10.0
    requires other !in {"member of band", "has member", "collaboration", "collaborator", "supporting musician",
                        "performer", "vocal", "instrument"}
    ensures ScoreAs("has member", r, seed, started) == ScoreAs("member of band", r, seed, started)
    ensures ScoreAs("member of band", r, seed, started) > ScoreAs("collaboration", r, seed, started)
    ensures ScoreAs("collaborator", r, seed, started) == ScoreAs("collaboration", r, seed, started)
    ensures ScoreAs("collaboration", r, seed, started) > ScoreAs("supporting musician", r, seed, started)
    ensures ScoreAs("supporting musician", r, seed, started) > ScoreAs("performer", r, seed, started)
    ensures ScoreAs("vocal", r, seed, started) == ScoreAs("instrument", r, seed, started)
         == ScoreAs("performer", r, seed, started)
    ensures ScoreAs("performer", r, seed, started) > ScoreAs(other, r, seed, started)
  {
    var age := DaysOld(r, started);
    ScoresByStrength(1.0, 0.9, seed.score, age);
    ScoresByStrength(0.9, 0.7, seed.score, age);
    ScoresByStrength(0.7, 0.5, seed.score, age);
    ScoresByStrength(0.5, 0.3, seed.score, age);
  }

  /** A release written by a pass has a date, at most 180 days before the pass. */
  lemma WrittenIsRecent(w: World, i: nat, j: nat, started: Time, a: Act, r: Release)
    requires ActOk(w, i, j, started - RECENCY_WINDOW, a) && a.scan.Some? && r in a.scan.value.picked
    ensures DayOfRelease(r).Some? && started - DayOfRelease(r).value * 86400 <= 180 * 86400
  {
    ActIsPick(w, i, j, started - RECENCY_WINDOW, a);
    PickInWindow(w.browse(i, j).value, started - RECENCY_WINDOW, a.scan.value, r);
  }

  lemma PickInWindow(rgs: seq<Release>, cutoff: Time, scan: Scan, r: Release)
    requires IsPick(rgs, cutoff, scan) && r in scan.picked
    ensures InWindow(r, cutoff)
  {
    assert r in scan.picked + scan.failed;
  }

  lemma OneMoreAct(acts: seq<Act>, a: Act, seed: Seed, started: Time)
    ensures RelationsOf(acts + [a]) == RelationsOf(acts) + [a.relation]
    ensures SeedWrites(acts + [a], seed, started) == SeedWrites(acts, seed, started) + ActWrites(a, seed, started)
    ensures SeedErrors(acts + [a]) == SeedErrors(acts) + ActErrors(a)
  {
    assert (acts + [a])[..|acts|] == acts;
  }

  function WritesFor(done: Option<seq<Act>>, seed: Seed, started: Time): seq<Write> {
    if done.None? then [] else SeedWrites(done.value, seed, started)
  }

  function CountSeed(c: Counters, done: Option<seq<Act>>, seed: Seed, started: Time): Counters {
    if done.None? then c.(seedsScanned := c.seedsScanned + 1, errors := c.errors + 1)
    else c.(seedsScanned := c.seedsScanned + 1, discovered := c.discovered + |done.value|,
            candidatesNew := c.candidatesNew + |SeedWrites(done.value, seed, started)|,
            errors := c.errors + SeedErrors(done.value))
  }

  lemma WritesOneMore(t: CandidateRows, seeds: seq<Seed>, acts: seq<Option<seq<Act>>>, done: Option<seq<Act>>,
                      started: Time)
    requires |acts| < |seeds|
    ensures Put(t, PassWrites(seeds, acts + [done], started))
         == Put(Put(t, PassWrites(seeds, acts, started)), WritesFor(done, seeds[|acts|], started))
  {
    assert (acts + [done])[..|acts|] == acts;
    if done.Some? {
      PutConcat(t, PassWrites(seeds, acts, started), SeedWrites(done.value, seeds[|acts|], started));
    }
  }

  lemma CountOneMore(seeds: seq<Seed>, acts: seq<Option<seq<Act>>>, done: Option<seq<Act>>, started: Time)
    requires |acts| < |seeds|
    ensures CountersOf(seeds, acts + [done], started)
         == CountSeed(CountersOf(seeds, acts, started), done, seeds[|acts|], started)
  {
    assert (acts + [done])[..|acts|] == acts;
  }

  ghost predicate SeedsOk(w: World, excluded: set<string>, cutoff: Time, acts: seq<Option<seq<Act>>>) {
    forall i: nat :: i < |acts| ==> SeedOk(w, i, excluded, cutoff, acts[i])
  }

  lemma SeedsOkAppend(w: World, excluded: set<string>, cutoff: Time, acts: seq<Option<seq<Act>>>,
                      done: Option<seq<Act>>)
    requires SeedsOk(w, excluded, cutoff, acts) && SeedOk(w, |acts|, excluded, cutoff, done)
    ensures SeedsOk(w, excluded, cutoff, acts + [done])
  {
  }

  ghost predicate PassOk(w: World, excluded: set<string>, cutoff: Time, seeds: seq<Seed>, acts: seq<Option<seq<Act>>>) {
    |acts| == |seeds| && SeedsOk(w, excluded, cutoff, acts)
  }

  function CountersOf(seeds: seq<Seed>, acts: seq<Option<seq<Act>>>, started: Time): Counters
    requires |acts| <= |seeds|
  {
    Counters(|acts|, PassTargets(acts), |PassWrites(seeds, acts, started)|, 0, PassErrors(acts))
  }

  class Service {
    var candidates: CandidateRows

    constructor ()
      ensures candidates == map[]
    {
      candidates := map[];
    }

    /** One target of seed i. */
    method ActOn(i: nat, j: nat, r: Relation, seed: Seed, w: World, started: Time, c: Counters)
        returns (a: Act, c': Counters)
      modifies this
      ensures a.relation == r && ActOk(w, i, j, started - RECENCY_WINDOW, a)
      ensures candidates == Put(old(candidates), ActWrites(a, seed, started))
      ensures c' == c.(discovered := c.discovered + 1, candidatesNew := c.candidatesNew + |ActWrites(a, seed, started)|,
                       errors := c.errors + ActErrors(a))
    {
      c' := c.(discovered := c.discovered + 1);
      var rgs := w.browse(i, j);
      if rgs.None? {
        return Act(r, None), c'.(errors := c'.errors + 1);
      }
      var scan, errors := PickReleases(rgs.value, started - RECENCY_WINDOW, Fates(w, i, j));
      a := Act(r, Some(scan));
      var inserted;
      candidates, inserted := UpsertAll(candidates, ActWrites(a, seed, started));
      c' := c'.(candidatesNew := c'.candidatesNew + inserted, errors := c'.errors + errors);
    }

    method ActOnSeed(i: nat, rels: seq<Relation>, excluded: set<string>, seed: Seed, w: World, started: Time,
                     c: Counters)
      returns (acts: seq<Act>, c': Counters)
      requires w.relations(i) == Some(rels)
      modifies this
      ensures SeedOk(w, i, excluded, started - RECENCY_WINDOW, Some(acts))
      ensures candidates == Put(old(candidates), SeedWrites(acts, seed, started))
      ensures c' == c.(discovered := c.discovered + |acts|,
                       candidatesNew := c.candidatesNew + |SeedWrites(acts, seed, started)|,
                       errors := c.errors + SeedErrors(acts))
    {
      var ranked := SelectTargets(rels, excluded);
      acts, c' := [], c;
      for j := 0 to |ranked|
        invariant |acts| == j && RelationsOf(acts) == ranked[..j]
        invariant ActsOk(w, i, started - RECENCY_WINDOW, acts)
        invariant candidates == Put(old(candidates), SeedWrites(acts, seed, started))
        invariant c' == c.(discovered := c.discovered + j,
                           candidatesNew := c.candidatesNew + |SeedWrites(acts, seed, started)|,
                           errors := c.errors + SeedErrors(acts))
      {
        var a;
        ghost var before := SeedWrites(acts, seed, started);
        a, c' := ActOn(i, j, ranked[j], seed, w, started, c');
        PutConcat(old(candidates), before, ActWrites(a, seed, started));
        OneMoreAct(acts, a, seed, started);
        ActsOkAppend(w, i, started - RECENCY_WINDOW, acts, a);
        PrefixStep(ranked, j);
        acts := acts + [a];
      }
      assert ranked[..|ranked|] == ranked;
    }

    /** One pass. The seed and exclusion queries may fail; the relations and releases of
        single artists and the writes may fail and are counted. */
    method Sync(seeds: Option<seq<Seed>>, excluded: Option<set<string>>, w: World, started: Time)
      returns (result: RunResult, acts: seq<Option<seq<Act>>>)
      modifies this
      ensures result.status == Failed <==> seeds.None? || (seeds.value != [] && excluded.None?)
      ensures result.status == Failed ==> candidates == old(candidates) && acts == []
      ensures result.status != Failed ==>
                PassOk(w, if excluded.Some? then excluded.value else {}, started - RECENCY_WINDOW, seeds.value, acts)
      ensures result.status != Failed ==> candidates == Put(old(candidates), PassWrites(seeds.value, acts, started))
      ensures result.status != Failed ==> result.counters == CountersOf(seeds.value, acts, started)
      ensures result.status == Done <==> result.status != Failed && PassErrors(acts) == 0
    {
      var c := Counters(0, 0, 0, 0, 0);
      acts := [];
      if seeds.None? {
        return RunResult(Failed, c), [];
      }
      if |seeds.value| == 0 {
        return RunResult(Done, c), [];
      }
      if excluded.None? {
        return RunResult(Failed, c), [];
      }
      c, acts := Walk(seeds.value, excluded.value, w, started);
      var status := Done;
      if c.errors > 0 {
        status := Partial;
      }
      result := RunResult(status, c);
    }

    method VisitSeed(i: nat, excluded: set<string>, seed: Seed, w: World, started: Time, c: Counters)
      returns (done: Option<seq<Act>>, c': Counters)
      modifies this
      ensures SeedOk(w, i, excluded, started - RECENCY_WINDOW, done)
      ensures candidates == Put(old(candidates), WritesFor(done, seed, started))
      ensures c' == CountSeed(c, done, seed, started)
    {
      c' := c.(seedsScanned := c.seedsScanned + 1);
      var rels := w.relations(i);
      if rels.None? {
        return None, c'.(errors := c'.errors + 1);
      }
      var acts;
      acts, c' := ActOnSeed(i, rels.value, excluded, seed, w, started, c');
      done := Some(acts);
    }

    /** The loop over the seeds. */
    method Walk(seeds: seq<Seed>, excluded: set<string>, w: World, started: Time)
      returns (c: Counters, acts: seq<Option<seq<Act>>>)
      modifies this
      ensures PassOk(w, excluded, started - RECENCY_WINDOW, seeds, acts)
      ensures candidates == Put(old(candidates), PassWrites(seeds, acts, started))
      ensures c == CountersOf(seeds, acts, started)
    {
      c, acts := Counters(0, 0, 0, 0, 0), [];
      for i := 0 to |seeds|
        invariant |acts| == i
        invariant SeedsOk(w, excluded, started - RECENCY_WINDOW, acts)
        invariant candidates == Put(old(candidates), PassWrites(seeds, acts, started))
        invariant c == CountersOf(seeds, acts, started)
      {
        var done;
        done, c := VisitSeed(i, excluded, seeds[i], w, started, c);
        WritesOneMore(old(candidates), seeds, acts, done, started);
        CountOneMore(seeds, acts, done, started);
        SeedsOkAppend(w, excluded, started - RECENCY_WINDOW, acts, done);
        acts := acts + [done];
      }
    }
  }

  // ── budgets, and what the counters are worth ──

  lemma {:induction false} SeedBudget(acts: seq<Act>, seed: Seed, started: Time)
    requires forall a :: a in acts && a.scan.Some? ==> |a.scan.value.picked| <= RELEASES_PER_RELATED
    ensures |SeedWrites(acts, seed, started)| <= RELEASES_PER_RELATED * |acts|
  {
    if acts != [] {
      SeedBudget(acts[..|acts| - 1], seed, started);
      assert acts[|acts| - 1] in acts;
    }
  }

  lemma {:induction false} SameSeeds(seeds: seq<Seed>, seeds': seq<Seed>, acts: seq<Option<seq<Act>>>, started: Time)
    requires |acts| <= |seeds| && |acts| <= |seeds'| && seeds[..|acts|] == seeds'[..|acts|]
    ensures PassWrites(seeds, acts, started) == PassWrites(seeds', acts, started)
  {
    if acts != [] {
      var n := |acts| - 1;
      assert seeds[..n] == seeds[..|acts|][..n] && seeds'[..n] == seeds'[..|acts|][..n];
      assert seeds[n] == seeds[..|acts|][n] && seeds'[n] == seeds'[..|acts|][n];
      SameSeeds(seeds, seeds', acts[..n], started);
    }
  }

  /** At most 4 targets a seed and 2 candidate writes a target. */
  lemma {:induction false} PassBudget(seeds: seq<Seed>, acts: seq<Option<seq<Act>>>, w: World, excluded: set<string>,
                                      started: Time)
    requires PassOk(w, excluded, started - RECENCY_WINDOW, seeds, acts)
    ensures PassTargets(acts) <= 4 * |acts|
    ensures |PassWrites(seeds, acts, started)| <= 2 * PassTargets(acts)
  {
    if acts != [] {
      var n := |acts| - 1;
      PassBudget(seeds[..n], acts[..n], w, excluded, started);
      SameSeeds(seeds, seeds[..n], acts[..n], started);
      assert SeedOk(w, n, excluded, started - RECENCY_WINDOW, acts[n]);
      if acts[n].Some? {
        var here := acts[n].value;
        assert |RelationsOf(here)| <= MAX_RELATED_PER_SEED;
        forall a | a in here && a.scan.Some?
          ensures |a.scan.value.picked| <= RELEASES_PER_RELATED
        {
          var j: nat :| j < |here| && here[j] == a;
          ActIsPick(w, n, j, started - RECENCY_WINDOW, a);
        }
        SeedBudget(here, seeds[n], started);
      }
    }
  }
}
