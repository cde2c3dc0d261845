/**
 The same-label pass (backend/internal/services/samelabel/samelabel.go): seeds,
 labels of a seed and releases of a label in three nested loops, each with a
 budget, and one set of labels already processed in the run.
 */
module SameLabel {
  import opened Basics
  import opened Sorting
  import opened ReleaseDates
  import opened Candidates

  const MAX_LABELS_PER_SEED: nat := 3
  const MAX_RELEASES_PER_LABEL: nat := 3
  const SEED_RELEASES_PROBED: nat := 3
  const WINDOW_DAYS: int := 365
  const RECENCY_WINDOW: Time := WINDOW_DAYS * DAY
  const MIN_RECENCY: real := 0.25

  datatype Label = Label(mbid: string, name: string)
  datatype Seed = Seed(mbid: string, score: real)

  /** Releases written and releases whose write failed, in the order tried. */
  datatype Scan = Scan(written: seq<Release>, failed: seq<Release>)

  /** A browsed label of one of the seeds; no scan if the browse failed. */
  datatype Visit = Visit(seed: nat, lbl: Label, scan: Option<Scan>)

  /** What a pass is run against: the labels found for the i-th seed, what MusicBrainz
      answers to the v-th browse, what happens to the n-th release listed there. */
  datatype World = World(labelsOf: nat -> Option<seq<Label>>, browse: nat -> Option<seq<Release>>,
                         write: (nat, nat) -> WriteFate, excluded: set<string>, started: Time)

  predicate Eligible(w: World, r: Release) {
    r.mbid !in w.excluded && InWindow(r, w.started - RECENCY_WINDOW)
  }

  // ── the pass as a function ──

  /** The release loop of browse v over a prefix of the releases. */
  function ScanOf(w: World, v: nat, rgs: seq<Release>): Scan {
    if rgs == [] then Scan([], []) else
    var n := |rgs| - 1;
    var before := ScanOf(w, v, rgs[..n]);
    if |before.written| >= MAX_RELEASES_PER_LABEL || !Eligible(w, rgs[n]) then before
    else if w.write(v, n) == Written then before.(written := before.written + [rgs[n]])
    else before.(failed := before.failed + [rgs[n]])
  }

  function VisitLabel(w: World, v: nat, seed: nat, l: Label): Visit {
    var rgs := w.browse(v);
    Visit(seed, l, if rgs.None? then None else Some(ScanOf(w, v, rgs.value)))
  }

  function LabelsIn(visits: seq<Visit>): seq<string> {
    seq(|visits|, i requires 0 <= i < |visits| => visits[i].lbl.mbid)
  }

  /** The label loop of one seed after the visits before it. */
  function SeedVisits(w: World, before: seq<Visit>, seed: nat, labels: seq<Label>): seq<Visit> {
    if labels == [] then [] else
    var here, l := SeedVisits(w, before, seed, labels[..|labels| - 1]), labels[|labels| - 1];
    if |here| >= MAX_LABELS_PER_SEED || l.mbid in LabelsIn(before) || l.mbid in LabelsIn(here) then here
    else here + [VisitLabel(w, |before| + |here|, seed, l)]
  }

  function VisitsOf(w: World, before: seq<Visit>, seed: nat): seq<Visit> {
    var labels := w.labelsOf(seed);
    if labels.None? then [] else SeedVisits(w, before, seed, labels.value)
  }

  /** The visits of the first n seeds. */
  function Pass(w: World, n: nat): seq<Visit> {
    if n == 0 then [] else Pass(w, n - 1) + VisitsOf(w, Pass(w, n - 1), n - 1)
  }

  // ── safety ──

  /** Tried releases were listed, each no more often than listed, and eligible; whatever
      eligible one was not tried met a used-up budget. */
  ghost predicate ScanSound(w: World, rgs: seq<Release>, scan: Scan) {
    && |scan.written| <= 3
    && multiset(scan.written) + multiset(scan.failed) <= multiset(rgs)
    && (forall r :: r in scan.written + scan.failed ==> Eligible(w, r))
    && (forall r :: r in rgs && Eligible(w, r) && r !in scan.written && r !in scan.failed ==>
          |scan.written| == 3)
  }

  lemma {:induction false} ScanIsSound(w: World, v: nat, rgs: seq<Release>)
    ensures ScanSound(w, rgs, ScanOf(w, v, rgs))
  {
    if rgs != [] {
      assert rgs == rgs[..|rgs| - 1] + [rgs[|rgs| - 1]];
      ScanIsSound(w, v, rgs[..|rgs| - 1]);
    }
  }

  /** Visit v of the pass, made for a label of its seed. */
  ghost predicate VisitSound(w: World, v: nat, x: Visit) {
    && w.labelsOf(x.seed).Some? && x.lbl in w.labelsOf(x.seed).value
    && x == VisitLabel(w, v, x.seed, x.lbl)
  }

  /** At most three labels a seed, distinct, and none processed before. */
  lemma {:induction false} SeedVisitsNew(w: World, before: seq<Visit>, seed: nat, labels: seq<Label>)
    ensures var here := SeedVisits(w, before, seed, labels);
      && |here| <= MAX_LABELS_PER_SEED
      && NoDuplicates(LabelsIn(here))
      && (forall l :: l in LabelsIn(here) ==> l !in LabelsIn(before))
  {
    if labels != [] {
      var front, l := labels[..|labels| - 1], labels[|labels| - 1];
      var here := SeedVisits(w, before, seed, front);
      SeedVisitsNew(w, before, seed, front);
      LabelsAppend(here, VisitLabel(w, |before| + |here|, seed, l));
    }
  }

  /** A label is left unprocessed only by a seed that used up its budget. */
  lemma {:induction false} SeedVisitsExhaust(w: World, before: seq<Visit>, seed: nat, labels: seq<Label>, l: Label)
    requires l in labels
    ensures var here := SeedVisits(w, before, seed, labels);
      l.mbid in LabelsIn(before) || l.mbid in LabelsIn(here) || |here| >= MAX_LABELS_PER_SEED
  {
    var front, last := labels[..|labels| - 1], labels[|labels| - 1];
    var here := SeedVisits(w, before, seed, front);
    if l in front {
      SeedVisitsExhaust(w, before, seed, front, l);
    }
    LabelsAppend(here, VisitLabel(w, |before| + |here|, seed, last));
  }

  lemma LabelsAppend(visits: seq<Visit>, x: Visit)
    ensures LabelsIn(visits + [x]) == LabelsIn(visits) + [x.lbl.mbid]
    ensures forall l :: l in LabelsIn(visits + [x]) <==> l in LabelsIn(visits) || l == x.lbl.mbid
  {
    assert LabelsIn(visits + [x]) == LabelsIn(visits) + [x.lbl.mbid];
  }

  lemma LabelsConcat(a: seq<Visit>, b: seq<Visit>)
    ensures LabelsIn(a + b) == LabelsIn(a) + LabelsIn(b)
  {
  }

  lemma {:induction false} SeedVisitsSound(w: World, before: seq<Visit>, seed: nat, labels: seq<Label>,
                                           all: seq<Label>, i: nat)
    requires w.labelsOf(seed) == Some(all) && (forall l :: l in labels ==> l in all)
    requires i < |SeedVisits(w, before, seed, labels)|
    ensures SeedVisits(w, before, seed, labels)[i].seed == seed
    ensures VisitSound(w, |before| + i, SeedVisits(w, before, seed, labels)[i])
  {
    var front := labels[..|labels| - 1];
    if i < |SeedVisits(w, before, seed, front)| {
      SeedVisitsSound(w, before, seed, front, all, i);
    }
  }

  lemma DistinctConcat<T>(a: seq<T>, b: seq<T>)
    requires NoDuplicates(a) && NoDuplicates(b) && forall x :: x in b ==> x !in a
    ensures NoDuplicates(a + b)
  {
    forall i, j | 0 <= i < |a| && 0 <= j < |b|
      ensures a[i] != b[j]
    {
      assert b[j] in b;
    }
  }

  lemma VisitsOfSpec(w: World, before: seq<Visit>, seed: nat)
    ensures var here := VisitsOf(w, before, seed);
      && |here| <= MAX_LABELS_PER_SEED && NoDuplicates(LabelsIn(here))
      && forall l :: l in LabelsIn(here) ==> l !in LabelsIn(before)
  {
    if w.labelsOf(seed).Some? {
      SeedVisitsNew(w, before, seed, w.labelsOf(seed).value);
    }
  }

  lemma VisitsOfSound(w: World, before: seq<Visit>, seed: nat, i: nat, x: Visit)
    requires i < |VisitsOf(w, before, seed)| && VisitsOf(w, before, seed)[i] == x
    ensures x.seed == seed && VisitSound(w, |before| + i, x)
  {
    var labels := w.labelsOf(seed).value;
    SeedVisitsSound(w, before, seed, labels, labels, i);
  }

  lemma VisitsJoin(before: seq<Visit>, here: seq<Visit>)
    requires NoDuplicates(LabelsIn(before)) && NoDuplicates(LabelsIn(here))
    requires forall l :: l in LabelsIn(here) ==> l !in LabelsIn(before)
    ensures NoDuplicates(LabelsIn(before + here))
  {
    LabelsConcat(before, here);
    DistinctConcat(LabelsIn(before), LabelsIn(here));
  }

  /** Over the whole pass no label is browsed twice. */
  lemma {:induction false} EachLabelOnce(w: World, n: nat)
    ensures NoDuplicates(LabelsIn(Pass(w, n)))
  {
    if n > 0 {
      EachLabelOnce(w, n - 1);
      VisitsOfSpec(w, Pass(w, n - 1), n - 1);
      VisitsJoin(Pass(w, n - 1), VisitsOf(w, Pass(w, n - 1), n - 1));
    }
  }

  /** Every visit belongs to a label of one of the seeds walked. */
  lemma {:induction false} VisitsAreSound(w: World, n: nat, v: nat, x: Visit)
    requires v < |Pass(w, n)| && Pass(w, n)[v] == x
    ensures VisitSound(w, v, x) && x.seed < n
  {
    var before := Pass(w, n - 1);
    if v < |before| {
      VisitsAreSound(w, n - 1, v, x);
    } else {
      VisitsOfSound(w, before, n - 1, v - |before|, x);
    }
  }

  /** Which writes eligible releases only, so nothing excluded and nothing too old, and
      leaves out an eligible one only for three others or a failed write. */
  lemma VisitScans(w: World, v: nat, x: Visit)
    requires VisitSound(w, v, x) && x.scan.Some?
    ensures w.browse(v).Some? && ScanSound(w, w.browse(v).value, x.scan.value)
  {
    ScanIsSound(w, v, w.browse(v).value);
  }

  /** A release written by a visit is not excluded and has a date, at most 365 days before
      the pass. */
  lemma WrittenIsRecent(w: World, v: nat, x: Visit, r: Release)
    requires VisitSound(w, v, x) && x.scan.Some? && r in x.scan.value.written
    ensures r.mbid !in w.excluded && DayOfRelease(r).Some?
    ensures w.started - DayOfRelease(r).value * 86400 <= 365 * 86400
  {
    VisitScans(w, v, x);
    assert r in x.scan.value.written + x.scan.value.failed;
  }

  /** With label budget left over, a seed leaves none of its labels unprocessed. */
  lemma SeedExhausted(w: World, n: nat, l: Label)
    requires w.labelsOf(n).Some? && l in w.labelsOf(n).value
    ensures l.mbid in LabelsIn(Pass(w, n + 1)) || |VisitsOf(w, Pass(w, n), n)| == 3
  {
    var before, here := Pass(w, n), VisitsOf(w, Pass(w, n), n);
    SeedVisitsExhaust(w, before, n, w.labelsOf(n).value, l);
    VisitsOfSpec(w, before, n);
    LabelsConcat(before, here);
  }

  // ── the writes of a pass ──

  function Recency(daysOld: real): real {
    var age := if daysOld < 0.0 then 0.0 else daysOld;
    var weight := 1.0 - age / WINDOW_DAYS as real;
    if weight < MIN_RECENCY then MIN_RECENCY else weight
  }

  function Weight(seedScore: real): real {
    1.0 + seedScore / 10.0
  }

  function Score(seedScore: real, daysOld: real): real {
    Weight(seedScore) * Recency(daysOld)
  }

  function WriteOf(r: Release, seedScore: real, started: Time): Write {
    Write(r.mbid, if DayOfRelease(r).Some? then Score(seedScore, DaysOld(r, started)) else 0.0)
  }

  /** The recency falls over 273.75 days from 1 to its floor of 0.25. */
  lemma RecencyIs(daysOld: real)
    ensures Recency(daysOld)
         == if daysOld <= 0.0 then 1.0 else if daysOld <= 273.75 then 1.0 - daysOld / 365.0 else 0.25
  {
  }

  /** The score of a written candidate: 1 plus a tenth of the seed's score, times the
      recency of the release. */
  lemma CandidateScore(seeds: seq<Seed>, x: Visit, started: Time, i: nat, age: real)
    requires x.seed < |seeds| && x.scan.Some? && i < |x.scan.value.written|
    requires DayOfRelease(x.scan.value.written[i]).Some?
    requires age == (started - DayOfRelease(x.scan.value.written[i]).value * 86400) as real / 86400.0
    ensures |VisitWrites(seeds, x, started)| == |x.scan.value.written|
    ensures var c := VisitWrites(seeds, x, started)[i];
      && c.mbid == x.scan.value.written[i].mbid
      && c.score == (1.0 + seeds[x.seed].score / 10.0)
                    * (if age <= 0.0 then 1.0 else if age <= 273.75 then 1.0 - age / 365.0 else 0.25)
  {
    RecencyIs(age);
  }

  lemma ProductOrder(f: real, a: real, b: real)
    requires f >= 0.0 && a <= b
    ensures f * a <= f * b
  {
    assert f * (b - a) >= 0.0;
  }

  ghost predicate NewerNeverLower(seedScore: real) {
    forall older, newer :: older >= newer ==> Score(seedScore, older) <= Score(seedScore, newer)
  }

  lemma ScoresOrdered(seedScore: real, older: real, newer: real)
    requires seedScore >= -10.0 && older >= newer
    ensures Score(seedScore, older) <= Score(seedScore, newer)
  {
    RecencyIs(older);
    RecencyIs(newer);
    ProductOrder(Weight(seedScore), Recency(older), Recency(newer));
  }

  /** A newer release never scores lower, exactly for seeds of at least -10. */
  lemma NewerScoresIff(seedScore: real)
    ensures NewerNeverLower(seedScore) <==> seedScore >= -10.0
  {
    if seedScore >= -10.0 {
      forall older: real, newer: real | older >= newer
        ensures Score(seedScore, older) <= Score(seedScore, newer)
      {
        ScoresOrdered(seedScore, older, newer);
      }
    } else {
      var f := Weight(seedScore);
      RecencyIs(365.0);
      RecencyIs(0.0);
      assert f * 0.25 > f * 1.0;
      assert Score(seedScore, 365.0) > Score(seedScore, 0.0);
    }
  }

  function ScoreOf(seeds: seq<Seed>, i: nat): real {
    if i < |seeds| then seeds[i].score else 0.0
  }

  function VisitWrites(seeds: seq<Seed>, x: Visit, started: Time): seq<Write> {
    if x.scan.None? then [] else
    var rs := x.scan.value.written;
    seq(|rs|, i requires 0 <= i < |rs| => WriteOf(rs[i], ScoreOf(seeds, x.seed), started))
  }

  function PassWrites(seeds: seq<Seed>, visits: seq<Visit>, started: Time): seq<Write> {
    if visits == [] then [] else
    PassWrites(seeds, visits[..|visits| - 1], started) + VisitWrites(seeds, visits[|visits| - 1], started)
  }

  lemma WritesAppend(seeds: seq<Seed>, visits: seq<Visit>, x: Visit, started: Time)
    ensures PassWrites(seeds, visits + [x], started)
         == PassWrites(seeds, visits, started) + VisitWrites(seeds, x, started)
  {
    assert (visits + [x])[..|visits|] == visits;
  }

  lemma {:induction false} WritesBudget(seeds: seq<Seed>, visits: seq<Visit>, started: Time)
    requires forall x :: x in visits && x.scan.Some? ==> |x.scan.value.written| <= MAX_RELEASES_PER_LABEL
    ensures |PassWrites(seeds, visits, started)| <= MAX_RELEASES_PER_LABEL * |visits|
  {
    if visits != [] {
      WritesBudget(seeds, visits[..|visits| - 1], started);
      assert visits[|visits| - 1] in visits;
    }
  }

  lemma {:induction false} VisitBudget(w: World, n: nat)
    ensures |Pass(w, n)| <= MAX_LABELS_PER_SEED * n
  {
    if n > 0 {
      VisitBudget(w, n - 1);
      VisitsOfSpec(w, Pass(w, n - 1), n - 1);
    }
  }

  /** The pass stays within its nested budgets: 15 seeds make at most 135 writes. */
  lemma PassBudget(w: World, seeds: seq<Seed>, n: nat)
    ensures |Pass(w, n)| <= 3 * n
    ensures |PassWrites(seeds, Pass(w, n), w.started)| <= 3 * |Pass(w, n)|
    ensures n <= 15 ==> |PassWrites(seeds, Pass(w, n), w.started)| <= 135
  {
    VisitBudget(w, n);
    forall x | x in Pass(w, n) && x.scan.Some?
      ensures |x.scan.value.written| <= MAX_RELEASES_PER_LABEL
    {
      var v: nat :| v < |Pass(w, n)| && Pass(w, n)[v] == x;
      VisitsAreSound(w, n, v, x);
      VisitScans(w, v, x);
    }
    WritesBudget(seeds, Pass(w, n), w.started);
  }

  // ── the counters ──

  function VisitErrors(x: Visit): nat {
    if x.scan.None? then 1 else |x.scan.value.failed|
  }

  function ErrorsIn(visits: seq<Visit>): nat {
    if visits == [] then 0 else ErrorsIn(visits[..|visits| - 1]) + VisitErrors(visits[|visits| - 1])
  }

  /** Seeds whose labels could not be found. */
  function LostSeeds(w: World, n: nat): nat {
    if n == 0 then 0 else LostSeeds(w, n - 1) + if w.labelsOf(n - 1).None? then 1 else 0
  }

  function CountersOf(w: World, seeds: seq<Seed>, n: nat, visits: seq<Visit>): Counters {
    Counters(n, |visits|, |PassWrites(seeds, visits, w.started)|, 0, LostSeeds(w, n) + ErrorsIn(visits))
  }

  lemma ErrorsAppend(visits: seq<Visit>, x: Visit)
    ensures ErrorsIn(visits + [x]) == ErrorsIn(visits) + VisitErrors(x)
  {
    assert (visits + [x])[..|visits|] == visits;
  }

  /** The table and the counters after n seeds and some visits, from table t. */
  ghost predicate Booked(t: CandidateRows, w: World, seeds: seq<Seed>, n: nat, visits: seq<Visit>, t': CandidateRows,
                         c: Counters) {
    t' == Put(t, PassWrites(seeds, visits, w.started)) && c == CountersOf(w, seeds, n, visits)
  }

  lemma BookVisit(t: CandidateRows, w: World, seeds: seq<Seed>, n: nat, visits: seq<Visit>, t': CandidateRows,
                  c: Counters, x: Visit)
    requires Booked(t, w, seeds, n, visits, t', c)
    ensures Booked(t, w, seeds, n, visits + [x], Put(t', VisitWrites(seeds, x, w.started)),
                   CountVisit(c, seeds, x, w.started))
  {
    WritesAppend(seeds, visits, x, w.started);
    PutConcat(t, PassWrites(seeds, visits, w.started), VisitWrites(seeds, x, w.started));
    ErrorsAppend(visits, x);
  }

  lemma BookSeed(t: CandidateRows, w: World, seeds: seq<Seed>, n: nat, visits: seq<Visit>, t': CandidateRows,
                 c: Counters)
    requires Booked(t, w, seeds, n, visits, t', c)
    ensures var lost := if w.labelsOf(n).None? then 1 else 0;
      Booked(t, w, seeds, n + 1, visits, t', c.(seedsScanned := c.seedsScanned + 1, errors := c.errors + lost))
  {
  }

  function CountVisit(c: Counters, seeds: seq<Seed>, x: Visit, started: Time): Counters {
    c.(discovered := c.discovered + 1, candidatesNew := c.candidatesNew + |VisitWrites(seeds, x, started)|,
       errors := c.errors + VisitErrors(x))
  }

  // ── the loops ──

  /** A full budget tries nothing more. */
  lemma {:induction false} FullScan(w: World, v: nat, rgs: seq<Release>, i: nat)
    requires i <= |rgs| && |ScanOf(w, v, rgs[..i]).written| >= MAX_RELEASES_PER_LABEL
    ensures ScanOf(w, v, rgs) == ScanOf(w, v, rgs[..i])
  {
    if i < |rgs| {
      var front := rgs[..|rgs| - 1];
      assert front[..i] == rgs[..i];
      FullScan(w, v, front, i);
    } else {
      assert rgs[..i] == rgs;
    }
  }

  lemma ScanStep(w: World, v: nat, rgs: seq<Release>, i: nat)
    requires i < |rgs|
    ensures var before := ScanOf(w, v, rgs[..i]);
      ScanOf(w, v, rgs[..i + 1])
        == if |before.written| >= MAX_RELEASES_PER_LABEL || !Eligible(w, rgs[i]) then before
           else if w.write(v, i) == Written then before.(written := before.written + [rgs[i]])
           else before.(failed := before.failed + [rgs[i]])
  {
    assert rgs[..i + 1][..i] == rgs[..i];
  }

  /** The release loop of one label. */
  method WriteReleases(w: World, v: nat, rgs: seq<Release>) returns (scan: Scan, errors: nat)
    ensures scan == ScanOf(w, v, rgs) && errors == |scan.failed|
  {
    scan, errors := Scan([], []), 0;
    assert rgs[..0] == [];
    for i := 0 to |rgs|
      invariant scan == ScanOf(w, v, rgs[..i]) && errors == |scan.failed|
    {
      if |scan.written| >= MAX_RELEASES_PER_LABEL {
        FullScan(w, v, rgs, i);
        return;
      }
      ScanStep(w, v, rgs, i);
      if rgs[i].mbid in w.excluded {
        continue;
      }
      var date := ParseDate(rgs[i].firstReleaseDate);
      if date.None? || DayNumber(date.value) * DAY < w.started - RECENCY_WINDOW {
        continue;
      }
      if w.write(v, i) != Written {
        scan, errors := scan.(failed := scan.failed + [rgs[i]]), errors + 1;
        continue;
      }
      scan := scan.(written := scan.written + [rgs[i]]);
    }
    assert rgs[..|rgs|] == rgs;
  }

  lemma {:induction false} FullSeed(w: World, before: seq<Visit>, seed: nat, labels: seq<Label>, i: nat)
    requires i <= |labels| && |SeedVisits(w, before, seed, labels[..i])| >= MAX_LABELS_PER_SEED
    ensures SeedVisits(w, before, seed, labels) == SeedVisits(w, before, seed, labels[..i])
  {
    if i < |labels| {
      var front := labels[..|labels| - 1];
      assert front[..i] == labels[..i];
      FullSeed(w, before, seed, front, i);
    } else {
      assert labels[..i] == labels;
    }
  }

  /** processed holds the labels of all visits so far. */
  ghost predicate Processed(visits: seq<Visit>, processed: set<string>) {
    processed == Elements(LabelsIn(visits))
  }

  lemma ProcessedStep(visits: seq<Visit>, processed: set<string>, x: Visit)
    requires Processed(visits, processed)
    ensures Processed(visits + [x], processed + {x.lbl.mbid})
  {
    LabelsAppend(visits, x);
    ElementsAppend(LabelsIn(visits), x.lbl.mbid);
  }

  /** The visits after the first i labels of a seed. */
  ghost function SoFar(w: World, before: seq<Visit>, seed: nat, labels: seq<Label>, i: nat): seq<Visit>
    requires i <= |labels|
  {
    before + SeedVisits(w, before, seed, labels[..i])
  }

  lemma SoFarStep(w: World, before: seq<Visit>, seed: nat, labels: seq<Label>, i: nat, processed: set<string>)
    requires i < |labels| && Processed(SoFar(w, before, seed, labels, i), processed)
    ensures var visits, l := SoFar(w, before, seed, labels, i), labels[i];
      SoFar(w, before, seed, labels, i + 1)
        == if |visits| - |before| >= MAX_LABELS_PER_SEED || l.mbid in processed then visits
           else visits + [VisitLabel(w, |visits|, seed, l)]
  {
    assert labels[..i + 1][..i] == labels[..i];
    var here := SeedVisits(w, before, seed, labels[..i]);
    LabelsConcat(before, here);
    var x := VisitLabel(w, |before| + |here|, seed, labels[i]);
    assert before + (here + [x]) == before + here + [x];
  }

  lemma SoFarEnds(w: World, before: seq<Visit>, seed: nat, labels: seq<Label>, i: nat)
    requires i <= |labels|
    requires i == |labels| || |SoFar(w, before, seed, labels, i)| - |before| >= MAX_LABELS_PER_SEED
    ensures SoFar(w, before, seed, labels, i) == before + SeedVisits(w, before, seed, labels)
  {
    if i == |labels| {
      assert labels[..i] == labels;
    } else {
      FullSeed(w, before, seed, labels, i);
    }
  }

  lemma PassStep(w: World, n: nat)
    ensures Pass(w, n + 1)
         == if w.labelsOf(n).None? then Pass(w, n)
            else Pass(w, n) + SeedVisits(w, Pass(w, n), n, w.labelsOf(n).value)
  {
  }

  class Service {
    var candidates: CandidateRows

    constructor ()
      ensures candidates == map[]
    {
      candidates := map[];
    }

    method BrowseLabel(w: World, seeds: seq<Seed>, v: nat, seed: nat, l: Label, c: Counters)
        returns (x: Visit, c': Counters)
      modifies this
      ensures x == VisitLabel(w, v, seed, l)
      ensures candidates == Put(old(candidates), VisitWrites(seeds, x, w.started))
      ensures c' == CountVisit(c, seeds, x, w.started)
    {
      c' := c.(discovered := c.discovered + 1);
      var rgs := w.browse(v);
      if rgs.None? {
        return Visit(seed, l, None), c'.(errors := c'.errors + 1);
      }
      var scan, errors := WriteReleases(w, v, rgs.value);
      x := Visit(seed, l, Some(scan));
      var inserted;
      candidates, inserted := UpsertAll(candidates, VisitWrites(seeds, x, w.started));
      c' := c'.(candidatesNew := c'.candidatesNew + inserted, errors := c'.errors + errors);
    }

    /** The label loop of seed n; before are the visits of the seeds walked already. */
    method VisitSeed(w: World, seeds: seq<Seed>, n: nat, labels: seq<Label>, ghost t: CandidateRows,
                     before: seq<Visit>, processed: set<string>, c: Counters)
      returns (visits: seq<Visit>, processed': set<string>, c': Counters)
      requires Processed(before, processed) && Booked(t, w, seeds, n + 1, before, candidates, c)
      modifies this
      ensures visits == before + SeedVisits(w, before, n, labels)
      ensures Processed(visits, processed') && Booked(t, w, seeds, n + 1, visits, candidates, c')
    {
      visits, processed', c' := before, processed, c;
      var picked := 0;
      assert labels[..0] == [] && before + [] == before;
      for i := 0 to |labels|
        invariant picked == |visits| - |before| && visits == SoFar(w, before, n, labels, i)
        invariant Processed(visits, processed') && Booked(t, w, seeds, n + 1, visits, candidates, c')
      {
        if picked >= MAX_LABELS_PER_SEED {
          SoFarEnds(w, before, n, labels, i);
          return;
        }
        SoFarStep(w, before, n, labels, i, processed');
        if labels[i].mbid in processed' {
          continue;
        }
        ghost var table, counters := candidates, c';
        var x;
        x, c' := BrowseLabel(w, seeds, |visits|, n, labels[i], c');
        BookVisit(t, w, seeds, n + 1, visits, table, counters, x);
        ProcessedStep(visits, processed', x);
        visits, processed', picked := visits + [x], processed' + {labels[i].mbid}, picked + 1;
      }
      SoFarEnds(w, before, n, labels, |labels|);
    }

    /** The body of the loop over the seeds. */
    method NextSeed(w: World, seeds: seq<Seed>, n: nat, ghost t: CandidateRows, before: seq<Visit>,
                    processed: set<string>, c: Counters)
      returns (visits: seq<Visit>, processed': set<string>, c': Counters)
      requires before == Pass(w, n) && Processed(before, processed) && Booked(t, w, seeds, n, before, candidates, c)
      modifies this
      ensures visits == Pass(w, n + 1) && Processed(visits, processed')
           && Booked(t, w, seeds, n + 1, visits, candidates, c')
    {
      BookSeed(t, w, seeds, n, before, candidates, c);
      PassStep(w, n);
      c' := c.(seedsScanned := c.seedsScanned + 1);
      var labels := w.labelsOf(n);
      if labels.None? {
        return before, processed, c'.(errors := c'.errors + 1);
      }
      visits, processed', c' := VisitSeed(w, seeds, n, labels.value, t, before, processed, c');
    }

    /** The loop over the seeds. */
    method Walk(w: World, seeds: seq<Seed>) returns (visits: seq<Visit>, c: Counters)
      modifies this
      ensures visits == Pass(w, |seeds|) && Booked(old(candidates), w, seeds, |seeds|, visits, candidates, c)
    {
      visits, c := [], Counters(0, 0, 0, 0, 0);
      var processed: set<string> := {};
      for n := 0 to |seeds|
        invariant visits == Pass(w, n) && Processed(visits, processed)
        invariant Booked(old(candidates), w, seeds, n, visits, candidates, c)
      {
        visits, processed, c := NextSeed(w, seeds, n, old(candidates), visits, processed, c);
      }
    }

    /** One pass. The seed and exclusion queries may fail; what fails later is counted. */
    method Sync(w: World, seeds: Option<seq<Seed>>, excludedOk: bool) returns (result: RunResult, visits: seq<Visit>)
      modifies this
      ensures result.status == Failed <==> seeds.None? || (seeds.value != [] && !excludedOk)
      ensures result.status == Failed ==> candidates == old(candidates) && visits == []
      ensures result.status != Failed ==> visits == Pass(w, |seeds.value|)
      ensures result.status != Failed ==>
                Booked(old(candidates), w, seeds.value, |seeds.value|, visits, candidates, result.counters)
      ensures result.status == Done <==> result.status != Failed && result.counters.errors == 0
    {
      var c := Counters(0, 0, 0, 0, 0);
      visits := [];
      if seeds.None? {
        return RunResult(Failed, c), [];
      }
      if |seeds.value| == 0 {
        return RunResult(Done, c), [];
      }
      if !excludedOk {
        return RunResult(Failed, c), [];
      }
      visits, c := Walk(w, seeds.value);
      var status := Done;
      if c.errors > 0 {
        status := Partial;
      }
      result := RunResult(status, c);
    }
  }

  // ── which labels a seed has ──

  function Ids(labels: seq<Label>): seq<string> {
    seq(|labels|, i requires 0 <= i < |labels| => labels[i].mbid)
  }

  /** The release groups whose labels are looked up: the first few as listed. */
  function Probed(rgs: seq<Release>): seq<Release> {
    rgs[..Min(SEED_RELEASES_PROBED, |rgs|)]
  }

  /** Ids of all labels the lookups of the first n release groups yield. */
  function IdsOfReleases(n: nat, lookup: nat -> Option<seq<Label>>): set<string> {
    if n == 0 then {} else
    var before, l := IdsOfReleases(n - 1, lookup), lookup(n - 1);
    if l.None? then before else before + Elements(Ids(l.value))
  }

  /** Known labels of the artist if there are any, else those of the probed release
      groups of MusicBrainz's listing; every label once, in no particular order. */
  method CollectLabels(cached: seq<Label>, rgs: Option<seq<Release>>, lookup: nat -> Option<seq<Label>>)
      returns (out: Option<seq<Label>>)
    ensures out.None? <==> cached == [] && rgs.None?
    ensures out.Some? ==> NoDuplicates(Ids(out.value))
    ensures cached != [] ==> Elements(Ids(out.value)) == Elements(Ids(cached))
    ensures cached == [] && rgs.Some? ==> Elements(Ids(out.value)) == IdsOfReleases(|Probed(rgs.value)|, lookup)
  {
    var seen := SeeAll(map[], cached);
    assert cached != [] ==> Ids(cached)[0] in Elements(Ids(cached));
    if seen.Keys != {} {
      var all := LabelValues(seen);
      return Some(all);
    }
    if rgs.None? {
      return None;
    }
    var probed := rgs.value;
    if |probed| > SEED_RELEASES_PROBED {
      probed := probed[..SEED_RELEASES_PROBED];
    }
    assert |probed| == |Probed(rgs.value)|;
    for i := 0 to |probed|
      invariant seen.Keys == IdsOfReleases(i, lookup)
      invariant forall m :: m in seen ==> seen[m].mbid == m
    {
      var labels := lookup(i);
      if labels.Some? {
        seen := SeeAll(seen, labels.value);
      }
    }
    var all := LabelValues(seen);
    out := Some(all);
  }

  method SeeAll(seen: map<string, Label>, labels: seq<Label>) returns (seen': map<string, Label>)
    requires forall m :: m in seen ==> seen[m].mbid == m
    ensures forall m :: m in seen' ==> seen'[m].mbid == m
    ensures seen'.Keys == seen.Keys + Elements(Ids(labels))
  {
    seen' := seen;
    for i := 0 to |labels|
      invariant forall m :: m in seen' ==> seen'[m].mbid == m
      invariant seen'.Keys == seen.Keys + Elements(Ids(labels[..i]))
    {
      assert Ids(labels[..i + 1]) == Ids(labels[..i]) + [labels[i].mbid];
      ElementsAppend(Ids(labels[..i]), labels[i].mbid);
      if labels[i].mbid !in seen' {
        seen' := seen'[labels[i].mbid := labels[i]];
      }
    }
    assert labels[..|labels|] == labels;
  }

  method LabelValues(seen: map<string, Label>) returns (out: seq<Label>)
    requires forall m :: m in seen ==> seen[m].mbid == m
    ensures NoDuplicates(Ids(out)) && Elements(Ids(out)) == seen.Keys
  {
    out := [];
    var rest := seen.Keys;
    while rest != {}
      invariant rest <= seen.Keys
      invariant NoDuplicates(Ids(out)) && Elements(Ids(out)) == seen.Keys - rest
    {
      var m :| m in rest;
      assert m !in Elements(Ids(out));
      assert Ids(out + [seen[m]]) == Ids(out) + [m];
      ElementsAppend(Ids(out), m);
      out := out + [seen[m]];
      rest := rest - {m};
    }
  }

  // ── are the probed release groups the newest? ──

  ghost predicate NotOlder(r: Release, s: Release) {
    DayOfRelease(r).Some? && DayOfRelease(s).Some? ==> DayOfRelease(r).value >= DayOfRelease(s).value
  }

  /** No release group left unprobed is younger than a probed one. */
  ghost predicate NewestProbed(rgs: seq<Release>) {
    forall i, j :: 0 <= i < |Probed(rgs)| <= j < |rgs| ==> NotOlder(rgs[i], rgs[j])
  }

  /** A listing that comes newest first, by its date strings, is probed as announced. */
  lemma SortedListingProbesNewest(rgs: seq<Release>)
    requires forall i, j :: 0 <= i < j < |rgs| ==> LexLe(rgs[j].firstReleaseDate, rgs[i].firstReleaseDate)
    ensures NewestProbed(rgs)
  {
    forall i, j | 0 <= i < |Probed(rgs)| <= j < |rgs|
      ensures NotOlder(rgs[i], rgs[j])
    {
      assert LexLe(rgs[j].firstReleaseDate, rgs[i].firstReleaseDate);
      if DayOfRelease(rgs[i]).Some? && DayOfRelease(rgs[j]).Some? {
        StringOrderRefinesDates(rgs[j].firstReleaseDate, rgs[i].firstReleaseDate);
      }
    }
  }

  lemma OldAndYoung() returns (older: Release, younger: Release)
    ensures !NotOlder(older, younger)
  {
    older, younger := Release("a", "", "1999"), Release("b", "", "2024");
    var d, e := Date(1999, 1, 1), Date(2024, 1, 1);
    assert ParseDate(older.firstReleaseDate) == Some(d) && ParseDate(younger.firstReleaseDate) == Some(e);
    DayNumberOrders(d, e);
  }

  /** An older release listed first, younger ones behind it. */
  function OldFirst(n: nat, older: Release, younger: Release): seq<Release> {
    seq(n, i requires 0 <= i < n => if i == 0 then older else younger)
  }

  /** With four release groups or more the older one is probed and a younger one is not. */
  lemma OldProbedFirst(n: nat, older: Release, younger: Release)
    requires n > SEED_RELEASES_PROBED && !NotOlder(older, younger)
    ensures |OldFirst(n, older, younger)| == n && !NewestProbed(OldFirst(n, older, younger))
  {
    var rgs := OldFirst(n, older, younger);
    assert |Probed(rgs)| == SEED_RELEASES_PROBED;
    assert rgs[0] == older && rgs[SEED_RELEASES_PROBED] == younger;
    assert !NotOlder(rgs[0], rgs[SEED_RELEASES_PROBED]);
  }

  ghost predicate EveryListingFits(n: nat) {
    forall rgs: seq<Release> :: |rgs| == n ==> NewestProbed(rgs)
  }

  /** Taking the first three as listed probes the newest, whatever the listing's order,
      exactly if it has at most three. */
  lemma ProbesNewestIff(n: nat)
    ensures EveryListingFits(n) <==> n <= 3
  {
    if n > SEED_RELEASES_PROBED {
      var older, younger := OldAndYoung();
      OldProbedFirst(n, older, younger);
    }
  }
}
