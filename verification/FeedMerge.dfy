/**
 The Discover section of the feed (backend/internal/http/handlers/feed.go):
 per-source lists cut to their 50 best rows are merged into one card per subject,
 sorted by score and cut to 50 again.
 */
module FeedMerge {
  import opened Basics
  import opened Sorting

  datatype Subject = Subject(kind: string, id: string)

  /** detail stands for the display columns carried along unchanged. */
  datatype Card = Card(subject: Subject, score: real, source: string, detail: string, sources: seq<string>)

  const FEED_LIMIT: nat := 50

  // ── one source: ORDER BY raw_score DESC LIMIT ──

  /** discover_candidates of one user; the key is its UNIQUE constraint. */
  datatype CandidateKey = CandidateKey(subject: Subject, source: string)
  datatype Candidate = Candidate(score: real, detail: string, expiresAt: Option<Time>)
  type Candidates = map<CandidateKey, Candidate>

  predicate Live(c: Candidate, now: Time) {
    c.expiresAt.None? || c.expiresAt.value > now
  }

  function CardOf(k: CandidateKey, c: Candidate): Card {
    Card(k.subject, c.score, k.source, c.detail, [])
  }

  function LiveCards(t: Candidates, source: string, now: Time): set<Card> {
    set k | k in t && k.source == source && Live(t[k], now) :: CardOf(k, t[k])
  }

  /** A possible answer of the query: which rows win a tie at the cut is the database's choice. */
  ghost predicate TopRows(cards: seq<Card>, rows: set<Card>, limit: nat) {
    && NoDuplicates(cards)
    && (forall c :: c in cards ==> c in rows)
    && (forall i, j :: 0 <= i < j < |cards| ==> cards[i].score >= cards[j].score)
    && |cards| == Min(limit, |rows|)
    && (forall r, c :: r in rows && r !in cards && c in cards ==> c.score >= r.score)
  }

  // ── merging ──

  /** The per-subject aggregator: best row, contributing sources in order. */
  datatype Agg = Agg(card: Card, sources: seq<string>)

  function Find(aggs: seq<Agg>, k: Subject): (i: nat)
    ensures i <= |aggs|
    ensures i < |aggs| ==> aggs[i].card.subject == k
    ensures forall j :: 0 <= j < i ==> aggs[j].card.subject != k
  {
    if aggs == [] then 0
    else if aggs[0].card.subject == k then 0
    else 1 + Find(aggs[1..], k)
  }

  function Absorbed(a: Agg, c: Card): Agg {
    var sources := if c.source in a.sources then a.sources else a.sources + [c.source];
    Agg(if c.score > a.card.score then c.(sources := sources) else a.card, sources)
  }

  function Absorb(aggs: seq<Agg>, c: Card): seq<Agg> {
    var i := Find(aggs, c.subject);
    if i == |aggs| then aggs + [Agg(c, [c.source])] else aggs[i := Absorbed(aggs[i], c)]
  }

  /** One aggregator per subject, in order of first appearance. */
  function AbsorbAll(rows: seq<Card>): seq<Agg> {
    if rows == [] then [] else Absorb(AbsorbAll(rows[..|rows| - 1]), rows[|rows| - 1])
  }

  function Shown(a: Agg): Card {
    if |a.sources| > 1 then a.card.(sources := a.sources) else a.card
  }

  function ByScore(): (Agg, Agg) -> bool {
    (a: Agg, b: Agg) => a.card.score >= b.card.score
  }

  function Ranked(rows: seq<Card>): seq<Agg> {
    StableSort(AbsorbAll(rows), ByScore())
  }

  function ShownAll(aggs: seq<Agg>): seq<Card> {
    seq(|aggs|, i requires 0 <= i < |aggs| => Shown(aggs[i]))
  }

  /** The merge before the outer cut. */
  function Merged(rows: seq<Card>): seq<Card> {
    ShownAll(Ranked(rows))
  }

  function Cut(cards: seq<Card>): seq<Card> {
    cards[..Min(FEED_LIMIT, |cards|)]
  }

  function Flatten(lists: seq<seq<Card>>): seq<Card> {
    if lists == [] then [] else Flatten(lists[..|lists| - 1]) + lists[|lists| - 1]
  }

  // ── what the rows say about a subject ──

  /** Position of the first row about k, |rows| if there is none. */
  ghost function First(rows: seq<Card>, k: Subject): (f: nat)
    ensures f <= |rows|
    ensures f < |rows| ==> rows[f].subject == k
    ensures forall q :: 0 <= q < f ==> rows[q].subject != k
  {
    if rows == [] then 0
    else if rows[0].subject == k then 0
    else 1 + First(rows[1..], k)
  }

  /** Row w is the first among the best-scoring rows of subject k. */
  ghost predicate WinsAt(rows: seq<Card>, k: Subject, w: int) {
    && 0 <= w < |rows| && rows[w].subject == k
    && (forall q :: 0 <= q < |rows| && rows[q].subject == k ==> rows[q].score <= rows[w].score)
    && (forall q :: 0 <= q < w && rows[q].subject == k ==> rows[q].score < rows[w].score)
  }

  /** Sources that mention k, in order of first mention. */
  ghost function Mentions(rows: seq<Card>, k: Subject): seq<string> {
    if rows == [] then [] else
    var before := Mentions(rows[..|rows| - 1], k);
    var c := rows[|rows| - 1];
    if c.subject == k && c.source !in before then before + [c.source] else before
  }

  /** Equal but for the sources a card displays. */
  ghost predicate SameRow(a: Card, b: Card) {
    a.(sources := b.sources) == b
  }

  ghost predicate Summarises(rows: seq<Card>, a: Agg) {
    && a.sources == Mentions(rows, a.card.subject)
    && exists w :: WinsAt(rows, a.card.subject, w) && SameRow(a.card, rows[w])
  }

  ghost predicate InFirstOrder(rows: seq<Card>, aggs: seq<Agg>) {
    forall i, j :: 0 <= i < j < |aggs| ==> First(rows, aggs[i].card.subject) < First(rows, aggs[j].card.subject)
  }

  ghost predicate AggsOk(rows: seq<Card>, aggs: seq<Agg>) {
    && (forall i :: 0 <= i < |aggs| ==> Summarises(rows, aggs[i]))
    && (forall i, j :: 0 <= i < j < |aggs| ==> aggs[i].card.subject != aggs[j].card.subject)
    && (forall q :: 0 <= q < |rows| ==> Find(aggs, rows[q].subject) < |aggs|)
    && InFirstOrder(rows, aggs)
  }

  lemma WinsAtStep(rows: seq<Card>, k: Subject, w: int, c: Card)
    requires WinsAt(rows, k, w)
    ensures WinsAt(rows + [c], k, if c.subject == k && c.score > rows[w].score then |rows| else w)
  {
  }

  lemma FirstStep(rows: seq<Card>, k: Subject, c: Card)
    ensures First(rows + [c], k) == if First(rows, k) < |rows| then First(rows, k)
                                    else if c.subject == k then |rows| else |rows| + 1
  {
    assert forall q :: 0 <= q < |rows| ==> rows[q] == (rows + [c])[q];
    assert (rows + [c])[|rows|] == c;
  }

  lemma SummariesStep(rows: seq<Card>, a: Agg, c: Card)
    requires Summarises(rows, a)
    ensures c.subject != a.card.subject ==> Summarises(rows + [c], a)
    ensures c.subject == a.card.subject ==> Summarises(rows + [c], Absorbed(a, c))
  {
    var k := a.card.subject;
    var w :| WinsAt(rows, k, w) && SameRow(a.card, rows[w]);
    assert (rows + [c])[..|rows|] == rows;
    WinsAtStep(rows, k, w, c);
  }

  lemma NewSubjectWins(rows: seq<Card>, c: Card)
    requires forall q :: 0 <= q < |rows| ==> rows[q].subject != c.subject
    ensures WinsAt(rows + [c], c.subject, |rows|)
  {
    var all := rows + [c];
    assert all[|rows|] == c && forall q :: 0 <= q < |rows| ==> all[q] == rows[q];
  }

  lemma NewSubject(rows: seq<Card>, c: Card)
    requires forall q :: 0 <= q < |rows| ==> rows[q].subject != c.subject
    ensures Summarises(rows + [c], Agg(c, [c.source]))
  {
    NoMentions(rows, c.subject);
    assert (rows + [c])[..|rows|] == rows;
    NewSubjectWins(rows, c);
  }

  lemma {:induction false} NoMentions(rows: seq<Card>, k: Subject)
    requires forall q :: 0 <= q < |rows| ==> rows[q].subject != k
    ensures Mentions(rows, k) == []
  {
    if rows != [] {
      NoMentions(rows[..|rows| - 1], k);
    }
  }

  lemma FindIs(aggs: seq<Agg>, i: int)
    requires 0 <= i < |aggs|
    requires forall i, j :: 0 <= i < j < |aggs| ==> aggs[i].card.subject != aggs[j].card.subject
    ensures Find(aggs, aggs[i].card.subject) == i
  {
  }

  lemma FindIsMember(aggs: seq<Agg>, i: int, k: Subject)
    requires 0 <= i < |aggs| && aggs[i].card.subject == k
    ensures Find(aggs, k) < |aggs|
  {
  }

  lemma AbsorbKeepsSubjects(aggs: seq<Agg>, c: Card)
    ensures var aggs', n := Absorb(aggs, c), Find(aggs, c.subject);
      && |aggs'| == (if n < |aggs| then |aggs| else |aggs| + 1)
      && (forall i :: 0 <= i < |aggs| ==> aggs'[i].card.subject == aggs[i].card.subject)
      && (n == |aggs| ==> aggs'[n].card.subject == c.subject)
  {
  }

  lemma AbsorbSummaries(rows: seq<Card>, aggs: seq<Agg>, c: Card)
    requires AggsOk(rows, aggs)
    ensures forall i :: 0 <= i < |Absorb(aggs, c)| ==> Summarises(rows + [c], Absorb(aggs, c)[i])
  {
    var aggs', n := Absorb(aggs, c), Find(aggs, c.subject);
    forall i | 0 <= i < |aggs'|
      ensures Summarises(rows + [c], aggs'[i])
    {
      if i == |aggs| {
        forall q | 0 <= q < |rows|
          ensures rows[q].subject != c.subject
        {
          var m := Find(aggs, rows[q].subject);
          assert aggs[m].card.subject == rows[q].subject;
        }
        NewSubject(rows, c);
      } else {
        SummariesStep(rows, aggs[i], c);
        FindIs(aggs, i);
      }
    }
  }

  lemma AbsorbCovers(rows: seq<Card>, aggs: seq<Agg>, c: Card)
    requires AggsOk(rows, aggs)
    ensures forall q :: 0 <= q < |rows + [c]| ==> Find(Absorb(aggs, c), (rows + [c])[q].subject) < |Absorb(aggs, c)|
  {
    var aggs' := Absorb(aggs, c);
    AbsorbKeepsSubjects(aggs, c);
    forall q | 0 <= q < |rows + [c]|
      ensures Find(aggs', (rows + [c])[q].subject) < |aggs'|
    {
      var i := if q < |rows| then Find(aggs, rows[q].subject) else Find(aggs, c.subject);
      FindIsMember(aggs', i, (rows + [c])[q].subject);
    }
  }

  lemma SummarisedWasSeen(rows: seq<Card>, a: Agg)
    requires Summarises(rows, a)
    ensures First(rows, a.card.subject) < |rows|
  {
    var w :| WinsAt(rows, a.card.subject, w);
    assert rows[w].subject == a.card.subject;
  }

  lemma FirstOrderStep(rows: seq<Card>, k: Subject, l: Subject, c: Card)
    requires First(rows, k) < |rows| && First(rows, k) < First(rows, l)
    ensures First(rows + [c], k) < First(rows + [c], l)
  {
    FirstStep(rows, k, c);
    FirstStep(rows, l, c);
  }

  lemma AbsorbOrder(rows: seq<Card>, aggs: seq<Agg>, c: Card)
    requires AggsOk(rows, aggs)
    ensures InFirstOrder(rows + [c], Absorb(aggs, c))
  {
    var aggs' := Absorb(aggs, c);
    AbsorbKeepsSubjects(aggs, c);
    forall i, j | 0 <= i < j < |aggs'|
      ensures First(rows + [c], aggs'[i].card.subject) < First(rows + [c], aggs'[j].card.subject)
    {
      SummarisedWasSeen(rows, aggs[i]);
      if j == |aggs| {
        NewSubjectComesLast(rows, aggs, c.subject);
      }
      FirstOrderStep(rows, aggs[i].card.subject, aggs'[j].card.subject, c);
    }
  }

  lemma NewSubjectComesLast(rows: seq<Card>, aggs: seq<Agg>, k: Subject)
    requires forall q :: 0 <= q < |rows| ==> Find(aggs, rows[q].subject) < |aggs|
    requires Find(aggs, k) == |aggs|
    ensures First(rows, k) == |rows|
  {
    forall q | 0 <= q < |rows|
      ensures rows[q].subject != k
    {
    }
  }

  lemma AbsorbDistinct(aggs: seq<Agg>, c: Card)
    requires forall i, j :: 0 <= i < j < |aggs| ==> aggs[i].card.subject != aggs[j].card.subject
    ensures forall i, j :: 0 <= i < j < |Absorb(aggs, c)| ==>
              Absorb(aggs, c)[i].card.subject != Absorb(aggs, c)[j].card.subject
  {
    AbsorbKeepsSubjects(aggs, c);
  }

  lemma {:induction false} AbsorbAllOk(rows: seq<Card>)
    ensures AggsOk(rows, AbsorbAll(rows))
  {
    if rows != [] {
      var front, c := rows[..|rows| - 1], rows[|rows| - 1];
      assert rows == front + [c];
      AbsorbAllOk(front);
      AbsorbSummaries(front, AbsorbAll(front), c);
      AbsorbDistinct(AbsorbAll(front), c);
      AbsorbCovers(front, AbsorbAll(front), c);
      AbsorbOrder(front, AbsorbAll(front), c);
    }
  }

  // ── the merge meets its specification ──

  /** A card shown for its subject: the winning row, listing all contributing sources if there are several. */
  ghost predicate Represents(rows: seq<Card>, card: Card) {
    && (exists w :: WinsAt(rows, card.subject, w) && SameRow(card, rows[w]))
    && (|Mentions(rows, card.subject)| > 1 ==> card.sources == Mentions(rows, card.subject))
  }

  /** Score descending, ties by first appearance. */
  ghost predicate Outranks(rows: seq<Card>, a: Card, b: Card) {
    a.score > b.score || (a.score == b.score && First(rows, a.subject) < First(rows, b.subject))
  }

  ghost predicate IsMerge(rows: seq<Card>, cards: seq<Card>) {
    && (forall i :: 0 <= i < |cards| ==> Represents(rows, cards[i]))
    && (forall i, j :: 0 <= i < j < |cards| ==> cards[i].subject != cards[j].subject)
    && (forall i, j :: 0 <= i < j < |cards| ==> Outranks(rows, cards[i], cards[j]))
    && (forall q :: 0 <= q < |rows| ==> exists i :: 0 <= i < |cards| && cards[i].subject == rows[q].subject)
  }

  lemma ByScoreOrders()
    ensures TotalPreorder(ByScore())
  {
  }

  lemma RankedBasics(rows: seq<Card>)
    ensures var aggs, r := AbsorbAll(rows), Ranked(rows);
      && Sorted(r, ByScore()) && Stable(aggs, r, ByScore()) && NoDuplicates(r)
      && (forall a :: a in aggs <==> a in r)
  {
    var aggs, r := AbsorbAll(rows), Ranked(rows);
    AbsorbAllOk(rows);
    ByScoreOrders();
    StableSortSpec(aggs, ByScore());
    PermutationKeepsElements(aggs, r);
    PermutationStaysDistinct(aggs, r);
  }

  lemma RankedSummary(rows: seq<Card>, i: int)
    requires 0 <= i < |Ranked(rows)|
    ensures Summarises(rows, Ranked(rows)[i])
  {
    RankedBasics(rows);
    AbsorbAllOk(rows);
    assert Ranked(rows)[i] in AbsorbAll(rows);
  }

  lemma RankedPair(rows: seq<Card>, i: int, j: int)
    requires 0 <= i < j < |Ranked(rows)|
    ensures Ranked(rows)[i].card.subject != Ranked(rows)[j].card.subject
    ensures Outranks(rows, Ranked(rows)[i].card, Ranked(rows)[j].card)
  {
    var aggs, r := AbsorbAll(rows), Ranked(rows);
    RankedBasics(rows);
    AbsorbAllOk(rows);
    assert r[i] in aggs && r[j] in aggs && r[i] != r[j];
    assert ByScore()(r[i], r[j]);
    if ByScore()(r[j], r[i]) {
      assert Precedes(aggs, r[i], r[j]);
      var c, d :| 0 <= c < d < |aggs| && aggs[c] == r[i] && aggs[d] == r[j];
      assert First(rows, aggs[c].card.subject) < First(rows, aggs[d].card.subject);
    }
  }

  lemma RankedCovers(rows: seq<Card>, q: int) returns (i: int)
    requires 0 <= q < |rows|
    ensures 0 <= i < |Ranked(rows)| && Ranked(rows)[i].card.subject == rows[q].subject
  {
    var aggs := AbsorbAll(rows);
    RankedBasics(rows);
    AbsorbAllOk(rows);
    var a := aggs[Find(aggs, rows[q].subject)];
    assert a in Ranked(rows);
    i :| 0 <= i < |Ranked(rows)| && Ranked(rows)[i] == a;
  }

  lemma ShownRepresents(rows: seq<Card>, a: Agg)
    requires Summarises(rows, a)
    ensures Represents(rows, Shown(a))
  {
    var w :| WinsAt(rows, a.card.subject, w) && SameRow(a.card, rows[w]);
    assert SameRow(Shown(a), rows[w]);
  }

  /** One card per subject, each the first best-scoring row, sources complete and
      in order, ranked by score with ties by first appearance. */
  lemma MergedSpec(rows: seq<Card>)
    ensures IsMerge(rows, Merged(rows))
  {
    var r, m := Ranked(rows), Merged(rows);
    forall i | 0 <= i < |m|
      ensures Represents(rows, m[i])
    {
      RankedSummary(rows, i);
      ShownRepresents(rows, r[i]);
    }
    forall i, j | 0 <= i < j < |m|
      ensures m[i].subject != m[j].subject && Outranks(rows, m[i], m[j])
    {
      RankedPair(rows, i, j);
    }
    forall q | 0 <= q < |rows|
      ensures exists i :: 0 <= i < |m| && m[i].subject == rows[q].subject
    {
      var i := RankedCovers(rows, q);
      assert m[i].subject == rows[q].subject;
    }
  }

  // ── the inner LIMIT is harmless ──

  /** Subjects with some row scoring at least t. */
  ghost function Reaching(rows: seq<Card>, t: real): set<Subject> {
    set q | 0 <= q < |rows| && rows[q].score >= t :: rows[q].subject
  }

  function SubjectsOf(cards: seq<Card>): seq<Subject> {
    seq(|cards|, i requires 0 <= i < |cards| => cards[i].subject)
  }

  lemma BestOf(rows: seq<Card>, card: Card, t: real)
    requires Represents(rows, card)
    ensures card.subject in Reaching(rows, t) <==> card.score >= t
  {
    var w :| WinsAt(rows, card.subject, w) && SameRow(card, rows[w]);
    if card.score >= t {
      assert rows[w].score >= t && rows[w].subject == card.subject;
    }
  }

  lemma DistinctSubjects(cards: seq<Card>)
    requires forall i, j :: 0 <= i < j < |cards| ==> cards[i].subject != cards[j].subject
    ensures |Elements(SubjectsOf(cards))| == |cards|
  {
    ElementsOfDistinct(SubjectsOf(cards));
  }

  /** In a list ordered by score with distinct subjects, of which r are exactly those
      scoring at least t, position i holds one of them just when r has more than i. */
  lemma CountPrefix(m: seq<Card>, r: set<Subject>, t: real, i: nat)
    requires forall p, q :: 0 <= p < q < |m| ==> m[p].subject != m[q].subject && m[p].score >= m[q].score
    requires forall p :: 0 <= p < |m| ==> (m[p].subject in r <==> m[p].score >= t)
    requires forall k :: k in r ==> k in SubjectsOf(m)
    ensures i < |m| && m[i].score >= t <==> |r| > i
  {
    if i < |m| && m[i].score >= t {
      DistinctSubjects(m[..i + 1]);
      SubsetSize(Elements(SubjectsOf(m[..i + 1])), r);
    } else {
      var top := SubjectsOf(m[..Min(i, |m|)]);
      DistinctSubjects(m[..Min(i, |m|)]);
      forall k | k in r
        ensures k in Elements(top)
      {
        var p :| 0 <= p < |m| && SubjectsOf(m)[p] == k;
        assert p < |top| ==> top[p] == k;
      }
      SubsetSize(r, Elements(top));
    }
  }

  lemma MergedReaching(rows: seq<Card>, t: real, k: Subject)
    requires k in Reaching(rows, t)
    ensures k in SubjectsOf(Merged(rows))
  {
    MergedSpec(rows);
    var q :| 0 <= q < |rows| && rows[q].score >= t && rows[q].subject == k;
    var i :| 0 <= i < |Merged(rows)| && Merged(rows)[i].subject == rows[q].subject;
    assert SubjectsOf(Merged(rows))[i] == k;
  }

  /** The i-th card of the merge scores at least t exactly when more than i subjects reach t. */
  lemma RankByCount(rows: seq<Card>, i: nat, t: real)
    ensures i < |Merged(rows)| && Merged(rows)[i].score >= t <==> |Reaching(rows, t)| > i
  {
    var m := Merged(rows);
    MergedSpec(rows);
    forall p, q | 0 <= p < q < |m|
      ensures m[p].subject != m[q].subject && m[p].score >= m[q].score
    {
      assert Outranks(rows, m[p], m[q]);
    }
    forall p | 0 <= p < |m|
      ensures m[p].subject in Reaching(rows, t) <==> m[p].score >= t
    {
      BestOf(rows, m[p], t);
    }
    forall k | k in Reaching(rows, t)
      ensures k in SubjectsOf(m)
    {
      MergedReaching(rows, t, k);
    }
    CountPrefix(m, Reaching(rows, t), t, i);
  }

  /** The lists readDiscoverMerged reads, one per source, each cut to limit rows. */
  ghost predicate ReadLists(t: Candidates, sources: seq<string>, now: Time, lists: seq<seq<Card>>, limit: nat) {
    |lists| == |sources| && forall i :: 0 <= i < |lists| ==> TopRows(lists[i], LiveCards(t, sources[i], now), limit)
  }

  /** The same lists without a LIMIT. */
  ghost predicate FullLists(t: Candidates, sources: seq<string>, now: Time, lists: seq<seq<Card>>) {
    |lists| == |sources| && forall i :: 0 <= i < |lists| ==>
      TopRows(lists[i], LiveCards(t, sources[i], now), |LiveCards(t, sources[i], now)|)
  }

  lemma {:induction false} FlattenHas(lists: seq<seq<Card>>, c: Card)
    ensures c in Flatten(lists) <==> exists i :: 0 <= i < |lists| && c in lists[i]
  {
    if lists != [] {
      var front := lists[..|lists| - 1];
      FlattenHas(front, c);
      if c in Flatten(lists) {
        if c in Flatten(front) {
          var i :| 0 <= i < |front| && c in front[i];
          assert c in lists[i];
        } else {
          assert c in lists[|lists| - 1];
        }
      } else {
        forall i | 0 <= i < |lists|
          ensures c !in lists[i]
        {
          if i < |front| {
            assert lists[i] == front[i];
          }
        }
      }
    }
  }

  lemma ReachingHas(rows: seq<Card>, c: Card, t: real)
    requires c in rows && c.score >= t
    ensures c.subject in Reaching(rows, t)
  {
    var q :| 0 <= q < |rows| && rows[q] == c;
  }

  lemma FullListHasAll(cards: seq<Card>, rows: set<Card>)
    requires TopRows(cards, rows, |rows|)
    ensures Elements(cards) == rows
  {
    ElementsOfDistinct(cards);
    SubsetOfSameSize(Elements(cards), rows);
  }

  /** Where a cut loses a row reaching t, it has kept FEED_LIMIT subjects that reach t. */
  lemma CutListReaches(cards: seq<Card>, t: Candidates, source: string, now: Time, lost: Card, score: real)
    requires TopRows(cards, LiveCards(t, source, now), FEED_LIMIT)
    requires lost in LiveCards(t, source, now) && lost !in cards && lost.score >= score
    ensures |Reaching(cards, score)| >= FEED_LIMIT
  {
    var rows := LiveCards(t, source, now);
    if |rows| <= FEED_LIMIT {
      FullListHasAll(cards, rows);
    }
    forall i, j | 0 <= i < j < |cards|
      ensures cards[i].subject != cards[j].subject
    {
      assert cards[i] in rows && cards[j] in rows;
    }
    DistinctSubjects(cards);
    forall k | k in Elements(SubjectsOf(cards))
      ensures k in Reaching(cards, score)
    {
      var j :| 0 <= j < |cards| && cards[j].subject == k;
      assert cards[j] in cards;
    }
    SubsetSize(Elements(SubjectsOf(cards)), Reaching(cards, score));
  }

  lemma ReachingMonotone(some: seq<Card>, all: seq<Card>, t: real)
    requires forall c :: c in some ==> c in all
    ensures Reaching(some, t) <= Reaching(all, t)
  {
    forall q | 0 <= q < |some| && some[q].score >= t
      ensures some[q].subject in Reaching(all, t)
    {
      ReachingHas(all, some[q], t);
    }
  }

  lemma CutRowsAreRows(t: Candidates, sources: seq<string>, now: Time, lists: seq<seq<Card>>, full: seq<seq<Card>>,
                       c: Card)
    requires ReadLists(t, sources, now, lists, FEED_LIMIT) && FullLists(t, sources, now, full)
    requires c in Flatten(lists)
    ensures c in Flatten(full)
  {
    FlattenHas(lists, c);
    var i :| 0 <= i < |lists| && c in lists[i];
    FullListHasAll(full[i], LiveCards(t, sources[i], now));
    assert c in Elements(full[i]);
    FlattenHas(full, c);
  }

  /** The rows in some reach t with the same subjects as the rows in all, or with FEED_LIMIT of them. */
  ghost predicate ReachesAlike(some: seq<Card>, all: seq<Card>, t: real) {
    && Reaching(some, t) <= Reaching(all, t)
    && (Reaching(some, t) == Reaching(all, t) || |Reaching(some, t)| >= FEED_LIMIT)
  }

  lemma ListIsFlattened(lists: seq<seq<Card>>, i: int)
    requires 0 <= i < |lists|
    ensures forall c :: c in lists[i] ==> c in Flatten(lists)
  {
    forall c | c in lists[i]
      ensures c in Flatten(lists)
    {
      FlattenHas(lists, c);
    }
  }

  /** A row of the full lists reaches t through its subject, or FEED_LIMIT subjects do. */
  lemma LostRowIsMadeUp(t: Candidates, sources: seq<string>, now: Time, lists: seq<seq<Card>>, full: seq<seq<Card>>,
                        score: real, row: Card)
    requires ReadLists(t, sources, now, lists, FEED_LIMIT) && FullLists(t, sources, now, full)
    requires row in Flatten(full) && row.score >= score
    ensures row.subject in Reaching(Flatten(lists), score) || |Reaching(Flatten(lists), score)| >= FEED_LIMIT
  {
    FlattenHas(full, row);
    var i :| 0 <= i < |full| && row in full[i];
    ListIsFlattened(lists, i);
    if row in lists[i] {
      ReachingHas(Flatten(lists), row, score);
    } else {
      CutListReaches(lists[i], t, sources[i], now, row, score);
      ReachingMonotone(lists[i], Flatten(lists), score);
      SubsetSize(Reaching(lists[i], score), Reaching(Flatten(lists), score));
    }
  }

  /** For every threshold the cut lists reach it with the same subjects as the
      full lists, or with at least FEED_LIMIT subjects. */
  lemma CutKeepsReach(t: Candidates, sources: seq<string>, now: Time, lists: seq<seq<Card>>, full: seq<seq<Card>>,
                      score: real)
    requires ReadLists(t, sources, now, lists, FEED_LIMIT) && FullLists(t, sources, now, full)
    ensures ReachesAlike(Flatten(lists), Flatten(full), score)
  {
    var some, all := Flatten(lists), Flatten(full);
    forall c | c in some
      ensures c in all
    {
      CutRowsAreRows(t, sources, now, lists, full, c);
    }
    ReachingMonotone(some, all, score);
    if k :| k in Reaching(all, score) && k !in Reaching(some, score) {
      var q :| 0 <= q < |all| && all[q].score >= score && all[q].subject == k;
      LostRowIsMadeUp(t, sources, now, lists, full, score, all[q]);
    }
  }

  lemma AgreesAt(some: seq<Card>, all: seq<Card>, i: nat)
    requires forall t :: ReachesAlike(some, all, t)
    requires i < FEED_LIMIT
    ensures i < |Merged(some)| <==> i < |Merged(all)|
    ensures i < |Merged(some)| && i < |Merged(all)| ==> Merged(some)[i].score == Merged(all)[i].score
  {
    var a, b := Merged(some), Merged(all);
    if i < |b| {
      RankByCount(all, i, b[i].score);
      assert ReachesAlike(some, all, b[i].score);
      RankByCount(some, i, b[i].score);
    }
    if i < |a| {
      RankByCount(some, i, a[i].score);
      assert ReachesAlike(some, all, a[i].score);
      SubsetSize(Reaching(some, a[i].score), Reaching(all, a[i].score));
      RankByCount(all, i, a[i].score);
    }
  }

  lemma SameCut(some: seq<Card>, all: seq<Card>)
    requires forall t :: ReachesAlike(some, all, t)
    ensures |Cut(Merged(some))| == |Cut(Merged(all))|
    ensures forall i :: 0 <= i < |Cut(Merged(some))| ==> Cut(Merged(some))[i].score == Cut(Merged(all))[i].score
  {
    if |Merged(some)| < FEED_LIMIT {
      AgreesAt(some, all, |Merged(some)|);
    }
    if |Merged(all)| < FEED_LIMIT {
      AgreesAt(some, all, |Merged(all)|);
    }
    forall i | 0 <= i < |Cut(Merged(some))|
      ensures Cut(Merged(some))[i].score == Cut(Merged(all))[i].score
    {
      AgreesAt(some, all, i);
    }
  }

  /** LIMIT push-down: cutting every source to FEED_LIMIT rows first leaves the
      scores of the first FEED_LIMIT merged cards as they would be without it. */
  lemma LimitPushDown(t: Candidates, sources: seq<string>, now: Time, lists: seq<seq<Card>>, full: seq<seq<Card>>)
    requires ReadLists(t, sources, now, lists, FEED_LIMIT) && FullLists(t, sources, now, full)
    ensures var shown, ideal := Cut(Merged(Flatten(lists))), Cut(Merged(Flatten(full)));
      |shown| == |ideal| && forall i :: 0 <= i < |shown| ==> shown[i].score == ideal[i].score
  {
    forall score
      ensures ReachesAlike(Flatten(lists), Flatten(full), score)
    {
      CutKeepsReach(t, sources, now, lists, full, score);
    }
    SameCut(Flatten(lists), Flatten(full));
  }

  ghost predicate Eligible(t: Candidates, sources: seq<string>, now: Time, k: CandidateKey) {
    k in t && k.source in sources && Live(t[k], now)
  }

  ghost predicate DistinctScores(t: Candidates, sources: seq<string>, now: Time) {
    forall k, l :: Eligible(t, sources, now, k) && Eligible(t, sources, now, l) && t[k].score == t[l].score ==> k == l
  }

  /** With distinct scores the cut feed shows the same subjects through the same rows. */
  lemma LimitPushDownDistinct(t: Candidates, sources: seq<string>, now: Time, lists: seq<seq<Card>>,
                              full: seq<seq<Card>>)
    requires ReadLists(t, sources, now, lists, FEED_LIMIT) && FullLists(t, sources, now, full)
    requires DistinctScores(t, sources, now)
    ensures var shown, ideal := Cut(Merged(Flatten(lists))), Cut(Merged(Flatten(full)));
      |shown| == |ideal| && forall i :: 0 <= i < |shown| ==> SameRow(shown[i], ideal[i])
  {
    LimitPushDown(t, sources, now, lists, full);
    var shown, ideal := Cut(Merged(Flatten(lists))), Cut(Merged(Flatten(full)));
    forall i | 0 <= i < |shown|
      ensures SameRow(shown[i], ideal[i])
    {
      ShownRepresentsRows(Flatten(lists), i);
      ShownRepresentsRows(Flatten(full), i);
      SameScoreSameCard(t, sources, now, lists, full, shown[i], ideal[i]);
    }
  }

  lemma ShownRepresentsRows(rows: seq<Card>, i: int)
    requires 0 <= i < |Cut(Merged(rows))|
    ensures Represents(rows, Cut(Merged(rows))[i])
  {
    MergedSpec(rows);
  }

  lemma SameScoreSameCard(t: Candidates, sources: seq<string>, now: Time, lists: seq<seq<Card>>, full: seq<seq<Card>>,
                          shown: Card, ideal: Card)
    requires ReadLists(t, sources, now, lists, FEED_LIMIT) && FullLists(t, sources, now, full)
    requires DistinctScores(t, sources, now) && shown.score == ideal.score
    requires Represents(Flatten(lists), shown) && Represents(Flatten(full), ideal)
    ensures SameRow(shown, ideal)
  {
    var a := RowBehind(Flatten(full), ideal);
    var b := RowBehindCut(t, sources, now, lists, full, shown);
    SameScoreSameRow(t, sources, now, full, a, b);
  }

  lemma RowBehind(rows: seq<Card>, card: Card) returns (row: Card)
    requires Represents(rows, card)
    ensures row in rows && SameRow(card, row)
  {
    var w :| WinsAt(rows, card.subject, w) && SameRow(card, rows[w]);
    row := rows[w];
  }

  lemma RowBehindCut(t: Candidates, sources: seq<string>, now: Time, lists: seq<seq<Card>>, full: seq<seq<Card>>,
                     card: Card) returns (row: Card)
    requires ReadLists(t, sources, now, lists, FEED_LIMIT) && FullLists(t, sources, now, full)
    requires Represents(Flatten(lists), card)
    ensures row in Flatten(full) && SameRow(card, row)
  {
    row := RowBehind(Flatten(lists), card);
    CutRowsAreRows(t, sources, now, lists, full, row);
  }

  lemma SameScoreSameRow(t: Candidates, sources: seq<string>, now: Time, full: seq<seq<Card>>, a: Card, b: Card)
    requires FullLists(t, sources, now, full) && DistinctScores(t, sources, now)
    requires a in Flatten(full) && b in Flatten(full) && a.score == b.score
    ensures a == b
  {
    FlattenHas(full, a);
    FlattenHas(full, b);
    var i :| 0 <= i < |full| && a in full[i];
    var j :| 0 <= j < |full| && b in full[j];
    var k :| k in t && k.source == sources[i] && Live(t[k], now) && CardOf(k, t[k]) == a;
    var l :| l in t && l.source == sources[j] && Live(t[l], now) && CardOf(l, t[l]) == b;
  }

  // ── the code: a map of aggregators plus insertion order ──

  ghost predicate IndexOk(subjects: map<Subject, Agg>, order: seq<Subject>) {
    && NoDuplicates(order)
    && (forall k :: k in subjects <==> k in order)
    && (forall k :: k in subjects ==> subjects[k].card.subject == k)
  }

  function InOrder(subjects: map<Subject, Agg>, order: seq<Subject>): seq<Agg>
    requires forall k :: k in order ==> k in subjects
  {
    seq(|order|, i requires 0 <= i < |order| => subjects[order[i]])
  }

  method AbsorbRow(subjects: map<Subject, Agg>, order: seq<Subject>, src: string, c: Card)
    returns (subjects': map<Subject, Agg>, order': seq<Subject>)
    requires IndexOk(subjects, order) && c.source == src
    ensures IndexOk(subjects', order')
    ensures InOrder(subjects', order') == Absorb(InOrder(subjects, order), c)
  {
    var k := c.subject;
    ghost var i := Find(InOrder(subjects, order), k);
    if k !in subjects {
      subjects', order' := subjects[k := Agg(c, [src])], order + [k];
      assert i == |order|;
    } else {
      var existing := subjects[k];
      if src !in existing.sources {
        existing := existing.(sources := existing.sources + [src]);
      }
      if c.score > existing.card.score {
        existing := existing.(card := c.(sources := existing.sources));
      }
      subjects', order' := subjects[k := existing], order;
      var p :| 0 <= p < |order| && order[p] == k;
      FindIs(InOrder(subjects, order), p);
    }
  }

  lemma FlattenStep(lists: seq<seq<Card>>, i: int)
    requires 0 <= i < |lists|
    ensures Flatten(lists[..i + 1]) == Flatten(lists[..i]) + lists[i]
  {
    assert lists[..i + 1][..i] == lists[..i];
  }

  lemma AbsorbPrefix(before: seq<Card>, cards: seq<Card>, j: int)
    requires 0 <= j < |cards|
    ensures AbsorbAll(before + cards[..j + 1]) == Absorb(AbsorbAll(before + cards[..j]), cards[j])
  {
    var rows := before + cards[..j + 1];
    assert rows[..|rows| - 1] == before + cards[..j] && rows[|rows| - 1] == cards[j];
  }

  method AbsorbList(subjects: map<Subject, Agg>, order: seq<Subject>, src: string, cards: seq<Card>,
                    ghost before: seq<Card>)
    returns (subjects': map<Subject, Agg>, order': seq<Subject>)
    requires IndexOk(subjects, order) && InOrder(subjects, order) == AbsorbAll(before)
    requires forall j :: 0 <= j < |cards| ==> cards[j].source == src
    ensures IndexOk(subjects', order') && InOrder(subjects', order') == AbsorbAll(before + cards)
  {
    subjects', order' := subjects, order;
    assert before + cards[..0] == before;
    for j := 0 to |cards|
      invariant IndexOk(subjects', order')
      invariant InOrder(subjects', order') == AbsorbAll(before + cards[..j])
    {
      AbsorbPrefix(before, cards, j);
      subjects', order' := AbsorbRow(subjects', order', src, cards[j]);
    }
    assert cards[..|cards|] == cards;
  }

  method ShowTop(all: seq<Agg>) returns (out: seq<Card>)
    ensures out == Cut(ShownAll(all))
  {
    out := [];
    for i := 0 to |all|
      invariant |out| == i < FEED_LIMIT
      invariant out == ShownAll(all)[..i]
    {
      out := out + [Shown(all[i])];
      if |out| >= FEED_LIMIT {
        break;
      }
    }
  }

  /** lists[i] is what the query for sources[i] returned. */
  method ReadDiscoverMerged(sources: seq<string>, lists: seq<seq<Card>>) returns (out: seq<Card>)
    requires |lists| == |sources|
    requires forall i, j :: 0 <= i < |lists| && 0 <= j < |lists[i]| ==> lists[i][j].source == sources[i]
    ensures out == Cut(Merged(Flatten(lists)))
  {
    var subjects: map<Subject, Agg>, order: seq<Subject> := map[], [];
    for i := 0 to |lists|
      invariant IndexOk(subjects, order)
      invariant InOrder(subjects, order) == AbsorbAll(Flatten(lists[..i]))
    {
      FlattenStep(lists, i);
      subjects, order := AbsorbList(subjects, order, sources[i], lists[i], Flatten(lists[..i]));
    }
    assert lists[..|lists|] == lists;
    out := ShowTop(StableSort(InOrder(subjects, order), ByScore()));
  }

  /** At most 50 cards are shown, and a dropped card outscores none of them. */
  lemma CutSpec(rows: seq<Card>, i: int, j: int)
    requires 0 <= i < |Cut(Merged(rows))| && |Cut(Merged(rows))| <= j < |Merged(rows)|
    ensures |Cut(Merged(rows))| == 50 && Merged(rows)[i].score >= Merged(rows)[j].score
  {
    MergedSpec(rows);
    assert Outranks(rows, Merged(rows)[i], Merged(rows)[j]);
  }

  /** A row of the source's list comes from a candidate of that source that has not expired,
      and with at most 50 of those the list has them all. */
  lemma ListedIsLive(t: Candidates, source: string, now: Time, cards: seq<Card>)
    requires TopRows(cards, LiveCards(t, source, now), FEED_LIMIT)
    ensures |cards| <= 50
    ensures forall c :: c in cards ==> exists k :: LiveRow(t, source, now, k, c)
    ensures |cards| < 50 ==> forall k, c :: LiveRow(t, source, now, k, c) ==> c in cards
  {
    forall c | c in cards
      ensures exists k :: LiveRow(t, source, now, k, c)
    {
      var k :| k in t && k.source == source && Live(t[k], now) && CardOf(k, t[k]) == c;
      assert LiveRow(t, source, now, k, c);
    }
    if |cards| < 50 {
      FullListHasAll(cards, LiveCards(t, source, now));
      forall k, c | LiveRow(t, source, now, k, c)
        ensures c in cards
      {
        assert c in Elements(cards);
      }
    }
  }

  /** Card c shows candidate k of the source, which does not expire or expires after now. */
  ghost predicate LiveRow(t: Candidates, source: string, now: Time, k: CandidateKey, c: Card) {
    && k in t && k.source == source && (t[k].expiresAt.Some? ==> now < t[k].expiresAt.value)
    && c.subject == k.subject && c.score == t[k].score && c.source == source
    && c.detail == t[k].detail && c.sources == []
  }
}
