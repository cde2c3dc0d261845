/**
 The Sources of a merged Discover card (backend/internal/http/handlers/feed.go:268-343):
 what the cards show, and when the per-source LIMIT hides a contributing source.
 */
module FeedSources {
  import opened Basics
  import opened Sorting
  import opened FeedMerge

  // ── what a card shows ──

  /** No source lists a subject twice. */
  ghost predicate OneRowPerSource(rows: seq<Card>) {
    forall p, q :: 0 <= p < q < |rows| && rows[p].subject == rows[q].subject ==> rows[p].source != rows[q].source
  }

  /** Rows come without Sources. */
  ghost predicate Plain(rows: seq<Card>) {
    forall c :: c in rows ==> c.sources == []
  }

  lemma {:induction false} MentionedBy(rows: seq<Card>, k: Subject, source: string)
    ensures source in Mentions(rows, k) <==>
              exists q :: 0 <= q < |rows| && rows[q].subject == k && rows[q].source == source
  {
    if rows != [] {
      var front := rows[..|rows| - 1];
      MentionedBy(front, k, source);
      assert forall q :: 0 <= q < |front| ==> front[q] == rows[q];
      if q :| 0 <= q < |rows| && rows[q].subject == k && rows[q].source == source {
        assert q < |front| ==> front[q].subject == k;
      }
      if q :| 0 <= q < |front| && front[q].subject == k && front[q].source == source {
        assert rows[q].subject == k;
      }
    }
  }

  /** A subject contributed by one source is represented by that source's row as it came. */
  ghost predicate SinglesAreRows(rows: seq<Card>, aggs: seq<Agg>) {
    forall i :: 0 <= i < |aggs| ==> aggs[i].sources != [] && (|aggs[i].sources| == 1 ==> aggs[i].card in rows)
  }

  lemma SeenFromElsewhere(rows: seq<Card>, a: Agg, c: Card)
    requires OneRowPerSource(rows + [c]) && Summarises(rows, a) && a.card.subject == c.subject
    ensures c.source !in a.sources
  {
    var all := rows + [c];
    assert all[|rows|] == c && forall q :: 0 <= q < |rows| ==> all[q] == rows[q];
    MentionedBy(rows, c.subject, c.source);
  }

  lemma SinglesStep(rows: seq<Card>, aggs: seq<Agg>, c: Card)
    requires AggsOk(rows, aggs) && SinglesAreRows(rows, aggs) && OneRowPerSource(rows + [c])
    ensures SinglesAreRows(rows + [c], Absorb(aggs, c))
  {
    var n := Find(aggs, c.subject);
    if n < |aggs| {
      assert Summarises(rows, aggs[n]);
      SeenFromElsewhere(rows, aggs[n], c);
    }
  }

  lemma {:induction false} SinglesHold(rows: seq<Card>)
    requires OneRowPerSource(rows)
    ensures SinglesAreRows(rows, AbsorbAll(rows))
  {
    if rows != [] {
      var front, c := rows[..|rows| - 1], rows[|rows| - 1];
      assert rows == front + [c];
      SinglesHold(front);
      AbsorbAllOk(front);
      SinglesStep(front, AbsorbAll(front), c);
    }
  }

  /** A merged card shows all contributing sources in order if there are several, and
      none if there is one. */
  lemma SourcesShown(rows: seq<Card>, i: nat)
    requires OneRowPerSource(rows) && Plain(rows) && i < |Merged(rows)|
    ensures var card := Merged(rows)[i];
      card.sources == if |Mentions(rows, card.subject)| > 1 then Mentions(rows, card.subject) else []
  {
    var a := Ranked(rows)[i];
    RankedBasics(rows);
    RankedSummary(rows, i);
    SinglesHold(rows);
    assert a in AbsorbAll(rows);
    var n :| 0 <= n < |AbsorbAll(rows)| && AbsorbAll(rows)[n] == a;
  }

  // ── the rows of a read ──

  lemma ReadListFits(t: Candidates, source: string, now: Time, cards: seq<Card>, limit: nat)
    requires TopRows(cards, LiveCards(t, source, now), limit)
    ensures OneRowPerSource(cards) && Plain(cards) && forall c :: c in cards ==> c.source == source
  {
    forall c | c in cards
      ensures c.source == source && c.sources == []
    {
      assert c in LiveCards(t, source, now);
    }
    forall p, q | 0 <= p < q < |cards|
      ensures cards[p].subject != cards[q].subject
    {
      assert cards[p] in cards && cards[q] in cards;
    }
  }

  lemma RowsJoin(a: seq<Card>, b: seq<Card>)
    requires OneRowPerSource(a) && OneRowPerSource(b) && Plain(a) && Plain(b)
    requires forall x, y :: x in a && y in b ==> x.source != y.source
    ensures OneRowPerSource(a + b) && Plain(a + b)
  {
    forall p, q | 0 <= p < |a| && 0 <= q < |b|
      ensures a[p].source != b[q].source
    {
      assert a[p] in a && b[q] in b;
    }
  }

  /** What readDiscoverMerged reads from distinct sources: one row per subject and source,
      by the UNIQUE constraint of discover_candidates. */
  lemma {:induction false} ReadRowsFit(t: Candidates, sources: seq<string>, now: Time, lists: seq<seq<Card>>,
                                       limit: nat)
    requires NoDuplicates(sources) && ReadLists(t, sources, now, lists, limit)
    ensures OneRowPerSource(Flatten(lists)) && Plain(Flatten(lists))
    ensures forall c :: c in Flatten(lists) ==> c.source in sources
  {
    if lists != [] {
      var n := |lists| - 1;
      ReadRowsFit(t, sources[..n], now, lists[..n], limit);
      ReadListFits(t, sources[n], now, lists[n], limit);
      forall x, y | x in Flatten(lists[..n]) && y in lists[n]
        ensures x.source != y.source
      {
        assert x.source in sources[..n];
      }
      RowsJoin(Flatten(lists[..n]), lists[n]);
    }
  }

  /** So every card of the feed shows the sources of the rows read if there are several,
      and none otherwise. */
  lemma FeedCardSources(t: Candidates, sources: seq<string>, now: Time, lists: seq<seq<Card>>, i: nat)
    requires NoDuplicates(sources) && ReadLists(t, sources, now, lists, FEED_LIMIT)
    requires i < |Cut(Merged(Flatten(lists)))|
    ensures var card := Cut(Merged(Flatten(lists)))[i];
      var contributing := Mentions(Flatten(lists), card.subject);
      card.sources == if |contributing| > 1 then contributing else []
  {
    ReadRowsFit(t, sources, now, lists, FEED_LIMIT);
    SourcesShown(Flatten(lists), i);
  }

  // ── which sources the inner LIMIT hides ──

  ghost predicate Lists(cards: seq<Card>, k: Subject) {
    exists c :: c in cards && c.subject == k
  }

  /** The sources whose list has k, in order. */
  ghost function Listing(sources: seq<string>, lists: seq<seq<Card>>, k: Subject): seq<string>
    requires |lists| <= |sources|
  {
    if lists == [] then [] else
    var n := |lists| - 1;
    var before := Listing(sources, lists[..n], k);
    if Lists(lists[n], k) then before + [sources[n]] else before
  }

  lemma ListsStep(cards: seq<Card>, k: Subject)
    requires cards != []
    ensures Lists(cards, k) <==> Lists(cards[..|cards| - 1], k) || cards[|cards| - 1].subject == k
  {
    var front, last := cards[..|cards| - 1], cards[|cards| - 1];
    assert cards == front + [last];
    assert last in cards;
  }

  lemma {:induction false} MentionsConcat(a: seq<Card>, b: seq<Card>, k: Subject, source: string)
    requires source !in Mentions(a, k) && forall c :: c in b ==> c.source == source
    ensures Mentions(a + b, k) == if Lists(b, k) then Mentions(a, k) + [source] else Mentions(a, k)
  {
    if b == [] {
      assert a + b == a;
    } else {
      var front, c := b[..|b| - 1], b[|b| - 1];
      assert (a + b)[..|a + b| - 1] == a + front && c in b;
      MentionsConcat(a, front, k, source);
      ListsStep(b, k);
    }
  }

  lemma {:induction false} ListingWithin(sources: seq<string>, lists: seq<seq<Card>>, k: Subject)
    requires |lists| <= |sources|
    ensures forall x :: x in Listing(sources, lists, k) ==> x in sources[..|lists|]
  {
    if lists != [] {
      var n := |lists| - 1;
      ListingWithin(sources, lists[..n], k);
      assert sources[..n + 1] == sources[..n] + [sources[n]];
    }
  }

  lemma {:induction false} MentionsAreListing(t: Candidates, sources: seq<string>, now: Time, lists: seq<seq<Card>>,
                                              limit: nat, k: Subject)
    requires NoDuplicates(sources) && ReadLists(t, sources, now, lists, limit)
    ensures Mentions(Flatten(lists), k) == Listing(sources, lists, k)
  {
    if lists != [] {
      var n := |lists| - 1;
      MentionsAreListing(t, sources[..n], now, lists[..n], limit, k);
      SamePrefix(sources[..n], sources, lists[..n], k);
      ListingWithin(sources, lists[..n], k);
      ReadListFits(t, sources[n], now, lists[n], limit);
      MentionsConcat(Flatten(lists[..n]), lists[n], k, sources[n]);
    }
  }

  lemma {:induction false} SamePrefix(a: seq<string>, b: seq<string>, lists: seq<seq<Card>>, k: Subject)
    requires |lists| <= |a| <= |b| && a == b[..|a|]
    ensures Listing(a, lists, k) == Listing(b, lists, k)
  {
    if lists != [] {
      SamePrefix(a, b, lists[..|lists| - 1], k);
    }
  }

  ghost predicate ListedAlike(a: seq<seq<Card>>, b: seq<seq<Card>>, k: Subject)
    requires |a| == |b|
  {
    forall i :: 0 <= i < |a| ==> (Lists(a[i], k) <==> Lists(b[i], k))
  }

  lemma ListedAlikeStep(a: seq<seq<Card>>, b: seq<seq<Card>>, k: Subject)
    requires |a| == |b| > 0
    ensures var n := |a| - 1;
      ListedAlike(a, b, k) <==> ListedAlike(a[..n], b[..n], k) && (Lists(a[n], k) <==> Lists(b[n], k))
  {
    var n := |a| - 1;
    if ListedAlike(a[..n], b[..n], k) && (Lists(a[n], k) <==> Lists(b[n], k)) {
      forall i | 0 <= i < |a|
        ensures Lists(a[i], k) <==> Lists(b[i], k)
      {
        assert i < n ==> (Lists(a[..n][i], k) <==> Lists(b[..n][i], k));
      }
    }
  }

  lemma AppendedDiffers(x: seq<string>, y: seq<string>, s: string)
    requires s !in x && s !in y
    ensures x + [s] == y + [s] <==> x == y
    ensures x + [s] != y && x != y + [s]
  {
    assert (x + [s])[..|x|] == x && (y + [s])[..|y|] == y;
    assert s in x + [s] && s in y + [s];
  }

  lemma {:induction false} ListingSame(sources: seq<string>, a: seq<seq<Card>>, b: seq<seq<Card>>, k: Subject)
    requires |a| == |b| <= |sources| && NoDuplicates(sources)
    ensures Listing(sources, a, k) == Listing(sources, b, k) <==> ListedAlike(a, b, k)
  {
    if a != [] {
      var n := |a| - 1;
      ListingSame(sources, a[..n], b[..n], k);
      ListedAlikeStep(a, b, k);
      ListingWithin(sources, a[..n], k);
      ListingWithin(sources, b[..n], k);
      AppendedDiffers(Listing(sources, a[..n], k), Listing(sources, b[..n], k), sources[n]);
    }
  }

  /** The cut leaves a card's contributing sources as they are exactly if every source
      that lists the subject at all still lists it in its cut. */
  lemma SourcesSurviveIff(t: Candidates, sources: seq<string>, now: Time, lists: seq<seq<Card>>, full: seq<seq<Card>>,
                          k: Subject)
    requires NoDuplicates(sources)
    requires ReadLists(t, sources, now, lists, FEED_LIMIT) && FullLists(t, sources, now, full)
    ensures Mentions(Flatten(lists), k) == Mentions(Flatten(full), k) <==> ListedAlike(lists, full, k)
  {
    MentionsAreListing(t, sources, now, lists, FEED_LIMIT, k);
    FullMentions(t, sources, now, full, k);
    ListingSame(sources, lists, full, k);
  }

  lemma {:induction false} FullMentions(t: Candidates, sources: seq<string>, now: Time, full: seq<seq<Card>>,
                                        k: Subject)
    requires NoDuplicates(sources) && FullLists(t, sources, now, full)
    ensures Mentions(Flatten(full), k) == Listing(sources, full, k)
  {
    if full != [] {
      var n := |full| - 1;
      FullMentions(t, sources[..n], now, full[..n], k);
      SamePrefix(sources[..n], sources, full[..n], k);
      ListingWithin(sources, full[..n], k);
      ReadListFits(t, sources[n], now, full[n], |LiveCards(t, sources[n], now)|);
      MentionsConcat(Flatten(full[..n]), full[n], k, sources[n]);
    }
  }

  /** Live rows of a source that outscore a card. */
  ghost function Better(t: Candidates, source: string, now: Time, row: Card): set<Card> {
    set c | c in LiveCards(t, source, now) && c.score > row.score
  }

  ghost predicate Untied(t: Candidates, source: string, now: Time, row: Card) {
    forall c :: c in LiveCards(t, source, now) && c.score == row.score ==> c == row
  }

  /** A source keeps an untied row exactly if fewer than 50 of its live rows are better. */
  lemma RowKeptIff(t: Candidates, source: string, now: Time, cards: seq<Card>, row: Card)
    requires TopRows(cards, LiveCards(t, source, now), FEED_LIMIT)
    requires row in LiveCards(t, source, now) && Untied(t, source, now, row)
    ensures row in cards <==> |Better(t, source, now, row)| < FEED_LIMIT
  {
    var rows, better := LiveCards(t, source, now), Better(t, source, now, row);
    ElementsOfDistinct(cards);
    if row in cards {
      forall c | c in better
        ensures c in Elements(cards) - {row}
      {
      }
      SubsetSize(better, Elements(cards) - {row});
    } else {
      if |rows| <= FEED_LIMIT {
        SubsetOfSameSize(Elements(cards), rows);
      }
      forall c | c in Elements(cards)
        ensures c in better
      {
        assert c.score >= row.score;
      }
      SubsetSize(Elements(cards), better);
    }
  }

  lemma ListsRow(t: Candidates, source: string, now: Time, cards: seq<Card>, limit: nat, key: CandidateKey)
    requires TopRows(cards, LiveCards(t, source, now), limit) && key in t && key.source == source
    ensures Lists(cards, key.subject) <==> CardOf(key, t[key]) in cards
  {
    if Lists(cards, key.subject) {
      var c :| c in cards && c.subject == key.subject;
      assert c in LiveCards(t, source, now);
    }
  }

  /** So where no other row of the source ties with a live row, the source goes missing
      exactly if 50 of its live rows are better. */
  lemma SourceHiddenIff(t: Candidates, source: string, now: Time, cards: seq<Card>, key: CandidateKey)
    requires TopRows(cards, LiveCards(t, source, now), FEED_LIMIT)
    requires key in t && key.source == source && Live(t[key], now) && Untied(t, source, now, CardOf(key, t[key]))
    ensures !Lists(cards, key.subject) <==> |Better(t, source, now, CardOf(key, t[key]))| >= FEED_LIMIT
  {
    ListsRow(t, source, now, cards, FEED_LIMIT, key);
    RowKeptIff(t, source, now, cards, CardOf(key, t[key]));
  }

  lemma NarrowListIsFull(rows: set<Card>, cards: seq<Card>, all: seq<Card>)
    requires |rows| <= FEED_LIMIT && TopRows(cards, rows, FEED_LIMIT) && TopRows(all, rows, |rows|)
    ensures forall c :: c in cards <==> c in all
  {
    ElementsOfDistinct(cards);
    ElementsOfDistinct(all);
    SubsetOfSameSize(Elements(cards), rows);
    SubsetOfSameSize(Elements(all), rows);
    assert forall c :: c in cards <==> c in Elements(cards);
    assert forall c :: c in all <==> c in Elements(all);
  }

  /** With at most 50 live rows in every source no contributing source goes missing. */
  lemma NarrowSourcesSurvive(t: Candidates, sources: seq<string>, now: Time, lists: seq<seq<Card>>,
                             full: seq<seq<Card>>, k: Subject)
    requires NoDuplicates(sources)
    requires ReadLists(t, sources, now, lists, FEED_LIMIT) && FullLists(t, sources, now, full)
    requires forall s :: s in sources ==> |LiveCards(t, s, now)| <= FEED_LIMIT
    ensures Mentions(Flatten(lists), k) == Mentions(Flatten(full), k)
  {
    forall i | 0 <= i < |lists|
      ensures Lists(lists[i], k) <==> Lists(full[i], k)
    {
      assert sources[i] in sources;
      NarrowListIsFull(LiveCards(t, sources[i], now), lists[i], full[i]);
    }
    SourcesSurviveIff(t, sources, now, lists, full, k);
  }

  // ── a source that goes missing ──

  function ByCardScore(): (Card, Card) -> bool {
    (a: Card, b: Card) => a.score >= b.score
  }

  lemma {:induction false} ListAll(rows: set<Card>) returns (cards: seq<Card>)
    ensures NoDuplicates(cards) && |cards| == |rows| && forall c :: c in cards <==> c in rows
  {
    if rows == {} {
      cards := [];
    } else {
      var c :| c in rows;
      var rest := ListAll(rows - {c});
      cards := rest + [c];
    }
  }

  ghost predicate BestFirst(cards: seq<Card>) {
    forall i, j :: 0 <= i < j < |cards| ==> cards[i].score >= cards[j].score
  }

  lemma PrefixAnswers(sorted: seq<Card>, rows: set<Card>, limit: nat)
    requires NoDuplicates(sorted) && BestFirst(sorted) && |sorted| == |rows| && forall c :: c in sorted <==> c in rows
    ensures TopRows(sorted[..Min(limit, |rows|)], rows, limit)
  {
    var n := Min(limit, |rows|);
    var cards := sorted[..n];
    assert forall i :: 0 <= i < n ==> cards[i] == sorted[i] && sorted[i] in cards;
    forall r, c | r in rows && r !in cards && c in cards
      ensures c.score >= r.score
    {
      var i :| 0 <= i < |sorted| && sorted[i] == r;
      var j :| 0 <= j < n && cards[j] == c;
    }
  }

  /** Every query has an answer. */
  lemma AnswerExists(rows: set<Card>, limit: nat) returns (cards: seq<Card>)
    ensures TopRows(cards, rows, limit)
  {
    var all := ListAll(rows);
    var sorted := StableSort(all, ByCardScore());
    assert TotalPreorder(ByCardScore());
    StableSortSpec(all, ByCardScore());
    PermutationKeepsElements(all, sorted);
    PermutationStaysDistinct(all, sorted);
    assert BestFirst(sorted) by {
      forall i, j | 0 <= i < j < |sorted|
        ensures sorted[i].score >= sorted[j].score
      {
        assert ByCardScore()(sorted[i], sorted[j]);
      }
    }
    PrefixAnswers(sorted, rows, limit);
    cards := sorted[..Min(limit, |rows|)];
  }

  function Album(i: nat): Subject {
    Subject("album", seq(i, n requires 0 <= n < i => 'x'))
  }

  lemma AlbumsDiffer(i: nat, j: nat)
    ensures Album(i) == Album(j) <==> i == j
  {
    assert |Album(i).id| == i && |Album(j).id| == j;
  }

  /** n albums in source a, scored 0, 1, 2, …, and the lowest of them in source b too. */
  function WideTable(n: nat): Candidates {
    if n == 0 then map[CandidateKey(Album(0), "b") := Candidate(0.0, "", None)]
    else WideTable(n - 1)[CandidateKey(Album(n - 1), "a") := Candidate((n - 1) as real, "", None)]
  }

  lemma {:induction false} WideRows(n: nat)
    ensures forall k :: k in WideTable(n) && k.source == "a" ==> exists i: nat :: i < n && k.subject == Album(i)
    ensures forall i: nat :: i < n ==> CandidateKey(Album(i), "a") in WideTable(n)
    ensures forall i: nat :: i < n ==> WideTable(n)[CandidateKey(Album(i), "a")] == Candidate(i as real, "", None)
    ensures CandidateKey(Album(0), "b") in WideTable(n)
            && WideTable(n)[CandidateKey(Album(0), "b")] == Candidate(0.0, "", None)
  {
    if n > 0 {
      WideRows(n - 1);
      forall i: nat | i < n
        ensures Album(i) == Album(n - 1) <==> i == n - 1
      {
        AlbumsDiffer(i, n - 1);
      }
    }
  }

  function WideCard(i: nat): Card {
    CardOf(CandidateKey(Album(i), "a"), Candidate(i as real, "", None))
  }

  lemma WideBetter(n: nat, now: Time)
    requires n > 0
    ensures WideCard(0) in LiveCards(WideTable(n), "a", now) && Untied(WideTable(n), "a", now, WideCard(0))
    ensures |Better(WideTable(n), "a", now, WideCard(0))| >= n - 1
  {
    var t := WideTable(n);
    WideRows(n);
    forall i: nat | i < n
      ensures WideCard(i) in LiveCards(t, "a", now)
    {
      assert CandidateKey(Album(i), "a") in t;
    }
    forall c | c in LiveCards(t, "a", now) && c.score == 0.0
      ensures c == WideCard(0)
    {
      var k :| k in t && k.source == "a" && Live(t[k], now) && c == CardOf(k, t[k]);
      var i: nat :| i < n && k.subject == Album(i);
      assert k == CandidateKey(Album(i), "a");
    }
    var higher := seq(n - 1, i requires 0 <= i < n - 1 => WideCard(i + 1));
    ElementsOfDistinct(higher);
    SubsetSize(Elements(higher), Better(t, "a", now, WideCard(0)));
  }

  /** Source b has one row. */
  lemma {:induction false} WideOther(n: nat, now: Time, other: CandidateKey)
    requires other == CandidateKey(Album(0), "b")
    ensures LiveCards(WideTable(n), "b", now) == {CardOf(other, Candidate(0.0, "", None))}
  {
    if n > 0 {
      WideOther(n - 1, now, other);
      WideRows(n - 1);
      WideRows(n);
    }
  }

  lemma TwoListings(sources: seq<string>, lists: seq<seq<Card>>, k: Subject)
    requires |sources| == |lists| == 2
    ensures Lists(lists[0], k) && Lists(lists[1], k) ==> Listing(sources, lists, k) == [sources[0], sources[1]]
    ensures !Lists(lists[0], k) && Lists(lists[1], k) ==> Listing(sources, lists, k) == [sources[1]]
  {
    var one := lists[..1];
    assert one[..0] == [] && one[0] == lists[0];
    assert Listing(sources, one, k) == if Lists(lists[0], k) then [sources[0]] else [];
  }

  lemma WideListed(t: Candidates, n: nat, now: Time, source: string, cutA: seq<Card>, allA: seq<Card>, k: Subject)
    requires n > FEED_LIMIT && t == WideTable(n) && source == "a" && k == Album(0)
    requires TopRows(cutA, LiveCards(t, source, now), FEED_LIMIT)
    requires TopRows(allA, LiveCards(t, source, now), |LiveCards(t, source, now)|)
    ensures !Lists(cutA, k) && Lists(allA, k)
  {
    WideRows(n);
    WideBetter(n, now);
    SourceHiddenIff(t, "a", now, cutA, CandidateKey(Album(0), "a"));
    FullListHasAll(allA, LiveCards(t, "a", now));
    assert WideCard(0) in Elements(allA);
  }

  lemma OtherListed(t: Candidates, n: nat, now: Time, source: string, cards: seq<Card>, all: seq<Card>, k: Subject)
    requires t == WideTable(n) && source == "b" && k == Album(0)
    requires TopRows(cards, LiveCards(t, source, now), FEED_LIMIT)
    requires TopRows(all, LiveCards(t, source, now), |LiveCards(t, source, now)|)
    ensures Lists(cards, k) && Lists(all, k)
  {
    WideOther(n, now, CandidateKey(Album(0), "b"));
    assert cards[0] in cards && all[0] in all;
  }

  lemma TwoAnswers(t: Candidates, now: Time, sources: seq<string>) returns (lists: seq<seq<Card>>, full: seq<seq<Card>>)
    requires |sources| == 2
    ensures ReadLists(t, sources, now, lists, FEED_LIMIT) && FullLists(t, sources, now, full)
  {
    var a, b := LiveCards(t, sources[0], now), LiveCards(t, sources[1], now);
    var cutA := AnswerExists(a, FEED_LIMIT);
    var cutB := AnswerExists(b, FEED_LIMIT);
    var allA := AnswerExists(a, |a|);
    var allB := AnswerExists(b, |b|);
    lists, full := [cutA, cutB], [allA, allB];
  }

  lemma TwoSourcesMentioned(t: Candidates, now: Time, sources: seq<string>, lists: seq<seq<Card>>, full: seq<seq<Card>>,
                            k: Subject)
    requires |sources| == 2 && NoDuplicates(sources)
    requires ReadLists(t, sources, now, lists, FEED_LIMIT) && FullLists(t, sources, now, full)
    requires !Lists(lists[0], k) && Lists(lists[1], k) && Lists(full[0], k) && Lists(full[1], k)
    ensures Mentions(Flatten(full), k) == [sources[0], sources[1]] && Mentions(Flatten(lists), k) == [sources[1]]
  {
    MentionsAreListing(t, sources, now, lists, FEED_LIMIT, k);
    FullMentions(t, sources, now, full, k);
    TwoListings(sources, lists, k);
    TwoListings(sources, full, k);
  }

  /** A source with more than 50 live rows and its lowest one shared with another source:
      the card has two contributing sources, and the feed sees one. */
  lemma SourceGoesMissing(t: Candidates, n: nat, now: Time, sources: seq<string>, k: Subject)
    returns (lists: seq<seq<Card>>, full: seq<seq<Card>>)
    requires n > FEED_LIMIT && t == WideTable(n) && k == Album(0)
    requires |sources| == 2 && sources[0] == "a" && sources[1] == "b"
    ensures ReadLists(t, sources, now, lists, FEED_LIMIT) && FullLists(t, sources, now, full)
    ensures Mentions(Flatten(full), k) == [sources[0], sources[1]] && Mentions(Flatten(lists), k) == [sources[1]]
  {
    lists, full := TwoAnswers(t, now, sources);
    WideListed(t, n, now, sources[0], lists[0], full[0], k);
    OtherListed(t, n, now, sources[1], lists[1], full[1], k);
    TwoNames(sources);
    TwoSourcesMentioned(t, now, sources, lists, full, k);
  }

  lemma TwoNames(sources: seq<string>)
    requires |sources| == 2 && sources[0] == "a" && sources[1] == "b"
    ensures NoDuplicates(sources)
  {
    assert sources[0][0] != sources[1][0];
  }
}
