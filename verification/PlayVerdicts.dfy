/**
 When a play counts as skipped (backend/internal/services/listening/listening.go:206-236):
 if the next play starts more than 30 seconds before its end. Times are milliseconds.
 */
module PlayVerdicts {
  import opened Basics
  import opened Sorting
  import opened Listening

  /** Signal e is about recorded play k, followed by next: a skip exactly if next starts
      before k's time plus 1000 times its seconds, less 30000. */
  ghost predicate Ruled(w: World, hist: History, k: HistoryKey, next: HistoryKey, e: Emitted) {
    && k in hist && hist[k].Some? && e.track == hist[k].value && e.at == k.playedAt
    && (e.verdict == Skip <==> next.playedAt < k.playedAt + 1000 * w.secondsOf(e.track) - 30000)
  }

  lemma ChainTimes(w: World, hist: History, h: seq<HistoryKey>)
    requires Increasing(h)
    ensures var c := ChainOf(w, hist, h); forall i, j :: 0 <= i < j < |c| ==> c[i].playedAt < c[j].playedAt
  {
  }

  lemma PairRuled(w: World, hist: History, h: seq<HistoryKey>, i: int, e: Emitted)
    requires 0 <= i && i + 1 < |h|
    requires StemsFrom(ChainOf(w, hist, h), e, i)
    ensures Ruled(w, hist, h[i], h[i + 1], e)
  {
    var p, next := LinkOf(w, hist, h[i]), LinkOf(w, hist, h[i + 1]);
    assert ChainOf(w, hist, h)[i] == p && ChainOf(w, hist, h)[i + 1] == next;
  }

  lemma VerdictOf(w: World, hist: History, h: seq<HistoryKey>, i: nat) returns (a: int)
    requires Increasing(h) && i + 1 < |h| && h[i] in hist && StringOf(hist[h[i]]) != ""
    ensures 0 <= a < |Verdicts(w, hist, h)| && Ruled(w, hist, h[i], h[i + 1], Verdicts(w, hist, h)[a])
    ensures forall b :: 0 <= b < |Verdicts(w, hist, h)| && b != a ==> Verdicts(w, hist, h)[b].at != h[i].playedAt
  {
    ChainTimes(w, hist, h);
    a := ExactlyOnce(ChainOf(w, hist, h), i);
    PairRuled(w, hist, h, i, Verdicts(w, hist, h)[a]);
  }

  lemma RuleOfVerdict(w: World, hist: History, h: seq<HistoryKey>, b: int) returns (i: int)
    requires 0 <= b < |Verdicts(w, hist, h)|
    ensures 0 <= i && i + 1 < |h| && Ruled(w, hist, h[i], h[i + 1], Verdicts(w, hist, h)[b])
  {
    i := SignalStems(ChainOf(w, hist, h), b);
    PairRuled(w, hist, h, i, Verdicts(w, hist, h)[b]);
  }

  /** In a run without errors every resolved play with a successor has exactly one signal,
      and its verdict follows the rule. */
  lemma CleanRunRule(w: World, s: State, inputs: seq<Input>, t: State, h: seq<HistoryKey>, i: nat) returns (a: int)
    requires AllFit(w, s, inputs) && NeverErrs(s, inputs) && t == RunPolls(s, inputs) && Lists(t, h)
    requires i + 1 < |h| && h[i] in t.history && StringOf(t.history[h[i]]) != ""
    ensures 0 <= a < |t.signals| && Ruled(w, t.history, h[i], h[i + 1], t.signals[a])
    ensures forall b :: 0 <= b < |t.signals| && b != a ==> t.signals[b].at != h[i].playedAt
  {
    var h' := CleanRunSendsAll(w, s, inputs);
    IncreasingUnique(h, h');
    a := VerdictOf(w, t.history, h, i);
  }

  lemma {:induction false} DeliveredFrom(es: seq<Emitted>, fails: Emitted -> bool, a: int) returns (b: int)
    requires 0 <= a < |Delivered(es, fails)|
    ensures 0 <= b < |es| && es[b] == Delivered(es, fails)[a] && !fails(es[b])
  {
    var front := es[..|es| - 1];
    if a < |Delivered(front, fails)| {
      b := DeliveredFrom(front, fails, a);
    } else {
      b := |es| - 1;
    }
  }

  /** In any run, whatever fails and whatever is written in between, every signal is about
      a recorded play with a successor and follows the rule. */
  lemma EverySignalRuled(w: World, s: State, inputs: seq<Input>, fails: Emitted -> bool, t: State, h: seq<HistoryKey>,
                         a: int) returns (i: int)
    requires AllFit(w, s, inputs) && forall n :: 0 <= n < |inputs| ==> inputs[n].fails == fails
    requires t == RunPolls(s, inputs) && Lists(t, h) && 0 <= a < |t.signals|
    ensures 0 <= i && i + 1 < |h| && Ruled(w, t.history, h[i], h[i + 1], t.signals[a])
  {
    var h' := PollSplitting(w, s, inputs, fails);
    IncreasingUnique(h, h');
    var b := DeliveredFrom(Verdicts(w, t.history, h), fails, a);
    i := RuleOfVerdict(w, t.history, h, b);
  }

  /** A later successor never turns a full play into a skip. */
  lemma LaterSuccessor(p: Play, next: Play, later: Play)
    requires p.mbid != "" && next.playedAt <= later.playedAt
    ensures Pairs([p, next]) != [] && Pairs([p, later]) != []
    ensures Pairs([p, next])[0].verdict == Full ==> Pairs([p, later])[0].verdict == Full
  {
    PairsAppend([p], next);
    PairsAppend([p], later);
    assert [p] + [next] == [p, next] && [p] + [later] == [p, later] && Pairs([p]) == [];
  }

  // ── what the counters count ──

  predicate CutShort(p: Play, next: Play) {
    next.playedAt < p.playedAt + 1000 * p.durationSec - 30000
  }

  /** Resolved plays of a chain whose successor cuts them short, and whose signal goes out. */
  function Skips(chain: seq<Play>, fails: Emitted -> bool): nat {
    if |chain| < 2 then 0 else
    var before := Skips(chain[..|chain| - 1], fails);
    var p, next := chain[|chain| - 2], chain[|chain| - 1];
    if p.mbid != "" && CutShort(p, next) && !fails(Emitted(Skip, p.mbid, p.playedAt)) then before + 1 else before
  }

  function FullPlays(chain: seq<Play>, fails: Emitted -> bool): nat {
    if |chain| < 2 then 0 else
    var before := FullPlays(chain[..|chain| - 1], fails);
    var p, next := chain[|chain| - 2], chain[|chain| - 1];
    if p.mbid != "" && !CutShort(p, next) && !fails(Emitted(Full, p.mbid, p.playedAt)) then before + 1 else before
  }

  lemma LastPair(chain: seq<Play>, e: Emitted)
    requires |chain| >= 2
    requires var p, next := chain[|chain| - 2], chain[|chain| - 1];
      e == Emitted(if CutShort(p, next) then Skip else Full, p.mbid, p.playedAt)
    ensures var before := Pairs(chain[..|chain| - 1]);
      Pairs(chain) == if chain[|chain| - 2].mbid == "" then before else before + [e]
  {
    var front, next := chain[..|chain| - 1], chain[|chain| - 1];
    assert chain == front + [next] && front[|front| - 1] == chain[|chain| - 2];
    PairsAppend(front, next);
  }

  /** What the last two plays of a chain add to the account. */
  lemma LastPairBooked(chain: seq<Play>, e: Emitted, fails: Emitted -> bool)
    requires |chain| >= 2
    requires var p, next := chain[|chain| - 2], chain[|chain| - 1];
      e == Emitted(if CutShort(p, next) then Skip else Full, p.mbid, p.playedAt)
    ensures var before := AccountOf(Pairs(chain[..|chain| - 1]), fails);
      AccountOf(Pairs(chain), fails) == if e.track == "" then before else Book(before, e, fails(e))
  {
    LastPair(chain, e);
    if e.track != "" {
      DeliverOne([], Pairs(chain[..|chain| - 1]), e, fails);
    }
  }

  lemma {:induction false} PairsCounted(chain: seq<Play>, fails: Emitted -> bool)
    ensures AccountOf(Pairs(chain), fails).skipped == Skips(chain, fails)
    ensures AccountOf(Pairs(chain), fails).full == FullPlays(chain, fails)
  {
    if |chain| >= 2 {
      var p, next := chain[|chain| - 2], chain[|chain| - 1];
      PairsCounted(chain[..|chain| - 1], fails);
      LastPairBooked(chain, Emitted(if CutShort(p, next) then Skip else Full, p.mbid, p.playedAt), fails);
    }
  }

  /** A poll's skipped and playedFull count the plays cut short and the others, among the
      resolved plays with a successor whose signal went out. */
  lemma CountersRule(s: State, base: seq<Play>, recents: seq<RecentPlay>, resolve: Resolver, fails: Emitted -> bool)
    ensures var chain := base + IngestAll(s, StableSort(recents, ByTime()), resolve).chain;
      var c := Poll(s, base, recents, resolve, fails).1;
      c.skipped == Skips(chain, fails) && c.playedFull == FullPlays(chain, fails)
  {
    PairsCounted(base + IngestAll(s, StableSort(recents, ByTime()), resolve).chain, fails);
  }
}
