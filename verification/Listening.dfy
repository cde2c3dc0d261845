/**
 The recently-played poller (backend/internal/services/listening/listening.go):
 each poll ingests the plays it has not seen, links the newest persisted play to
 them and emits play_full or play_skip for every play that gained a successor.

 One user's view; times are milliseconds.
 */
module Listening {
  import opened Basics
  import opened Sorting
  import Catalogue

  const SECOND: Time := 1000
  const SKIP_TOLERANCE: Time := 30 * SECOND

  datatype RecentPlay = RecentPlay(spotifyId: string, name: string, artistId: string, artistName: string,
                                   albumId: string, albumName: string, durationMs: int, playedAt: Time)

  /** What the resolver answers for a play. */
  datatype Resolution =
    | Resolved(mbid: string, artistMbid: string, artistName: string, releaseGroup: string)
    | Unresolved
    | ResolverFailed

  datatype Verdict = Full | Skip
  datatype Emitted = Emitted(verdict: Verdict, track: string, at: Time)

  /** One link of the chain: the mbid is "" when unresolved. */
  datatype Play = Play(mbid: string, durationSec: int, playedAt: Time)

  /** play_history: the UNIQUE key (spotify_track_id, played_at) and the track it points to. */
  datatype HistoryKey = HistoryKey(spotifyId: string, playedAt: Time)
  type History = map<HistoryKey, Option<string>>

  datatype State = State(db: Catalogue.Db, history: History, signals: seq<Emitted>)
  datatype Counters = Counters(inserted: nat, unresolved: nat, skipped: nat, playedFull: nat, errors: nat)

  function KeyOf(p: RecentPlay): HistoryKey {
    HistoryKey(p.spotifyId, p.playedAt)
  }

  /** Go's integer division truncates toward zero. */
  function Seconds(ms: int): int {
    if ms >= 0 then ms / 1000 else -((-ms) / 1000)
  }

  function Classify(earlier: Play, later: Play): Emitted {
    Emitted(if earlier.playedAt + earlier.durationSec * SECOND - SKIP_TOLERANCE > later.playedAt then Skip else Full,
            earlier.mbid, earlier.playedAt)
  }

  // ── ingesting one play ──

  datatype Ingested = Inserted(play: Play) | Known | Failed

  function ArtistMbid(p: RecentPlay, r: Resolution): string
    requires r.Resolved?
  {
    FirstNonEmpty(r.artistMbid, "sp:" + p.artistId)
  }

  function AlbumMbid(p: RecentPlay, r: Resolution): string
    requires r.Resolved?
  {
    FirstNonEmpty(r.releaseGroup, "sp:" + p.albumId)
  }

  /** The three catalogue upserts of a resolved play, stopping at the first failure. */
  function UpsertParents(db: Catalogue.Db, p: RecentPlay, r: Resolution): (Catalogue.Db, bool)
    requires r.Resolved?
  {
    var name := FirstNonEmpty(r.artistName, p.artistName);
    var (db1, o1) := if name != "" then Catalogue.Step(db, Catalogue.UpsertArtist(ArtistMbid(p, r), p.artistId, name))
                     else (db, Catalogue.Done);
    if o1 != Catalogue.Done then (db1, false) else
    var (db2, o2) := Catalogue.Step(db1, Catalogue.UpsertAlbumPlaceholder(AlbumMbid(p, r), p.albumId, p.albumName,
                                                                          ArtistMbid(p, r)));
    (db2, o2 == Catalogue.Done)
  }

  function UpsertAll(db: Catalogue.Db, p: RecentPlay, r: Resolution): (Catalogue.Db, bool)
    requires r.Resolved?
  {
    var (db1, ok) := UpsertParents(db, p, r);
    if !ok then (db1, false) else
    var (db2, o) := Catalogue.Step(db1, Catalogue.UpsertTrack(r.mbid, p.spotifyId, p.name, p.durationMs,
                                                              AlbumMbid(p, r), ArtistMbid(p, r)));
    (db2, o == Catalogue.Done)
  }

  function PlayOf(p: RecentPlay, mbid: string): Play {
    Play(mbid, Seconds(p.durationMs), p.playedAt)
  }

  /** INSERT INTO play_history … ON CONFLICT DO NOTHING, with the foreign key to tracks. */
  function InsertHistory(s: State, p: RecentPlay, mbid: string): (State, Ingested) {
    if KeyOf(p) in s.history then (s, Known)
    else if mbid != "" && mbid !in s.db.tracks then (s, Failed)
    else (s.(history := s.history[KeyOf(p) := NullIfEmpty(mbid)]), Inserted(PlayOf(p, mbid)))
  }

  function Ingest(s: State, p: RecentPlay, r: Resolution): (State, Ingested) {
    match r
    case ResolverFailed => (s, Failed)
    case Unresolved => InsertHistory(s, p, "")
    case Resolved(mbid, _, _, _) =>
      var (db, ok) := UpsertAll(s.db, p, r);
      if !ok then (s.(db := db), Failed) else InsertHistory(s.(db := db), p, mbid)
  }

  // ── one poll ──

  type Resolver = RecentPlay -> Resolution

  function ByTime(): (RecentPlay, RecentPlay) -> bool {
    (a: RecentPlay, b: RecentPlay) => a.playedAt <= b.playedAt
  }

  /** State, chain of newly inserted plays, and counters after ingesting a list. */
  datatype Batch = Batch(state: State, chain: seq<Play>, unresolved: nat, errors: nat)

  function IngestAll(s: State, plays: seq<RecentPlay>, resolve: Resolver): Batch {
    if plays == [] then Batch(s, [], 0, 0) else
    var b := IngestAll(s, plays[..|plays| - 1], resolve);
    var p := plays[|plays| - 1];
    var (s', out) := Ingest(b.state, p, resolve(p));
    Batch(s', if out.Inserted? then b.chain + [out.play] else b.chain,
          b.unresolved + (if resolve(p).Unresolved? then 1 else 0),
          b.errors + (if out.Failed? then 1 else 0))
  }

  /** Signals of the adjacent pairs of a chain whose earlier play is resolved. */
  function Pairs(chain: seq<Play>): seq<Emitted> {
    if |chain| < 2 then [] else
    var before := Pairs(chain[..|chain| - 1]);
    if chain[|chain| - 2].mbid == "" then before
    else before + [Classify(chain[|chain| - 2], chain[|chain| - 1])]
  }

  /** Append may fail; a failed signal is counted as an error and lost. */
  function Delivered(es: seq<Emitted>, fails: Emitted -> bool): seq<Emitted> {
    if es == [] then [] else
    var before := Delivered(es[..|es| - 1], fails);
    if fails(es[|es| - 1]) then before else before + [es[|es| - 1]]
  }

  /** Skips and full plays delivered, and signals lost. */
  datatype Account = Account(skipped: nat, full: nat, lost: nat)

  function Book(a: Account, e: Emitted, failed: bool): Account {
    if failed then a.(lost := a.lost + 1)
    else if e.verdict == Skip then a.(skipped := a.skipped + 1)
    else a.(full := a.full + 1)
  }

  function AccountOf(es: seq<Emitted>, fails: Emitted -> bool): Account {
    if es == [] then Account(0, 0, 0)
    else Book(AccountOf(es[..|es| - 1], fails), es[|es| - 1], fails(es[|es| - 1]))
  }

  /** The newest play_history row, with the duration its track shows now. */
  ghost predicate IsNewest(h: History, k: HistoryKey) {
    k in h && forall k' :: k' in h ==> k'.playedAt <= k.playedAt
  }

  function StoredPlay(s: State, k: HistoryKey): Play
    requires k in s.history
  {
    var link := s.history[k];
    Play(StringOf(link),
         if link.Some? && link.value in s.db.tracks && s.db.tracks[link.value].data.durationSec.Some?
         then s.db.tracks[link.value].data.durationSec.value else 0,
         k.playedAt)
  }

  /** The chain's persisted first link: empty on the first poll ever. */
  ghost predicate IsBase(s: State, base: seq<Play>) {
    if s.history == map[] then base == []
    else exists k :: IsNewest(s.history, k) && base == [StoredPlay(s, k)]
  }

  /** The pair loop and the counters, after the batch b was ingested. */
  function Finish(b: Batch, base: seq<Play>, fails: Emitted -> bool): (State, Counters) {
    var due := Pairs(base + b.chain);
    var a := AccountOf(due, fails);
    (b.state.(signals := b.state.signals + Delivered(due, fails)),
     Counters(|b.chain|, b.unresolved, a.skipped, a.full, b.errors + a.lost))
  }

  datatype RunStatus = RunOk | RunPartial | RunFailed
  datatype RunResult = RunResult(status: RunStatus, fetched: nat, counters: Counters)

  /** The cursor handed to Spotify: only plays after the newest recorded one. */
  function CursorOf(base: seq<Play>): Option<Time> {
    if base == [] then None else Some(base[0].playedAt)
  }

  function Poll(s: State, base: seq<Play>, recents: seq<RecentPlay>, resolve: Resolver,
                fails: Emitted -> bool): (State, Counters) {
    Finish(IngestAll(s, StableSort(recents, ByTime()), resolve), base, fails)
  }

  // ── a steady world: a Spotify track resolves to one mbid if at all, an mbid has one length ──

  datatype World = World(mbidOf: string -> string, secondsOf: string -> int)

  /** A track may be unresolved at one play and resolved at another. */
  ghost predicate Answers(w: World, p: RecentPlay, r: Resolution) {
    match r
    case Resolved(mbid, _, _, _) => mbid == w.mbidOf(p.spotifyId) && mbid != ""
    case _ => true
  }

  /** A track that resolves reports the one positive length of its mbid. */
  ghost predicate Steady(w: World, p: RecentPlay) {
    var m := w.mbidOf(p.spotifyId);
    m != "" ==> p.durationMs > 0 && p.durationMs / 1000 == w.secondsOf(m)
  }

  /** A recorded play as a link of the chain: unresolved if its row holds no mbid. */
  function LinkOf(w: World, hist: History, k: HistoryKey): Play {
    var m := if k in hist then StringOf(hist[k]) else "";
    Play(m, if m == "" then 0 else w.secondsOf(m), k.playedAt)
  }

  function ChainOf(w: World, hist: History, h: seq<HistoryKey>): seq<Play> {
    seq(|h|, i requires 0 <= i < |h| => LinkOf(w, hist, h[i]))
  }

  /** The verdicts on all adjacent pairs of a history, as its rows were recorded. */
  function Verdicts(w: World, hist: History, h: seq<HistoryKey>): seq<Emitted> {
    Pairs(ChainOf(w, hist, h))
  }

  ghost predicate Increasing(h: seq<HistoryKey>) {
    forall i, j :: 0 <= i < j < |h| ==> h[i].playedAt < h[j].playedAt
  }

  /** No track row holds a spotify id that resolves to another mbid. */
  ghost predicate TracksSteady(w: World, db: Catalogue.Db) {
    forall m :: m in db.tracks && db.tracks[m].spotifyId.Some? && w.mbidOf(db.tracks[m].spotifyId.value) != "" ==>
      w.mbidOf(db.tracks[m].spotifyId.value) == m
  }

  ghost predicate StoredTrack(w: World, db: Catalogue.Db, m: string) {
    m in db.tracks && db.tracks[m].data.durationSec == Some(w.secondsOf(m))
  }

  /** Row k holds no mbid or its track's, whose row shows its length. */
  ghost predicate RowSound(w: World, s: State, k: HistoryKey)
    requires k in s.history
  {
    var m := w.mbidOf(k.spotifyId);
    s.history[k] == None || (m != "" && s.history[k] == Some(m) && StoredTrack(w, s.db, m))
  }

  ghost predicate Sound(w: World, s: State) {
    TracksSteady(w, s.db) && forall k :: k in s.history ==> RowSound(w, s, k)
  }

  /** h is the recorded history in time order. */
  ghost predicate Lists(s: State, h: seq<HistoryKey>) {
    Increasing(h) && Elements(h) == s.history.Keys
  }

  // ── ingesting keeps the record ──

  lemma ParentsLeaveTracks(db: Catalogue.Db, p: RecentPlay, r: Resolution)
    requires r.Resolved?
    ensures UpsertParents(db, p, r).0.tracks == db.tracks
  {
  }

  lemma UpsertAllTracks(w: World, db: Catalogue.Db, p: RecentPlay, r: Resolution)
    requires r.Resolved? && Answers(w, p, r) && Steady(w, p) && TracksSteady(w, db)
    ensures var (db', ok) := UpsertAll(db, p, r);
      && (!ok ==> db'.tracks == db.tracks)
      && (ok ==> TracksSteady(w, db') && StoredTrack(w, db', r.mbid))
      && (forall m :: m != r.mbid && m in db.tracks ==> m in db'.tracks && db'.tracks[m] == db.tracks[m])
  {
    var db1 := UpsertParents(db, p, r).0;
    ParentsLeaveTracks(db, p, r);
    assert Catalogue.OtherOwners(db1.tracks, r.mbid, p.spotifyId) == {};
  }

  lemma CatalogueKeepsSound(w: World, s: State, db: Catalogue.Db, mbid: string)
    requires Sound(w, s) && TracksSteady(w, db)
    requires db.tracks == s.db.tracks || StoredTrack(w, db, mbid)
    requires forall m :: m != mbid && m in s.db.tracks ==> m in db.tracks && db.tracks[m] == s.db.tracks[m]
    ensures Sound(w, s.(db := db))
  {
    forall k | k in s.history
      ensures RowSound(w, s.(db := db), k)
    {
      assert RowSound(w, s, k);
    }
  }

  lemma RecordKeepsSound(w: World, s: State, p: RecentPlay, mbid: string)
    requires Sound(w, s) && Steady(w, p)
    requires mbid != "" ==> mbid == w.mbidOf(p.spotifyId) && StoredTrack(w, s.db, mbid)
    ensures var (s', out) := InsertHistory(s, p, mbid);
      && Sound(w, s') && !out.Failed?
      && (out.Inserted? ==> Alike(out.play, LinkOf(w, s'.history, KeyOf(p))))
  {
    var s' := InsertHistory(s, p, mbid).0;
    forall k | k in s'.history
      ensures RowSound(w, s', k)
    {
      assert k in s.history ==> RowSound(w, s, k);
    }
  }

  /** Ingesting records the play, finds it recorded, or fails and records nothing. */
  lemma IngestRecords(w: World, s: State, p: RecentPlay, r: Resolution)
    requires Sound(w, s) && Answers(w, p, r) && Steady(w, p)
    ensures var (s', out) := Ingest(s, p, r);
      Sound(w, s') && (out.Inserted? ==> Alike(out.play, LinkOf(w, s'.history, KeyOf(p))))
  {
    match r
    case ResolverFailed =>
    case Unresolved => RecordKeepsSound(w, s, p, "");
    case Resolved(mbid, _, _, _) =>
      var (db, ok) := UpsertAll(s.db, p, r);
      UpsertAllTracks(w, s.db, p, r);
      CatalogueKeepsSound(w, s, db, mbid);
      if ok {
        RecordKeepsSound(w, s.(db := db), p, mbid);
      }
  }

  /** Recorded rows stay as they are. */
  ghost predicate Extends(a: History, b: History) {
    forall k :: k in a ==> k in b && b[k] == a[k]
  }

  /** What ingesting does to the history and the signals, in any world. */
  lemma IngestHistory(s: State, p: RecentPlay, r: Resolution)
    ensures var (s', out) := Ingest(s, p, r);
      && s'.signals == s.signals
      && (out.Inserted? ==>
          KeyOf(p) !in s.history && s'.history.Keys == s.history.Keys + {KeyOf(p)} && out.play.playedAt == p.playedAt)
      && (!out.Inserted? ==> s'.history == s.history)
      && (out.Known? ==> KeyOf(p) in s.history)
      && Extends(s.history, s'.history)
  {
  }

  /** The plays of a list that were newly recorded, in order. */
  ghost function Taken(s: State, plays: seq<RecentPlay>, resolve: Resolver): seq<HistoryKey> {
    if plays == [] then [] else
    var front, p := plays[..|plays| - 1], plays[|plays| - 1];
    var before := Taken(s, front, resolve);
    if Ingest(IngestAll(s, front, resolve).state, p, resolve(p)).1.Inserted? then before + [KeyOf(p)] else before
  }

  ghost predicate KeyListed(plays: seq<RecentPlay>, k: HistoryKey) {
    exists i :: 0 <= i < |plays| && KeyOf(plays[i]) == k
  }

  lemma KeyListedStep(plays: seq<RecentPlay>, k: HistoryKey)
    requires plays != []
    ensures KeyListed(plays, k) <==> KeyListed(plays[..|plays| - 1], k) || KeyOf(plays[|plays| - 1]) == k
  {
    var front := plays[..|plays| - 1];
    assert forall i :: 0 <= i < |front| ==> front[i] == plays[i];
    if KeyListed(plays, k) {
      var i :| 0 <= i < |plays| && KeyOf(plays[i]) == k;
      assert i == |front| || KeyOf(front[i]) == k;
    }
    if KeyListed(front, k) {
      var i :| 0 <= i < |front| && KeyOf(front[i]) == k;
      assert KeyOf(plays[i]) == k;
    }
  }

  /** The history grows by exactly the plays taken, which were listed and not recorded
      before; without errors every listed play is recorded afterwards. */
  lemma {:induction false} TakenRecorded(s: State, plays: seq<RecentPlay>, resolve: Resolver)
    ensures var b, t := IngestAll(s, plays, resolve), Taken(s, plays, resolve);
      && b.state.signals == s.signals
      && |b.chain| == |t|
      && b.state.history.Keys == s.history.Keys + Elements(t)
      && Extends(s.history, b.state.history)
      && (forall k :: k in t ==> k !in s.history && KeyListed(plays, k))
      && (b.errors == 0 ==> forall k :: KeyListed(plays, k) ==> k in b.state.history)
  {
    if plays != [] {
      var front, p := plays[..|plays| - 1], plays[|plays| - 1];
      TakenRecorded(s, front, resolve);
      var before, t := IngestAll(s, front, resolve), Taken(s, front, resolve);
      IngestHistory(before.state, p, resolve(p));
      ElementsAppend(t, KeyOf(p));
      forall k
        ensures KeyListed(plays, k) <==> KeyListed(front, k) || KeyOf(p) == k
      {
        KeyListedStep(plays, k);
      }
    }
  }

  ghost predicate NotDecreasing(plays: seq<RecentPlay>) {
    forall i, j :: 0 <= i < j < |plays| ==> plays[i].playedAt <= plays[j].playedAt
  }

  /** One track plays at a time. */
  ghost predicate OneTrackPerTime(plays: seq<RecentPlay>) {
    forall p, q :: p in plays && q in plays && p.playedAt == q.playedAt ==> p.spotifyId == q.spotifyId
  }

  lemma ListedNotLater(front: seq<RecentPlay>, p: RecentPlay, plays: seq<RecentPlay>, k: HistoryKey)
    requires plays == front + [p] && NotDecreasing(plays) && OneTrackPerTime(plays) && KeyListed(front, k)
    ensures k.playedAt < p.playedAt || k == KeyOf(p)
  {
    var j :| 0 <= j < |front| && KeyOf(front[j]) == k;
    assert plays[j] == front[j] && plays[|front|] == p;
    assert plays[j] in plays && p in plays;
  }

  lemma FrontOrdered(front: seq<RecentPlay>, p: RecentPlay, plays: seq<RecentPlay>)
    requires plays == front + [p] && NotDecreasing(plays) && OneTrackPerTime(plays)
    ensures NotDecreasing(front) && OneTrackPerTime(front)
  {
    forall q | q in front
      ensures q in plays
    {
    }
    forall i, j | 0 <= i < j < |front|
      ensures front[i].playedAt <= front[j].playedAt
    {
      assert plays[i] == front[i] && plays[j] == front[j];
    }
  }

  /** Plays taken from a time-ordered list come out in strictly increasing time. */
  lemma {:induction false} TakenIncreasing(s: State, plays: seq<RecentPlay>, resolve: Resolver)
    requires NotDecreasing(plays) && OneTrackPerTime(plays)
    ensures Increasing(Taken(s, plays, resolve))
  {
    if plays != [] {
      var front, p := plays[..|plays| - 1], plays[|plays| - 1];
      var before, t := IngestAll(s, front, resolve).state, Taken(s, front, resolve);
      assert plays == front + [p];
      FrontOrdered(front, p, plays);
      TakenIncreasing(s, front, resolve);
      TakenRecorded(s, front, resolve);
      IngestHistory(before, p, resolve(p));
      if Ingest(before, p, resolve(p)).1.Inserted? {
        forall i | 0 <= i < |t|
          ensures t[i].playedAt < p.playedAt
        {
          assert t[i] in t && t[i] in Elements(t);
          ListedNotLater(front, p, plays, t[i]);
        }
      }
    }
  }

  /** Interchangeable as the earlier play of a pair. */
  ghost predicate Alike(a: Play, b: Play) {
    a == b || (a.mbid == "" && b.mbid == "" && a.playedAt == b.playedAt)
  }

  ghost predicate AllAlike(a: seq<Play>, b: seq<Play>) {
    |a| == |b| && forall i :: 0 <= i < |a| ==> Alike(a[i], b[i])
  }

  lemma ChainOfAppend(w: World, hist: History, h: seq<HistoryKey>, k: HistoryKey)
    ensures ChainOf(w, hist, h + [k]) == ChainOf(w, hist, h) + [LinkOf(w, hist, k)]
  {
  }

  /** What gets recorded later does not change the links recorded before. */
  lemma ChainOfGrows(w: World, hist: History, hist': History, h: seq<HistoryKey>)
    requires Extends(hist, hist') && forall k :: k in h ==> k in hist
    ensures ChainOf(w, hist, h) == ChainOf(w, hist', h)
  {
    forall i | 0 <= i < |h|
      ensures LinkOf(w, hist, h[i]) == LinkOf(w, hist', h[i])
    {
      assert h[i] in h;
    }
  }

  /** In a steady world the chain built in memory is the one the record shows. */
  lemma {:induction false} TakenAlike(w: World, s: State, plays: seq<RecentPlay>, resolve: Resolver)
    requires Sound(w, s) && forall p :: p in plays ==> Answers(w, p, resolve(p)) && Steady(w, p)
    ensures var b := IngestAll(s, plays, resolve);
      Sound(w, b.state) && AllAlike(b.chain, ChainOf(w, b.state.history, Taken(s, plays, resolve)))
  {
    if plays != [] {
      var front, p := plays[..|plays| - 1], plays[|plays| - 1];
      var before, t := IngestAll(s, front, resolve), Taken(s, front, resolve);
      TakenAlike(w, s, front, resolve);
      TakenRecorded(s, front, resolve);
      assert p in plays;
      IngestRecords(w, before.state, p, resolve(p));
      IngestHistory(before.state, p, resolve(p));
      var hist' := Ingest(before.state, p, resolve(p)).0.history;
      forall k | k in t
        ensures k in before.state.history
      {
        assert k in Elements(t);
      }
      ChainOfGrows(w, before.state.history, hist', t);
      ChainOfAppend(w, hist', t, KeyOf(p));
    }
  }

  // ── pairs of a chain cut in two ──

  function Due(earlier: Play, later: Play): seq<Emitted> {
    if earlier.mbid == "" then [] else [Classify(earlier, later)]
  }

  lemma PairsAppend(chain: seq<Play>, p: Play)
    requires chain != []
    ensures Pairs(chain + [p]) == Pairs(chain) + Due(chain[|chain| - 1], p)
  {
    var longer := chain + [p];
    assert longer[..|longer| - 1] == chain && longer[|longer| - 2] == chain[|chain| - 1];
  }

  lemma DueAlike(a: Play, b: Play, p: Play, q: Play)
    requires Alike(a, b) && Alike(p, q)
    ensures Due(a, p) == Due(b, q)
  {
  }

  lemma {:induction false} PairsAlike(a: seq<Play>, b: seq<Play>)
    requires AllAlike(a, b)
    ensures Pairs(a) == Pairs(b)
  {
    var n := |a| - 1;
    if n >= 1 {
      assert a == a[..n] + [a[n]] && b == b[..n] + [b[n]];
      PairsAlike(a[..n], b[..n]);
      PairsAppend(a[..n], a[n]);
      PairsAppend(b[..n], b[n]);
      DueAlike(a[n - 1], b[n - 1], a[n], b[n]);
    }
  }

  lemma Regroup(a: seq<Emitted>, b: seq<Emitted>, c: seq<Emitted>)
    ensures (a + b) + c == a + (b + c)
  {
  }

  /** A chain may be continued from its last play. */
  lemma {:induction false} PairsSplit(c: seq<Play>, more: seq<Play>)
    requires c != []
    ensures Pairs(c + more) == Pairs(c) + Pairs([c[|c| - 1]] + more)
  {
    var last := [c[|c| - 1]];
    if more == [] {
      assert c + more == c && last + more == last;
      assert Pairs(last) == [];
    } else {
      var front, p := more[..|more| - 1], more[|more| - 1];
      assert c + more == (c + front) + [p] && last + more == (last + front) + [p];
      PairsAppend(c + front, p);
      PairsAppend(last + front, p);
      assert (c + front)[|c + front| - 1] == (last + front)[|last + front| - 1];
      PairsSplit(c, front);
      Regroup(Pairs(c), Pairs(last + front), Due((last + front)[|last + front| - 1], p));
    }
  }

  /** The newest stored row is the last recorded play, as far as pairs can tell. */
  lemma BaseIsLast(w: World, s: State, h: seq<HistoryKey>, base: seq<Play>)
    requires Sound(w, s) && Lists(s, h) && IsBase(s, base)
    ensures AllAlike(base, LastLink(w, s.history, h))
  {
    if h == [] {
      assert s.history.Keys == {};
    } else {
      var last := h[|h| - 1];
      assert last in Elements(h);
      var k :| IsNewest(s.history, k) && base == [StoredPlay(s, k)];
      assert k in Elements(h);
      var i :| 0 <= i < |h| && h[i] == k;
      assert i == |h| - 1;
      assert RowSound(w, s, k);
    }
  }

  function LastLink(w: World, hist: History, h: seq<HistoryKey>): seq<Play> {
    if h == [] then [] else [LinkOf(w, hist, h[|h| - 1])]
  }

  lemma ChainOfConcat(w: World, hist: History, h: seq<HistoryKey>, news: seq<HistoryKey>)
    ensures ChainOf(w, hist, h + news) == ChainOf(w, hist, h) + ChainOf(w, hist, news)
  {
  }

  lemma AlikeConcat(a: seq<Play>, b: seq<Play>, a': seq<Play>, b': seq<Play>)
    requires AllAlike(a, b) && AllAlike(a', b')
    ensures AllAlike(a + a', b + b')
  {
  }

  /** The pairs a poll looks at are the ones its new plays add to the history. */
  lemma DueIsNew(w: World, hist: History, h: seq<HistoryKey>, news: seq<HistoryKey>, base: seq<Play>, chain: seq<Play>)
    requires AllAlike(base, LastLink(w, hist, h)) && AllAlike(chain, ChainOf(w, hist, news))
    ensures Verdicts(w, hist, h + news) == Verdicts(w, hist, h) + Pairs(base + chain)
  {
    ChainOfConcat(w, hist, h, news);
    if h == [] {
      assert base + chain == chain && h + news == news;
      assert Pairs(ChainOf(w, hist, h)) == [];
      PairsAlike(chain, ChainOf(w, hist, news));
    } else {
      var last := LastLink(w, hist, h);
      AlikeConcat(base, last, chain, ChainOf(w, hist, news));
      PairsAlike(base + chain, last + ChainOf(w, hist, news));
      PairsSplit(ChainOf(w, hist, h), ChainOf(w, hist, news));
    }
  }

  // ── one poll advances the record ──

  lemma SortedRecents(recents: seq<RecentPlay>)
    ensures var plays := StableSort(recents, ByTime());
      NotDecreasing(plays) && (forall p :: p in plays <==> p in recents)
  {
    assert TotalPreorder(ByTime());
    StableSortSpec(recents, ByTime());
    PermutationKeepsElements(recents, StableSort(recents, ByTime()));
    var plays := StableSort(recents, ByTime());
    forall i, j | 0 <= i < j < |plays|
      ensures plays[i].playedAt <= plays[j].playedAt
    {
      assert ByTime()(plays[i], plays[j]);
    }
  }

  /** What Spotify lists behind the cursor, repeats included: every play is recorded
      or later than anything recorded, and one track plays at a time. */
  ghost predicate Onward(s: State, recents: seq<RecentPlay>) {
    && OneTrackPerTime(recents)
    && forall p :: p in recents ==> KeyOf(p) in s.history || forall k :: k in s.history ==> k.playedAt < p.playedAt
  }

  lemma TakenFollows(s: State, h: seq<HistoryKey>, plays: seq<RecentPlay>, resolve: Resolver)
    requires Lists(s, h) && NotDecreasing(plays) && Onward(s, plays)
    ensures Lists(IngestAll(s, plays, resolve).state, h + Taken(s, plays, resolve))
  {
    var t := Taken(s, plays, resolve);
    TakenRecorded(s, plays, resolve);
    TakenIncreasing(s, plays, resolve);
    ElementsConcat(h, t);
    forall i, j | 0 <= i < |h| && 0 <= j < |t|
      ensures h[i].playedAt < t[j].playedAt
    {
      assert h[i] in Elements(h) && t[j] in t && KeyListed(plays, t[j]);
      var n :| 0 <= n < |plays| && KeyOf(plays[n]) == t[j];
      assert plays[n] in plays;
    }
  }

  lemma {:induction false} DeliveredConcat(a: seq<Emitted>, b: seq<Emitted>, fails: Emitted -> bool)
    ensures Delivered(a + b, fails) == Delivered(a, fails) + Delivered(b, fails)
  {
    if b == [] {
      assert a + b == a;
    } else {
      var front := b[..|b| - 1];
      assert (a + b)[..|a + b| - 1] == a + front;
      DeliveredConcat(a, front, fails);
    }
  }

  lemma {:induction false} NothingLost(es: seq<Emitted>, fails: Emitted -> bool)
    requires AccountOf(es, fails).lost == 0
    ensures Delivered(es, fails) == es
  {
    if es != [] {
      var front, e := es[..|es| - 1], es[|es| - 1];
      assert es == front + [e];
      assert AccountOf(es, fails) == Book(AccountOf(front, fails), e, fails(e));
      NothingLost(front, fails);
    }
  }

  /** What the steady world demands of a poll. */
  ghost predicate PollOk(w: World, s: State, base: seq<Play>, recents: seq<RecentPlay>, resolve: Resolver) {
    && IsBase(s, base) && Onward(s, recents)
    && forall p :: p in recents ==> Answers(w, p, resolve(p)) && Steady(w, p)
  }

  lemma LastLinkGrows(w: World, hist: History, hist': History, h: seq<HistoryKey>)
    requires Extends(hist, hist') && forall k :: k in h ==> k in hist
    ensures LastLink(w, hist, h) == LastLink(w, hist', h) && Verdicts(w, hist, h) == Verdicts(w, hist', h)
  {
    ChainOfGrows(w, hist, hist', h);
    assert h != [] ==> h[|h| - 1] in h;
  }

  /** A poll, whatever fails in it, appends the plays it could record to the history
      and delivers the verdicts that become known with them; without errors it records
      all plays listed and loses no verdict. */
  lemma PollAdvances(w: World, s: State, h: seq<HistoryKey>, base: seq<Play>, recents: seq<RecentPlay>,
                     resolve: Resolver, fails: Emitted -> bool) returns (news: seq<HistoryKey>, due: seq<Emitted>)
    requires Sound(w, s) && Lists(s, h) && PollOk(w, s, base, recents, resolve)
    ensures var (s', c) := Poll(s, base, recents, resolve, fails);
      && Sound(w, s') && Lists(s', h + news) && c.inserted == |news|
      && Verdicts(w, s'.history, h + news) == Verdicts(w, s.history, h) + due
      && s'.signals == s.signals + Delivered(due, fails)
      && (c.errors == 0 ==> Delivered(due, fails) == due && AllRecorded(s', recents))
  {
    var plays := StableSort(recents, ByTime());
    SortedRecents(recents);
    news := Taken(s, plays, resolve);
    var b := IngestAll(s, plays, resolve);
    due := Pairs(base + b.chain);
    TakenRecorded(s, plays, resolve);
    TakenAlike(w, s, plays, resolve);
    TakenFollows(s, h, plays, resolve);
    BaseIsLast(w, s, h, base);
    ListedInHistory(s, h);
    LastLinkGrows(w, s.history, b.state.history, h);
    DueIsNew(w, b.state.history, h, news, base, b.chain);
    FinishSends(b, base, fails);
    ListedRecorded(b.state, plays, recents);
  }

  lemma ListedInHistory(s: State, h: seq<HistoryKey>)
    requires Lists(s, h)
    ensures forall k :: k in h ==> k in s.history
  {
    forall k | k in h
      ensures k in s.history
    {
      assert k in Elements(h);
    }
  }

  ghost predicate AllRecorded(s: State, plays: seq<RecentPlay>) {
    forall p :: p in plays ==> KeyOf(p) in s.history
  }

  lemma ListedRecorded(s: State, plays: seq<RecentPlay>, recents: seq<RecentPlay>)
    requires forall p :: p in plays <==> p in recents
    ensures (forall k :: KeyListed(plays, k) ==> k in s.history) ==> AllRecorded(s, recents)
  {
    forall p | p in recents
      ensures KeyListed(plays, KeyOf(p))
    {
      assert p in plays;
      var i :| 0 <= i < |plays| && plays[i] == p;
      assert KeyOf(plays[i]) == KeyOf(p);
    }
  }

  lemma FinishSends(b: Batch, base: seq<Play>, fails: Emitted -> bool)
    ensures var (s, c), due := Finish(b, base, fails), Pairs(base + b.chain);
      && s == b.state.(signals := b.state.signals + Delivered(due, fails))
      && c.inserted == |b.chain|
      && (c.errors == 0 ==> b.errors == 0 && Delivered(due, fails) == due)
  {
    var due := Pairs(base + b.chain);
    if AccountOf(due, fails).lost == 0 {
      NothingLost(due, fails);
    }
  }

  // ── any number of polls ──

  /** A poll, and what other services write to the catalogue before it. */
  datatype Input = Input(writes: seq<Catalogue.Op>, base: seq<Play>, recents: seq<RecentPlay>, resolve: Resolver,
                         fails: Emitted -> bool)

  function Written(s: State, writes: seq<Catalogue.Op>): State {
    s.(db := Catalogue.Run(s.db, writes))
  }

  /** The state poll number i finds. */
  function Before(s: State, inputs: seq<Input>, i: nat): State
    requires i < |inputs|
  {
    Written(RunPolls(s, inputs[..i]), inputs[i].writes)
  }

  function RunPolls(s: State, inputs: seq<Input>): State {
    if inputs == [] then s else
    var i := inputs[|inputs| - 1];
    Poll(Written(RunPolls(s, inputs[..|inputs| - 1]), i.writes), i.base, i.recents, i.resolve, i.fails).0
  }

  /** A write of another service knows the same mbids and lengths; a length may be missing. */
  ghost predicate Agrees(w: World, op: Catalogue.Op) {
    op.UpsertTrack? ==>
      && op.mbid != ""
      && (op.spotifyId != "" ==> w.mbidOf(op.spotifyId) == op.mbid)
      && (op.durationMs > 0 ==> op.durationMs / 1000 == w.secondsOf(op.mbid))
  }

  lemma TrackWriteAgrees(w: World, db: Catalogue.Db, op: Catalogue.Op)
    requires TracksSteady(w, db) && Agrees(w, op) && op.UpsertTrack?
    ensures var db' := db.(tracks := Catalogue.TrackWrite(db, op).table);
      TracksSteady(w, db') && forall m :: StoredTrack(w, db, m) ==> StoredTrack(w, db', m)
  {
    if op.spotifyId != "" {
      assert Catalogue.OtherOwners(db.tracks, op.mbid, op.spotifyId) == {};
    }
  }

  lemma WriteKeepsTracks(w: World, db: Catalogue.Db, op: Catalogue.Op)
    requires TracksSteady(w, db) && Agrees(w, op)
    ensures var db' := Catalogue.Step(db, op).0;
      TracksSteady(w, db') && forall m :: StoredTrack(w, db, m) ==> StoredTrack(w, db', m)
  {
    if op.UpsertTrack? && Catalogue.ForeignKeysMet(db, op) {
      TrackWriteAgrees(w, db, op);
    } else {
      assert Catalogue.Step(db, op).0.tracks == db.tracks;
    }
  }

  lemma WriteKeepsSound(w: World, s: State, op: Catalogue.Op)
    requires Sound(w, s) && Agrees(w, op)
    ensures Sound(w, s.(db := Catalogue.Step(s.db, op).0))
  {
    WriteKeepsTracks(w, s.db, op);
    forall k | k in s.history
      ensures RowSound(w, s.(db := Catalogue.Step(s.db, op).0), k)
    {
      assert RowSound(w, s, k);
    }
  }

  lemma {:induction false} WritesKeepSound(w: World, s: State, writes: seq<Catalogue.Op>)
    requires Sound(w, s) && forall op :: op in writes ==> Agrees(w, op)
    ensures Sound(w, Written(s, writes))
  {
    if writes != [] {
      var front := writes[..|writes| - 1];
      WritesKeepSound(w, s, front);
      assert writes[|writes| - 1] in writes;
      WriteKeepsSound(w, Written(s, front), writes[|writes| - 1]);
    } else {
      assert Written(s, writes) == s;
    }
  }

  /** A user's polls from the first one on, over a catalogue without stale track rows. */
  ghost predicate FreshUser(w: World, s: State) {
    TracksSteady(w, s.db) && s.history == map[] && s.signals == []
  }

  ghost predicate PollFits(w: World, s: State, inputs: seq<Input>, i: nat)
    requires i < |inputs|
  {
    && (forall op :: op in inputs[i].writes ==> Agrees(w, op))
    && PollOk(w, Before(s, inputs, i), inputs[i].base, inputs[i].recents, inputs[i].resolve)
  }

  ghost predicate AllFit(w: World, s: State, inputs: seq<Input>) {
    FreshUser(w, s) && forall i: nat :: i < |inputs| ==> PollFits(w, s, inputs, i)
  }

  lemma FrontFits(w: World, s: State, inputs: seq<Input>)
    requires inputs != [] && AllFit(w, s, inputs)
    ensures AllFit(w, s, inputs[..|inputs| - 1]) && PollFits(w, s, inputs, |inputs| - 1)
  {
    var front := inputs[..|inputs| - 1];
    forall i: nat | i < |front|
      ensures PollFits(w, s, front, i)
    {
      assert front[..i] == inputs[..i];
      assert PollFits(w, s, inputs, i);
    }
  }

  lemma StartOfRun(w: World, s: State, fails: Emitted -> bool)
    requires FreshUser(w, s)
    ensures Sound(w, s) && Lists(s, []) && Verdicts(w, s.history, []) == [] && Delivered([], fails) == []
  {
    assert Elements<HistoryKey>([]) == {};
    assert ChainOf(w, s.history, []) == [];
  }

  /** However the plays are split into polls, whatever the polls repeat, in whatever
      order they list it, whichever tracks are unresolved at first or later, whichever
      ingests and Appends fail and whatever other services write in between: the signals
      are the delivered verdicts on all adjacent pairs of the history as recorded. */
  lemma {:induction false} PollSplitting(w: World, s: State, inputs: seq<Input>, fails: Emitted -> bool)
    returns (h: seq<HistoryKey>)
    requires AllFit(w, s, inputs) && forall i :: 0 <= i < |inputs| ==> inputs[i].fails == fails
    ensures var t := RunPolls(s, inputs);
      Sound(w, t) && Lists(t, h) && t.signals == Delivered(Verdicts(w, t.history, h), fails)
  {
    if inputs == [] {
      h := [];
      StartOfRun(w, s, fails);
    } else {
      var front, last := inputs[..|inputs| - 1], inputs[|inputs| - 1];
      FrontFits(w, s, inputs);
      h := PollSplitting(w, s, front, fails);
      var m := Written(RunPolls(s, front), last.writes);
      WritesKeepSound(w, RunPolls(s, front), last.writes);
      var news, due := PollAdvances(w, m, h, last.base, last.recents, last.resolve, fails);
      DeliveredConcat(Verdicts(w, m.history, h), due, fails);
      h := h + news;
    }
  }

  lemma {:induction false} IncreasingUnique(a: seq<HistoryKey>, b: seq<HistoryKey>)
    requires Increasing(a) && Increasing(b) && Elements(a) == Elements(b)
    ensures a == b
  {
    assert a != [] ==> a[0] in Elements(a);
    assert b != [] ==> b[0] in Elements(b);
    if a != [] && b != [] {
      var x, y := a[|a| - 1], b[|b| - 1];
      assert x in Elements(b) && y in Elements(a);
      var i :| 0 <= i < |b| && b[i] == x;
      var j :| 0 <= j < |a| && a[j] == y;
      assert x == y;
      DropLast(a);
      DropLast(b);
      IncreasingUnique(a[..|a| - 1], b[..|b| - 1]);
    }
  }

  lemma DropLast(a: seq<HistoryKey>)
    requires a != [] && Increasing(a)
    ensures Elements(a[..|a| - 1]) == Elements(a) - {a[|a| - 1]}
  {
    var front, last := a[..|a| - 1], a[|a| - 1];
    assert a == front + [last];
    ElementsAppend(front, last);
    assert last !in front;
  }

  /** The signals depend on what got recorded, not on how it was polled: two runs with
      the same recorded history send the same signals, whatever their catalogues, errors
      and splits. */
  lemma SplitIrrelevant(w: World, s1: State, inputs1: seq<Input>, s2: State, inputs2: seq<Input>,
                        fails: Emitted -> bool)
    requires AllFit(w, s1, inputs1) && forall i :: 0 <= i < |inputs1| ==> inputs1[i].fails == fails
    requires AllFit(w, s2, inputs2) && forall i :: 0 <= i < |inputs2| ==> inputs2[i].fails == fails
    requires RunPolls(s1, inputs1).history == RunPolls(s2, inputs2).history
    ensures RunPolls(s1, inputs1).signals == RunPolls(s2, inputs2).signals
  {
    var h1 := PollSplitting(w, s1, inputs1, fails);
    var h2 := PollSplitting(w, s2, inputs2, fails);
    IncreasingUnique(h1, h2);
  }

  ghost predicate NoErrors(s: State, inputs: seq<Input>, i: nat)
    requires i < |inputs|
  {
    var input := inputs[i];
    Poll(Before(s, inputs, i), input.base, input.recents, input.resolve, input.fails).1.errors == 0
  }

  ghost predicate NeverErrs(s: State, inputs: seq<Input>) {
    forall i: nat :: i < |inputs| ==> NoErrors(s, inputs, i)
  }

  lemma FrontNeverErrs(s: State, inputs: seq<Input>)
    requires inputs != [] && NeverErrs(s, inputs)
    ensures NeverErrs(s, inputs[..|inputs| - 1]) && NoErrors(s, inputs, |inputs| - 1)
  {
    var front := inputs[..|inputs| - 1];
    forall i: nat | i < |front|
      ensures NoErrors(s, front, i)
    {
      assert front[..i] == inputs[..i];
      assert NoErrors(s, inputs, i);
    }
  }

  /** Every play some poll listed is recorded. */
  ghost predicate ListedAreRecorded(inputs: seq<Input>, s: State) {
    forall i :: 0 <= i < |inputs| ==> AllRecorded(s, inputs[i].recents)
  }

  /** If no poll reports an error, every listed play is recorded and the verdicts on
      all adjacent pairs are sent, each once. */
  lemma {:induction false} CleanRunSendsAll(w: World, s: State, inputs: seq<Input>) returns (h: seq<HistoryKey>)
    requires AllFit(w, s, inputs) && NeverErrs(s, inputs)
    ensures var t := RunPolls(s, inputs);
      Sound(w, t) && Lists(t, h) && t.signals == Verdicts(w, t.history, h) && ListedAreRecorded(inputs, t)
  {
    if inputs == [] {
      h := [];
      StartOfRun(w, s, e => false);
    } else {
      var front, last := inputs[..|inputs| - 1], inputs[|inputs| - 1];
      FrontFits(w, s, inputs);
      FrontNeverErrs(s, inputs);
      h := CleanRunSendsAll(w, s, front);
      var m := Written(RunPolls(s, front), last.writes);
      WritesKeepSound(w, RunPolls(s, front), last.writes);
      var news, due := PollAdvances(w, m, h, last.base, last.recents, last.resolve, last.fails);
      RecordGrows(m, RunPolls(s, inputs), h, news, inputs);
      h := h + news;
    }
  }

  lemma RecordGrows(m: State, t: State, h: seq<HistoryKey>, news: seq<HistoryKey>, inputs: seq<Input>)
    requires inputs != [] && Lists(m, h) && Lists(t, h + news)
    requires ListedAreRecorded(inputs[..|inputs| - 1], m) && AllRecorded(t, inputs[|inputs| - 1].recents)
    ensures ListedAreRecorded(inputs, t)
  {
    ElementsConcat(h, news);
    forall i | 0 <= i < |inputs| - 1
      ensures AllRecorded(t, inputs[i].recents)
    {
      assert AllRecorded(m, inputs[..|inputs| - 1][i].recents);
    }
  }

  /** Each signal stems from one play with a successor. */
  ghost predicate StemsFrom(chain: seq<Play>, e: Emitted, i: int) {
    0 <= i && i + 1 < |chain| && chain[i].mbid != "" && e == Classify(chain[i], chain[i + 1])
  }

  lemma {:induction false} SignalStems(chain: seq<Play>, a: int) returns (i: int)
    requires 0 <= a < |Pairs(chain)|
    ensures StemsFrom(chain, Pairs(chain)[a], i)
  {
    var front := chain[..|chain| - 1];
    if a < |Pairs(front)| {
      i := SignalStems(front, a);
    } else {
      i := |chain| - 2;
    }
  }

  lemma {:induction false} PlaySignalled(chain: seq<Play>, i: int) returns (a: int)
    requires 0 <= i && i + 1 < |chain| && chain[i].mbid != ""
    ensures 0 <= a < |Pairs(chain)| && Pairs(chain)[a] == Classify(chain[i], chain[i + 1])
  {
    if i == |chain| - 2 {
      a := |Pairs(chain)| - 1;
    } else {
      a := PlaySignalled(chain[..|chain| - 1], i);
    }
  }

  lemma {:induction false} SignalsInOrder(chain: seq<Play>, a: int, b: int)
    requires forall i, j :: 0 <= i < j < |chain| ==> chain[i].playedAt < chain[j].playedAt
    requires 0 <= a < b < |Pairs(chain)|
    ensures Pairs(chain)[a].at < Pairs(chain)[b].at
  {
    var front := chain[..|chain| - 1];
    if b < |Pairs(front)| {
      SignalsInOrder(front, a, b);
    } else {
      var i := SignalStems(front, a);
    }
  }

  /** Exactly once: a resolved play with a successor has one signal, its verdict, and
      no second signal carries its time; every signal stems from such a play, so the
      newest play has none. */
  lemma ExactlyOnce(chain: seq<Play>, i: int) returns (a: int)
    requires forall i, j :: 0 <= i < j < |chain| ==> chain[i].playedAt < chain[j].playedAt
    requires 0 <= i && i + 1 < |chain| && chain[i].mbid != ""
    ensures 0 <= a < |Pairs(chain)| && Pairs(chain)[a] == Classify(chain[i], chain[i + 1])
    ensures forall b :: 0 <= b < |Pairs(chain)| && b != a ==> Pairs(chain)[b].at != chain[i].playedAt
  {
    a := PlaySignalled(chain, i);
    forall b | 0 <= b < |Pairs(chain)| && b != a
      ensures Pairs(chain)[b].at != chain[i].playedAt
    {
      if b < a {
        SignalsInOrder(chain, b, a);
      } else {
        SignalsInOrder(chain, a, b);
      }
    }
  }

  lemma {:induction false} ReplayTakesNothing(s: State, plays: seq<RecentPlay>, resolve: Resolver)
    requires AllRecorded(s, plays)
    ensures var b := IngestAll(s, plays, resolve);
      b.chain == [] && b.state.history == s.history && b.state.signals == s.signals
  {
    if plays != [] {
      var front, p := plays[..|plays| - 1], plays[|plays| - 1];
      ReplayTakesNothing(s, front, resolve);
      assert p in plays;
      IngestHistory(IngestAll(s, front, resolve).state, p, resolve(p));
    }
  }

  /** A poll that lists only recorded plays inserts nothing and sends nothing, whatever
      the resolver answers now and whatever fails. */
  lemma ReplaySendsNothing(s: State, base: seq<Play>, recents: seq<RecentPlay>, resolve: Resolver,
                           fails: Emitted -> bool)
    requires IsBase(s, base) && AllRecorded(s, recents)
    ensures var (s', c) := Poll(s, base, recents, resolve, fails);
      s'.history == s.history && s'.signals == s.signals && c.inserted == c.skipped == c.playedFull == 0
  {
    SortedRecents(recents);
    ReplayTakesNothing(s, StableSort(recents, ByTime()), resolve);
    assert base + [] == base && |base| <= 1;
    assert Pairs(base) == [];
  }

  // ── when a resolved play is lost ──

  lemma ArtistRowAfter(db: Catalogue.Db, mbid: string, spotifyId: string, name: string)
    requires Catalogue.Valid(db)
    ensures var (db', o) := Catalogue.Step(db, Catalogue.UpsertArtist(mbid, spotifyId, name));
      o == Catalogue.Done && Catalogue.Valid(db')
          && (mbid in db'.artists <==> !Catalogue.Displaced(db.artists, mbid, spotifyId))
      && db'.albums == db.albums && db'.tracks == db.tracks
  {
    var op := Catalogue.UpsertArtist(mbid, spotifyId, name);
    Catalogue.StepKeepsValid(db, op);
    Catalogue.UpsertNeverCollides(db.artists, mbid, spotifyId, Catalogue.ArtistData(name),
                                  Catalogue.ArtistChange(name), Catalogue.ArtistChange(name));
  }

  lemma AlbumRowAfter(db: Catalogue.Db, mbid: string, spotifyId: string, title: string, artist: string)
    requires Catalogue.Valid(db) && artist in db.artists && artist != ""
    ensures var (db', o) := Catalogue.Step(db, Catalogue.UpsertAlbumPlaceholder(mbid, spotifyId, title, artist));
      o == Catalogue.Done && Catalogue.Valid(db')
          && (mbid in db'.albums <==> !Catalogue.Displaced(db.albums, mbid, spotifyId))
      && db'.artists == db.artists && db'.tracks == db.tracks
  {
    var op := Catalogue.UpsertAlbumPlaceholder(mbid, spotifyId, title, artist);
    var link := NullIfEmpty(artist);
    Catalogue.StepKeepsValid(db, op);
    Catalogue.UpsertNeverCollides(db.albums, mbid, spotifyId, Catalogue.AlbumData(link, title, None, "Album", None),
                                  Catalogue.PlaceholderChange(title, link), Catalogue.PlaceholderChange(title, link));
  }

  lemma TrackRowAfter(db: Catalogue.Db, mbid: string, spotifyId: string, title: string, ms: int, album: string,
                      artist: string)
    requires Catalogue.Valid(db) && artist in db.artists && artist != "" && album != ""
    ensures var (db', o) := Catalogue.Step(db, Catalogue.UpsertTrack(mbid, spotifyId, title, ms, album, artist));
      (o == Catalogue.Done <==> album in db.albums)
      && (o == Catalogue.Done ==> (mbid in db'.tracks <==> !Catalogue.Displaced(db.tracks, mbid, spotifyId)))
  {
    var op := Catalogue.UpsertTrack(mbid, spotifyId, title, ms, album, artist);
    var al, ar, dur := NullIfEmpty(album), NullIfEmpty(artist), Catalogue.DurationColumn(ms);
    Catalogue.StepKeepsValid(db, op);
    Catalogue.UpsertNeverCollides(db.tracks, mbid, spotifyId, Catalogue.TrackData(al, ar, title, dur),
                                  Catalogue.TrackChange(title, al, ar, dur), Catalogue.TrackChange(title, al, ar, dur));
  }

  /** Over a consistent catalogue a resolved play is lost to a foreign-key error
      exactly when its artist, its album or (for a new play) its track is displaced
      by an older row holding the same spotify id, or a nameless artist is unknown. */
  lemma ResolvedPlayLostIff(s: State, p: RecentPlay, r: Resolution)
    requires Catalogue.Valid(s.db) && r.Resolved? && r.mbid != ""
    ensures Ingest(s, p, r).1.Failed? <==>
      || (if FirstNonEmpty(r.artistName, p.artistName) == "" then ArtistMbid(p, r) !in s.db.artists
          else Catalogue.Displaced(s.db.artists, ArtistMbid(p, r), p.artistId))
      || Catalogue.Displaced(s.db.albums, AlbumMbid(p, r), p.albumId)
      || (KeyOf(p) !in s.history && Catalogue.Displaced(s.db.tracks, r.mbid, p.spotifyId))
  {
    var name, a, b := FirstNonEmpty(r.artistName, p.artistName), ArtistMbid(p, r), AlbumMbid(p, r);
    if name != "" {
      ArtistRowAfter(s.db, a, p.artistId, name);
    }
    var db1 := if name != "" then Catalogue.Step(s.db, Catalogue.UpsertArtist(a, p.artistId, name)).0 else s.db;
    if a in db1.artists {
      AlbumRowAfter(db1, b, p.albumId, p.albumName, a);
      var db2 := Catalogue.Step(db1, Catalogue.UpsertAlbumPlaceholder(b, p.albumId, p.albumName, a)).0;
      TrackRowAfter(db2, r.mbid, p.spotifyId, p.name, p.durationMs, b, a);
    }
  }

  lemma ParentsKeepValid(db: Catalogue.Db, p: RecentPlay, r: Resolution)
    requires Catalogue.Valid(db) && r.Resolved?
    ensures Catalogue.Valid(UpsertParents(db, p, r).0)
  {
    var name, a := FirstNonEmpty(r.artistName, p.artistName), ArtistMbid(p, r);
    var op := Catalogue.UpsertArtist(a, p.artistId, name);
    var db1 := if name != "" then Catalogue.Step(db, op).0 else db;
    Catalogue.StepKeepsValid(db, op);
    Catalogue.StepKeepsValid(db1, Catalogue.UpsertAlbumPlaceholder(AlbumMbid(p, r), p.albumId, p.albumName, a));
  }

  /** The parent rows it writes: the artist under the name MusicBrainz gives, else Spotify's,
      and the album under Spotify's title, linked to that artist. */
  lemma IngestedParentsShow(db: Catalogue.Db, p: RecentPlay, r: Resolution, artist: string, m: string, n: string)
    requires Catalogue.Valid(db) && r.Resolved? && UpsertParents(db, p, r).1
    requires artist == if r.artistMbid != "" then r.artistMbid else "sp:" + p.artistId
    requires r.artistName != "" || p.artistName != ""
    requires Catalogue.Target(db.artists, artist, p.artistId, m)
    requires Catalogue.Target(db.albums, if r.releaseGroup != "" then r.releaseGroup else "sp:" + p.albumId,
                              p.albumId, n)
    ensures var db' := UpsertParents(db, p, r).0;
      && m in db'.artists && n in db'.albums
      && db'.artists[m].data.name == (if r.artistName != "" then r.artistName else p.artistName)
      && db'.albums[n].data.title == p.albumName && db'.albums[n].data.artist == Some(artist)
  {
    var op := Catalogue.UpsertArtist(artist, p.artistId, FirstNonEmpty(r.artistName, p.artistName));
    var db1 := Catalogue.Step(db, op).0;
    Catalogue.StepKeepsValid(db, op);
    Catalogue.ArtistRowShows(db, op, m);
    Catalogue.OtherTablesStay(db, op);
    var next := Catalogue.UpsertAlbumPlaceholder(AlbumMbid(p, r), p.albumId, p.albumName, artist);
    Catalogue.StepKeepsValid(db1, next);
    Catalogue.AlbumRowShows(db1, next, n);
    Catalogue.OtherTablesStay(db1, next);
  }

  /** The row a successfully ingested play writes: titled and timed as Spotify says, linked
      to the artist and album MusicBrainz named, or to their placeholders. */
  lemma IngestedRowShows(s: State, p: RecentPlay, r: Resolution, m: string)
    requires Catalogue.Valid(s.db) && r.Resolved? && UpsertAll(s.db, p, r).1
    requires Catalogue.Target(s.db.tracks, r.mbid, p.spotifyId, m)
    ensures m in Ingest(s, p, r).0.db.tracks
    ensures var row := Ingest(s, p, r).0.db.tracks[m].data;
      && row.title == p.name
      && row.artist == Some(if r.artistMbid != "" then r.artistMbid else "sp:" + p.artistId)
      && row.album == Some(if r.releaseGroup != "" then r.releaseGroup else "sp:" + p.albumId)
      && (p.durationMs > 0 ==> row.durationSec == Some(p.durationMs / 1000))
  {
    var db := UpsertParents(s.db, p, r).0;
    ParentsKeepValid(s.db, p, r);
    ParentsLeaveTracks(s.db, p, r);
    var op := Catalogue.UpsertTrack(r.mbid, p.spotifyId, p.name, p.durationMs, AlbumMbid(p, r), ArtistMbid(p, r));
    Catalogue.StepKeepsValid(db, op);
    Catalogue.TrackRowShows(db, op, m);
    assert Ingest(s, p, r).0.db == Catalogue.Step(db, op).0;
  }

  // ── the service ──

  class Service {
    var state: State

    constructor (db: Catalogue.Db)
      ensures state == State(db, map[], [])
    {
      state := State(db, map[], []);
    }

    /** The row with the greatest played_at, which on a tie is the database's choice,
        and the cursor to ask Spotify behind. */
    method LoadLastKnownPlay() returns (after: Option<Time>, base: seq<Play>)
      ensures IsBase(state, base) && after == CursorOf(base)
    {
      var rest := state.history.Keys;
      if rest == {} {
        assert state.history == map[];
        return None, [];
      }
      var best :| best in rest;
      rest := rest - {best};
      while rest != {}
        invariant best in state.history && rest <= state.history.Keys
        invariant forall k :: k in state.history && k !in rest ==> k.playedAt <= best.playedAt
      {
        var k :| k in rest;
        rest := rest - {k};
        if k.playedAt > best.playedAt {
          best := k;
        }
      }
      assert IsNewest(state.history, best);
      after, base := Some(best.playedAt), [StoredPlay(state, best)];
    }

    method Emit(earlier: Play, later: Play, fails: Emitted -> bool) returns (sent: bool, e: Emitted)
      modifies this
      ensures e == Classify(earlier, later) && sent == !fails(e)
      ensures state == if sent then old(state).(signals := old(state).signals + [e]) else old(state)
    {
      e := Classify(earlier, later);
      sent := !fails(e);
      if sent {
        state := state.(signals := state.signals + [e]);
      }
    }

    method IngestBatch(plays: seq<RecentPlay>, resolve: Resolver)
        returns (chain: seq<Play>, unresolved: nat, errors: nat)
      modifies this
      ensures Batch(state, chain, unresolved, errors) == IngestAll(old(state), plays, resolve)
    {
      chain, unresolved, errors := [], 0, 0;
      assert plays[..0] == [];
      for i := 0 to |plays|
        invariant Batch(state, chain, unresolved, errors) == IngestAll(old(state), plays[..i], resolve)
      {
        assert plays[..i + 1][..i] == plays[..i];
        var p := plays[i];
        var (s', out) := Ingest(state, p, resolve(p));
        state := s';
        if resolve(p).Unresolved? {
          unresolved := unresolved + 1;
        }
        match out
        case Failed => errors := errors + 1;
        case Known =>
        case Inserted(play) => chain := chain + [play];
      }
      assert plays[..|plays|] == plays;
    }

    /** The pair loop: every pair of the chain whose earlier play is resolved. */
    method EmitPairs(chain: seq<Play>, fails: Emitted -> bool) returns (a: Account)
      modifies this
      ensures state == old(state).(signals := old(state).signals + Delivered(Pairs(chain), fails))
      ensures a == AccountOf(Pairs(chain), fails)
    {
      a := Account(0, 0, 0);
      ghost var due: seq<Emitted> := [];
      assert old(state).signals + Delivered(due, fails) == state.signals;
      var i := 0;
      while i + 1 < |chain|
        invariant 0 <= i && (chain != [] ==> i < |chain|)
        invariant due == if chain == [] then [] else Pairs(chain[..i + 1])
        invariant state == old(state).(signals := old(state).signals + Delivered(due, fails))
        invariant a == AccountOf(due, fails)
      {
        PairsStep(chain, i);
        if chain[i].mbid != "" {
          var sent, e := Emit(chain[i], chain[i + 1], fails);
          DeliverOne(old(state).signals, due, e, fails);
          due := due + [e];
          a := Book(a, e, !sent);
        }
        i := i + 1;
      }
      assert chain[..|chain|] == chain;
    }

    /** The second half of a poll: the signals of the chain, and the counters. */
    method CloseBatch(base: seq<Play>, added: seq<Play>, unresolved: nat, errors: nat, fails: Emitted -> bool)
        returns (c: Counters)
      modifies this
      ensures (state, c) == Finish(Batch(old(state), added, unresolved, errors), base, fails)
    {
      var a := EmitPairs(base + added, fails);
      c := Counters(|added|, unresolved, a.skipped, a.full, errors + a.lost);
    }

    /** One run: it fails without touching anything if there is no access token or
        Spotify cannot be asked for the plays behind the newest recorded one; else it
        is one poll, partial if anything failed or stayed unresolved. */
    method Sync(token: bool, fetch: Option<Time> -> Option<seq<RecentPlay>>, resolve: Resolver, fails: Emitted -> bool)
      returns (result: RunResult, base: seq<Play>)
      modifies this
      ensures IsBase(old(state), base)
      ensures var recents := if token then fetch(CursorOf(base)) else None;
        && (result.status == RunFailed <==> recents.None?)
        && (recents.None? ==> state == old(state))
        && (recents.Some? ==> (state, result.counters) == Poll(old(state), base, recents.value, resolve, fails)
                              && result.fetched == |recents.value|
                              && (result.status == RunOk <==>
                                  result.counters.errors == 0 && result.counters.unresolved == 0))
    {
      var after;
      after, base := LoadLastKnownPlay();
      var nothing := Counters(0, 0, 0, 0, 0);
      if !token {
        return RunResult(RunFailed, 0, nothing), base;
      }
      var recents := fetch(after);
      if recents.None? {
        return RunResult(RunFailed, 0, nothing), base;
      }
      var plays := StableSort(recents.value, ByTime());
      var added, unresolved, errors := IngestBatch(plays, resolve);
      var c := CloseBatch(base, added, unresolved, errors, fails);
      var status := RunOk;
      if c.errors > 0 || c.unresolved > 0 {
        status := RunPartial;
      }
      result := RunResult(status, |recents.value|, c);
    }
  }

  lemma PairsStep(chain: seq<Play>, i: int)
    requires 0 <= i && i + 1 < |chain|
    ensures Pairs(chain[..i + 2]) == if chain[i].mbid == "" then Pairs(chain[..i + 1])
                                     else Pairs(chain[..i + 1]) + [Classify(chain[i], chain[i + 1])]
  {
    assert chain[..i + 2][..i + 1] == chain[..i + 1];
  }

  lemma DeliverOne(before: seq<Emitted>, due: seq<Emitted>, e: Emitted, fails: Emitted -> bool)
    ensures before + Delivered(due + [e], fails)
         == if fails(e) then before + Delivered(due, fails) else before + Delivered(due, fails) + [e]
    ensures AccountOf(due + [e], fails) == Book(AccountOf(due, fails), e, fails(e))
  {
    assert (due + [e])[..|due|] == due;
  }
}
