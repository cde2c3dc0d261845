/**
 The top-lists sync (backend/internal/services/toplists/toplists.go): artists and
 tracks of three time ranges are resolved, written to the catalogue, snapshotted and
 signalled, behind a gate on the latest snapshot. Times are in hours.
 */
module TopListsSync {
  import opened Basics
  import opened TopLists
  import Catalogue
  import Signals

  const MIN_INTERVAL: Time := 12

  datatype Item =
    | TopArtist(spotifyId: string, name: string, rank: int)
    | TopTrack(spotifyId: string, name: string, rank: int, durationMs: int, artistId: string, artistName: string,
               albumId: string, albumName: string)

  datatype Answer =
    | Found(mbid: string, artistMbid: string, artistName: string, releaseGroup: string)
    | Unresolved
    | ResolverFailed

  /** What happens outside while one item is handled: the resolver's answer, which of
      its catalogue writes fail, and whether the snapshot and the signal can be written. */
  datatype Fate = Fate(answer: Answer, writeFails: nat -> bool, snapshotFails: bool, signalFails: bool)

  /** A row of top_snapshots of the one user. */
  datatype Snapshot = Snapshot(artist: bool, range: Range, rank: int, mbid: string, at: Time)

  datatype State = State(db: Catalogue.Db, snapshots: seq<Snapshot>, log: seq<Signals.Signal>)
  datatype Counters = Counters(ranges: nat, artistsSeen: nat, tracksSeen: nat, artistsDone: nat, tracksDone: nat,
                               unresolved: nat, errors: nat)
  datatype Job = Job(state: State, r: Counters)

  /** Lists by range, None where the fetch fails, and fates by range, list and position. */
  datatype World = World(artists: Range -> Option<seq<Item>>, tracks: Range -> Option<seq<Item>>,
                         artistFate: (Range, nat) -> Fate, trackFate: (Range, nat) -> Fate)

  // ── one item ──

  /** An id to link to: the resolver's, else the placeholder of the Spotify id, else none. */
  function LinkTo(mbid: string, spotifyId: string): string {
    if mbid == "" && spotifyId != "" then "sp:" + spotifyId else mbid
  }

  /** The catalogue writes of a resolved item, in order. */
  function WritesOf(i: Item, a: Answer): seq<Catalogue.Op>
    requires a.Found?
  {
    match i
    case TopArtist(sp, name, _) => [Catalogue.UpsertArtist(a.mbid, sp, name)]
    case TopTrack(sp, name, _, ms, artistId, artistName, albumId, albumName) =>
      var artist, shown := LinkTo(a.artistMbid, artistId), FirstNonEmpty(a.artistName, artistName);
      var album := LinkTo(a.releaseGroup, albumId);
      (if artist != "" && shown != "" then [Catalogue.UpsertArtist(artist, artistId, shown)] else [])
      + (if album != "" then [Catalogue.UpsertAlbumPlaceholder(album, albumId, albumName, artist)] else [])
      + [Catalogue.UpsertTrack(a.mbid, sp, name, ms, album, artist)]
  }

  /** One write; the artist upsert insists on an mbid. */
  function TryWrite(db: Catalogue.Db, op: Catalogue.Op, fails: bool): (Catalogue.Db, bool) {
    if fails || (op.UpsertArtist? && op.mbid == "") then (db, false) else
    var (db', r) := Catalogue.Step(db, op);
    (db', r == Catalogue.Done)
  }

  /** The first n writes, stopping at the first that fails. */
  function WriteAll(db: Catalogue.Db, ops: seq<Catalogue.Op>, fails: nat -> bool, n: nat): (Catalogue.Db, bool)
    requires n <= |ops|
  {
    if n == 0 then (db, true) else
    var (db1, ok) := WriteAll(db, ops, fails, n - 1);
    if ok then TryWrite(db1, ops[n - 1], fails(n - 1)) else (db1, false)
  }

  function SnapshotOf(i: Item, mbid: string, range: Range, at: Time): Snapshot {
    Snapshot(i.TopArtist?, range, i.rank, mbid, at)
  }

  /** The row logged for a snapshot. */
  function SignalOf(user: string, s: Snapshot): Signals.Signal {
    Signals.Signal(user, Signals.TopRank, if s.artist then Signals.Artist else Signals.Track, s.mbid,
                   LoggedWeight(s.rank, s.range), s.at)
  }

  function Err(r: Counters): Counters {
    r.(errors := r.errors + 1)
  }

  function CountDone(r: Counters, i: Item): Counters {
    if i.TopArtist? then r.(artistsDone := r.artistsDone + 1) else r.(tracksDone := r.tracksDone + 1)
  }

  /** Snapshot, then signal; Append refuses a missing user or subject id. */
  function Record(j: Job, user: string, i: Item, s: Snapshot, f: Fate): Job {
    if f.snapshotFails then j.(r := Err(j.r)) else
    var k := j.state.(snapshots := j.state.snapshots + [s]);
    if f.signalFails || user == "" || s.mbid == "" then Job(k, Err(j.r))
    else Job(k.(log := k.log + [SignalOf(user, s)]), CountDone(j.r, i))
  }

  function Handle(j: Job, user: string, i: Item, range: Range, at: Time, f: Fate): Job {
    match f.answer
    case Unresolved => j.(r := j.r.(unresolved := j.r.unresolved + 1))
    case ResolverFailed => j.(r := Err(j.r))
    case Found(mbid, _, _, _) =>
      var ops := WritesOf(i, f.answer);
      var (db, ok) := WriteAll(j.state.db, ops, f.writeFails, |ops|);
      var k := j.(state := j.state.(db := db));
      if ok then Record(k, user, i, SnapshotOf(i, mbid, range, at), f) else k.(r := Err(k.r))
  }

  /** The first n items of a list. */
  function HandleAll(j: Job, user: string, items: seq<Item>, range: Range, at: Time, fate: nat -> Fate, n: nat): Job
    requires n <= |items|
  {
    if n == 0 then j
    else Handle(HandleAll(j, user, items, range, at, fate, n - 1), user, items[n - 1], range, at, fate(n - 1))
  }

  // ── the sync as a function ──

  function ArtistFates(w: World, range: Range): nat -> Fate {
    (n: nat) => w.artistFate(range, n)
  }

  function TrackFates(w: World, range: Range): nat -> Fate {
    (n: nat) => w.trackFate(range, n)
  }

  function ArtistsOf(j: Job, user: string, range: Range, at: Time, w: World): Job {
    var list := w.artists(range);
    if list.None? then j.(r := Err(j.r)) else
    var k := j.(r := j.r.(ranges := j.r.ranges + 1, artistsSeen := j.r.artistsSeen + |list.value|));
    HandleAll(k, user, list.value, range, at, ArtistFates(w, range), |list.value|)
  }

  function TracksOf(j: Job, user: string, range: Range, at: Time, w: World): Job {
    var list := w.tracks(range);
    if list.None? then j.(r := Err(j.r)) else
    var k := j.(r := j.r.(tracksSeen := j.r.tracksSeen + |list.value|));
    HandleAll(k, user, list.value, range, at, TrackFates(w, range), |list.value|)
  }

  function RangeOf(j: Job, user: string, range: Range, at: Time, w: World): Job {
    TracksOf(ArtistsOf(j, user, range, at, w), user, range, at, w)
  }

  function Started(s: State): Job {
    Job(s, Counters(0, 0, 0, 0, 0, 0, 0))
  }

  function SyncAll(s: State, user: string, at: Time, w: World): Job {
    RangeOf(RangeOf(RangeOf(Started(s), user, Short, at, w), user, Medium, at, w), user, Long, at, w)
  }

  // ── what a sync keeps ──

  function Done(r: Counters): nat {
    r.artistsDone + r.tracksDone
  }

  function Seen(r: Counters): nat {
    r.artistsSeen + r.tracksSeen
  }

  /** Handled in any way: done, unresolved or failed. */
  function Accounted(r: Counters): nat {
    Done(r) + r.unresolved + r.errors
  }

  /** Signal i of the log was sent for a snapshot that was taken. */
  ghost predicate Backed(s: State, user: string, i: nat)
    requires i < |s.log|
  {
    exists n :: 0 <= n < |s.snapshots| && SignalOf(user, s.snapshots[n]) == s.log[i]
  }

  /** Work at time `at` that takes j to k: catalogue rules hold, nothing recorded is
      touched, all new snapshots are of that time, every new signal belongs to a
      snapshot, and the items counted as done are the signals sent. */
  ghost predicate Progress(j: Job, k: Job, user: string, at: Time) {
    var s, t := j.state, k.state;
    && Catalogue.Valid(t.db)
    && |s.snapshots| <= |t.snapshots| && t.snapshots[..|s.snapshots|] == s.snapshots
    && (forall n :: |s.snapshots| <= n < |t.snapshots| ==> t.snapshots[n].at == at)
    && |s.log| <= |t.log| && t.log[..|s.log|] == s.log
    && (forall i: nat :: |s.log| <= i < |t.log| ==> Backed(t, user, i))
    && Done(k.r) - Done(j.r) == |t.log| - |s.log| <= |t.snapshots| - |s.snapshots|
  }

  lemma BackedLater(s: State, t: State, user: string, i: nat)
    requires i < |s.log| && Backed(s, user, i)
    requires |s.snapshots| <= |t.snapshots| && t.snapshots[..|s.snapshots|] == s.snapshots
    requires |s.log| <= |t.log| && t.log[..|s.log|] == s.log
    ensures Backed(t, user, i)
  {
    var n :| 0 <= n < |s.snapshots| && SignalOf(user, s.snapshots[n]) == s.log[i];
    assert t.snapshots[n] == t.snapshots[..|s.snapshots|][n] && t.log[i] == t.log[..|s.log|][i];
  }

  lemma ProgressChains(j: Job, k: Job, l: Job, user: string, at: Time)
    requires Progress(j, k, user, at) && Progress(k, l, user, at)
    ensures Progress(j, l, user, at)
  {
    var s, m, t := j.state, k.state, l.state;
    assert t.snapshots[..|s.snapshots|] == t.snapshots[..|m.snapshots|][..|s.snapshots|];
    assert t.log[..|s.log|] == t.log[..|m.log|][..|s.log|];
    forall n | |s.snapshots| <= n < |t.snapshots|
      ensures t.snapshots[n].at == at
    {
      assert n < |m.snapshots| ==> t.snapshots[..|m.snapshots|][n] == m.snapshots[n];
    }
    forall i: nat | |s.log| <= i < |t.log|
      ensures Backed(t, user, i)
    {
      if i < |m.log| {
        BackedLater(m, t, user, i);
      }
    }
  }

  /** Changes of the catalogue and of the other counters. */
  lemma StandingStill(j: Job, k: Job, user: string, at: Time)
    requires Catalogue.Valid(k.state.db) && k.state.snapshots == j.state.snapshots && k.state.log == j.state.log
    requires Done(k.r) == Done(j.r)
    ensures Progress(j, k, user, at)
  {
    assert k.state.log[..|j.state.log|] == j.state.log;
    assert k.state.snapshots[..|j.state.snapshots|] == j.state.snapshots;
  }

  lemma RecordProgress(j: Job, user: string, i: Item, s: Snapshot, f: Fate)
    requires Catalogue.Valid(j.state.db)
    ensures Progress(j, Record(j, user, i, s, f), user, s.at)
    ensures Accounted(Record(j, user, i, s, f).r) == Accounted(j.r) + 1
  {
    var t := Record(j, user, i, s, f).state;
    assert t.snapshots[..|j.state.snapshots|] == j.state.snapshots;
    assert t.log[..|j.state.log|] == j.state.log;
    if |t.log| > |j.state.log| {
      assert SignalOf(user, t.snapshots[|j.state.snapshots|]) == t.log[|j.state.log|];
      assert Backed(t, user, |j.state.log|);
    }
  }

  lemma {:induction false} WritesKeepValid(db: Catalogue.Db, ops: seq<Catalogue.Op>, fails: nat -> bool, n: nat)
    requires n <= |ops| && Catalogue.Valid(db)
    ensures Catalogue.Valid(WriteAll(db, ops, fails, n).0)
  {
    if n > 0 {
      WritesKeepValid(db, ops, fails, n - 1);
      Catalogue.StepKeepsValid(WriteAll(db, ops, fails, n - 1).0, ops[n - 1]);
    }
  }

  /** Every item is accounted for exactly once. */
  lemma HandleProgress(j: Job, user: string, i: Item, range: Range, at: Time, f: Fate)
    requires Catalogue.Valid(j.state.db)
    ensures Progress(j, Handle(j, user, i, range, at, f), user, at)
    ensures Accounted(Handle(j, user, i, range, at, f).r) == Accounted(j.r) + 1
  {
    if f.answer.Found? {
      var ops := WritesOf(i, f.answer);
      WritesKeepValid(j.state.db, ops, f.writeFails, |ops|);
      var (db, ok) := WriteAll(j.state.db, ops, f.writeFails, |ops|);
      var k := j.(state := j.state.(db := db));
      StandingStill(j, k, user, at);
      StandingStill(j, k.(r := Err(k.r)), user, at);
      if ok {
        var s := SnapshotOf(i, f.answer.mbid, range, at);
        RecordProgress(k, user, i, s, f);
        ProgressChains(j, k, Record(k, user, i, s, f), user, at);
      }
    } else {
      StandingStill(j, Handle(j, user, i, range, at, f), user, at);
    }
  }

  lemma {:induction false} HandleAllProgress(j: Job, user: string, items: seq<Item>, range: Range, at: Time,
                                             fate: nat -> Fate, n: nat)
    requires n <= |items| && Catalogue.Valid(j.state.db)
    ensures Progress(j, HandleAll(j, user, items, range, at, fate, n), user, at)
    ensures Accounted(HandleAll(j, user, items, range, at, fate, n).r) == Accounted(j.r) + n
    ensures Seen(HandleAll(j, user, items, range, at, fate, n).r) == Seen(j.r)
  {
    if n == 0 {
      StandingStill(j, j, user, at);
    } else {
      HandleAllProgress(j, user, items, range, at, fate, n - 1);
      var k := HandleAll(j, user, items, range, at, fate, n - 1);
      HandleProgress(k, user, items[n - 1], range, at, fate(n - 1));
      ProgressChains(j, k, Handle(k, user, items[n - 1], range, at, fate(n - 1)), user, at);
      SeenStays(k, user, items[n - 1], range, at, fate(n - 1));
    }
  }

  lemma SeenStays(j: Job, user: string, i: Item, range: Range, at: Time, f: Fate)
    ensures Seen(Handle(j, user, i, range, at, f).r) == Seen(j.r)
  {
  }

  /** Items counted as seen but not yet accounted for, against failed fetches. */
  function FailedFetches(r: Counters): int {
    Accounted(r) - Seen(r)
  }

  function Lost<T>(list: Option<T>): int {
    if list.None? then 1 else 0
  }

  lemma ArtistsProgress(j: Job, user: string, range: Range, at: Time, w: World)
    requires Catalogue.Valid(j.state.db)
    ensures var k := ArtistsOf(j, user, range, at, w);
      Progress(j, k, user, at) && FailedFetches(k.r) == FailedFetches(j.r) + Lost(w.artists(range))
  {
    var list := w.artists(range);
    if list.None? {
      StandingStill(j, j.(r := Err(j.r)), user, at);
    } else {
      var k := j.(r := j.r.(ranges := j.r.ranges + 1, artistsSeen := j.r.artistsSeen + |list.value|));
      StandingStill(j, k, user, at);
      HandleAllProgress(k, user, list.value, range, at, ArtistFates(w, range), |list.value|);
      ProgressChains(j, k, ArtistsOf(j, user, range, at, w), user, at);
    }
  }

  lemma TracksProgress(j: Job, user: string, range: Range, at: Time, w: World)
    requires Catalogue.Valid(j.state.db)
    ensures var k := TracksOf(j, user, range, at, w);
      Progress(j, k, user, at) && FailedFetches(k.r) == FailedFetches(j.r) + Lost(w.tracks(range))
  {
    var list := w.tracks(range);
    if list.None? {
      StandingStill(j, j.(r := Err(j.r)), user, at);
    } else {
      var k := j.(r := j.r.(tracksSeen := j.r.tracksSeen + |list.value|));
      StandingStill(j, k, user, at);
      HandleAllProgress(k, user, list.value, range, at, TrackFates(w, range), |list.value|);
      ProgressChains(j, k, TracksOf(j, user, range, at, w), user, at);
    }
  }

  function LostIn(w: World, range: Range): int {
    Lost(w.artists(range)) + Lost(w.tracks(range))
  }

  lemma RangeProgress(j: Job, user: string, range: Range, at: Time, w: World)
    requires Catalogue.Valid(j.state.db)
    ensures var k := RangeOf(j, user, range, at, w);
      Progress(j, k, user, at) && FailedFetches(k.r) == FailedFetches(j.r) + LostIn(w, range)
  {
    var k := ArtistsOf(j, user, range, at, w);
    ArtistsProgress(j, user, range, at, w);
    TracksProgress(k, user, range, at, w);
    ProgressChains(j, k, RangeOf(j, user, range, at, w), user, at);
  }

  /** Over a whole sync every listed item is accounted for once, as done, unresolved or
      failed, and every other error is a failed fetch; the items done are the signals
      sent, each for a snapshot of that sync or an earlier equal one. */
  lemma SyncProgress(s: State, user: string, at: Time, w: World)
    requires Catalogue.Valid(s.db)
    ensures var k := SyncAll(s, user, at, w);
      && Progress(Started(s), k, user, at)
      && Accounted(k.r) == Seen(k.r) + LostIn(w, Short) + LostIn(w, Medium) + LostIn(w, Long)
  {
    var j := Started(s);
    var j1 := RangeOf(j, user, Short, at, w);
    var j2 := RangeOf(j1, user, Medium, at, w);
    RangeProgress(j, user, Short, at, w);
    RangeProgress(j1, user, Medium, at, w);
    RangeProgress(j2, user, Long, at, w);
    ProgressChains(j, j1, j2, user, at);
    ProgressChains(j, j2, SyncAll(s, user, at, w), user, at);
  }

  // ── what a done item leaves behind ──

  /** A new snapshot with the item's rank and mbid, and the signal that belongs to it. */
  ghost predicate Recorded(j: Job, k: Job, user: string, i: Item, mbid: string, range: Range, at: Time) {
    var s, t := j.state, k.state;
    && |t.snapshots| == |s.snapshots| + 1 && |t.log| == |s.log| + 1
    && t.snapshots[|s.snapshots|] == Snapshot(i.TopArtist?, range, i.rank, mbid, at)
    && var x := t.log[|s.log|];
      && x.user == user && x.kind == Signals.TopRank && x.id == mbid && x.ts == at
      && x.subject == (if i.TopArtist? then Signals.Artist else Signals.Track)
      && x.weight == LoggedWeight(i.rank, range)
  }

  lemma DoneWrites(j: Job, user: string, i: Item, range: Range, at: Time, f: Fate)
    requires Done(Handle(j, user, i, range, at, f).r) == Done(j.r) + 1
    ensures f.answer.Found? && f.answer.mbid != "" && user != ""
    ensures var ops := WritesOf(i, f.answer); WriteAll(j.state.db, ops, f.writeFails, |ops|).1
    ensures var ops := WritesOf(i, f.answer);
      Handle(j, user, i, range, at, f).state.db == WriteAll(j.state.db, ops, f.writeFails, |ops|).0
    ensures Recorded(j, Handle(j, user, i, range, at, f), user, i, f.answer.mbid, range, at)
  {
  }

  /** A done artist has its row, or a row that holds its Spotify id, under its name. */
  lemma DoneArtistShows(j: Job, user: string, i: Item, range: Range, at: Time, f: Fate, m: string)
    requires Catalogue.Valid(j.state.db) && i.TopArtist? && f.answer.Found?
    requires Done(Handle(j, user, i, range, at, f).r) == Done(j.r) + 1
    requires Catalogue.Target(j.state.db.artists, f.answer.mbid, i.spotifyId, m)
    ensures var t := Handle(j, user, i, range, at, f).state.db.artists;
      Catalogue.WroteRow(j.state.db.artists, t, i.spotifyId, m) && t[m].data.name == i.name
  {
    DoneWrites(j, user, i, range, at, f);
    var op := Catalogue.UpsertArtist(f.answer.mbid, i.spotifyId, i.name);
    assert WriteAll(j.state.db, [op], f.writeFails, 0) == (j.state.db, true);
    Catalogue.ArtistRowShows(j.state.db, op, m);
  }

  lemma {:induction false} TracksUntouched(db: Catalogue.Db, ops: seq<Catalogue.Op>, fails: nat -> bool, n: nat)
    requires n <= |ops| && forall i :: 0 <= i < n ==> !ops[i].UpsertTrack?
    ensures WriteAll(db, ops, fails, n).0.tracks == db.tracks
  {
    if n > 0 {
      TracksUntouched(db, ops, fails, n - 1);
      Catalogue.OtherTablesStay(WriteAll(db, ops, fails, n - 1).0, ops[n - 1]);
    }
  }

  /** The last write of a track is its own row, with the links as resolved or as placeholders. */
  lemma TrackWrittenLast(i: Item, a: Answer, artist: string, album: string)
    requires i.TopTrack? && a.Found?
    requires artist == if a.artistMbid != "" then a.artistMbid else if i.artistId != "" then "sp:" + i.artistId else ""
    requires album == if a.releaseGroup != "" then a.releaseGroup else if i.albumId != "" then "sp:" + i.albumId else ""
    ensures var ops := WritesOf(i, a);
      && |ops| > 0 && (forall n :: 0 <= n < |ops| - 1 ==> !ops[n].UpsertTrack?)
      && ops[|ops| - 1] == Catalogue.UpsertTrack(a.mbid, i.spotifyId, i.name, i.durationMs, album, artist)
  {
  }

  /** Row m of the tracks shows what op writes, over the rows it found in t. */
  ghost predicate TrackShown(t: Catalogue.Table<Catalogue.TrackData>, t': Catalogue.Table<Catalogue.TrackData>,
                             op: Catalogue.Op, m: string)
    requires op.UpsertTrack?
  {
    && Catalogue.WroteRow(t, t', op.spotifyId, m) && t'[m].data.title == op.title
    && (op.artist != "" ==> t'[m].data.artist == Some(op.artist))
    && (op.album != "" ==> t'[m].data.album == Some(op.album))
    && (op.durationMs > 0 ==> t'[m].data.durationSec == Some(op.durationMs / 1000))
  }

  lemma TrackOpShows(db: Catalogue.Db, op: Catalogue.Op, fails: bool, m: string)
    requires Catalogue.Valid(db) && op.UpsertTrack? && TryWrite(db, op, fails).1
    requires Catalogue.Target(db.tracks, op.mbid, op.spotifyId, m)
    ensures TrackShown(db.tracks, TryWrite(db, op, fails).0.tracks, op, m)
  {
    Catalogue.StepKeepsValid(db, op);
    Catalogue.TrackRowShows(db, op, m);
  }

  lemma BeforeLastWrite(db: Catalogue.Db, ops: seq<Catalogue.Op>, fails: nat -> bool, n: nat)
    returns (before: Catalogue.Db)
    requires Catalogue.Valid(db) && n < |ops| && WriteAll(db, ops, fails, n + 1).1
    requires forall i :: 0 <= i < n ==> !ops[i].UpsertTrack?
    ensures Catalogue.Valid(before) && before.tracks == db.tracks
    ensures WriteAll(db, ops, fails, n + 1) == TryWrite(before, ops[n], fails(n))
  {
    before := WriteAll(db, ops, fails, n).0;
    WritesKeepValid(db, ops, fails, n);
    TracksUntouched(db, ops, fails, n);
  }

  /** A done track has its row, or a row that holds its Spotify id, with its title and length,
      linked to the artist and album resolved, or to their placeholders. */
  lemma DoneTrackShows(j: Job, user: string, i: Item, range: Range, at: Time, f: Fate, m: string,
                       artist: string, album: string)
    requires Catalogue.Valid(j.state.db) && i.TopTrack? && f.answer.Found?
    requires Done(Handle(j, user, i, range, at, f).r) == Done(j.r) + 1
    requires Catalogue.Target(j.state.db.tracks, f.answer.mbid, i.spotifyId, m)
    requires artist == if f.answer.artistMbid != "" then f.answer.artistMbid
                       else if i.artistId != "" then "sp:" + i.artistId else ""
    requires album == if f.answer.releaseGroup != "" then f.answer.releaseGroup
                      else if i.albumId != "" then "sp:" + i.albumId else ""
    ensures var t := Handle(j, user, i, range, at, f).state.db.tracks;
      && Catalogue.WroteRow(j.state.db.tracks, t, i.spotifyId, m) && t[m].data.title == i.name
      && (artist != "" ==> t[m].data.artist == Some(artist)) && (album != "" ==> t[m].data.album == Some(album))
      && (i.durationMs > 0 ==> t[m].data.durationSec == Some(i.durationMs / 1000))
  {
    var ops := WritesOf(i, f.answer);
    DoneWrites(j, user, i, range, at, f);
    TrackWrittenLast(i, f.answer, artist, album);
    var n := |ops| - 1;
    var before := BeforeLastWrite(j.state.db, ops, f.writeFails, n);
    TrackOpShows(before, ops[n], f.writeFails(n), m);
  }

  // ── the weight a list logs ──

  function SumWeights(log: seq<Signals.Signal>): real {
    if log == [] then 0.0 else SumWeights(log[..|log| - 1]) + log[|log| - 1].weight
  }

  lemma SumAppend(log: seq<Signals.Signal>, x: Signals.Signal)
    ensures SumWeights(log + [x]) == SumWeights(log) + x.weight
  {
    assert (log + [x])[..|log|] == log;
  }

  lemma HandleLogs(j: Job, user: string, i: Item, range: Range, at: Time, f: Fate)
    ensures var k := Handle(j, user, i, range, at, f);
      && Done(j.r) <= Done(k.r) <= Done(j.r) + 1
      && (Done(k.r) == Done(j.r) + 1 ==>
          SumWeights(k.state.log) == SumWeights(j.state.log) + LoggedWeight(i.rank, range))
  {
    if f.answer.Found? {
      SumAppend(j.state.log, SignalOf(user, SnapshotOf(i, f.answer.mbid, range, at)));
    }
  }

  lemma {:induction false} DoneBounded(j: Job, user: string, items: seq<Item>, range: Range, at: Time,
                                       fate: nat -> Fate, n: nat)
    requires n <= |items|
    ensures Done(j.r) <= Done(HandleAll(j, user, items, range, at, fate, n).r) <= Done(j.r) + n
  {
    if n > 0 {
      DoneBounded(j, user, items, range, at, fate, n - 1);
      HandleLogs(HandleAll(j, user, items, range, at, fate, n - 1), user, items[n - 1], range, at, fate(n - 1));
    }
  }

  /** A list ranked 1, 2, … of which every item is done adds TotalWeight to the log. */
  lemma {:induction false} ListLogsTotal(j: Job, user: string, items: seq<Item>, range: Range, at: Time,
                                         fate: nat -> Fate, n: nat)
    requires n <= |items| && forall i :: 0 <= i < |items| ==> items[i].rank == i + 1
    requires Done(HandleAll(j, user, items, range, at, fate, n).r) == Done(j.r) + n
    ensures SumWeights(HandleAll(j, user, items, range, at, fate, n).state.log)
         == SumWeights(j.state.log) + TotalWeight(n, range)
  {
    if n > 0 {
      var k := HandleAll(j, user, items, range, at, fate, n - 1);
      DoneBounded(j, user, items, range, at, fate, n - 1);
      HandleLogs(k, user, items[n - 1], range, at, fate(n - 1));
      ListLogsTotal(j, user, items, range, at, fate, n - 1);
    }
  }

  // ── the gate ──

  /** MAX(snapshot_at) of the artist snapshots. */
  function Latest(snapshots: seq<Snapshot>): Option<Time> {
    if snapshots == [] then None else
    var before, s := Latest(snapshots[..|snapshots| - 1]), snapshots[|snapshots| - 1];
    if !s.artist then before else if before.Some? && before.value >= s.at then before else Some(s.at)
  }

  predicate HasFresh(snapshots: seq<Snapshot>, now: Time) {
    Latest(snapshots).Some? && now - Latest(snapshots).value < MIN_INTERVAL
  }

  lemma {:induction false} LatestIsMax(snapshots: seq<Snapshot>)
    ensures Latest(snapshots).Some? <==> exists n :: 0 <= n < |snapshots| && snapshots[n].artist
    ensures forall n :: 0 <= n < |snapshots| && snapshots[n].artist ==>
              Latest(snapshots).Some? && snapshots[n].at <= Latest(snapshots).value
    ensures Latest(snapshots).Some? ==>
              exists n :: 0 <= n < |snapshots| && snapshots[n].artist && snapshots[n].at == Latest(snapshots).value
  {
    if snapshots != [] {
      var front, last := snapshots[..|snapshots| - 1], |snapshots| - 1;
      LatestIsMax(front);
      assert forall n :: 0 <= n < last ==> front[n] == snapshots[n];
      if Latest(front).Some? && Latest(front) == Latest(snapshots) {
        var n :| 0 <= n < last && front[n].artist && front[n].at == Latest(front).value;
        assert snapshots[n].artist && snapshots[n].at == Latest(snapshots).value;
      } else if snapshots[last].artist {
        assert snapshots[last].at == Latest(snapshots).value;
      }
    }
  }

  /** The gate is closed exactly while some artist snapshot is younger than 12 hours;
      track snapshots do not count. */
  lemma GateClosedIff(snapshots: seq<Snapshot>, now: Time)
    ensures HasFresh(snapshots, now) <==>
              exists n :: 0 <= n < |snapshots| && snapshots[n].artist && now - snapshots[n].at < 12
  {
    LatestIsMax(snapshots);
    if HasFresh(snapshots, now) {
      var n :| 0 <= n < |snapshots| && snapshots[n].artist && snapshots[n].at == Latest(snapshots).value;
      assert now - snapshots[n].at < 12;
    }
  }

  // ── the service ──

  datatype Status = Skipped | Failed | Partial | Ok
  datatype RunResult = RunResult(status: Status, counters: Counters)

  class Service {
    var state: State

    constructor (db: Catalogue.Db)
      requires Catalogue.Valid(db)
      ensures state == State(db, [], []) && Catalogue.Valid(state.db)
    {
      state := State(db, [], []);
    }

    method HasFreshSnapshot(now: Time) returns (isFresh: bool)
      ensures isFresh <==> HasFresh(state.snapshots, now)
    {
      var latest: Option<Time> := None;
      assert state.snapshots[..0] == [];
      for i := 0 to |state.snapshots|
        invariant latest == Latest(state.snapshots[..i])
      {
        assert state.snapshots[..i + 1][..i] == state.snapshots[..i];
        var s := state.snapshots[i];
        if s.artist && (latest.None? || latest.value < s.at) {
          latest := Some(s.at);
        }
      }
      assert state.snapshots[..|state.snapshots|] == state.snapshots;
      isFresh := latest.Some? && now - latest.value < MIN_INTERVAL;
    }

    method Write(op: Catalogue.Op, fails: bool) returns (ok: bool)
      modifies this
      ensures (state.db, ok) == TryWrite(old(state.db), op, fails) && state == old(state).(db := state.db)
    {
      if fails || (op.UpsertArtist? && op.mbid == "") {
        return false;
      }
      var (db, r) := Catalogue.Step(state.db, op);
      state := state.(db := db);
      ok := r == Catalogue.Done;
    }

    method InsertSnapshotAndSignal(user: string, i: Item, mbid: string, range: Range, at: Time, f: Fate, r: Counters)
        returns (r': Counters)
      modifies this
      ensures Job(state, r') == Record(Job(old(state), r), user, i, SnapshotOf(i, mbid, range, at), f)
    {
      if f.snapshotFails {
        return Err(r);
      }
      var s := SnapshotOf(i, mbid, range, at);
      state := state.(snapshots := state.snapshots + [s]);
      var subject := if i.TopArtist? then Signals.Artist else Signals.Track;
      var e := RankEvent(user, subject, mbid, i.rank, range, at);
      if f.signalFails || !Signals.Acceptable(e) {
        return Err(r);
      }
      LoggedAsComputedIff(user, subject, mbid, i.rank, range, at, at);
      state := state.(log := state.log + [Signals.Logged(e, at)]);
      r' := CountDone(r, i);
    }

    /** resolveOneArtist and resolveOneTrack. */
    method ResolveOne(user: string, i: Item, range: Range, at: Time, f: Fate, r: Counters) returns (r': Counters)
      modifies this
      ensures Job(state, r') == Handle(Job(old(state), r), user, i, range, at, f)
    {
      if f.answer.Unresolved? {
        return r.(unresolved := r.unresolved + 1);
      }
      if f.answer.ResolverFailed? {
        return Err(r);
      }
      var ops := WritesOf(i, f.answer);
      var ok := WriteRows(ops, f.writeFails);
      if !ok {
        return Err(r);
      }
      r' := InsertSnapshotAndSignal(user, i, f.answer.mbid, range, at, f, r);
    }

    method WriteRows(ops: seq<Catalogue.Op>, fails: nat -> bool) returns (ok: bool)
      modifies this
      ensures (state.db, ok) == WriteAll(old(state.db), ops, fails, |ops|) && state == old(state).(db := state.db)
    {
      ok := true;
      for n := 0 to |ops|
        invariant ok && (state.db, ok) == WriteAll(old(state.db), ops, fails, n) && state == old(state).(db := state.db)
      {
        ok := Write(ops[n], fails(n));
        if !ok {
          StopsThere(old(state.db), ops, fails, n + 1);
          return;
        }
      }
    }

    method ResolveList(user: string, items: seq<Item>, range: Range, at: Time, fate: nat -> Fate, r: Counters)
        returns (r': Counters)
      modifies this
      ensures Job(state, r') == HandleAll(Job(old(state), r), user, items, range, at, fate, |items|)
    {
      r' := r;
      for n := 0 to |items|
        invariant Job(state, r') == HandleAll(Job(old(state), r), user, items, range, at, fate, n)
      {
        r' := ResolveOne(user, items[n], range, at, fate(n), r');
      }
    }

    /** The body of the loop over the ranges. */
    method SyncRange(user: string, range: Range, at: Time, w: World, r: Counters) returns (r': Counters)
      modifies this
      ensures Job(state, r') == RangeOf(Job(old(state), r), user, range, at, w)
    {
      var artists := w.artists(range);
      if artists.None? {
        r' := Err(r);
      } else {
        r' := r.(ranges := r.ranges + 1, artistsSeen := r.artistsSeen + |artists.value|);
        r' := ResolveList(user, artists.value, range, at, ArtistFates(w, range), r');
      }
      assert Job(state, r') == ArtistsOf(Job(old(state), r), user, range, at, w);
      var tracks := w.tracks(range);
      if tracks.None? {
        r' := Err(r');
      } else {
        r' := r'.(tracksSeen := r'.tracksSeen + |tracks.value|);
        r' := ResolveList(user, tracks.value, range, at, TrackFates(w, range), r');
      }
    }

    /** One run: skipped behind a fresh snapshot, failed without a token or when no range
        could be fetched, partial if anything failed or stayed unresolved. */
    method Sync(user: string, started: Time, token: bool, at: Time, w: World) returns (result: RunResult)
      modifies this
      ensures result.status == Skipped <==> HasFresh(old(state).snapshots, started)
      ensures result.status == Skipped || !token ==> Job(state, result.counters) == Started(old(state))
      ensures result.status != Skipped && token ==> Job(state, result.counters) == SyncAll(old(state), user, at, w)
      ensures result.status == Failed <==> result.status != Skipped && (!token || result.counters.ranges == 0)
      ensures result.status == Ok ==> result.counters.errors == result.counters.unresolved == 0
      ensures result.status == Partial ==> result.counters.errors > 0 || result.counters.unresolved > 0
    {
      var r := Counters(0, 0, 0, 0, 0, 0, 0);
      var skip := HasFreshSnapshot(started);
      if skip {
        return RunResult(Skipped, r);
      }
      if !token {
        return RunResult(Failed, r);
      }
      r := SyncRange(user, Short, at, w, r);
      r := SyncRange(user, Medium, at, w, r);
      r := SyncRange(user, Long, at, w, r);
      var status := Ok;
      if r.errors > 0 || r.unresolved > 0 {
        status := Partial;
      }
      if r.ranges == 0 {
        status := Failed;
      }
      result := RunResult(status, r);
    }
  }

  lemma {:induction false} StopsThere(db: Catalogue.Db, ops: seq<Catalogue.Op>, fails: nat -> bool, n: nat)
    requires n <= |ops| && !WriteAll(db, ops, fails, n).1
    ensures WriteAll(db, ops, fails, |ops|) == WriteAll(db, ops, fails, n)
    decreases |ops| - n
  {
    if n < |ops| {
      StopsThere(db, ops, fails, n + 1);
    }
  }
}
