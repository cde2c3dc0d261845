/**
 The Spotify library sync (backend/internal/services/library/library.go): buckets
 are resolved in rank order; the first save of a followed artist or an album sends
 one signal.
 */
module LibrarySync {
  import opened Basics
  import opened LibraryRank
  import Catalogue

  datatype Kind = FollowAdd | LibraryAdd

  /** A row of saved_artists (FollowAdd) or saved_albums (LibraryAdd), and the signal it causes. */
  datatype Entry = Entry(kind: Kind, user: string, mbid: string)

  datatype State = State(db: Catalogue.Db, saved: set<Entry>, log: seq<Entry>)
  datatype Counts = Counts(albumsAdded: nat, artistsAdded: nat, unresolved: nat, errors: nat)

  datatype ArtistAnswer = ArtistFound(mbid: string) | ArtistUnresolved | ArtistFailed
  datatype AlbumAnswer =
    | AlbumFound(mbid: string, artistMbid: string, artistName: string, title: string, primaryType: string,
                 firstReleaseDate: string)
    | AlbumUnresolved
    | AlbumFailed

  /** What happens outside while one artist or album is handled: the resolver's
      answer, and which of the statements fail for reasons of their own. */
  datatype ArtistFate = ArtistFate(answer: ArtistAnswer, upsertFails: bool, saveFails: bool, signalFails: bool)
  datatype AlbumFate = AlbumFate(answer: AlbumAnswer, artistFails: bool, upsertFails: bool, saveFails: bool,
                                 signalFails: bool)

  /** Fates by rank of the bucket and position of the album in it. */
  datatype World = World(artist: nat -> ArtistFate, album: (nat, nat) -> AlbumFate)

  /** The tables, and the counters of the run at work. */
  datatype Job = Job(state: State, r: Counts)

  function Err(r: Counts): Counts {
    r.(errors := r.errors + 1)
  }

  function Unresolved(r: Counts): Counts {
    r.(unresolved := r.unresolved + 1)
  }

  function Added(r: Counts, k: Kind): Counts {
    if k == LibraryAdd then r.(albumsAdded := r.albumsAdded + 1) else r.(artistsAdded := r.artistsAdded + 1)
  }

  predicate HasRow(db: Catalogue.Db, e: Entry) {
    if e.kind == FollowAdd then e.mbid in db.artists else e.mbid in db.albums
  }

  // ── the sync as a function ──

  /** INSERT … ON CONFLICT DO NOTHING, then Append if a row was inserted. */
  function Save(j: Job, e: Entry, saveFails: bool, signalFails: bool): Job {
    var s := j.state;
    if saveFails || (e !in s.saved && !HasRow(s.db, e)) then Job(s, Err(j.r))
    else if e in s.saved then j
    else
      var s1 := s.(saved := s.saved + {e});
      if signalFails || e.user == "" || e.mbid == "" then Job(s1, Err(j.r))
      else Job(s1.(log := s1.log + [e]), Added(j.r, e.kind))
  }

  function Write(db: Catalogue.Db, op: Catalogue.Op, fails: bool): (Catalogue.Db, bool) {
    if fails then (db, false) else
    var (db', r) := Catalogue.Step(db, op);
    (db', r == Catalogue.Done)
  }

  function PlaceholderMbid(spotifyId: string): string {
    "sp:" + spotifyId
  }

  /** The artist row to write before saving, if any. */
  function ArtistToWrite(b: Bucket, answer: ArtistAnswer): Option<string> {
    match answer
    case ArtistFound(mbid) => Some(mbid)
    case ArtistUnresolved =>
      if b.followed && b.name != "" && b.spotifyId != "" then Some(PlaceholderMbid(b.spotifyId)) else None
    case ArtistFailed => None
  }

  /** The artist half of a bucket; mbid is None when the bucket is abandoned and ""
      when there is no artist to fall back on. */
  datatype ArtistPhase = ArtistPhase(job: Job, mbid: Option<string>)

  function WriteArtist(db: Catalogue.Db, b: Bucket, f: ArtistFate): (Catalogue.Db, bool) {
    var target := ArtistToWrite(b, f.answer);
    if target.None? then (db, true)
    else Write(db, Catalogue.UpsertArtist(target.value, b.spotifyId, b.name), f.upsertFails)
  }

  /** A followed artist that resolves only to a placeholder, or to nothing. */
  function CountMissed(r: Counts, b: Bucket, f: ArtistFate): Counts {
    if f.answer.ArtistUnresolved? && b.followed then Unresolved(r) else r
  }

  function SaveFollow(j: Job, user: string, b: Bucket, mbid: string, f: ArtistFate): Job {
    if b.followed && mbid != "" then Save(j, Entry(FollowAdd, user, mbid), f.saveFails, f.signalFails) else j
  }

  function ResolveArtist(j: Job, user: string, b: Bucket, f: ArtistFate): ArtistPhase {
    if f.answer.ArtistFailed? then ArtistPhase(j.(r := Err(j.r)), None) else
    var (db, ok) := WriteArtist(j.state.db, b, f);
    var s := j.state.(db := db);
    if !ok then ArtistPhase(Job(s, Err(j.r)), None) else
    var mbid := StringOf(ArtistToWrite(b, f.answer));
    ArtistPhase(SaveFollow(Job(s, CountMissed(j.r, b, f)), user, b, mbid, f), Some(mbid))
  }

  function ToLower(c: char): char {
    if 'A' <= c <= 'Z' then c + 32 as char else c
  }

  function NormalizeAlbumType(mbType: string, spType: string): string {
    var t := FirstNonEmpty(mbType, spType);
    var low := seq(|t|, i requires 0 <= i < |t| => ToLower(t[i]));
    if low == "ep" then "EP" else if low == "single" then "Single" else "Album"
  }

  function AlbumOp(a: SavedAlbum, r: AlbumAnswer, artist: string): Catalogue.Op
    requires r.AlbumFound?
  {
    Catalogue.UpsertAlbum(r.mbid, a.spotifyId, FirstNonEmpty(r.title, a.name), artist,
                          FirstNonEmpty(r.firstReleaseDate, a.releaseDate),
                          NormalizeAlbumType(r.primaryType, a.albumType), a.totalTracks)
  }

  /** The catalogue after the two writes of a resolved album; a failing artist write is ignored. */
  function WriteAlbum(db: Catalogue.Db, a: SavedAlbum, fallback: string, f: AlbumFate): (Catalogue.Db, bool)
    requires f.answer.AlbumFound?
  {
    var artist := FirstNonEmpty(f.answer.artistMbid, fallback);
    var db1 := if artist != "" && a.artistId != "" && f.answer.artistName != ""
               then Write(db, Catalogue.UpsertArtist(artist, a.artistId, f.answer.artistName), f.artistFails).0
               else db;
    Write(db1, AlbumOp(a, f.answer, artist), f.upsertFails)
  }

  function ResolveAlbum(j: Job, user: string, a: SavedAlbum, fallback: string, f: AlbumFate): Job {
    match f.answer
    case AlbumUnresolved => j.(r := Unresolved(j.r))
    case AlbumFailed => j.(r := Err(j.r))
    case AlbumFound(mbid, _, _, _, _, _) =>
      var (db, ok) := WriteAlbum(j.state.db, a, fallback, f);
      var s := j.state.(db := db);
      if !ok then Job(s, Err(j.r))
      else Save(Job(s, j.r), Entry(LibraryAdd, user, mbid), f.saveFails, f.signalFails)
  }

  function ResolveAlbums(j: Job, user: string, albums: seq<SavedAlbum>, fallback: string, fate: nat -> AlbumFate): Job {
    if albums == [] then j else
    var n := |albums| - 1;
    ResolveAlbum(ResolveAlbums(j, user, albums[..n], fallback, fate), user, albums[n], fallback, fate(n))
  }

  function Fates(w: World, rank: nat): nat -> AlbumFate {
    (i: nat) => w.album(rank, i)
  }

  function ResolveBucket(j: Job, user: string, b: Bucket, w: World, rank: nat): Job {
    var p := ResolveArtist(j, user, b, w.artist(rank));
    if p.mbid.None? then p.job else ResolveAlbums(p.job, user, b.albums, p.mbid.value, Fates(w, rank))
  }

  function ResolveAll(j: Job, user: string, ranked: seq<Bucket>, w: World): Job {
    if ranked == [] then j else
    var n := |ranked| - 1;
    ResolveBucket(ResolveAll(j, user, ranked[..n], w), user, ranked[n], w, n)
  }

  // ── what every part of a run keeps ──

  /** No signal was sent twice, every signal has its saved row, and every saved row
      its catalogue row. */
  ghost predicate Invariant(s: State) {
    && Catalogue.Valid(s.db)
    && NoDuplicates(s.log)
    && (forall e :: e in s.log ==> e in s.saved)
    && (forall e :: e in s.saved ==> HasRow(s.db, e))
  }

  function CountKind(log: seq<Entry>, k: Kind): nat {
    if log == [] then 0 else CountKind(log[..|log| - 1], k) + if log[|log| - 1].kind == k then 1 else 0
  }

  /** Work for one user that takes j to k: rows and signals are only added, the
      counters follow the signals sent, signals only go out for rows that are new,
      and if no Append failed every new row got its signal. */
  ghost predicate Progress(j: Job, k: Job, user: string, lossless: bool) {
    var s, t := j.state, k.state;
    && Invariant(t)
    && s.saved <= t.saved
    && |s.log| <= |t.log| && t.log[..|s.log|] == s.log
    && k.r.albumsAdded - j.r.albumsAdded == CountKind(t.log, LibraryAdd) - CountKind(s.log, LibraryAdd)
    && k.r.artistsAdded - j.r.artistsAdded == CountKind(t.log, FollowAdd) - CountKind(s.log, FollowAdd)
    && j.r.unresolved <= k.r.unresolved && j.r.errors <= k.r.errors
    && (forall e :: e in t.saved && e !in s.saved ==> e.user == user)
    && (forall e :: e in t.log && e !in s.log ==> e !in s.saved)
    && (lossless ==> forall e :: e in t.saved && e !in s.saved ==> e in t.log)
  }

  lemma ProgressChains(j: Job, k: Job, l: Job, user: string, lossless: bool)
    requires Progress(j, k, user, lossless) && Progress(k, l, user, lossless)
    ensures Progress(j, l, user, lossless)
  {
    var s, m, t := j.state, k.state, l.state;
    assert t.log[..|s.log|] == t.log[..|m.log|][..|s.log|];
    forall e | e in m.log
      ensures e in t.log
    {
      assert e in t.log[..|m.log|];
    }
  }

  lemma StandingStill(j: Job, user: string, lossless: bool)
    requires Invariant(j.state)
    ensures Progress(j, j, user, lossless)
    ensures Progress(j, j.(r := Err(j.r)), user, lossless)
    ensures Progress(j, j.(r := Unresolved(j.r)), user, lossless)
  {
    assert j.state.log[..|j.state.log|] == j.state.log;
  }

  lemma WriteProgress(j: Job, op: Catalogue.Op, fails: bool, user: string, lossless: bool)
    requires Invariant(j.state)
    ensures Progress(j, j.(state := j.state.(db := Write(j.state.db, op, fails).0)), user, lossless)
  {
    Catalogue.StepKeepsValid(j.state.db, op);
    StandingStill(j, user, lossless);
  }

  lemma SaveProgress(j: Job, e: Entry, saveFails: bool, signalFails: bool, lossless: bool)
    requires Invariant(j.state)
    requires lossless ==> !signalFails && e.user != "" && e.mbid != ""
    ensures Progress(j, Save(j, e, saveFails, signalFails), e.user, lossless)
  {
    var s, t := j.state, Save(j, e, saveFails, signalFails).state;
    assert t.log == s.log || t.log == s.log + [e];
    assert t.log[..|s.log|] == s.log;
  }

  ghost predicate ArtistSendable(user: string, f: ArtistFate) {
    user != "" && !f.signalFails
  }

  ghost predicate AlbumSendable(user: string, f: AlbumFate) {
    user != "" && !f.signalFails && (f.answer.AlbumFound? ==> f.answer.mbid != "")
  }

  /** No Append of the run fails. */
  ghost predicate AllSendable(user: string, w: World) {
    && (forall i :: ArtistSendable(user, w.artist(i)))
    && (forall i, j :: AlbumSendable(user, w.album(i, j)))
  }

  lemma WriteArtistProgress(j: Job, b: Bucket, f: ArtistFate, user: string, lossless: bool)
    requires Invariant(j.state)
    ensures Progress(j, j.(state := j.state.(db := WriteArtist(j.state.db, b, f).0)), user, lossless)
  {
    var target := ArtistToWrite(b, f.answer);
    StandingStill(j, user, lossless);
    if target.Some? {
      WriteProgress(j, Catalogue.UpsertArtist(target.value, b.spotifyId, b.name), f.upsertFails, user, lossless);
    }
  }

  lemma ArtistProgress(j: Job, user: string, b: Bucket, f: ArtistFate, lossless: bool)
    requires Invariant(j.state) && (lossless ==> ArtistSendable(user, f))
    ensures Progress(j, ResolveArtist(j, user, b, f).job, user, lossless)
  {
    StandingStill(j, user, lossless);
    if !f.answer.ArtistFailed? {
      var (db, ok) := WriteArtist(j.state.db, b, f);
      var k := j.(state := j.state.(db := db));
      WriteArtistProgress(j, b, f, user, lossless);
      StandingStill(k, user, lossless);
      var l := if ok then k.(r := CountMissed(j.r, b, f)) else k.(r := Err(j.r));
      ProgressChains(j, k, l, user, lossless);
      var mbid := StringOf(ArtistToWrite(b, f.answer));
      if ok && b.followed && mbid != "" {
        var e := Entry(FollowAdd, user, mbid);
        SaveProgress(l, e, f.saveFails, f.signalFails, lossless);
        ProgressChains(j, l, Save(l, e, f.saveFails, f.signalFails), user, lossless);
      }
    }
  }

  lemma WriteAlbumProgress(j: Job, user: string, a: SavedAlbum, fallback: string, f: AlbumFate, lossless: bool)
    requires Invariant(j.state) && f.answer.AlbumFound?
    ensures Progress(j, j.(state := j.state.(db := WriteAlbum(j.state.db, a, fallback, f).0)), user, lossless)
  {
    var artist := FirstNonEmpty(f.answer.artistMbid, fallback);
    var k := j;
    StandingStill(j, user, lossless);
    if artist != "" && a.artistId != "" && f.answer.artistName != "" {
      var op := Catalogue.UpsertArtist(artist, a.artistId, f.answer.artistName);
      WriteProgress(j, op, f.artistFails, user, lossless);
      k := j.(state := j.state.(db := Write(j.state.db, op, f.artistFails).0));
    }
    WriteProgress(k, AlbumOp(a, f.answer, artist), f.upsertFails, user, lossless);
    var l := j.(state := j.state.(db := WriteAlbum(j.state.db, a, fallback, f).0));
    ProgressChains(j, k, l, user, lossless);
  }

  lemma AlbumProgress(j: Job, user: string, a: SavedAlbum, fallback: string, f: AlbumFate, lossless: bool)
    requires Invariant(j.state) && (lossless ==> AlbumSendable(user, f))
    ensures Progress(j, ResolveAlbum(j, user, a, fallback, f), user, lossless)
  {
    StandingStill(j, user, lossless);
    if f.answer.AlbumFound? {
      WriteAlbumProgress(j, user, a, fallback, f, lossless);
      var (db, ok) := WriteAlbum(j.state.db, a, fallback, f);
      var k, e := j.(state := j.state.(db := db)), Entry(LibraryAdd, user, f.answer.mbid);
      StandingStill(k, user, lossless);
      if ok {
        SaveProgress(k, e, f.saveFails, f.signalFails, lossless);
      }
      ProgressChains(j, k, ResolveAlbum(j, user, a, fallback, f), user, lossless);
    }
  }

  lemma {:induction false} AlbumsProgress(j: Job, user: string, albums: seq<SavedAlbum>, fallback: string,
                                          fate: nat -> AlbumFate, lossless: bool)
    requires Invariant(j.state) && (lossless ==> forall i :: AlbumSendable(user, fate(i)))
    ensures Progress(j, ResolveAlbums(j, user, albums, fallback, fate), user, lossless)
  {
    StandingStill(j, user, lossless);
    if albums != [] {
      var n := |albums| - 1;
      AlbumsProgress(j, user, albums[..n], fallback, fate, lossless);
      var k := ResolveAlbums(j, user, albums[..n], fallback, fate);
      AlbumProgress(k, user, albums[n], fallback, fate(n), lossless);
      ProgressChains(j, k, ResolveAlbum(k, user, albums[n], fallback, fate(n)), user, lossless);
    }
  }

  lemma BucketProgress(j: Job, user: string, b: Bucket, w: World, rank: nat, lossless: bool)
    requires Invariant(j.state) && (lossless ==> AllSendable(user, w))
    ensures Progress(j, ResolveBucket(j, user, b, w, rank), user, lossless)
  {
    var p := ResolveArtist(j, user, b, w.artist(rank));
    ArtistProgress(j, user, b, w.artist(rank), lossless);
    if p.mbid.Some? {
      AlbumsProgress(p.job, user, b.albums, p.mbid.value, Fates(w, rank), lossless);
      ProgressChains(j, p.job, ResolveAlbums(p.job, user, b.albums, p.mbid.value, Fates(w, rank)), user, lossless);
    }
  }

  /** A run's counters are the signals it sent; no row is signalled twice, and none
      that was saved earlier. */
  lemma {:induction false} RunProgress(j: Job, user: string, ranked: seq<Bucket>, w: World, lossless: bool)
    requires Invariant(j.state) && (lossless ==> AllSendable(user, w))
    ensures Progress(j, ResolveAll(j, user, ranked, w), user, lossless)
  {
    StandingStill(j, user, lossless);
    if ranked != [] {
      var n := |ranked| - 1;
      RunProgress(j, user, ranked[..n], w, lossless);
      var k := ResolveAll(j, user, ranked[..n], w);
      BucketProgress(k, user, ranked[n], w, n, lossless);
      ProgressChains(j, k, ResolveBucket(k, user, ranked[n], w, n), user, lossless);
    }
  }

  // ── any number of runs ──

  /** A sync of one user, or a catalogue write by another service in between. */
  datatype Act = Synced(user: string, ranked: seq<Bucket>, world: World) | Wrote(op: Catalogue.Op)

  function Started(s: State): Job {
    Job(s, Counts(0, 0, 0, 0))
  }

  function Next(s: State, a: Act): State {
    match a
    case Synced(user, ranked, w) => ResolveAll(Started(s), user, ranked, w).state
    case Wrote(op) => s.(db := Catalogue.Step(s.db, op).0)
  }

  function After(s: State, acts: seq<Act>): State {
    if acts == [] then s else Next(After(s, acts[..|acts| - 1]), acts[|acts| - 1])
  }

  ghost predicate ActSendable(a: Act) {
    a.Synced? ==> AllSendable(a.user, a.world)
  }

  function Empty(db: Catalogue.Db): State {
    State(db, {}, [])
  }

  /** Over any history at most one library_add per user and album and one follow_add
      per user and artist, each with its saved row; saved rows and signals are the
      same set if no Append ever failed. */
  lemma {:induction false} SignalledAtMostOnce(db: Catalogue.Db, acts: seq<Act>)
    requires Catalogue.Valid(db)
    ensures var s := After(Empty(db), acts);
      && Invariant(s)
      && ((forall a :: a in acts ==> ActSendable(a)) ==> s.saved == Elements(s.log))
  {
    if acts != [] {
      var front, a := acts[..|acts| - 1], acts[|acts| - 1];
      SignalledAtMostOnce(db, front);
      var m, s := After(Empty(db), front), After(Empty(db), acts);
      assert a in acts && forall x :: x in front ==> x in acts;
      match a
      case Synced(user, ranked, w) =>
        RunProgress(Started(m), user, ranked, w, false);
        if forall x :: x in acts ==> ActSendable(x) {
          assert ActSendable(a);
          RunProgress(Started(m), user, ranked, w, true);
          assert forall e :: e in m.log ==> e in s.log[..|m.log|];
        }
      case Wrote(op) =>
        WriteProgress(Started(m), op, false, "", false);
    }
  }

  /** A row whose Append failed never gets its signal later: no run looks at it again. */
  lemma {:induction false} LostSignalStaysLost(s: State, acts: seq<Act>, e: Entry)
    requires Invariant(s) && e in s.saved && e !in s.log
    ensures Invariant(After(s, acts)) && e in After(s, acts).saved && e !in After(s, acts).log
  {
    if acts != [] {
      var m := After(s, acts[..|acts| - 1]);
      LostSignalStaysLost(s, acts[..|acts| - 1], e);
      match acts[|acts| - 1]
      case Synced(user, ranked, w) => RunProgress(Started(m), user, ranked, w, false);
      case Wrote(op) => WriteProgress(Started(m), op, false, "", false);
    }
  }

  // ── what an ok run achieves ──

  predicate Clean(c: Counts) {
    c.unresolved == 0 && c.errors == 0
  }

  /** The album was resolved and its row is saved. */
  ghost predicate AlbumKept(s: State, user: string, f: AlbumFate) {
    f.answer.AlbumFound? && Entry(LibraryAdd, user, f.answer.mbid) in s.saved
  }

  /** A followed artist is saved under the mbid it resolved to. */
  ghost predicate FollowKept(s: State, user: string, b: Bucket, f: ArtistFate) {
    b.followed ==> f.answer.ArtistFound? && (f.answer.mbid == "" || Entry(FollowAdd, user, f.answer.mbid) in s.saved)
  }

  lemma CleanAlbum(j: Job, user: string, a: SavedAlbum, fallback: string, f: AlbumFate)
    requires Clean(ResolveAlbum(j, user, a, fallback, f).r)
    ensures Clean(j.r) && AlbumKept(ResolveAlbum(j, user, a, fallback, f).state, user, f)
    ensures j.state.saved <= ResolveAlbum(j, user, a, fallback, f).state.saved
  {
  }

  /** Every album of the bucket is saved. */
  ghost predicate AlbumsKept(s: State, user: string, n: nat, fate: nat -> AlbumFate) {
    forall i: nat :: i < n ==> AlbumKept(s, user, fate(i))
  }

  lemma OneMoreKept(s: State, t: State, user: string, n: nat, fate: nat -> AlbumFate)
    requires AlbumsKept(s, user, n, fate) && s.saved <= t.saved && AlbumKept(t, user, fate(n))
    ensures AlbumsKept(t, user, n + 1, fate)
  {
    forall i: nat | i < n + 1
      ensures AlbumKept(t, user, fate(i))
    {
      assert i == n || AlbumKept(s, user, fate(i));
    }
  }

  lemma {:induction false} CleanAlbums(j: Job, user: string, albums: seq<SavedAlbum>, fallback: string,
                                       fate: nat -> AlbumFate)
    requires Clean(ResolveAlbums(j, user, albums, fallback, fate).r)
    ensures Clean(j.r) && AlbumsKept(ResolveAlbums(j, user, albums, fallback, fate).state, user, |albums|, fate)
    ensures j.state.saved <= ResolveAlbums(j, user, albums, fallback, fate).state.saved
  {
    if albums != [] {
      var n := |albums| - 1;
      var k := ResolveAlbums(j, user, albums[..n], fallback, fate);
      CleanAlbum(k, user, albums[n], fallback, fate(n));
      CleanAlbums(j, user, albums[..n], fallback, fate);
      OneMoreKept(k.state, ResolveAlbums(j, user, albums, fallback, fate).state, user, n, fate);
    }
  }

  lemma CleanArtist(j: Job, user: string, b: Bucket, f: ArtistFate)
    requires Clean(ResolveArtist(j, user, b, f).job.r)
    ensures Clean(j.r) && ResolveArtist(j, user, b, f).mbid.Some?
    ensures FollowKept(ResolveArtist(j, user, b, f).job.state, user, b, f)
    ensures j.state.saved <= ResolveArtist(j, user, b, f).job.state.saved
  {
  }

  /** Everything in the bucket is saved. */
  ghost predicate BucketKept(s: State, user: string, b: Bucket, w: World, rank: nat) {
    FollowKept(s, user, b, w.artist(rank)) && AlbumsKept(s, user, |b.albums|, Fates(w, rank))
  }

  lemma CleanBucket(j: Job, user: string, b: Bucket, w: World, rank: nat)
    requires Clean(ResolveBucket(j, user, b, w, rank).r)
    ensures Clean(j.r) && BucketKept(ResolveBucket(j, user, b, w, rank).state, user, b, w, rank)
    ensures j.state.saved <= ResolveBucket(j, user, b, w, rank).state.saved
  {
    var p := ResolveArtist(j, user, b, w.artist(rank));
    if p.mbid.Some? {
      CleanAlbums(p.job, user, b.albums, p.mbid.value, Fates(w, rank));
    }
    CleanArtist(j, user, b, w.artist(rank));
  }

  lemma CleanLastBucket(j: Job, user: string, ranked: seq<Bucket>, w: World) returns (k: Job)
    requires ranked != [] && Clean(ResolveAll(j, user, ranked, w).r)
    ensures var l := ResolveAll(j, user, ranked, w);
      && k == ResolveAll(j, user, ranked[..|ranked| - 1], w)
      && Clean(k.r) && k.state.saved <= l.state.saved
      && BucketKept(l.state, user, ranked[|ranked| - 1], w, |ranked| - 1)
  {
    k := ResolveAll(j, user, ranked[..|ranked| - 1], w);
    CleanBucket(k, user, ranked[|ranked| - 1], w, |ranked| - 1);
  }

  /** A run without errors and unresolved items leaves every followed artist and every
      bucketed album saved. */
  lemma {:induction false} CleanRunSavesAll(j: Job, user: string, ranked: seq<Bucket>, w: World, l: Job, i: nat)
    requires l == ResolveAll(j, user, ranked, w) && Clean(l.r) && i < |ranked|
    ensures BucketKept(l.state, user, ranked[i], w, i)
  {
    var k := CleanLastBucket(j, user, ranked, w);
    if i < |ranked| - 1 {
      CleanRunSavesAll(j, user, ranked[..|ranked| - 1], w, k, i);
      KeptGrows(k.state, l.state, user, ranked[i], w, i);
    }
  }

  lemma KeptGrows(s: State, t: State, user: string, b: Bucket, w: World, rank: nat)
    requires BucketKept(s, user, b, w, rank) && s.saved <= t.saved
    ensures BucketKept(t, user, b, w, rank)
  {
    forall i: nat | i < |b.albums|
      ensures AlbumKept(t, user, Fates(w, rank)(i))
    {
      assert AlbumKept(s, user, Fates(w, rank)(i));
    }
  }

  /** With no statement failing on its own, a followed artist is signalled under the mbid
      it gets exactly if that mbid was not saved before and its row is not displaced. */
  lemma FollowSignalsIff(j: Job, user: string, b: Bucket, answer: ArtistAnswer, mbid: string)
    requires Invariant(j.state) && b.followed && user != ""
    requires ArtistToWrite(b, answer) == Some(mbid) && mbid != ""
    ensures var k := ResolveArtist(j, user, b, ArtistFate(answer, false, false, false)).job;
      var e := Entry(FollowAdd, user, mbid);
      var signals := e !in j.state.saved && !Catalogue.Displaced(j.state.db.artists, mbid, b.spotifyId);
      && k.state.db == Catalogue.Step(j.state.db, Catalogue.UpsertArtist(mbid, b.spotifyId, b.name)).0
      && k.state.log == (if signals then j.state.log + [e] else j.state.log)
      && (e !in k.state.saved <==> e !in j.state.saved && !signals)
  {
    var db := j.state.db;
    Catalogue.StepKeepsValid(db, Catalogue.UpsertArtist(mbid, b.spotifyId, b.name));
    Catalogue.UpsertNeverCollides(db.artists, mbid, b.spotifyId, Catalogue.ArtistData(b.name),
                                  Catalogue.ArtistChange(b.name), Catalogue.ArtistChange(b.name));
  }

  /** So following a resolved artist fails exactly when its mbid is unknown and its
      spotify id already sits on another row. */
  lemma FollowLostIff(j: Job, user: string, b: Bucket, mbid: string)
    requires Invariant(j.state) && b.followed && b.spotifyId != "" && mbid != "" && user != ""
    ensures var p := ResolveArtist(j, user, b, ArtistFate(ArtistFound(mbid), false, false, false));
      Entry(FollowAdd, user, mbid) !in p.job.state.saved <==>
        Catalogue.Displaced(j.state.db.artists, mbid, b.spotifyId)
  {
    FollowSignalsIff(j, user, b, ArtistFound(mbid), mbid);
  }

  /** A followed artist already saved under one mbid gets another one in a later sync: it
      is signalled again exactly if that one was not saved yet and has its row. */
  lemma SignalledAgainIff(j: Job, user: string, b: Bucket, answer: ArtistAnswer, earlier: string, mbid: string)
    requires Invariant(j.state) && b.followed && b.spotifyId != "" && user != ""
    requires Entry(FollowAdd, user, earlier) in j.state.saved && Catalogue.HasOwner(j.state.db.artists, b.spotifyId)
    requires ArtistToWrite(b, answer) == Some(mbid) && mbid != "" && mbid != earlier
    ensures var k := ResolveArtist(j, user, b, ArtistFate(answer, false, false, false)).job;
      var e := Entry(FollowAdd, user, mbid);
      && (k.state.log == j.state.log + [e] <==> e !in j.state.saved && mbid in j.state.db.artists)
      && (k.state.log == j.state.log + [e] || k.state.log == j.state.log)
  {
    FollowSignalsIff(j, user, b, answer, mbid);
    Catalogue.OwnedIsDisplaced(j.state.db.artists, mbid, b.spotifyId);
    assert |j.state.log + [Entry(FollowAdd, user, mbid)]| == |j.state.log| + 1;
  }

  lemma OneFollowRun(s: State, user: string, b: Bucket, ranked: seq<Bucket>, w: World)
    requires b.albums == [] && ranked == [b]
    ensures Next(s, Synced(user, ranked, w)) == ResolveArtist(Started(s), user, b, w.artist(0)).job.state
  {
    var j := Started(s);
    assert ranked[..0] == [] && ranked[0] == b && |ranked| == 1;
    assert ResolveAll(j, user, ranked[..0], w) == j;
    assert ResolveAll(j, user, ranked, w) == ResolveBucket(j, user, b, w, 0);
  }

  lemma ThreeActs(s: State, acts: seq<Act>)
    requires |acts| == 3
    ensures After(s, acts) == Next(Next(Next(s, acts[0]), acts[1]), acts[2])
  {
    assert acts[..2][..1] == acts[..1] && acts[..1][..0] == [] && acts[..2][1] == acts[1] && acts[..1][0] == acts[0];
    assert After(s, acts[..1]) == Next(s, acts[0]);
    assert After(s, acts[..2]) == Next(After(s, acts[..1]), acts[1]);
  }

  /** A followed artist is saved and signalled as a placeholder. */
  lemma PlaceholderFollowed(s: State, user: string, b: Bucket, ranked: seq<Bucket>, w: World)
    requires Invariant(s) && user != "" && b.followed && b.spotifyId != "" && b.name != "" && b.albums == []
    requires ranked == [b]
    requires w.artist(0) == ArtistFate(ArtistUnresolved, false, false, false)
    requires s.saved == {} && Catalogue.OtherOwners(s.db.artists, PlaceholderMbid(b.spotifyId), b.spotifyId) == {}
    ensures var t, e := Next(s, Synced(user, ranked, w)), Entry(FollowAdd, user, PlaceholderMbid(b.spotifyId));
      Invariant(t) && t.log == s.log + [e] && t.saved == {e} && s.db.artists.Keys <= t.db.artists.Keys
  {
    OneFollowRun(s, user, b, ranked, w);
    FollowSignalsIff(Started(s), user, b, ArtistUnresolved, PlaceholderMbid(b.spotifyId));
    Catalogue.StepKeepsValid(s.db, Catalogue.UpsertArtist(PlaceholderMbid(b.spotifyId), b.spotifyId, b.name));
    RunProgress(Started(s), user, ranked, w, false);
  }

  /** Later it resolves to an artist that already has a row. */
  lemma FollowedAgain(s: State, user: string, b: Bucket, ranked: seq<Bucket>, w: World, mbid: string)
    requires Invariant(s) && user != "" && b.followed && b.spotifyId != "" && b.albums == [] && ranked == [b]
    requires w.artist(0) == ArtistFate(ArtistFound(mbid), false, false, false)
    requires mbid != "" && mbid in s.db.artists && Entry(FollowAdd, user, mbid) !in s.saved
    ensures Next(s, Synced(user, ranked, w)).log == s.log + [Entry(FollowAdd, user, mbid)]
  {
    OneFollowRun(s, user, b, ranked, w);
    FollowSignalsIff(Started(s), user, b, ArtistFound(mbid), mbid);
  }

  lemma FirstArtist(mbid: string, name: string)
    ensures var s := Next(Empty(Catalogue.EmptyDb()), Wrote(Catalogue.UpsertArtist(mbid, "", name)));
      && Invariant(s) && s.log == [] && s.saved == {} && mbid in s.db.artists
      && forall m, sp :: Catalogue.OtherOwners(s.db.artists, m, sp) == {}
  {
    Catalogue.StepKeepsValid(Catalogue.EmptyDb(), Catalogue.UpsertArtist(mbid, "", name));
  }

  /** The witness: an artist row exists without a spotify id; the artist is followed while
      unresolved, and later resolves to that row. Two signals for one followed artist. */
  lemma FollowSignalledTwice(acts: seq<Act>, user: string, b: Bucket, mbid: string, w1: World, w2: World)
    requires user != "" && b.spotifyId != "" && b.name != "" && b.followed && b.albums == []
    requires mbid != "" && mbid != PlaceholderMbid(b.spotifyId) && |acts| == 3
    requires acts[0] == Wrote(Catalogue.UpsertArtist(mbid, "", b.name))
    requires acts[1] == Synced(user, [b], w1) && w1.artist(0) == ArtistFate(ArtistUnresolved, false, false, false)
    requires acts[2] == Synced(user, [b], w2) && w2.artist(0) == ArtistFate(ArtistFound(mbid), false, false, false)
    ensures After(Empty(Catalogue.EmptyDb()), acts).log
         == [Entry(FollowAdd, user, "sp:" + b.spotifyId), Entry(FollowAdd, user, mbid)]
  {
    var s1 := Next(Empty(Catalogue.EmptyDb()), acts[0]);
    var s2 := Next(s1, acts[1]);
    ThreeActs(Empty(Catalogue.EmptyDb()), acts);
    FirstArtist(mbid, b.name);
    PlaceholderFollowed(s1, user, b, [b], w1);
    FollowedAgain(s2, user, b, [b], w2, mbid);
  }

  /** The artist an album links to, as it stands after the artist write of WriteAlbum. */
  ghost predicate AlbumArtistMissing(db: Catalogue.Db, a: SavedAlbum, artist: string, artistName: string) {
    if a.artistId != "" && artistName != "" then Catalogue.Displaced(db.artists, artist, a.artistId)
    else artist !in db.artists
  }

  lemma ArtistAfterWrite(db: Catalogue.Db, a: SavedAlbum, artist: string, artistName: string)
    requires Catalogue.Valid(db)
    ensures var op := Catalogue.UpsertArtist(artist, a.artistId, artistName);
      var db1 := if a.artistId != "" && artistName != "" then Write(db, op, false).0 else db;
      && Catalogue.Valid(db1) && db1.albums == db.albums
      && (artist !in db1.artists <==> AlbumArtistMissing(db, a, artist, artistName))
  {
    Catalogue.StepKeepsValid(db, Catalogue.UpsertArtist(artist, a.artistId, artistName));
    Catalogue.UpsertNeverCollides(db.artists, artist, a.artistId, Catalogue.ArtistData(artistName),
                                  Catalogue.ArtistChange(artistName), Catalogue.ArtistChange(artistName));
  }

  lemma AlbumAfterWrite(db: Catalogue.Db, op: Catalogue.Op)
    requires Catalogue.Valid(db) && op.UpsertAlbum?
    ensures var (db', ok) := Write(db, op, false);
      && ok == (op.artist == "" || op.artist in db.artists)
      && (ok ==> (op.mbid in db'.albums <==> !Catalogue.Displaced(db.albums, op.mbid, op.spotifyId)))
  {
    var artist, date, count := NullIfEmpty(op.artist), NullIfEmpty(op.releaseDate), Catalogue.ZeroAsNull(op.trackCount);
    Catalogue.StepKeepsValid(db, op);
    Catalogue.UpsertNeverCollides(db.albums, op.mbid, op.spotifyId,
                                  Catalogue.AlbumData(artist, op.title, date, op.kind, count),
                                  Catalogue.AlbumPreChange(op.title, artist, date, op.kind, count),
                                  Catalogue.AlbumMergeChange(op.title, artist, date, op.kind, count));
  }

  /** The same letters, in whatever case, as a lower-case word. */
  ghost predicate Spells(t: string, lower: string) {
    |t| == |lower| && forall i :: 0 <= i < |t| ==>
      t[i] == lower[i] || ('A' <= t[i] <= 'Z' && t[i] as int + 32 == lower[i] as int)
  }

  lemma LowerIs(c: char, l: char)
    requires 'a' <= l <= 'z'
    ensures ToLower(c) == l <==> c == l || ('A' <= c <= 'Z' && c as int + 32 == l as int)
  {
  }

  lemma LowerSpells(t: string, low: string, word: string)
    requires |low| == |t| && forall i :: 0 <= i < |t| ==> low[i] == ToLower(t[i])
    requires forall i :: 0 <= i < |word| ==> 'a' <= word[i] <= 'z'
    ensures low == word <==> Spells(t, word)
  {
    forall i | 0 <= i < |t| && |t| == |word|
      ensures low[i] == word[i] <==> t[i] == word[i] || ('A' <= t[i] <= 'Z' && t[i] as int + 32 == word[i] as int)
    {
      LowerIs(t[i], word[i]);
    }
    if Spells(t, word) {
      assert low == word;
    }
  }

  /** EP and Single in any spelling stay what they are; everything else is an Album. */
  lemma TypeShown(mbType: string, spType: string, t: string)
    requires t == if mbType != "" then mbType else spType
    ensures NormalizeAlbumType(mbType, spType)
         == if Spells(t, "ep") then "EP" else if Spells(t, "single") then "Single" else "Album"
  {
    var low := seq(|t|, i requires 0 <= i < |t| => ToLower(t[i]));
    LowerSpells(t, low, "ep");
    LowerSpells(t, low, "single");
  }

  lemma ArtistWrittenFirst(db: Catalogue.Db, a: SavedAlbum, fallback: string, f: AlbumFate, artist: string)
    returns (db1: Catalogue.Db)
    requires Catalogue.Valid(db) && f.answer.AlbumFound?
    requires artist == if f.answer.artistMbid != "" then f.answer.artistMbid else fallback
    ensures Catalogue.Valid(db1) && db1.albums == db.albums
    ensures WriteAlbum(db, a, fallback, f) == Write(db1, AlbumOp(a, f.answer, artist), f.upsertFails)
  {
    var op := Catalogue.UpsertArtist(artist, a.artistId, f.answer.artistName);
    db1 := db;
    if artist != "" && a.artistId != "" && f.answer.artistName != "" {
      db1 := Write(db, op, f.artistFails).0;
    }
    Catalogue.StepKeepsValid(db, op);
    Catalogue.OtherTablesStay(db, op);
  }

  lemma AlbumOpShows(db: Catalogue.Db, op: Catalogue.Op, m: string)
    requires Catalogue.Valid(db) && op.UpsertAlbum? && Write(db, op, false).1
    requires Catalogue.Target(db.albums, op.mbid, op.spotifyId, m)
    ensures var albums := Write(db, op, false).0.albums;
      && Catalogue.WroteRow(db.albums, albums, op.spotifyId, m)
      && albums[m].data.title == op.title && albums[m].data.kind == op.kind
      && (op.releaseDate != "" ==> albums[m].data.releaseDate == Some(op.releaseDate))
      && (op.trackCount != 0 ==> albums[m].data.trackCount == Some(op.trackCount))
      && (op.artist != "" ==> albums[m].data.artist == Some(op.artist))
  {
    Catalogue.StepKeepsValid(db, op);
    Catalogue.AlbumRowShows(db, op, m);
  }

  /** What the row of a written album shows: MusicBrainz's title, date and type where it gives
      them and Spotify's otherwise, Spotify's track count, and the artist link if there is one. */
  lemma AlbumShows(db: Catalogue.Db, a: SavedAlbum, fallback: string, f: AlbumFate, m: string, t: string, date: string)
    requires Catalogue.Valid(db) && f.answer.AlbumFound? && WriteAlbum(db, a, fallback, f).1
    requires Catalogue.Target(db.albums, f.answer.mbid, a.spotifyId, m)
    requires t == if f.answer.primaryType != "" then f.answer.primaryType else a.albumType
    requires date == if f.answer.firstReleaseDate != "" then f.answer.firstReleaseDate else a.releaseDate
    ensures var albums, res := WriteAlbum(db, a, fallback, f).0.albums, f.answer;
      && Catalogue.WroteRow(db.albums, albums, a.spotifyId, m)
      && albums[m].data.title == (if res.title != "" then res.title else a.name)
      && (date != "" ==> albums[m].data.releaseDate == Some(date))
      && albums[m].data.kind == (if Spells(t, "ep") then "EP" else if Spells(t, "single") then "Single" else "Album")
      && (a.totalTracks != 0 ==> albums[m].data.trackCount == Some(a.totalTracks))
      && (res.artistMbid != "" ==> albums[m].data.artist == Some(res.artistMbid))
      && (res.artistMbid == "" && fallback != "" ==> albums[m].data.artist == Some(fallback))
  {
    var artist := if f.answer.artistMbid != "" then f.answer.artistMbid else fallback;
    var db1 := ArtistWrittenFirst(db, a, fallback, f, artist);
    TypeShown(f.answer.primaryType, a.albumType, t);
    AlbumOpShows(db1, AlbumOp(a, f.answer, artist), m);
  }

  /** With no statement failing on its own, a resolved album is not saved exactly when
      it was not before and its artist link is missing or displaced, or its own mbid is. */
  lemma AlbumLostIff(j: Job, user: string, a: SavedAlbum, fallback: string, res: AlbumAnswer)
    requires Invariant(j.state) && res.AlbumFound?
    ensures var k := ResolveAlbum(j, user, a, fallback, AlbumFate(res, false, false, false, false));
      var e, artist := Entry(LibraryAdd, user, res.mbid), FirstNonEmpty(res.artistMbid, fallback);
      e !in k.state.saved <==>
        && e !in j.state.saved
        && ((artist != "" && AlbumArtistMissing(j.state.db, a, artist, res.artistName))
            || Catalogue.Displaced(j.state.db.albums, res.mbid, a.spotifyId))
  {
    var db, artist := j.state.db, FirstNonEmpty(res.artistMbid, fallback);
    ArtistAfterWrite(db, a, artist, res.artistName);
    var db1 := if artist != "" && a.artistId != "" && res.artistName != ""
               then Write(db, Catalogue.UpsertArtist(artist, a.artistId, res.artistName), false).0 else db;
    AlbumAfterWrite(db1, AlbumOp(a, res, artist));
  }

  // ── the service ──

  datatype Status = Ok | Partial | Failed
  datatype RunResult = RunResult(status: Status, counts: Counts)

  /** What Spotify delivered before each listing ended or failed. */
  datatype Fetched = Fetched(followed: seq<FollowedArtist>, followedFailed: bool, albums: seq<SavedAlbum>,
                             albumsFailed: bool)

  /** A ranking of the buckets gathered from what was delivered. */
  ghost predicate RankingOf(fetched: Fetched, ranked: seq<Bucket>) {
    exists buckets :: Gathered(buckets, fetched.followed, fetched.albums) && Ranking(buckets, ranked)
  }

  class Service {
    var state: State

    constructor (db: Catalogue.Db)
      requires Catalogue.Valid(db)
      ensures state == Empty(db) && Invariant(state)
    {
      state := Empty(db);
    }

    method UpsertArtist(mbid: string, spotifyId: string, name: string, fails: bool) returns (ok: bool)
      modifies this
      ensures (state.db, ok) == Write(old(state.db), Catalogue.UpsertArtist(mbid, spotifyId, name), fails)
      ensures state == old(state).(db := state.db)
    {
      if fails {
        return false;
      }
      var store := new Catalogue.Store(state.db);
      var r := store.UpsertArtist(mbid, spotifyId, name);
      state := state.(db := store.db);
      ok := r == Catalogue.Done;
    }

    method UpsertAlbum(a: SavedAlbum, res: AlbumAnswer, artist: string, fails: bool) returns (ok: bool)
      requires res.AlbumFound?
      modifies this
      ensures (state.db, ok) == Write(old(state.db), AlbumOp(a, res, artist), fails)
      ensures state == old(state).(db := state.db)
    {
      if fails {
        return false;
      }
      var store := new Catalogue.Store(state.db);
      var r := store.UpsertAlbum(res.mbid, a.spotifyId, FirstNonEmpty(res.title, a.name), artist,
                                 FirstNonEmpty(res.firstReleaseDate, a.releaseDate),
                                 NormalizeAlbumType(res.primaryType, a.albumType), a.totalTracks);
      state := state.(db := store.db);
      ok := r == Catalogue.Done;
    }

    method InsertSaved(e: Entry, fails: bool) returns (inserted: bool, ok: bool)
      modifies this
      ensures ok == !(fails || (e !in old(state.saved) && !HasRow(old(state.db), e)))
      ensures inserted == (ok && e !in old(state.saved))
      ensures state == if ok then old(state).(saved := old(state.saved) + {e}) else old(state)
    {
      if fails || (e !in state.saved && !HasRow(state.db, e)) {
        return false, false;
      }
      inserted, ok := e !in state.saved, true;
      state := state.(saved := state.saved + {e});
    }

    method AppendSignal(e: Entry, fails: bool) returns (ok: bool)
      modifies this
      ensures ok == !(fails || e.user == "" || e.mbid == "")
      ensures state == if ok then old(state).(log := old(state.log) + [e]) else old(state)
    {
      ok := !(fails || e.user == "" || e.mbid == "");
      if ok {
        state := state.(log := state.log + [e]);
      }
    }

    method SaveArtist(user: string, mbid: string, f: ArtistFate, r: Counts) returns (r': Counts)
      modifies this
      ensures Job(state, r') == Save(Job(old(state), r), Entry(FollowAdd, user, mbid), f.saveFails, f.signalFails)
    {
      var e := Entry(FollowAdd, user, mbid);
      var inserted, ok := InsertSaved(e, f.saveFails);
      r' := r;
      if !ok {
        r' := Err(r');
      } else if inserted {
        var sent := AppendSignal(e, f.signalFails);
        if !sent {
          r' := Err(r');
        } else {
          r' := Added(r', FollowAdd);
        }
      } else {
        assert old(state.saved) + {e} == old(state.saved);
      }
    }

    method SaveAlbum(user: string, mbid: string, f: AlbumFate, r: Counts) returns (r': Counts)
      modifies this
      ensures Job(state, r') == Save(Job(old(state), r), Entry(LibraryAdd, user, mbid), f.saveFails, f.signalFails)
    {
      var e := Entry(LibraryAdd, user, mbid);
      var inserted, ok := InsertSaved(e, f.saveFails);
      if !ok {
        return Err(r);
      }
      if !inserted {
        assert old(state.saved) + {e} == old(state.saved);
        return r;
      }
      var sent := AppendSignal(e, f.signalFails);
      if !sent {
        return Err(r);
      }
      r' := Added(r, LibraryAdd);
    }

    method WriteResolvedAlbum(a: SavedAlbum, fallback: string, f: AlbumFate) returns (ok: bool)
      requires f.answer.AlbumFound?
      modifies this
      ensures (state.db, ok) == WriteAlbum(old(state.db), a, fallback, f)
      ensures state == old(state).(db := state.db)
    {
      var artist := f.answer.artistMbid;
      if artist == "" {
        artist := fallback;
      }
      if artist != "" && a.artistId != "" && f.answer.artistName != "" {
        var _ := UpsertArtist(artist, a.artistId, f.answer.artistName, f.artistFails);
      }
      ok := UpsertAlbum(a, f.answer, artist, f.upsertFails);
    }

    method ResolveOneAlbum(user: string, a: SavedAlbum, fallback: string, f: AlbumFate, r: Counts) returns (r': Counts)
      modifies this
      ensures Job(state, r') == ResolveAlbum(Job(old(state), r), user, a, fallback, f)
    {
      match f.answer
      case AlbumUnresolved => r' := Unresolved(r);
      case AlbumFailed => r' := Err(r);
      case AlbumFound(mbid, _, _, _, _, _) =>
        var written := WriteResolvedAlbum(a, fallback, f);
        if written {
          r' := SaveAlbum(user, mbid, f, r);
        } else {
          r' := Err(r);
        }
    }

    /** The artist row, real or placeholder; mbid is "" when there is none. */
    method WriteBucketArtist(b: Bucket, f: ArtistFate) returns (mbid: string, ok: bool)
      requires !f.answer.ArtistFailed?
      modifies this
      ensures (state.db, ok) == WriteArtist(old(state.db), b, f) && state == old(state).(db := state.db)
      ensures mbid == StringOf(ArtistToWrite(b, f.answer))
    {
      mbid, ok := "", true;
      if f.answer.ArtistFound? {
        mbid := f.answer.mbid;
        ok := UpsertArtist(mbid, b.spotifyId, b.name, f.upsertFails);
      } else if b.followed && b.name != "" && b.spotifyId != "" {
        mbid := PlaceholderMbid(b.spotifyId);
        ok := UpsertArtist(mbid, b.spotifyId, b.name, f.upsertFails);
      }
    }

    /** The artist half of resolveBucket; ok is false where it returns early. */
    method ResolveBucketArtist(user: string, b: Bucket, f: ArtistFate, r: Counts)
        returns (r': Counts, mbid: string, ok: bool)
      modifies this
      ensures var p := ResolveArtist(Job(old(state), r), user, b, f);
        Job(state, r') == p.job && ok == p.mbid.Some? && (ok ==> mbid == p.mbid.value)
    {
      if f.answer.ArtistFailed? {
        return Err(r), "", false;
      }
      mbid, ok := WriteBucketArtist(b, f);
      if !ok {
        return Err(r), mbid, false;
      }
      r' := r;
      if f.answer.ArtistUnresolved? && b.followed {
        r' := Unresolved(r');
      }
      if b.followed && mbid != "" {
        r' := SaveArtist(user, mbid, f, r');
      }
    }

    method ResolveOneBucket(user: string, b: Bucket, w: World, rank: nat, r: Counts) returns (r': Counts)
      modifies this
      ensures Job(state, r') == ResolveBucket(Job(old(state), r), user, b, w, rank)
    {
      var mbid, ok;
      r', mbid, ok := ResolveBucketArtist(user, b, w.artist(rank), r);
      if !ok {
        return;
      }
      ghost var start := Job(state, r');
      assert b.albums[..0] == [];
      for i := 0 to |b.albums|
        invariant Job(state, r') == ResolveAlbums(start, user, b.albums[..i], mbid, Fates(w, rank))
      {
        assert b.albums[..i + 1][..i] == b.albums[..i];
        r' := ResolveOneAlbum(user, b.albums[i], mbid, w.album(rank, i), r');
      }
      assert b.albums[..|b.albums|] == b.albums;
    }

    /** token is false when no access token could be had. */
    method Sync(user: string, token: bool, fetched: Fetched, w: World) returns (result: RunResult, ranked: seq<Bucket>)
      modifies this
      ensures !token ==> result.status == Failed && Job(state, result.counts) == Started(old(state))
      ensures token ==> result.status != Failed
      ensures token ==> RankingOf(fetched, ranked)
      ensures token ==> Job(state, result.counts) == ResolveAll(Started(old(state)), user, ranked, w)
      ensures token ==>
                (result.status == Ok <==> Clean(result.counts) && !fetched.followedFailed && !fetched.albumsFailed)
    {
      var r := Counts(0, 0, 0, 0);
      if !token {
        return RunResult(Failed, r), [];
      }
      var buckets := Gather(fetched.followed, fetched.albums);
      assert forall id :: id in buckets ==> GatheredAt(buckets, fetched.followed, fetched.albums, id);
      ranked := BucketsByScoreDesc(buckets);
      assert ranked[..0] == [];
      for i := 0 to |ranked|
        invariant Job(state, r) == ResolveAll(Started(old(state)), user, ranked[..i], w)
      {
        assert ranked[..i + 1][..i] == ranked[..i];
        r := ResolveOneBucket(user, ranked[i], w, i, r);
      }
      assert ranked[..|ranked|] == ranked;
      var status := Ok;
      if fetched.followedFailed || fetched.albumsFailed || r.errors > 0 || r.unresolved > 0 {
        status := Partial;
      }
      result := RunResult(status, r);
    }
  }
}
