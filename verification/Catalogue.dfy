/**
 The shared catalogue (artists, albums, tracks) and the upserts through which
 the listening, library, toplists, mbrels and samelabel services write it.
 A table is a map from its primary key mbid; spotify_id carries a UNIQUE
 constraint and parent links carry foreign keys, and a statement that would
 break either one fails and changes nothing.
 */
module Catalogue {
  import opened Basics

  datatype Row<+D> = Row(spotifyId: Option<string>, data: D)
  datatype ArtistData = ArtistData(name: string)
  datatype AlbumData = AlbumData(artist: Option<string>, title: string, releaseDate: Option<string>,
                                 kind: string, trackCount: Option<int>)
  datatype TrackData = TrackData(album: Option<string>, artist: Option<string>, title: string,
                                 durationSec: Option<int>)

  type Table<D> = map<string, Row<D>>
  datatype Db = Db(artists: Table<ArtistData>, albums: Table<AlbumData>, tracks: Table<TrackData>)

  datatype Outcome = Done | UniqueViolation | ForeignKeyViolation
  datatype Written<+D> = Written(table: map<string, Row<D>>, outcome: Outcome)

  // ── the two SQL statements of an upsert ──

  /** Rows hit by UPDATE … WHERE spotify_id = $1 AND mbid <> $2. */
  function OtherOwners<D>(t: Table<D>, mbid: string, spotifyId: string): set<string> {
    set m | m in t && m != mbid && t[m].spotifyId == Some(spotifyId)
  }

  function UpdateRows<D>(t: Table<D>, hit: set<string>, change: D -> D): Table<D> {
    map m | m in t :: if m in hit then t[m].(data := change(t[m].data)) else t[m]
  }

  /** INSERT … ON CONFLICT (mbid) DO UPDATE: only mbid collisions are handled,
      a spotify_id held by another row is an error. */
  function InsertOnConflict<D>(t: Table<D>, mbid: string, spotifyId: Option<string>, initial: D,
                               merge: D -> D): Written<D> {
    var row := if mbid in t
               then Row(Coalesce(spotifyId, t[mbid].spotifyId), merge(t[mbid].data))
               else Row(spotifyId, initial);
    if row.spotifyId.Some? && OtherOwners(t, mbid, row.spotifyId.value) != {}
    then Written(t, UniqueViolation)
    else Written(t[mbid := row], Done)
  }

  /** Update whoever else holds the spotify_id, or insert. */
  function Upsert<D>(t: Table<D>, mbid: string, spotifyId: string, initial: D, pre: D -> D, merge: D -> D): Written<D> {
    var others := OtherOwners(t, mbid, spotifyId);
    if spotifyId != "" && others != {}
    then Written(UpdateRows(t, others, pre), Done)
    else InsertOnConflict(t, mbid, NullIfEmpty(spotifyId), initial, merge)
  }

  // ── column assignments of the individual upserts ──

  function ArtistChange(name: string): ArtistData -> ArtistData {
    (d: ArtistData) => ArtistData(name)
  }

  function PlaceholderChange(title: string, artist: Option<string>): AlbumData -> AlbumData {
    (d: AlbumData) => d.(title := title, artist := Coalesce(artist, d.artist))
  }

  function AlbumPreChange(title: string, artist: Option<string>, date: Option<string>, kind: string,
                          count: Option<int>): AlbumData -> AlbumData {
    (d: AlbumData) => AlbumData(Coalesce(artist, d.artist), title, Coalesce(date, d.releaseDate), kind,
                                Coalesce(count, d.trackCount))
  }

  /** The conflict branch of the library's upsertAlbum: release_date is overwritten, NULL included. */
  function AlbumMergeChange(title: string, artist: Option<string>, date: Option<string>, kind: string,
                            count: Option<int>): AlbumData -> AlbumData {
    (d: AlbumData) => AlbumData(Coalesce(artist, d.artist), title, date, kind, Coalesce(count, d.trackCount))
  }

  function TrackChange(title: string, album: Option<string>, artist: Option<string>,
                       duration: Option<int>): TrackData -> TrackData {
    (d: TrackData) => TrackData(Coalesce(album, d.album), Coalesce(artist, d.artist), title,
                                Coalesce(duration, d.durationSec))
  }

  function ZeroAsNull(n: int): Option<int> {
    if n == 0 then None else Some(n)
  }

  /** Stored duration: only positive millisecond counts are written. */
  function DurationColumn(durationMs: int): Option<int> {
    if durationMs > 0 then Some(durationMs / 1000) else None
  }

  // ── the upserts as operations on the whole catalogue ──

  datatype Op =
    | UpsertArtist(mbid: string, spotifyId: string, name: string)
    | UpsertAlbumPlaceholder(mbid: string, spotifyId: string, title: string, artist: string)
    | UpsertAlbum(mbid: string, spotifyId: string, title: string, artist: string,
                  releaseDate: string, kind: string, trackCount: int)
    | UpsertDiscovered(mbid: string, artist: string, title: string, kind: string, releaseDate: string)
    | UpsertTrack(mbid: string, spotifyId: string, title: string, durationMs: int, album: string, artist: string)

  function KindOr(kind: string): string {
    if kind == "" then "Album" else kind
  }

  /** The table write of an operation that meets its foreign keys. */
  function AlbumWrite(db: Db, op: Op): Written<AlbumData>
    requires op.UpsertAlbumPlaceholder? || op.UpsertAlbum? || op.UpsertDiscovered?
  {
    var artist := NullIfEmpty(op.artist);
    match op
    case UpsertAlbumPlaceholder(mbid, sp, title, _) =>
      Upsert(db.albums, mbid, sp, AlbumData(artist, title, None, "Album", None),
             PlaceholderChange(title, artist), PlaceholderChange(title, artist))
    case UpsertAlbum(mbid, sp, title, _, date, kind, count) =>
      var d, c := NullIfEmpty(date), ZeroAsNull(count);
      Upsert(db.albums, mbid, sp, AlbumData(artist, title, d, kind, c),
             AlbumPreChange(title, artist, d, kind, c), AlbumMergeChange(title, artist, d, kind, c))
    case UpsertDiscovered(mbid, _, title, kind, date) =>
      var d, k := NullIfEmpty(date), KindOr(kind);
      Upsert(db.albums, mbid, "", AlbumData(artist, title, d, k, None),
             AlbumPreChange(title, artist, d, k, None), AlbumPreChange(title, artist, d, k, None))
  }

  function ArtistWrite(db: Db, op: Op): Written<ArtistData>
    requires op.UpsertArtist?
  {
    Upsert(db.artists, op.mbid, op.spotifyId, ArtistData(op.name), ArtistChange(op.name), ArtistChange(op.name))
  }

  function TrackWrite(db: Db, op: Op): Written<TrackData>
    requires op.UpsertTrack?
  {
    var album, artist, dur := NullIfEmpty(op.album), NullIfEmpty(op.artist), DurationColumn(op.durationMs);
    Upsert(db.tracks, op.mbid, op.spotifyId, TrackData(album, artist, op.title, dur),
           TrackChange(op.title, album, artist, dur), TrackChange(op.title, album, artist, dur))
  }

  /** Parent links an operation writes all exist. */
  predicate ForeignKeysMet(db: Db, op: Op) {
    match op
    case UpsertArtist(_, _, _) => true
    case UpsertTrack(_, _, _, _, album, artist) =>
      (album == "" || album in db.albums) && (artist == "" || artist in db.artists)
    case _ => op.artist == "" || op.artist in db.artists
  }

  function Step(db: Db, op: Op): (Db, Outcome) {
    if !ForeignKeysMet(db, op) then (db, ForeignKeyViolation)
    else match op
      case UpsertArtist(_, _, _) =>
        var w := ArtistWrite(db, op); (db.(artists := w.table), w.outcome)
      case UpsertTrack(_, _, _, _, _, _) =>
        var w := TrackWrite(db, op); (db.(tracks := w.table), w.outcome)
      case _ =>
        var w := AlbumWrite(db, op); (db.(albums := w.table), w.outcome)
  }

  /** A service that keeps going after a failed statement. */
  function Run(db: Db, ops: seq<Op>): Db {
    if ops == [] then db else Step(Run(db, ops[..|ops| - 1]), ops[|ops| - 1]).0
  }

  // ── what every run keeps ──

  ghost predicate UniqueSpotifyIds<D(!new)>(t: Table<D>) {
    forall m, n :: m in t && n in t && t[m].spotifyId.Some? && t[m].spotifyId == t[n].spotifyId ==> m == n
  }

  ghost predicate LinksResolve(db: Db) {
    && (forall m :: m in db.albums ==> LinkOk(db.albums[m].data.artist, db.artists.Keys))
    && (forall m :: m in db.tracks ==> LinkOk(db.tracks[m].data.album, db.albums.Keys))
    && (forall m :: m in db.tracks ==> LinkOk(db.tracks[m].data.artist, db.artists.Keys))
  }

  ghost predicate LinkOk(link: Option<string>, keys: set<string>) {
    link.Some? ==> link.value in keys
  }

  ghost predicate Valid(db: Db) {
    && UniqueSpotifyIds(db.artists) && UniqueSpotifyIds(db.albums) && UniqueSpotifyIds(db.tracks)
    && LinksResolve(db)
  }

  ghost function Owners<D>(t: Table<D>, spotifyId: string): set<string> {
    set m | m in t && t[m].spotifyId == Some(spotifyId)
  }

  /** With spotify ids unique before, the pre-update makes the insert free of
      collisions, keeps ids unique, drops no row, adds at most the row mbid, and
      that row exists afterwards unless another row owned the spotify id. */
  lemma UpsertNeverCollides<D(!new)>(t: Table<D>, mbid: string, spotifyId: string, initial: D, pre: D -> D,
                                     merge: D -> D)
    requires UniqueSpotifyIds(t)
    ensures var w := Upsert(t, mbid, spotifyId, initial, pre, merge);
      && w.outcome == Done
      && UniqueSpotifyIds(w.table)
      && t.Keys <= w.table.Keys <= t.Keys + {mbid}
      && (mbid in w.table <==> mbid in t || spotifyId == "" || OtherOwners(t, mbid, spotifyId) == {})
  {
    var w := Upsert(t, mbid, spotifyId, initial, pre, merge);
    if spotifyId == "" || OtherOwners(t, mbid, spotifyId) == {} {
      if mbid in t && t[mbid].spotifyId.Some? {
        assert OtherOwners(t, mbid, t[mbid].spotifyId.value) == {};
      }
      var row := w.table[mbid];
      forall m | m in t && m != mbid && row.spotifyId.Some?
        ensures t[m].spotifyId != row.spotifyId
      {
        assert m in OtherOwners(t, mbid, row.spotifyId.value) <==> t[m].spotifyId == row.spotifyId;
      }
    }
  }

  /** Whatever holds of every row, of the inserted values and through both column
      assignments holds of every row afterwards. */
  lemma UpsertKeepsRows<D(!new)>(t: Table<D>, mbid: string, spotifyId: string, initial: D, pre: D -> D, merge: D -> D,
                                 p: D -> bool)
    requires forall m :: m in t ==> p(t[m].data)
    requires p(initial) && forall d :: p(d) ==> p(pre(d)) && p(merge(d))
    ensures var t' := Upsert(t, mbid, spotifyId, initial, pre, merge).table;
      forall m :: m in t' ==> p(t'[m].data)
  {
  }

  /** The value the single owner of a spotify id ends up with. */
  ghost predicate SoleOwner<D>(t: Table<D>, spotifyId: string, m: string, value: D) {
    Owners(t, spotifyId) == {m} && m in t && t[m].data == value
  }

  /** A non-empty spotify id has exactly one owner afterwards: the row that held
      it under another mbid, updated in place, or else the row mbid itself. */
  lemma UpsertLeavesOneOwner<D(!new)>(t: Table<D>, mbid: string, spotifyId: string, initial: D, pre: D -> D,
                                      merge: D -> D)
    returns (owner: string)
    requires UniqueSpotifyIds(t) && spotifyId != ""
    ensures if OtherOwners(t, mbid, spotifyId) == {} then owner == mbid else OtherOwners(t, mbid, spotifyId) == {owner}
    ensures SoleOwner(Upsert(t, mbid, spotifyId, initial, pre, merge).table, spotifyId, owner,
                      if owner !in t then initial
                      else if owner == mbid then merge(t[owner].data) else pre(t[owner].data))
  {
    var others := OtherOwners(t, mbid, spotifyId);
    if others == {} {
      owner := mbid;
      UpsertNeverCollides(t, mbid, spotifyId, initial, pre, merge);
      assert Owners(Upsert(t, mbid, spotifyId, initial, pre, merge).table, spotifyId) == {mbid};
    } else {
      owner :| owner in others;
      assert Owners(Upsert(t, mbid, spotifyId, initial, pre, merge).table, spotifyId) == {owner};
    }
  }

  lemma AlbumWriteKeepsValid(db: Db, op: Op)
    requires Valid(db) && ForeignKeysMet(db, op)
    requires op.UpsertAlbumPlaceholder? || op.UpsertAlbum? || op.UpsertDiscovered?
    ensures var w := AlbumWrite(db, op);
      w.outcome == Done && Valid(db.(albums := w.table)) && db.albums.Keys <= w.table.Keys <= db.albums.Keys + {op.mbid}
  {
    var artist := NullIfEmpty(op.artist);
    var ok := (d: AlbumData) => d.artist.Some? ==> d.artist.value in db.artists;
    match op
    case UpsertAlbumPlaceholder(mbid, sp, title, _) =>
      var first, change := AlbumData(artist, title, None, "Album", None), PlaceholderChange(title, artist);
      UpsertNeverCollides(db.albums, mbid, sp, first, change, change);
      UpsertKeepsRows(db.albums, mbid, sp, first, change, change, ok);
    case UpsertAlbum(mbid, sp, title, _, date, kind, count) =>
      var d, c := NullIfEmpty(date), ZeroAsNull(count);
      var first := AlbumData(artist, title, d, kind, c);
      var pre, merge := AlbumPreChange(title, artist, d, kind, c), AlbumMergeChange(title, artist, d, kind, c);
      UpsertNeverCollides(db.albums, mbid, sp, first, pre, merge);
      UpsertKeepsRows(db.albums, mbid, sp, first, pre, merge, ok);
    case UpsertDiscovered(mbid, _, title, kind, date) =>
      var d, k := NullIfEmpty(date), KindOr(kind);
      var first, change := AlbumData(artist, title, d, k, None), AlbumPreChange(title, artist, d, k, None);
      UpsertNeverCollides(db.albums, mbid, "", first, change, change);
      UpsertKeepsRows(db.albums, mbid, "", first, change, change, ok);
  }

  lemma TrackWriteKeepsValid(db: Db, op: Op)
    requires Valid(db) && op.UpsertTrack? && ForeignKeysMet(db, op)
    ensures var w := TrackWrite(db, op);
      w.outcome == Done && Valid(db.(tracks := w.table)) && db.tracks.Keys <= w.table.Keys <= db.tracks.Keys + {op.mbid}
  {
    var album, artist, dur := NullIfEmpty(op.album), NullIfEmpty(op.artist), DurationColumn(op.durationMs);
    var first, change := TrackData(album, artist, op.title, dur), TrackChange(op.title, album, artist, dur);
    UpsertNeverCollides(db.tracks, op.mbid, op.spotifyId, first, change, change);
    UpsertKeepsRows(db.tracks, op.mbid, op.spotifyId, first, change, change,
                    (d: TrackData) => d.album.Some? ==> d.album.value in db.albums);
    UpsertKeepsRows(db.tracks, op.mbid, op.spotifyId, first, change, change,
                    (d: TrackData) => d.artist.Some? ==> d.artist.value in db.artists);
  }

  /** One upsert on a consistent catalogue never hits the UNIQUE constraint, fails
      exactly when a parent it names is missing, keeps the catalogue consistent,
      drops no row and adds at most the row it names. */
  lemma StepKeepsValid(db: Db, op: Op)
    requires Valid(db)
    ensures var (db', r) := Step(db, op);
      && Valid(db')
      && r == (if ForeignKeysMet(db, op) then Done else ForeignKeyViolation)
      && db.artists.Keys <= db'.artists.Keys <= db.artists.Keys + {op.mbid}
      && db.albums.Keys <= db'.albums.Keys <= db.albums.Keys + {op.mbid}
      && db.tracks.Keys <= db'.tracks.Keys <= db.tracks.Keys + {op.mbid}
  {
    if ForeignKeysMet(db, op) {
      match op
      case UpsertArtist(mbid, sp, name) =>
        UpsertNeverCollides(db.artists, mbid, sp, ArtistData(name), ArtistChange(name), ArtistChange(name));
      case UpsertTrack(_, _, _, _, _, _) => TrackWriteKeepsValid(db, op);
      case _ => AlbumWriteKeepsValid(db, op);
    }
  }

  /** Rows in all three tables. */
  function Size(db: Db): nat {
    |db.artists| + |db.albums| + |db.tracks|
  }

  lemma GrowsByOne<D>(t: Table<D>, t': Table<D>, mbid: string)
    requires t'.Keys <= t.Keys + {mbid}
    ensures |t'| <= |t| + 1
  {
    SubsetSize(t'.Keys, t.Keys + {mbid});
    assert |t'| == |t'.Keys| && |t| == |t.Keys|;
  }

  lemma StepGrowsByOne(db: Db, op: Op)
    requires Valid(db)
    ensures Size(Step(db, op).0) <= Size(db) + 1
  {
    StepKeepsValid(db, op);
    var db' := Step(db, op).0;
    match op
    case UpsertArtist(_, _, _) => GrowsByOne(db.artists, db'.artists, op.mbid);
    case UpsertTrack(_, _, _, _, _, _) => GrowsByOne(db.tracks, db'.tracks, op.mbid);
    case _ => GrowsByOne(db.albums, db'.albums, op.mbid);
  }

  /** Outcome of the i-th statement of a run. */
  function OutcomeAt(db: Db, ops: seq<Op>, i: nat): Outcome
    requires i < |ops|
  {
    Step(Run(db, ops[..i]), ops[i]).1
  }

  /** Over any run the catalogue stays consistent and grows by at most one row
      per upsert, each upsert fails exactly when a parent it names is missing at
      that moment, and none hits the UNIQUE constraint. */
  lemma {:induction false} RunKeepsValid(db: Db, ops: seq<Op>)
    requires Valid(db)
    ensures Valid(Run(db, ops)) && Size(Run(db, ops)) <= Size(db) + |ops|
    ensures forall i: nat :: i < |ops| ==>
              OutcomeAt(db, ops, i) == if ForeignKeysMet(Run(db, ops[..i]), ops[i]) then Done else ForeignKeyViolation
    ensures db.artists.Keys <= Run(db, ops).artists.Keys
    ensures db.albums.Keys <= Run(db, ops).albums.Keys
    ensures db.tracks.Keys <= Run(db, ops).tracks.Keys
  {
    if ops != [] {
      var front, last := ops[..|ops| - 1], ops[|ops| - 1];
      RunKeepsValid(db, front);
      StepKeepsValid(Run(db, front), last);
      StepGrowsByOne(Run(db, front), last);
      forall i: nat | i < |ops|
        ensures OutcomeAt(db, ops, i) == if ForeignKeysMet(Run(db, ops[..i]), ops[i]) then Done else ForeignKeyViolation
      {
        if i < |front| {
          assert ops[..i] == front[..i];
          assert OutcomeAt(db, front, i) == OutcomeAt(db, ops, i);
        } else {
          assert ops[..i] == front;
        }
      }
    }
  }

  // ── links are NULL or name a parent ──

  function EmptyDb(): Db {
    Db(map[], map[], map[])
  }

  ghost predicate LinkNamed(link: Option<string>) {
    link != Some("")
  }

  /** No parent link is the empty string. */
  ghost predicate LinksNamed(db: Db) {
    && (forall m :: m in db.albums ==> LinkNamed(db.albums[m].data.artist))
    && (forall m :: m in db.tracks ==> LinkNamed(db.tracks[m].data.album) && LinkNamed(db.tracks[m].data.artist))
  }

  lemma StepKeepsLinksNamed(db: Db, op: Op)
    requires LinksNamed(db)
    ensures LinksNamed(Step(db, op).0)
  {
    if ForeignKeysMet(db, op) && !op.UpsertArtist? {
      if op.UpsertTrack? {
        var w := TrackWrite(db, op);
        forall m | m in w.table
          ensures LinkNamed(w.table[m].data.album) && LinkNamed(w.table[m].data.artist)
        {
        }
      } else {
        var w := AlbumWrite(db, op);
        forall m | m in w.table
          ensures LinkNamed(w.table[m].data.artist)
        {
        }
      }
    }
  }

  /** Every upsert passes "" as NULL, so no catalogue written by them holds an
      empty-string parent link. */
  lemma {:induction false} ReachedLinksNamed(ops: seq<Op>)
    ensures LinksNamed(Run(EmptyDb(), ops)) && Valid(Run(EmptyDb(), ops))
  {
    if ops == [] {
      assert Run(EmptyDb(), ops) == EmptyDb();
    } else {
      ReachedLinksNamed(ops[..|ops| - 1]);
      StepKeepsLinksNamed(Run(EmptyDb(), ops[..|ops| - 1]), ops[|ops| - 1]);
      StepKeepsValid(Run(EmptyDb(), ops[..|ops| - 1]), ops[|ops| - 1]);
    }
  }

  // ── what is never lost ──

  ghost predicate StaysSet<T>(before: Option<T>, after: Option<T>) {
    before.Some? ==> after.Some?
  }

  ghost predicate AlbumKeeps(a: AlbumData, b: AlbumData) {
    StaysSet(a.artist, b.artist) && StaysSet(a.trackCount, b.trackCount)
  }

  ghost predicate TrackKeeps(a: TrackData, b: TrackData) {
    StaysSet(a.album, b.album) && StaysSet(a.artist, b.artist) && StaysSet(a.durationSec, b.durationSec)
  }

  ghost predicate TableKeeps<D>(t: Table<D>, t': Table<D>, keeps: (D, D) -> bool) {
    forall m :: m in t ==> m in t' && StaysSet(t[m].spotifyId, t'[m].spotifyId) && keeps(t[m].data, t'[m].data)
  }

  /** No row goes, and no spotify id, parent link, duration or track count that is
      set in a is NULL in b. */
  ghost predicate NothingCleared(a: Db, b: Db) {
    && TableKeeps(a.artists, b.artists, (x, y) => true)
    && TableKeeps(a.albums, b.albums, AlbumKeeps)
    && TableKeeps(a.tracks, b.tracks, TrackKeeps)
  }

  lemma UpsertTableKeeps<D>(t: Table<D>, mbid: string, spotifyId: string, initial: D, pre: D -> D, merge: D -> D,
                            keeps: (D, D) -> bool)
    requires forall m :: m in t ==>
              keeps(t[m].data, t[m].data) && keeps(t[m].data, pre(t[m].data)) && keeps(t[m].data, merge(t[m].data))
    ensures TableKeeps(t, Upsert(t, mbid, spotifyId, initial, pre, merge).table, keeps)
  {
  }

  lemma StepClearsNothing(db: Db, op: Op)
    ensures NothingCleared(db, Step(db, op).0)
  {
    if ForeignKeysMet(db, op) {
      match op
      case UpsertArtist(mbid, sp, name) =>
        UpsertTableKeeps(db.artists, mbid, sp, ArtistData(name), ArtistChange(name), ArtistChange(name),
                         (x, y) => true);
      case UpsertTrack(mbid, sp, title, ms, al, ar) =>
        var album, artist, dur := NullIfEmpty(al), NullIfEmpty(ar), DurationColumn(ms);
        UpsertTableKeeps(db.tracks, mbid, sp, TrackData(album, artist, title, dur),
                         TrackChange(title, album, artist, dur), TrackChange(title, album, artist, dur), TrackKeeps);
      case UpsertAlbumPlaceholder(mbid, sp, title, a) =>
        var artist := NullIfEmpty(a);
        UpsertTableKeeps(db.albums, mbid, sp, AlbumData(artist, title, None, "Album", None),
                         PlaceholderChange(title, artist), PlaceholderChange(title, artist), AlbumKeeps);
      case UpsertAlbum(mbid, sp, title, a, date, kind, count) =>
        var artist, d, c := NullIfEmpty(a), NullIfEmpty(date), ZeroAsNull(count);
        UpsertTableKeeps(db.albums, mbid, sp, AlbumData(artist, title, d, kind, c),
                         AlbumPreChange(title, artist, d, kind, c), AlbumMergeChange(title, artist, d, kind, c),
                         AlbumKeeps);
      case UpsertDiscovered(mbid, a, title, kind, date) =>
        var artist, d, k := NullIfEmpty(a), NullIfEmpty(date), KindOr(kind);
        UpsertTableKeeps(db.albums, mbid, "", AlbumData(artist, title, d, k, None),
                         AlbumPreChange(title, artist, d, k, None), AlbumPreChange(title, artist, d, k, None),
                         AlbumKeeps);
    }
  }

  /** Links written through COALESCE survive every run of upserts. */
  lemma {:induction false} RunClearsNothing(db: Db, ops: seq<Op>)
    ensures NothingCleared(db, Run(db, ops))
  {
    if ops != [] {
      var front := ops[..|ops| - 1];
      RunClearsNothing(db, front);
      StepClearsNothing(Run(db, front), ops[|ops| - 1]);
    }
  }

  /** What an upsert does to a row that was there. */
  lemma RowAfterUpsert<D(!new)>(t: Table<D>, mbid: string, spotifyId: string, initial: D, pre: D -> D, merge: D -> D,
                                m: string)
    requires UniqueSpotifyIds(t) && m in t
    ensures var t', others := Upsert(t, mbid, spotifyId, initial, pre, merge).table, OtherOwners(t, mbid, spotifyId);
      && m in t'
      && t'[m].data == if spotifyId != "" && others != {} then (if m in others then pre(t[m].data) else t[m].data)
                       else if m == mbid then merge(t[m].data) else t[m].data
  {
    UpsertNeverCollides(t, mbid, spotifyId, initial, pre, merge);
  }

  /** The exception: release_date. It is lost by the library's album upsert exactly
      when the conflict branch runs on a dated row with no new date. */
  lemma ReleaseDateLostIff(db: Db, op: Op, m: string)
    requires Valid(db) && op.UpsertAlbum? && ForeignKeysMet(db, op)
    requires m in db.albums && db.albums[m].data.releaseDate.Some?
    ensures m in Step(db, op).0.albums
    ensures Step(db, op).0.albums[m].data.releaseDate.None? <==>
            && m == op.mbid && op.releaseDate == ""
            && (op.spotifyId == "" || OtherOwners(db.albums, m, op.spotifyId) == {})
  {
    var artist, date, count := NullIfEmpty(op.artist), NullIfEmpty(op.releaseDate), ZeroAsNull(op.trackCount);
    RowAfterUpsert(db.albums, op.mbid, op.spotifyId, AlbumData(artist, op.title, date, op.kind, count),
                AlbumPreChange(op.title, artist, date, op.kind, count),
                AlbumMergeChange(op.title, artist, date, op.kind, count), m);
    assert Step(db, op).0.albums == AlbumWrite(db, op).table;
  }

  // ── what the written row shows ──

  /** The row an upsert writes: the one that held the spotify id under another mbid, else row mbid. */
  ghost predicate Target<D(!new)>(t: Table<D>, mbid: string, spotifyId: string, m: string) {
    if spotifyId != "" && OtherOwners(t, mbid, spotifyId) != {} then m in OtherOwners(t, mbid, spotifyId) else m == mbid
  }

  /** Row m of t' against row m of t: one row is written, its spotify id is the given one
      or, where none is given, its former one. */
  ghost predicate WroteRow<D(!new)>(t: Table<D>, t': Table<D>, spotifyId: string, m: string) {
    && m in t' && t'.Keys == t.Keys + {m}
    && (forall n :: n in t && n != m ==> t'[n] == t[n])
    && t'[m].spotifyId == (if spotifyId != "" then Some(spotifyId) else if m in t then t[m].spotifyId else None)
  }

  lemma UpsertWritesRow<D(!new)>(t: Table<D>, mbid: string, spotifyId: string, initial: D, pre: D -> D, merge: D -> D,
                                 m: string)
    requires UniqueSpotifyIds(t) && Target(t, mbid, spotifyId, m)
    ensures var t' := Upsert(t, mbid, spotifyId, initial, pre, merge).table;
      && WroteRow(t, t', spotifyId, m)
      && t'[m].data == if m !in t then initial else if m == mbid then merge(t[m].data) else pre(t[m].data)
  {
    UpsertNeverCollides(t, mbid, spotifyId, initial, pre, merge);
  }

  /** A text column: the text given, else what the row showed before. */
  function Shown(given: string, before: Option<string>): Option<string> {
    if given != "" then Some(given) else before
  }

  ghost predicate IsAlbumOp(op: Op) {
    op.UpsertAlbumPlaceholder? || op.UpsertAlbum? || op.UpsertDiscovered?
  }

  function SpotifyIdOf(op: Op): string {
    if op.UpsertDiscovered? then "" else op.spotifyId
  }

  /** Every album upsert stores the title and any artist link it is given, and keeps the
      link it is not given; likewise date and track count where it writes them, except
      that the library's conflict branch drops a date it is not given. */
  lemma AlbumRowShows(db: Db, op: Op, m: string)
    requires Valid(db) && IsAlbumOp(op) && ForeignKeysMet(db, op) && Target(db.albums, op.mbid, SpotifyIdOf(op), m)
    ensures var t' := Step(db, op).0.albums;
      var before := if m in db.albums then Some(db.albums[m].data) else None;
      && WroteRow(db.albums, t', SpotifyIdOf(op), m)
      && t'[m].data.title == op.title
      && t'[m].data.artist == Shown(op.artist, if before.Some? then before.value.artist else None)
      && t'[m].data.kind == (match op
                             case UpsertAlbumPlaceholder(_, _, _, _) =>
                               if before.Some? then before.value.kind else "Album"
                             case UpsertAlbum(_, _, _, _, _, kind, _) => kind
                             case UpsertDiscovered(_, _, _, kind, _) => if kind != "" then kind else "Album")
      && t'[m].data.releaseDate ==
           (var former := if before.Some? then before.value.releaseDate else None;
            match op
            case UpsertAlbumPlaceholder(_, _, _, _) => former
            case UpsertAlbum(_, _, _, _, date, _, _) => Shown(date, if m == op.mbid then None else former)
            case UpsertDiscovered(_, _, _, _, date) => Shown(date, former))
      && t'[m].data.trackCount == (if op.UpsertAlbum? && op.trackCount != 0 then Some(op.trackCount)
                                   else if before.Some? then before.value.trackCount else None)
  {
    var artist := NullIfEmpty(op.artist);
    match op
    case UpsertAlbumPlaceholder(mbid, sp, title, _) =>
      var change := PlaceholderChange(title, artist);
      UpsertWritesRow(db.albums, mbid, sp, AlbumData(artist, title, None, "Album", None), change, change, m);
    case UpsertAlbum(mbid, sp, title, _, date, kind, count) =>
      var d, c := NullIfEmpty(date), ZeroAsNull(count);
      UpsertWritesRow(db.albums, mbid, sp, AlbumData(artist, title, d, kind, c),
                      AlbumPreChange(title, artist, d, kind, c), AlbumMergeChange(title, artist, d, kind, c), m);
    case UpsertDiscovered(mbid, _, title, kind, date) =>
      var d, k := NullIfEmpty(date), KindOr(kind);
      var change := AlbumPreChange(title, artist, d, k, None);
      UpsertWritesRow(db.albums, mbid, "", AlbumData(artist, title, d, k, None), change, change, m);
  }

  /** A track upsert stores the title, the links and the positive length it is given, in
      whole seconds, and keeps what it is not given. */
  lemma TrackRowShows(db: Db, op: Op, m: string)
    requires Valid(db) && op.UpsertTrack? && ForeignKeysMet(db, op) && Target(db.tracks, op.mbid, op.spotifyId, m)
    ensures var t' := Step(db, op).0.tracks;
      var before := if m in db.tracks then Some(db.tracks[m].data) else None;
      && WroteRow(db.tracks, t', op.spotifyId, m)
      && t'[m].data.title == op.title
      && t'[m].data.album == Shown(op.album, if before.Some? then before.value.album else None)
      && t'[m].data.artist == Shown(op.artist, if before.Some? then before.value.artist else None)
      && t'[m].data.durationSec == (if op.durationMs > 0 then Some(op.durationMs / 1000)
                                    else if before.Some? then before.value.durationSec else None)
  {
    var album, artist, dur := NullIfEmpty(op.album), NullIfEmpty(op.artist), DurationColumn(op.durationMs);
    var change := TrackChange(op.title, album, artist, dur);
    UpsertWritesRow(db.tracks, op.mbid, op.spotifyId, TrackData(album, artist, op.title, dur), change, change, m);
  }

  lemma ArtistRowShows(db: Db, op: Op, m: string)
    requires Valid(db) && op.UpsertArtist? && Target(db.artists, op.mbid, op.spotifyId, m)
    ensures var t' := Step(db, op).0.artists;
      WroteRow(db.artists, t', op.spotifyId, m) && t'[m].data.name == op.name
  {
    var change := ArtistChange(op.name);
    UpsertWritesRow(db.artists, op.mbid, op.spotifyId, ArtistData(op.name), change, change, m);
  }

  lemma TargetExists<D(!new)>(t: Table<D>, mbid: string, spotifyId: string) returns (m: string)
    ensures Target(t, mbid, spotifyId, m)
  {
    if spotifyId != "" && OtherOwners(t, mbid, spotifyId) != {} {
      m :| m in OtherOwners(t, mbid, spotifyId);
    } else {
      m := mbid;
    }
  }

  /** An upsert touches the table it names and no other. */
  lemma OtherTablesStay(db: Db, op: Op)
    ensures var db' := Step(db, op).0;
      && (!op.UpsertArtist? ==> db'.artists == db.artists)
      && (!op.UpsertTrack? ==> db'.tracks == db.tracks)
      && (!IsAlbumOp(op) ==> db'.albums == db.albums)
  {
  }

  // ── who carries the spotify id ──

  /** One row of the table owns the spotify id and shows the name or title of op. */
  ghost predicate OwnerShows(db: Db, op: Op, owner: string)
    requires !op.UpsertDiscovered?
  {
    match op
    case UpsertArtist(_, sp, name) =>
      Owners(db.artists, sp) == {owner} && owner in db.artists && db.artists[owner].data.name == name
    case UpsertTrack(_, sp, title, _, _, _) =>
      Owners(db.tracks, sp) == {owner} && owner in db.tracks && db.tracks[owner].data.title == title
    case UpsertAlbumPlaceholder(_, sp, title, _) =>
      Owners(db.albums, sp) == {owner} && owner in db.albums && db.albums[owner].data.title == title
    case UpsertAlbum(_, sp, title, _, _, _, _) =>
      Owners(db.albums, sp) == {owner} && owner in db.albums && db.albums[owner].data.title == title
  }

  /** The rows that held the operation's spotify id under another mbid. */
  ghost function Holders(db: Db, op: Op): set<string>
    requires !op.UpsertDiscovered?
  {
    match op
    case UpsertArtist(mbid, sp, _) => OtherOwners(db.artists, mbid, sp)
    case UpsertTrack(mbid, sp, _, _, _, _) => OtherOwners(db.tracks, mbid, sp)
    case _ => OtherOwners(db.albums, op.mbid, op.spotifyId)
  }

  /** After a successful upsert with a spotify id, one row owns the id and shows
      the name or title just written; it is the row of the given mbid unless
      another row already held the id. */
  lemma OwnerShowsNewTitle(db: Db, op: Op) returns (owner: string)
    requires Valid(db) && ForeignKeysMet(db, op) && !op.UpsertDiscovered? && op.spotifyId != ""
    ensures OwnerShows(Step(db, op).0, op, owner)
    ensures if Holders(db, op) == {} then owner == op.mbid else Holders(db, op) == {owner}
  {
    match op
    case UpsertArtist(mbid, sp, name) =>
      owner := UpsertLeavesOneOwner(db.artists, mbid, sp, ArtistData(name), ArtistChange(name), ArtistChange(name));
    case UpsertTrack(mbid, sp, title, ms, al, ar) =>
      var album, artist, dur := NullIfEmpty(al), NullIfEmpty(ar), DurationColumn(ms);
      owner := UpsertLeavesOneOwner(db.tracks, mbid, sp, TrackData(album, artist, title, dur),
                                    TrackChange(title, album, artist, dur), TrackChange(title, album, artist, dur));
    case UpsertAlbumPlaceholder(mbid, sp, title, a) =>
      var artist := NullIfEmpty(a);
      owner := UpsertLeavesOneOwner(db.albums, mbid, sp, AlbumData(artist, title, None, "Album", None),
                                    PlaceholderChange(title, artist), PlaceholderChange(title, artist));
    case UpsertAlbum(mbid, sp, title, a, date, kind, count) =>
      var artist, d, c := NullIfEmpty(a), NullIfEmpty(date), ZeroAsNull(count);
      owner := UpsertLeavesOneOwner(db.albums, mbid, sp, AlbumData(artist, title, d, kind, c),
                                    AlbumPreChange(title, artist, d, kind, c),
                                    AlbumMergeChange(title, artist, d, kind, c));
  }

  /** The row mbid is absent and an upsert will not add it: another row holds the spotify id. */
  ghost predicate Displaced<D>(t: Table<D>, mbid: string, spotifyId: string) {
    mbid !in t && spotifyId != "" && OtherOwners(t, mbid, spotifyId) != {}
  }

  ghost predicate HasOwner<D>(t: Table<D>, spotifyId: string) {
    exists m :: m in t && t[m].spotifyId == Some(spotifyId)
  }

  lemma OwnedIsDisplaced<D>(t: Table<D>, mbid: string, spotifyId: string)
    requires HasOwner(t, spotifyId) && spotifyId != ""
    ensures Displaced(t, mbid, spotifyId) <==> mbid !in t
  {
    var m :| m in t && t[m].spotifyId == Some(spotifyId);
    assert mbid !in t ==> m in OtherOwners(t, mbid, spotifyId);
  }

  /** The pre-update path creates no row for the mbid passed in, so a write that
      links to that mbid next fails: exactly when the artist mbid is unknown and
      its spotify id already sits on another row. */
  lemma LinkAfterArtistUpsert(db: Db, artist: Op, child: Op)
    requires Valid(db) && artist.UpsertArtist? && artist.mbid != ""
    requires child.UpsertAlbumPlaceholder? || child.UpsertAlbum? || child.UpsertDiscovered?
    requires child.artist == artist.mbid
    ensures Step(Step(db, artist).0, child).1 == ForeignKeyViolation <==>
            Displaced(db.artists, artist.mbid, artist.spotifyId)
  {
    StepKeepsValid(db, artist);
    UpsertNeverCollides(db.artists, artist.mbid, artist.spotifyId, ArtistData(artist.name), ArtistChange(artist.name),
                        ArtistChange(artist.name));
    StepKeepsValid(Step(db, artist).0, child);
  }

  // ── the services' methods, statement by statement ──

  class Store {
    var db: Db

    constructor (db: Db)
      ensures this.db == db
    {
      this.db := db;
    }

    method UpsertArtist(mbid: string, spotifyId: string, name: string) returns (r: Outcome)
      modifies this
      ensures (db, r) == Step(old(db), Op.UpsertArtist(mbid, spotifyId, name))
    {
      if spotifyId != "" {
        var hit := OtherOwners(db.artists, mbid, spotifyId);
        db := db.(artists := UpdateRows(db.artists, hit, ArtistChange(name)));
        if |hit| > 0 {
          return Done;
        }
        assert UpdateRows(old(db).artists, {}, ArtistChange(name)) == old(db).artists;
      }
      var w := InsertOnConflict(db.artists, mbid, NullIfEmpty(spotifyId), ArtistData(name), ArtistChange(name));
      db, r := db.(artists := w.table), w.outcome;
    }

    method UpsertAlbumPlaceholder(mbid: string, spotifyId: string, title: string, artist: string) returns (r: Outcome)
      modifies this
      ensures (db, r) == Step(old(db), Op.UpsertAlbumPlaceholder(mbid, spotifyId, title, artist))
    {
      var link := NullIfEmpty(artist);
      var broken := artist != "" && artist !in db.artists;
      if spotifyId != "" {
        var hit := OtherOwners(db.albums, mbid, spotifyId);
        if |hit| > 0 && broken {
          return ForeignKeyViolation;
        }
        db := db.(albums := UpdateRows(db.albums, hit, PlaceholderChange(title, link)));
        if |hit| > 0 {
          return Done;
        }
        assert UpdateRows(old(db).albums, {}, PlaceholderChange(title, link)) == old(db).albums;
      }
      if broken {
        return ForeignKeyViolation;
      }
      var w := InsertOnConflict(db.albums, mbid, NullIfEmpty(spotifyId),
                                AlbumData(link, title, None, "Album", None), PlaceholderChange(title, link));
      db, r := db.(albums := w.table), w.outcome;
    }

    /** The library's upsertAlbum, which writes every album column. */
    method UpsertAlbum(mbid: string, spotifyId: string, title: string, artist: string, releaseDate: string,
                       kind: string, trackCount: int) returns (r: Outcome)
      modifies this
      ensures (db, r) == Step(old(db), Op.UpsertAlbum(mbid, spotifyId, title, artist, releaseDate, kind, trackCount))
    {
      var link, date, count := NullIfEmpty(artist), NullIfEmpty(releaseDate), ZeroAsNull(trackCount);
      var pre := AlbumPreChange(title, link, date, kind, count);
      var broken := artist != "" && artist !in db.artists;
      if spotifyId != "" {
        var hit := OtherOwners(db.albums, mbid, spotifyId);
        if |hit| > 0 && broken {
          return ForeignKeyViolation;
        }
        db := db.(albums := UpdateRows(db.albums, hit, pre));
        if |hit| > 0 {
          return Done;
        }
        assert UpdateRows(old(db).albums, {}, pre) == old(db).albums;
      }
      if broken {
        return ForeignKeyViolation;
      }
      var w := InsertOnConflict(db.albums, mbid, NullIfEmpty(spotifyId), AlbumData(link, title, date, kind, count),
                                AlbumMergeChange(title, link, date, kind, count));
      db, r := db.(albums := w.table), w.outcome;
    }

    method UpsertTrack(mbid: string, spotifyId: string, title: string, durationMs: int, album: string, artist: string)
      returns (r: Outcome)
      modifies this
      ensures (db, r) == Step(old(db), Op.UpsertTrack(mbid, spotifyId, title, durationMs, album, artist))
    {
      var al, ar, duration := NullIfEmpty(album), NullIfEmpty(artist), DurationColumn(durationMs);
      var broken := (album != "" && album !in db.albums) || (artist != "" && artist !in db.artists);
      if spotifyId != "" {
        var hit := OtherOwners(db.tracks, mbid, spotifyId);
        if |hit| > 0 && broken {
          return ForeignKeyViolation;
        }
        db := db.(tracks := UpdateRows(db.tracks, hit, TrackChange(title, al, ar, duration)));
        if |hit| > 0 {
          return Done;
        }
        assert UpdateRows(old(db).tracks, {}, TrackChange(title, al, ar, duration)) == old(db).tracks;
      }
      if broken {
        return ForeignKeyViolation;
      }
      var w := InsertOnConflict(db.tracks, mbid, NullIfEmpty(spotifyId), TrackData(al, ar, title, duration),
                                TrackChange(title, al, ar, duration));
      db, r := db.(tracks := w.table), w.outcome;
    }
  }
}
