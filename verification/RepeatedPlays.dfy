/**
 The poller behind the resolver cache: a track played again within the cache's TTL
 comes back without its artist and album ids (resolver.go:204-227), so its play is
 linked to the placeholder rows sp:<artist id> and sp:<album id> (listening.go:254-266).
 */
module RepeatedPlays {
  import opened Basics
  import opened Listening
  import Catalogue
  import ResolverCache

  /** What ingestPlay makes of a ResolveTrack answer. */
  function ResolutionOf(a: ResolverCache.Answer): Resolution {
    match a
    case Mapped(r) => Resolved(r.mbid, r.artistMbid, r.artistName, r.releaseGroup)
    case ErrUnresolved => Unresolved
    case ErrUpstream => ResolverFailed
  }

  /** A call served from the cache never tells the artist or the album. */
  lemma ServedWithoutParents(cfg: ResolverCache.Config, cache: ResolverCache.Cache, c: ResolverCache.Call)
    requires ResolverCache.Served(cfg, cache, c)
    ensures var r := ResolutionOf(ResolverCache.Resolved(cfg, cache, c).1);
      r == Unresolved || (r.Resolved? && r == Listening.Resolved(r.mbid, "", "", ""))
  {
  }

  function PlaceholderArtist(p: RecentPlay): string {
    "sp:" + p.artistId
  }

  function PlaceholderAlbum(p: RecentPlay): string {
    "sp:" + p.albumId
  }

  lemma OwnerStays<D(!new)>(t: Catalogue.Table<D>, mbid: string, spotifyId: string, initial: D, pre: D -> D,
                            merge: D -> D)
    requires Catalogue.UniqueSpotifyIds(t) && spotifyId != ""
    ensures Catalogue.HasOwner(Catalogue.Upsert(t, mbid, spotifyId, initial, pre, merge).table, spotifyId)
  {
    var owner := Catalogue.UpsertLeavesOneOwner(t, mbid, spotifyId, initial, pre, merge);
    assert owner in Catalogue.Owners(Catalogue.Upsert(t, mbid, spotifyId, initial, pre, merge).table, spotifyId);
  }

  /** After a successful ingest both Spotify ids of the play's parents have owners and
      the track has its row. */
  lemma IngestedHasOwners(s: State, p: RecentPlay, r: Resolution)
    requires Catalogue.Valid(s.db) && r.Resolved? && r.mbid != "" && KeyOf(p) !in s.history
    requires p.artistId != "" && p.albumId != "" && FirstNonEmpty(r.artistName, p.artistName) != ""
    requires !Ingest(s, p, r).1.Failed?
    ensures var db := Ingest(s, p, r).0.db;
      && Catalogue.Valid(db) && r.mbid in db.tracks
      && Catalogue.HasOwner(db.artists, p.artistId) && Catalogue.HasOwner(db.albums, p.albumId)
  {
    var name, a, b := FirstNonEmpty(r.artistName, p.artistName), ArtistMbid(p, r), AlbumMbid(p, r);
    var op1 := Catalogue.UpsertArtist(a, p.artistId, name);
    var db1 := Catalogue.Step(s.db, op1).0;
    Catalogue.StepKeepsValid(s.db, op1);
    OwnerStays(s.db.artists, a, p.artistId, Catalogue.ArtistData(name), Catalogue.ArtistChange(name),
               Catalogue.ArtistChange(name));
    var op2 := Catalogue.UpsertAlbumPlaceholder(b, p.albumId, p.albumName, a);
    var db2 := Catalogue.Step(db1, op2).0;
    Catalogue.StepKeepsValid(db1, op2);
    var link := NullIfEmpty(a);
    OwnerStays(db1.albums, b, p.albumId, Catalogue.AlbumData(link, p.albumName, None, "Album", None),
               Catalogue.PlaceholderChange(p.albumName, link), Catalogue.PlaceholderChange(p.albumName, link));
    var op3 := Catalogue.UpsertTrack(r.mbid, p.spotifyId, p.name, p.durationMs, b, a);
    Catalogue.StepKeepsValid(db2, op3);
    assert Ingest(s, p, r).0.db == Catalogue.Step(db2, op3).0;
  }

  /** A recorded track is played again and answered by the cache. Whatever has been written
      since, as long as both of its parents' Spotify ids still have an owner, the play is
      lost exactly when the placeholder artist or the placeholder album has no row. */
  lemma CachedRepeatLostIff(s: State, p: RecentPlay, mbid: string)
    requires Catalogue.Valid(s.db) && mbid != "" && mbid in s.db.tracks
    requires p.artistId != "" && p.albumId != "" && p.artistName != ""
    requires Catalogue.HasOwner(s.db.artists, p.artistId) && Catalogue.HasOwner(s.db.albums, p.albumId)
    ensures Ingest(s, p, Listening.Resolved(mbid, "", "", "")).1.Failed? <==>
      PlaceholderArtist(p) !in s.db.artists || PlaceholderAlbum(p) !in s.db.albums
  {
    ResolvedPlayLostIff(s, p, Listening.Resolved(mbid, "", "", ""));
    Catalogue.OwnedIsDisplaced(s.db.artists, PlaceholderArtist(p), p.artistId);
    Catalogue.OwnedIsDisplaced(s.db.albums, PlaceholderAlbum(p), p.albumId);
  }

  /** The ordinary case: MusicBrainz names the track's artist, the artist has no
      placeholder row, and the track is played again while the cache serves it. Its
      second play is always lost. */
  lemma CachedRepeatLost(cfg: ResolverCache.Config, cache: ResolverCache.Cache, first: ResolverCache.Call,
                         second: ResolverCache.Call, s: State, p: RecentPlay, q: RecentPlay)
    requires first.key.subject == ResolverCache.Track && first.upstream.Found? && first.upstream.mbid != ""
    requires first.externalId != ""
    requires !ResolverCache.Served(cfg, cache, first)
    requires second.key == first.key && 0 <= second.now - first.now <= cfg.ttl
    requires first.upstream.artistId != "" && first.upstream.artistId != PlaceholderArtist(p)
    requires Catalogue.Valid(s.db) && PlaceholderArtist(p) !in s.db.artists && KeyOf(p) !in s.history
    requires p.artistId != "" && p.albumId != "" && p.artistName != ""
    requires q == p.(playedAt := q.playedAt)
    ensures var (cache', a) := ResolverCache.Resolved(cfg, cache, first);
      var s' := Ingest(s, p, ResolutionOf(a)).0;
      !Ingest(s, p, ResolutionOf(a)).1.Failed? ==>
        Ingest(s', q, ResolutionOf(ResolverCache.Resolved(cfg, cache', second).1)).1.Failed?
  {
    var (cache', a) := ResolverCache.Resolved(cfg, cache, first);
    var r := ResolutionOf(a);
    assert r == Listening.Resolved(first.upstream.mbid, first.upstream.artistId, first.upstream.artistName,
                                   first.upstream.releaseGroup);
    assert ResolutionOf(ResolverCache.Resolved(cfg, cache', second).1) == Listening.Resolved(r.mbid, "", "", "");
    if !Ingest(s, p, r).1.Failed? {
      ArtistsAfterIngest(s, p, r);
      IngestedHasOwners(s, p, r);
      CachedRepeatLostIff(Ingest(s, p, r).0, q, r.mbid);
    }
  }

  /** The first play of such a track does go through, on an empty backend to begin with. */
  lemma FirstIngestSucceeds(p: RecentPlay, r: Resolution)
    requires r.Resolved? && r.mbid != "" && FirstNonEmpty(r.artistName, p.artistName) != ""
    ensures !Ingest(State(Catalogue.EmptyDb(), map[], []), p, r).1.Failed?
  {
    var s := State(Catalogue.EmptyDb(), map[], []);
    ResolvedPlayLostIff(s, p, r);
    assert Catalogue.OtherOwners(s.db.artists, ArtistMbid(p, r), p.artistId) == {};
    assert Catalogue.OtherOwners(s.db.albums, AlbumMbid(p, r), p.albumId) == {};
    assert Catalogue.OtherOwners(s.db.tracks, r.mbid, p.spotifyId) == {};
  }

  /** Ingesting a play adds no artist but the resolver's. */
  lemma ArtistsAfterIngest(s: State, p: RecentPlay, r: Resolution)
    requires Catalogue.Valid(s.db) && r.Resolved?
    ensures forall m :: m in Ingest(s, p, r).0.db.artists ==> m in s.db.artists || m == ArtistMbid(p, r)
  {
    var name := FirstNonEmpty(r.artistName, p.artistName);
    Catalogue.StepKeepsValid(s.db, Catalogue.UpsertArtist(ArtistMbid(p, r), p.artistId, name));
  }
}
