/**
 Gathering and ranking of a Spotify library
 (backend/internal/services/library/library.go): followed artists and saved albums
 are bucketed by primary artist, and the buckets are put in the order in which
 they are resolved.
 */
module LibraryRank {
  import opened Basics
  import opened Sorting

  datatype FollowedArtist = FollowedArtist(spotifyId: string, name: string)
  datatype SavedAlbum = SavedAlbum(spotifyId: string, name: string, albumType: string, releaseDate: string,
                                   totalTracks: int, upc: string, artistId: string, artistName: string)

  datatype Bucket = Bucket(spotifyId: string, name: string, followed: bool, albums: seq<SavedAlbum>)

  // ── what gathering yields ──

  /** The names under which one artist was delivered, in fetch order. */
  function FollowNames(followed: seq<FollowedArtist>, id: string): seq<string> {
    if followed == [] then [] else
    var before, a := FollowNames(followed[..|followed| - 1], id), followed[|followed| - 1];
    if a.spotifyId == id then before + [a.name] else before
  }

  function AlbumsOf(albums: seq<SavedAlbum>, id: string): seq<SavedAlbum> {
    if albums == [] then [] else
    var before, a := AlbumsOf(albums[..|albums| - 1], id), albums[|albums| - 1];
    if a.artistId == id then before + [a] else before
  }

  function AlbumNames(albums: seq<SavedAlbum>): seq<string> {
    seq(|albums|, i requires 0 <= i < |albums| => albums[i].artistName)
  }

  /** The first name that is not empty. */
  function FirstName(names: seq<string>): string {
    if names == [] then "" else FirstNonEmpty(FirstName(names[..|names| - 1]), names[|names| - 1])
  }

  /** The name shown is the first that is not empty, if there is one. */
  lemma {:induction false} FirstNameShown(names: seq<string>, i: int)
    requires 0 <= i < |names| && names[i] != "" && forall j :: 0 <= j < i ==> names[j] == ""
    ensures FirstName(names) == names[i]
  {
    if i < |names| - 1 {
      FirstNameShown(names[..|names| - 1], i);
    } else {
      NoNames(names[..i]);
    }
  }

  lemma {:induction false} NoNames(names: seq<string>)
    requires forall j :: 0 <= j < |names| ==> names[j] == ""
    ensures FirstName(names) == ""
  {
    if names != [] {
      NoNames(names[..|names| - 1]);
    }
  }

  function NamesOf(followed: seq<FollowedArtist>, albums: seq<SavedAlbum>, id: string): seq<string> {
    FollowNames(followed, id) + AlbumNames(AlbumsOf(albums, id))
  }

  function BucketOf(followed: seq<FollowedArtist>, albums: seq<SavedAlbum>, id: string): Bucket {
    Bucket(id, FirstName(NamesOf(followed, albums, id)), FollowNames(followed, id) != [], AlbumsOf(albums, id))
  }

  /** Artist id has a bucket exactly if it was delivered, and it is the right one. */
  ghost predicate GatheredAt(buckets: map<string, Bucket>, followed: seq<FollowedArtist>, albums: seq<SavedAlbum>,
                             id: string) {
    && (id in buckets <==> id != "" && NamesOf(followed, albums, id) != [])
    && (id in buckets ==> buckets[id] == BucketOf(followed, albums, id))
  }

  ghost predicate Gathered(buckets: map<string, Bucket>, followed: seq<FollowedArtist>, albums: seq<SavedAlbum>) {
    forall id :: GatheredAt(buckets, followed, albums, id)
  }

  /** The closure get of gather; the bucket it returns is read out of the map again. */
  function Touched(buckets: map<string, Bucket>, id: string, name: string): map<string, Bucket> {
    if id == "" then buckets else
    var b := if id in buckets then buckets[id] else Bucket(id, name, false, []);
    buckets[id := if b.name == "" && name != "" then b.(name := name) else b]
  }

  lemma NamesGrow(names: seq<string>, name: string)
    ensures FirstName(names + [name]) == FirstNonEmpty(FirstName(names), name)
  {
    assert (names + [name])[..|names|] == names;
  }

  function WithFollow(buckets: map<string, Bucket>, a: FollowedArtist): map<string, Bucket> {
    var b := Touched(buckets, a.spotifyId, a.name);
    if a.spotifyId == "" then b else b[a.spotifyId := b[a.spotifyId].(followed := true)]
  }

  function WithAlbum(buckets: map<string, Bucket>, a: SavedAlbum): map<string, Bucket> {
    var b := Touched(buckets, a.artistId, a.artistName);
    if a.artistId == "" then b else b[a.artistId := b[a.artistId].(albums := b[a.artistId].albums + [a])]
  }

  lemma FollowStep(buckets: map<string, Bucket>, followed: seq<FollowedArtist>, a: FollowedArtist)
    requires Gathered(buckets, followed, [])
    ensures Gathered(WithFollow(buckets, a), followed + [a], [])
  {
    assert (followed + [a])[..|followed|] == followed;
    forall id
      ensures GatheredAt(WithFollow(buckets, a), followed + [a], [], id)
    {
      assert GatheredAt(buckets, followed, [], id);
      var names := FollowNames(followed, id);
      assert NamesOf(followed, [], id) == names && NamesOf(followed + [a], [], id) == FollowNames(followed + [a], id);
      if id == a.spotifyId {
        NamesGrow(names, a.name);
      }
    }
  }

  lemma AlbumStepAt(buckets: map<string, Bucket>, followed: seq<FollowedArtist>, albums: seq<SavedAlbum>,
                    a: SavedAlbum, id: string)
    requires GatheredAt(buckets, followed, albums, id)
    ensures GatheredAt(WithAlbum(buckets, a), followed, albums + [a], id)
  {
    assert (albums + [a])[..|albums|] == albums;
    if id == a.artistId {
      var names, mine := NamesOf(followed, albums, id), AlbumsOf(albums, id);
      NamesGrow(names, a.artistName);
      assert AlbumNames(mine + [a]) == AlbumNames(mine) + [a.artistName];
      assert NamesOf(followed, albums + [a], id) == names + [a.artistName];
      assert id !in buckets && id != "" ==> names == [] && mine == [];
    }
  }

  lemma AlbumStep(buckets: map<string, Bucket>, followed: seq<FollowedArtist>, albums: seq<SavedAlbum>, a: SavedAlbum)
    requires Gathered(buckets, followed, albums)
    ensures Gathered(WithAlbum(buckets, a), followed, albums + [a])
  {
    forall id
      ensures GatheredAt(WithAlbum(buckets, a), followed, albums + [a], id)
    {
      AlbumStepAt(buckets, followed, albums, a, id);
    }
  }

  /** The delivered pages, complete or cut off by a fetch error. */
  method Gather(followed: seq<FollowedArtist>, albums: seq<SavedAlbum>) returns (buckets: map<string, Bucket>)
    ensures Gathered(buckets, followed, albums)
  {
    buckets := map[];
    assert followed[..0] == [] && albums[..0] == [];
    for i := 0 to |followed|
      invariant Gathered(buckets, followed[..i], [])
    {
      var a := followed[i];
      FollowStep(buckets, followed[..i], a);
      assert followed[..i + 1] == followed[..i] + [a];
      buckets := Touched(buckets, a.spotifyId, a.name);
      if a.spotifyId != "" {
        buckets := buckets[a.spotifyId := buckets[a.spotifyId].(followed := true)];
      }
    }
    assert followed[..|followed|] == followed;
    for i := 0 to |albums|
      invariant Gathered(buckets, followed, albums[..i])
    {
      var a := albums[i];
      AlbumStep(buckets, followed, albums[..i], a);
      assert albums[..i + 1] == albums[..i] + [a];
      buckets := Touched(buckets, a.artistId, a.artistName);
      if a.artistId != "" {
        var b := buckets[a.artistId];
        buckets := buckets[a.artistId := b.(albums := b.albums + [a])];
      }
    }
    assert albums[..|albums|] == albums;
  }

  /** Increasing positions of albums that spell mine. */
  ghost predicate InFetchOrder(albums: seq<SavedAlbum>, mine: seq<SavedAlbum>, at: seq<nat>) {
    && |at| == |mine|
    && (forall i :: 0 <= i < |at| ==> at[i] < |albums| && albums[at[i]] == mine[i])
    && (forall i, j :: 0 <= i < j < |at| ==> at[i] < at[j])
  }

  lemma FetchOrderGrows(albums: seq<SavedAlbum>, mine: seq<SavedAlbum>, at: seq<nat>, a: SavedAlbum)
    requires InFetchOrder(albums, mine, at)
    ensures InFetchOrder(albums + [a], mine, at) && InFetchOrder(albums + [a], mine + [a], at + [|albums|])
  {
  }

  /** Fetch order inside a bucket. */
  lemma {:induction false} AlbumsKeepOrder(albums: seq<SavedAlbum>, id: string) returns (at: seq<nat>)
    ensures InFetchOrder(albums, AlbumsOf(albums, id), at)
    ensures forall a :: a in AlbumsOf(albums, id) ==> a.artistId == id
  {
    at := [];
    if albums != [] {
      var front, a := albums[..|albums| - 1], albums[|albums| - 1];
      at := AlbumsKeepOrder(front, id);
      FetchOrderGrows(front, AlbumsOf(front, id), at, a);
      assert albums == front + [a];
      if a.artistId == id {
        at := at + [|front|];
      }
    }
  }

  // ── ranking ──

  function ScoreBucket(b: Bucket): int {
    |b.albums| * 3 + if b.followed then 10 else 0
  }

  /** b does not have to stand before a. */
  predicate RankLe(a: Bucket, b: Bucket) {
    if ScoreBucket(a) != ScoreBucket(b) then ScoreBucket(a) > ScoreBucket(b)
    else if a.followed != b.followed then a.followed
    else LexLe(a.name, b.name)
  }

  function ByRank(): (Bucket, Bucket) -> bool {
    (a, b) => RankLe(a, b)
  }

  lemma RankIsPreorder()
    ensures TotalPreorder(ByRank())
  {
    forall x, y
      ensures RankLe(x, y) || RankLe(y, x)
    {
      LexTotal(x.name, y.name);
    }
    forall x, y, z | RankLe(x, y) && RankLe(y, z)
      ensures RankLe(x, z)
    {
      if LexLe(x.name, y.name) && LexLe(y.name, z.name) {
        LexTransitive(x.name, y.name, z.name);
      }
    }
  }

  /** A score determines both of its parts, so the followed tie-breaker never decides. */
  lemma EqualScoresEqualParts(a: Bucket, b: Bucket)
    requires ScoreBucket(a) == ScoreBucket(b)
    ensures |a.albums| == |b.albums| && a.followed == b.followed
  {
    assert ScoreBucket(a) % 3 == if a.followed then 1 else 0;
    assert ScoreBucket(b) % 3 == if b.followed then 1 else 0;
  }

  /** Two buckets neither of which precedes the other show the same score and name. */
  lemma TiedShowTheSame(a: Bucket, b: Bucket)
    requires RankLe(a, b) && RankLe(b, a)
    ensures ScoreBucket(a) == ScoreBucket(b) && a.name == b.name
  {
    LexAntisymmetric(a.name, b.name);
  }

  /** Every bucket once, ordered by score, then name. */
  ghost predicate Ranking(buckets: map<string, Bucket>, ranked: seq<Bucket>) {
    && NoDuplicates(ranked)
    && (forall b :: b in ranked <==> b in buckets.Values)
    && Sorted(ranked, ByRank())
  }

  /** Map iteration order is Go's choice. */
  method BucketsByScoreDesc(buckets: map<string, Bucket>) returns (ranked: seq<Bucket>)
    requires forall id :: id in buckets ==> buckets[id].spotifyId == id
    ensures Ranking(buckets, ranked)
  {
    var listed: seq<Bucket>, left := [], buckets.Keys;
    while left != {}
      invariant left <= buckets.Keys
      invariant NoDuplicates(listed)
      invariant forall b :: b in listed <==> b.spotifyId in buckets.Keys - left && buckets[b.spotifyId] == b
    {
      var id :| id in left;
      listed := listed + [buckets[id]];
      left := left - {id};
    }
    RankIsPreorder();
    StableSortSpec(listed, ByRank());
    ranked := StableSort(listed, ByRank());
    PermutationKeepsElements(listed, ranked);
    PermutationStaysDistinct(listed, ranked);
  }

  lemma RankBound(r: seq<Bucket>, s: seq<Bucket>, i: nat)
    requires NoDuplicates(r) && NoDuplicates(s) && (forall b :: b in s ==> b in r)
    requires Sorted(r, ByRank()) && Sorted(s, ByRank()) && i < |r| && i < |s|
    ensures RankLe(r[i], s[i])
  {
    assert forall k :: 0 <= k < i ==> r[k] in r[..i];
    var j := Pigeonhole(r[..i], s[..i + 1]);
    var b := s[j];
    assert b == s[..i + 1][j] && b in r;
    var k :| 0 <= k < |r| && r[k] == b;
    assert i <= k;
    RankIsPreorder();
    assert k == i || ByRank()(r[i], b);
    assert j == i || ByRank()(b, s[i]);
    assert ByRank()(b, b);
  }

  /** Whatever order the map was listed in, each rank shows the same score and name. */
  lemma RankingDetermined(buckets: map<string, Bucket>, r: seq<Bucket>, s: seq<Bucket>)
    requires Ranking(buckets, r) && Ranking(buckets, s)
    ensures |r| == |s|
    ensures forall i :: 0 <= i < |r| ==>
              ScoreBucket(r[i]) == ScoreBucket(s[i]) && r[i].name == s[i].name && r[i].followed == s[i].followed
  {
    ElementsOfDistinct(r);
    ElementsOfDistinct(s);
    assert Elements(r) == Elements(s);
    forall i | 0 <= i < |r|
      ensures ScoreBucket(r[i]) == ScoreBucket(s[i]) && r[i].name == s[i].name && r[i].followed == s[i].followed
    {
      RankBound(r, s, i);
      RankBound(s, r, i);
      TiedShowTheSame(r[i], s[i]);
      EqualScoresEqualParts(r[i], s[i]);
    }
  }

  // ── the order, in albums, follows and names ──

  /** Position i does not stand behind position j, in terms of what the buckets hold. */
  lemma EarlierIsNotWorse(ranked: seq<Bucket>, i: int, j: int)
    requires Sorted(ranked, ByRank()) && 0 <= i < j < |ranked|
    ensures var a, b := ranked[i], ranked[j];
      && (a.followed && !b.followed ==> |b.albums| <= |a.albums| + 3)
      && (!a.followed && b.followed ==> |a.albums| > |b.albums| + 3)
      && (a.followed == b.followed ==> |a.albums| > |b.albums| || (|a.albums| == |b.albums| && LexLe(a.name, b.name)))
  {
    assert ByRank()(ranked[i], ranked[j]);
  }

  /** A followed artist with a albums stands before an unfollowed one with b exactly if
      b is at most a + 3. */
  lemma FollowedFirstIff(buckets: map<string, Bucket>, ranked: seq<Bucket>, i: int, j: int)
    requires Ranking(buckets, ranked) && 0 <= i < |ranked| && 0 <= j < |ranked|
    requires ranked[i].followed && !ranked[j].followed
    ensures i < j <==> |ranked[j].albums| <= |ranked[i].albums| + 3
  {
    if i < j {
      EarlierIsNotWorse(ranked, i, j);
    } else {
      EarlierIsNotWorse(ranked, j, i);
    }
  }

  /** Of two artists followed alike the one with more albums stands first; with as many,
      the one with the smaller name. */
  lemma AlbumsThenName(buckets: map<string, Bucket>, ranked: seq<Bucket>, i: int, j: int)
    requires Ranking(buckets, ranked) && 0 <= i < |ranked| && 0 <= j < |ranked|
    requires ranked[i].followed == ranked[j].followed
    ensures |ranked[i].albums| > |ranked[j].albums| ==> i < j
    ensures |ranked[i].albums| == |ranked[j].albums| && ranked[i].name != ranked[j].name ==>
              (i < j <==> LexLe(ranked[i].name, ranked[j].name))
  {
    if i < j {
      EarlierIsNotWorse(ranked, i, j);
    } else if j < i {
      EarlierIsNotWorse(ranked, j, i);
    }
    if LexLe(ranked[i].name, ranked[j].name) && LexLe(ranked[j].name, ranked[i].name) {
      LexAntisymmetric(ranked[i].name, ranked[j].name);
    }
  }

  // ── the partition ──

  function AllAlbums(ranked: seq<Bucket>): seq<SavedAlbum> {
    if ranked == [] then [] else AllAlbums(ranked[..|ranked| - 1]) + ranked[|ranked| - 1].albums
  }

  lemma {:induction false} CountOfArtist(albums: seq<SavedAlbum>, id: string, x: SavedAlbum)
    ensures multiset(AlbumsOf(albums, id))[x] == if x.artistId == id then multiset(albums)[x] else 0
  {
    if albums != [] {
      assert albums == albums[..|albums| - 1] + [albums[|albums| - 1]];
      CountOfArtist(albums[..|albums| - 1], id, x);
    }
  }

  ghost predicate HasBucket(ranked: seq<Bucket>, id: string) {
    exists i :: 0 <= i < |ranked| && ranked[i].spotifyId == id
  }

  lemma HasBucketStep(ranked: seq<Bucket>, id: string)
    requires ranked != []
    ensures HasBucket(ranked, id) <==> HasBucket(ranked[..|ranked| - 1], id) || ranked[|ranked| - 1].spotifyId == id
    ensures HasBucket(ranked[..|ranked| - 1], id) ==> exists i :: 0 <= i < |ranked| - 1 && ranked[i].spotifyId == id
  {
    var front := ranked[..|ranked| - 1];
    forall i | 0 <= i < |front|
      ensures front[i] == ranked[i]
    {
    }
  }

  lemma {:induction false} CountInBuckets(ranked: seq<Bucket>, albums: seq<SavedAlbum>, x: SavedAlbum)
    requires forall i, j :: 0 <= i < j < |ranked| ==> ranked[i].spotifyId != ranked[j].spotifyId
    requires forall b :: b in ranked ==> b.albums == AlbumsOf(albums, b.spotifyId)
    ensures multiset(AllAlbums(ranked))[x] == if HasBucket(ranked, x.artistId) then multiset(albums)[x] else 0
  {
    if ranked != [] {
      var front, b := ranked[..|ranked| - 1], ranked[|ranked| - 1];
      CountInBuckets(front, albums, x);
      assert b in ranked;
      CountOfArtist(albums, b.spotifyId, x);
      HasBucketStep(ranked, x.artistId);
    }
  }

  lemma {:induction false} AlbumHasName(albums: seq<SavedAlbum>, x: SavedAlbum)
    requires x in albums
    ensures AlbumsOf(albums, x.artistId) != []
  {
    if albums[|albums| - 1] != x {
      AlbumHasName(albums[..|albums| - 1], x);
    }
  }

  /** The buckets partition the saved albums that name an artist: every such album
      stands in them as often as it was delivered, any other not at all. */
  lemma BucketsPartitionAlbums(followed: seq<FollowedArtist>, albums: seq<SavedAlbum>, buckets: map<string, Bucket>,
                               ranked: seq<Bucket>, x: SavedAlbum)
    requires Gathered(buckets, followed, albums) && Ranking(buckets, ranked)
    ensures multiset(AllAlbums(ranked))[x] == if x.artistId == "" then 0 else multiset(albums)[x]
  {
    forall b | b in ranked
      ensures b.spotifyId in buckets && buckets[b.spotifyId] == b == BucketOf(followed, albums, b.spotifyId)
    {
      var id :| id in buckets && buckets[id] == b;
      assert GatheredAt(buckets, followed, albums, id);
    }
    forall id | id in buckets
      ensures HasBucket(ranked, id)
    {
      assert buckets[id] in ranked;
      assert GatheredAt(buckets, followed, albums, id);
    }
    CountInBuckets(ranked, albums, x);
    assert GatheredAt(buckets, followed, albums, x.artistId);
    if x in albums {
      AlbumHasName(albums, x);
    } else {
      assert multiset(albums)[x] == 0;
    }
    if HasBucket(ranked, x.artistId) {
      var i :| 0 <= i < |ranked| && ranked[i].spotifyId == x.artistId;
      assert ranked[i] in ranked;
    }
  }
}
