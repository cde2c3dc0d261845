/**
 The resolver cache (backend/internal/providers/resolver/resolver.go): Spotify ids
 are mapped to MusicBrainz ids through a cache with one TTL for hits and another
 for tombstones.
 */
module ResolverCache {
  import opened Basics

  datatype SubjectType = Track | Album | Artist
  datatype CacheKey = CacheKey(spotifyId: string, subject: SubjectType)

  /** A tombstone has no mbid. */
  datatype CacheRow = CacheRow(mbid: Option<string>, confidence: real, resolvedAt: Time)
  type Cache = map<CacheKey, CacheRow>

  datatype Config = Config(ttl: Time, missTtl: Time)

  /** What MusicBrainz answers; score is the artist search's match score. */
  datatype Lookup =
    | Found(mbid: string, artistId: string, artistName: string, releaseGroup: string, title: string,
            primaryType: string, firstReleaseDate: string, score: int)
    | NotFound
    | Unavailable

  datatype Result = Result(mbid: string, confidence: real, artistMbid: string, artistName: string,
                           releaseGroup: string, title: string, primaryType: string, firstReleaseDate: string)

  datatype Answer = Mapped(result: Result) | ErrUnresolved | ErrUpstream

  /** One call: the key, the ISRC, UPC or name, what upstream would answer now, and the time. */
  datatype Call = Call(key: CacheKey, externalId: string, upstream: Lookup, now: Time)

  const MIN_ARTIST_SCORE := 90

  /** The result of a definitive positive lookup. */
  function Identified(subject: SubjectType, l: Lookup): Option<Result> {
    if !l.Found? then None else
    match subject
    case Track => Some(Result(l.mbid, 0.95, l.artistId, l.artistName, l.releaseGroup, l.title, "", ""))
    case Album => Some(Result(l.mbid, 0.85, l.artistId, l.artistName, "", l.title, l.primaryType, l.firstReleaseDate))
    case Artist =>
      if l.score < MIN_ARTIST_SCORE then None
      else Some(Result(l.mbid, l.score as real / 100.0, l.mbid, l.artistName, "", "", "", ""))
  }

  function Ttl(cfg: Config, row: CacheRow): Time {
    if row.mbid.Some? then cfg.ttl else cfg.missTtl
  }

  predicate Served(cfg: Config, cache: Cache, c: Call) {
    c.key in cache && c.now - cache[c.key].resolvedAt <= Ttl(cfg, cache[c.key])
  }

  /** A cached row answers with mbid and confidence only; an empty mbid reads as a miss. */
  function FromRow(row: CacheRow): Answer {
    if StringOf(row.mbid) == "" then ErrUnresolved
    else Mapped(Result(row.mbid.value, row.confidence, "", "", "", "", "", ""))
  }

  /** The row a call that reaches past the cache leaves behind, if it was answered definitively. */
  function Verdict(c: Call): Option<CacheRow> {
    if c.externalId == "" then Some(CacheRow(None, 0.0, c.now))
    else if c.upstream.Unavailable? then None
    else
      var r := Identified(c.key.subject, c.upstream);
      if r.Some? then Some(CacheRow(Some(r.value.mbid), r.value.confidence, c.now))
      else Some(CacheRow(None, 0.0, c.now))
  }

  function Direct(c: Call): Answer {
    if c.externalId == "" then ErrUnresolved
    else if c.upstream.Unavailable? then ErrUpstream
    else
      var r := Identified(c.key.subject, c.upstream);
      if r.Some? then Mapped(r.value) else ErrUnresolved
  }

  function Resolved(cfg: Config, cache: Cache, c: Call): (Cache, Answer) {
    if Served(cfg, cache, c) then (cache, FromRow(cache[c.key]))
    else (if Verdict(c).Some? then cache[c.key := Verdict(c).value] else cache, Direct(c))
  }

  // ── one call past the cache ──

  /** The row of the call's key after it, and the rest of the cache as it was. */
  ghost predicate LeavesRow(before: Cache, after: Cache, c: Call, mbid: Option<string>) {
    && c.key in after && after[c.key].mbid == mbid && after[c.key].resolvedAt == c.now
    && after.Keys == before.Keys + {c.key}
    && forall k :: k in before && k != c.key ==> after[k] == before[k]
  }

  /** A found artist is taken exactly if MusicBrainz scores the match 90 or more; anything
      below is answered and cached as unresolved. */
  lemma ArtistAnswered(cfg: Config, cache: Cache, c: Call)
    requires !Served(cfg, cache, c) && c.key.subject == Artist && c.externalId != "" && c.upstream.Found?
    ensures var (cache', a) := Resolved(cfg, cache, c);
      && (a.Mapped? <==> c.upstream.score >= 90) && (!a.Mapped? ==> a == ErrUnresolved)
      && (a.Mapped? ==> a.result.mbid == a.result.artistMbid == c.upstream.mbid
                        && a.result.artistName == c.upstream.artistName
                        && a.result.confidence == c.upstream.score as real / 100.0)
      && LeavesRow(cache, cache', c, if c.upstream.score >= 90 then Some(c.upstream.mbid) else None)
      && (a.Mapped? ==> cache'[c.key].confidence == a.result.confidence)
  {
  }

  /** A found track or album is always taken, with the artist and title found, a track with
      its release group, an album with its type and date. */
  lemma RecordingAnswered(cfg: Config, cache: Cache, c: Call)
    requires !Served(cfg, cache, c) && c.key.subject != Artist && c.externalId != "" && c.upstream.Found?
    ensures var (cache', a) := Resolved(cfg, cache, c);
      && a.Mapped? && a.result.mbid == c.upstream.mbid && a.result.title == c.upstream.title
      && a.result.artistMbid == c.upstream.artistId && a.result.artistName == c.upstream.artistName
      && (c.key.subject == Track ==> a.result.releaseGroup == c.upstream.releaseGroup && a.result.confidence == 0.95)
      && (c.key.subject == Album ==> a.result.primaryType == c.upstream.primaryType
                                     && a.result.firstReleaseDate == c.upstream.firstReleaseDate
                                     && a.result.confidence == 0.85)
      && LeavesRow(cache, cache', c, Some(c.upstream.mbid))
      && cache'[c.key].confidence == a.result.confidence
  {
  }

  /** No identifier, or nothing found: unresolved, with a tombstone. A failing lookup is
      passed on and leaves no trace. */
  lemma MissAnswered(cfg: Config, cache: Cache, c: Call)
    requires !Served(cfg, cache, c) && (c.externalId == "" || !c.upstream.Found?)
    ensures var (cache', a) := Resolved(cfg, cache, c);
      if c.externalId != "" && c.upstream.Unavailable? then a == ErrUpstream && cache' == cache
      else a == ErrUnresolved && LeavesRow(cache, cache', c, None)
  {
  }

  // ── runs ──

  /** The cache after the first n calls of a run that starts empty. */
  function CacheAt(cfg: Config, calls: seq<Call>, n: nat): Cache
    requires n <= |calls|
  {
    if n == 0 then map[] else Resolved(cfg, CacheAt(cfg, calls, n - 1), calls[n - 1]).0
  }

  ghost predicate MonotoneClock(calls: seq<Call>) {
    forall i, j :: 0 <= i <= j < |calls| ==> calls[i].now <= calls[j].now
  }

  /** Call i was not served from the cache. */
  ghost predicate PastCache(cfg: Config, calls: seq<Call>, i: int) {
    0 <= i < |calls| && !Served(cfg, CacheAt(cfg, calls, i), calls[i])
  }

  /** Call i really asked MusicBrainz. */
  ghost predicate AskedUpstream(cfg: Config, calls: seq<Call>, i: int) {
    PastCache(cfg, calls, i) && calls[i].externalId != ""
  }

  /** Call i got a definitive verdict and wrote it. */
  ghost predicate Decided(cfg: Config, calls: seq<Call>, i: int) {
    PastCache(cfg, calls, i) && Verdict(calls[i]).Some?
  }

  /** Call i is the last before n to decide key k. */
  ghost predicate LastDecision(cfg: Config, calls: seq<Call>, n: int, k: CacheKey, i: int) {
    && 0 <= i < n <= |calls| && Decided(cfg, calls, i) && calls[i].key == k
    && forall l :: i < l < n && calls[l].key == k ==> !Decided(cfg, calls, l)
  }

  /** A cached row is always the last definitive verdict on its key. */
  lemma {:induction false} CacheHoldsLastDecision(cfg: Config, calls: seq<Call>, n: nat, k: CacheKey) returns (i: int)
    requires n <= |calls| && k in CacheAt(cfg, calls, n)
    ensures LastDecision(cfg, calls, n, k, i)
    ensures CacheAt(cfg, calls, n)[k] == Verdict(calls[i]).value
  {
    var m := n - 1;
    if Decided(cfg, calls, m) && calls[m].key == k {
      i := m;
    } else {
      i := CacheHoldsLastDecision(cfg, calls, m, k);
    }
  }

  lemma {:induction false} DecisionStaysCached(cfg: Config, calls: seq<Call>, i: int, n: nat)
    requires Decided(cfg, calls, i) && i < n <= |calls|
    ensures calls[i].key in CacheAt(cfg, calls, n)
  {
    if n > i + 1 {
      DecisionStaysCached(cfg, calls, i, n - 1);
    }
  }

  /** After a hit a key is not asked about again within ttl, after a miss not within
      missTtl: whatever got past the cache later came strictly later than that. */
  lemma {:induction false} DecisionsSpaced(cfg: Config, calls: seq<Call>, i: int, j: int)
    requires MonotoneClock(calls) && 0 <= i < j < |calls| && calls[i].key == calls[j].key
    requires Decided(cfg, calls, i) && PastCache(cfg, calls, j)
    ensures calls[j].now - calls[i].now > Ttl(cfg, Verdict(calls[i]).value)
  {
    DecisionStaysCached(cfg, calls, i, j);
    var l := CacheHoldsLastDecision(cfg, calls, j, calls[j].key);
    if l != i {
      assert i < l;
      DecisionsSpaced(cfg, calls, i, l);
    }
  }

  /** Two requests to MusicBrainz for one key, the first answered definitively, lie
      more than the applicable TTL apart. */
  lemma UpstreamCallsSpaced(cfg: Config, calls: seq<Call>, i: int, j: int)
    requires MonotoneClock(calls) && 0 <= i < j < |calls| && calls[i].key == calls[j].key
    requires AskedUpstream(cfg, calls, i) && !calls[i].upstream.Unavailable? && AskedUpstream(cfg, calls, j)
    ensures calls[j].now - calls[i].now
          > if AnswerAt(cfg, calls, i).Mapped? then cfg.ttl else cfg.missTtl
  {
    DecisionsSpaced(cfg, calls, i, j);
  }

  function AnswerAt(cfg: Config, calls: seq<Call>, i: int): Answer
    requires 0 <= i < |calls|
  {
    Resolved(cfg, CacheAt(cfg, calls, i), calls[i]).1
  }

  /** Same mbid and confidence, or the same error: all that callers can rely on. */
  ghost predicate SameMapping(a: Answer, b: Answer) {
    match a
    case Mapped(r) => b.Mapped? && b.result.mbid == r.mbid && b.result.confidence == r.confidence
    case _ => a == b
  }

  /** An answer served from the cache repeats the last definitive verdict, which is
      no older than its TTL: exactly when that verdict is not a hit with an empty mbid. */
  lemma ServedRepeatsLastDecision(cfg: Config, calls: seq<Call>, j: int) returns (i: int)
    requires MonotoneClock(calls) && 0 <= j < |calls| && !PastCache(cfg, calls, j)
    ensures LastDecision(cfg, calls, j, calls[j].key, i)
    ensures calls[j].now - calls[i].now <= Ttl(cfg, Verdict(calls[i]).value)
    ensures SameMapping(AnswerAt(cfg, calls, i), AnswerAt(cfg, calls, j)) <==> Verdict(calls[i]).value.mbid != Some("")
    ensures AnswerAt(cfg, calls, j).Mapped? ==> AnswerAt(cfg, calls, j).result.artistMbid == ""
  {
    i := CacheHoldsLastDecision(cfg, calls, j, calls[j].key);
  }

  /** Every answer that is not a transient failure gives the mapping, or lack of one,
      of the latest definitive verdict on its key, the call's own included. */
  lemma AnswersFollowDecisions(cfg: Config, calls: seq<Call>, j: int) returns (i: int)
    requires MonotoneClock(calls) && 0 <= j < |calls| && AnswerAt(cfg, calls, j) != ErrUpstream
    requires forall l :: 0 <= l < |calls| && calls[l].upstream.Found? ==> calls[l].upstream.mbid != ""
    ensures LastDecision(cfg, calls, j + 1, calls[j].key, i)
    ensures SameMapping(AnswerAt(cfg, calls, i), AnswerAt(cfg, calls, j))
    ensures calls[j].now - calls[i].now <= Ttl(cfg, Verdict(calls[i]).value) || i == j
  {
    if PastCache(cfg, calls, j) {
      i := j;
    } else {
      i := ServedRepeatsLastDecision(cfg, calls, j);
    }
  }

  /** A transient failure changes no row and is never cached. */
  lemma TransientFailureLeavesCache(cfg: Config, cache: Cache, c: Call)
    requires Resolved(cfg, cache, c).1 == ErrUpstream
    ensures Resolved(cfg, cache, c).0 == cache && c.upstream.Unavailable? && !Served(cfg, cache, c)
  {
  }

  class Service {
    const cfg: Config
    var cache: Cache

    constructor (cfg: Config)
      ensures this.cfg == cfg && cache == map[]
    {
      this.cfg := cfg;
      cache := map[];
    }

    /** The row's answer if it is fresh enough; a tombstone reads as an empty mbid. */
    method CheckCache(k: CacheKey, now: Time) returns (hit: bool, mbid: string, confidence: real)
      ensures hit <==> k in cache && now - cache[k].resolvedAt <= Ttl(cfg, cache[k])
      ensures hit ==> mbid == StringOf(cache[k].mbid) && (cache[k].mbid.Some? ==> confidence == cache[k].confidence)
    {
      mbid, confidence := "", 0.0;
      if k !in cache {
        return false, mbid, confidence;
      }
      var row := cache[k];
      var age := now - row.resolvedAt;
      if row.mbid.None? {
        return age <= cfg.missTtl, mbid, confidence;
      }
      if age > cfg.ttl {
        return false, mbid, confidence;
      }
      return true, row.mbid.value, row.confidence;
    }

    /** ResolveTrack, ResolveAlbum and ResolveArtistByName; asked tells whether
        MusicBrainz was called. */
    method Resolve(key: CacheKey, externalId: string, upstream: string -> Lookup, now: Time)
        returns (a: Answer, asked: bool)
      modifies this
      ensures (cache, a) == Resolved(cfg, old(cache), Call(key, externalId, upstream(externalId), now))
      ensures asked <==> !Served(cfg, old(cache), Call(key, externalId, upstream(externalId), now)) && externalId != ""
    {
      var hit, mbid, confidence := CheckCache(key, now);
      if hit {
        if mbid == "" {
          return ErrUnresolved, false;
        }
        return Mapped(Result(mbid, confidence, "", "", "", "", "", "")), false;
      }
      if externalId == "" {
        cache := cache[key := CacheRow(None, 0.0, now)];
        return ErrUnresolved, false;
      }
      var found := upstream(externalId);
      asked := true;
      match found
      case Unavailable =>
        a := ErrUpstream;
      case NotFound =>
        cache := cache[key := CacheRow(None, 0.0, now)];
        a := ErrUnresolved;
      case Found(_, _, _, _, _, _, _, score) =>
        if key.subject == Artist && score < MIN_ARTIST_SCORE {
          cache := cache[key := CacheRow(None, 0.0, now)];
          a := ErrUnresolved;
        } else {
          var r := Identified(key.subject, found).value;
          cache := cache[key := CacheRow(Some(r.mbid), r.confidence, now)];
          a := Mapped(r);
        }
    }
  }
}
