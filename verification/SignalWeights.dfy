/**
 What logged events are worth (backend/internal/services/signal/signal.go:465-496 and
 199-258): the numbers an affinity row shows after events without a weight of their own,
 and which rows an event reaches.
 */
module SignalWeights {
  import opened Basics
  import opened Catalogue
  import opened Signals

  ghost function RowScore(cat: Db, log: seq<Signal>, k: Key): real {
    Amount(Entry(Appended(cat, log), k))
  }

  function OwnRow(e: Event): Key {
    Key(e.subject, e.user, e.id)
  }

  lemma RowScoreStep(cat: Db, log: seq<Signal>, s: Signal, k: Key)
    ensures RowScore(cat, log + [s], k) == RowScore(cat, log, k) + Amount(TallyOf(Touches(cat, s), k))
  {
    assert (log + [s])[..|log|] == log;
    AppendedRow(cat, log, k);
    AppendedRow(cat, log + [s], k);
    TallyOfConcat(AllTouches(cat, log), Touches(cat, s), k);
    CombineAdds(TallyOf(AllTouches(cat, log), k), TallyOf(Touches(cat, s), k));
  }

  // ── which rows an event reaches ──

  /** The artist whose row a track's signal reaches: its own, else its album's. */
  ghost predicate CreditedArtist(cat: Db, track: string, artist: string) {
    && artist != "" && track in cat.tracks
    && var t := cat.tracks[track].data;
      if t.artist.Some? && t.artist.value != "" then t.artist.value == artist
      else t.album.Some? && t.album.value != "" && t.album.value in cat.albums
           && cat.albums[t.album.value].data.artist == Some(artist)
  }

  /** Row k is a parent row of the subject, by the columns of the catalogue. */
  ghost predicate ParentRow(cat: Db, subject: SubjectType, user: string, id: string, k: Key) {
    && k.user == user && k.id != ""
    && match subject
       case Album => k.table == Artist && id in cat.albums && cat.albums[id].data.artist == Some(k.id)
       case Track =>
         if k.table == Album then id in cat.tracks && cat.tracks[id].data.album == Some(k.id)
         else k.table == Artist && CreditedArtist(cat, id, k.id)
       case _ => false
  }

  lemma BoostReaches(table: SubjectType, s: Signal, id: string, factor: real, k: Key)
    ensures k in Groups(Boost(table, s, id, factor)) <==> id != "" && k == Key(table, s.user, id)
  {
    var ts := Boost(table, s, id, factor);
    if id != "" {
      assert ts[0] in ts;
    }
  }

  lemma GroupsConcat(a: seq<Touch>, b: seq<Touch>)
    ensures Groups(a + b) == Groups(a) + Groups(b)
  {
    assert forall t :: t in a + b <==> t in a || t in b;
  }

  lemma ParentsAreRows(cat: Db, s: Signal, k: Key)
    ensures k in Parents(cat, s) <==> ParentRow(cat, s.subject, s.user, s.id, k)
  {
    if s.subject == Album {
      BoostReaches(Artist, s, AlbumArtist(cat, s.id), 0.5, k);
    } else if s.subject == Track {
      var album, artist := TrackParents(cat, s.id).0, TrackArtist(cat, s.id);
      GroupsConcat(Boost(Album, s, album, 0.5), Boost(Artist, s, artist, 0.25));
      BoostReaches(Album, s, album, 0.5, k);
      BoostReaches(Artist, s, artist, 0.25, k);
    }
  }

  lemma DirectTally(s: Signal, k: Key)
    ensures TallyOf(Direct(s), k)
         == if !s.subject.Unscored? && k == Key(s.subject, s.user, s.id) then Some(Score(s.weight, 1, s.ts)) else None
  {
    TallyShort(Direct(s), k);
  }

  lemma NotItsOwnParent(cat: Db, s: Signal, k: Key)
    requires k.table == s.subject
    ensures !ParentRow(cat, s.subject, s.user, s.id, k)
  {
  }

  /** A signal moves its subject's row by its weight, an album's artist and a track's album
      by half, a track's artist by a quarter, and no other row. */
  lemma SignalMoves(cat: Db, s: Signal, k: Key)
    ensures Amount(TallyOf(Touches(cat, s), k))
         == if !s.subject.Unscored? && k == Key(s.subject, s.user, s.id) then s.weight
            else if ParentRow(cat, s.subject, s.user, s.id, k)
            then (if s.subject == Track && k.table == Artist then s.weight * 0.25 else s.weight * 0.5)
            else 0.0
  {
    TallyOfConcat(Direct(s), Propagated(cat, s), k);
    DirectTally(s, k);
    ParentBoost(cat, s, k);
    ParentsAreRows(cat, s, k);
    CombineAdds(TallyOf(Direct(s), k), TallyOf(Propagated(cat, s), k));
    if k.table == s.subject {
      NotItsOwnParent(cat, s, k);
    }
  }

  lemma OneSignal(cat: Db, s: Signal)
    ensures AllTouches(cat, [s]) == Touches(cat, s)
  {
    assert [s][..0] == [];
  }

  lemma OwnTally(cat: Db, s: Signal, k: Key)
    requires !s.subject.Unscored? && k == Key(s.subject, s.user, s.id)
    ensures TallyOf(Touches(cat, s), k) == Some(Score(s.weight, 1, s.ts))
    ensures LastTouch(Touches(cat, s), k) == Some(s.ts)
  {
    TallyOfConcat(Direct(s), Propagated(cat, s), k);
    DirectTally(s, k);
    ParentsAreRows(cat, s, k);
    NotItsOwnParent(cat, s, k);
    ParentBoost(cat, s, k);
    LastTouchConcat(Direct(s), Propagated(cat, s), k);
    LastTouchBounded(Propagated(cat, s), k);
    assert Direct(s)[0].key == k;
  }

  lemma FreshRow(cat: Db, s: Signal, k: Key)
    requires !s.subject.Unscored? && k == Key(s.subject, s.user, s.id)
    ensures Entry(Appended(cat, [s]), k) == Some(Score(s.weight, 1, s.ts))
  {
    OneSignal(cat, s);
    OwnTally(cat, s, k);
    AppendedRow(cat, [s], k);
    AppendedLast(cat, [s], k);
  }

  // ── the weight of an event without one ──

  /** On a fresh store an event writes its subject's row with the weight it carries, or
      its kind's, and the time it carries, or the clock's. */
  lemma FreshEffect(cat: Db, e: Event, now: Time)
    requires !e.subject.Unscored?
    ensures Entry(Appended(cat, [Logged(e, now)]), OwnRow(e)).Some?
    ensures var row := Appended(cat, [Logged(e, now)])[OwnRow(e)];
      && row.count == 1
      && row.score == (if e.weight != 0.0 then e.weight else
                       match e.kind
                       case FollowAdd => 1.2
                       case LibraryAdd => 1.0
                       case PlaylistAdd => 0.5
                       case PlayFull => 0.3
                       case PlaySkip => -0.3
                       case TopRank => 2.0
                       case HeardGood => 1.5
                       case HeardBad => -1.5
                       case Dismiss => -0.5
                       case OpenClick => 0.1
                       case FilterClick => 0.05
                       case OtherKind(_) => 0.0)
      && row.lastAt == (if e.ts.Some? then e.ts.value else now)
  {
    FreshRow(cat, Logged(e, now), OwnRow(e));
  }

  ghost function FreshScore(cat: Db, e: Event, now: Time): real {
    RowScore(cat, [Logged(e, now)], OwnRow(e))
  }

  /** A follow outweighs a library add, which outweighs a playlist add, which outweighs a
      full play, which outweighs a skip. */
  lemma KindsOrdered(cat: Db, e: Event, now: Time)
    requires e.weight == 0.0 && !e.subject.Unscored?
    ensures FreshScore(cat, e.(kind := FollowAdd), now) > FreshScore(cat, e.(kind := LibraryAdd), now)
          > FreshScore(cat, e.(kind := PlaylistAdd), now) > FreshScore(cat, e.(kind := PlayFull), now)
          > 0.0 > FreshScore(cat, e.(kind := PlaySkip), now)
  {
    FreshEffect(cat, e.(kind := FollowAdd), now);
    FreshEffect(cat, e.(kind := LibraryAdd), now);
    FreshEffect(cat, e.(kind := PlaylistAdd), now);
    FreshEffect(cat, e.(kind := PlayFull), now);
    FreshEffect(cat, e.(kind := PlaySkip), now);
  }

  // ── plays of a track ──

  /** The log of some events, appended at the given times. */
  function LogOf(es: seq<Event>, clock: nat -> Time): seq<Signal> {
    if es == [] then [] else LogOf(es[..|es| - 1], clock) + [Logged(es[|es| - 1], clock(|es| - 1))]
  }

  predicate About(e: Event, user: string, track: string) {
    e.user == user && e.subject == Track && e.id == track
  }

  function Plays(es: seq<Event>, user: string, track: string, kind: Kind): nat {
    if es == [] then 0 else
    var before, e := Plays(es[..|es| - 1], user, track, kind), es[|es| - 1];
    if About(e, user, track) && e.kind == kind then before + 1 else before
  }

  ghost predicate OnlyPlays(es: seq<Event>, user: string, track: string) {
    forall e :: e in es ==> e.weight == 0.0 && (About(e, user, track) ==> e.kind == PlayFull || e.kind == PlaySkip)
  }

  /** A play without a weight moves its track's row by 0.3, down for a skip; nothing else
      moves a track's row. */
  lemma PlayMoves(cat: Db, e: Event, now: Time, user: string, track: string)
    requires e.weight == 0.0 && (About(e, user, track) ==> e.kind == PlayFull || e.kind == PlaySkip)
    ensures Amount(TallyOf(Touches(cat, Logged(e, now)), Key(Track, user, track)))
         == if !About(e, user, track) then 0.0 else if e.kind == PlayFull then 0.3 else -0.3
  {
    SignalMoves(cat, Logged(e, now), Key(Track, user, track));
  }

  /** After events without weights, of which f are full plays and s skips of one track,
      the track's row shows 0.3 (f - s). */
  lemma {:induction false} TrackScoreIsPlays(cat: Db, es: seq<Event>, clock: nat -> Time, user: string, track: string)
    requires OnlyPlays(es, user, track)
    ensures RowScore(cat, LogOf(es, clock), Key(Track, user, track))
         == 0.3 * (Plays(es, user, track, PlayFull) as real - Plays(es, user, track, PlaySkip) as real)
  {
    if es != [] {
      var front, e, now := es[..|es| - 1], es[|es| - 1], clock(|es| - 1);
      assert e in es;
      TrackScoreIsPlays(cat, front, clock, user, track);
      RowScoreStep(cat, LogOf(front, clock), Logged(e, now), Key(Track, user, track));
      PlayMoves(cat, e, now, user, track);
    }
  }

  /** Hearing a subject as good and as bad cancels on every row it reaches. */
  lemma HeardCancels(cat: Db, log: seq<Signal>, good: Event, bad: Event, now: Time, later: Time, k: Key)
    requires good.weight == bad.weight == 0.0 && good.kind == HeardGood && bad.kind == HeardBad
    requires good.user == bad.user && good.subject == bad.subject && good.id == bad.id
    ensures RowScore(cat, log + [Logged(good, now)] + [Logged(bad, later)], k) == RowScore(cat, log, k)
  {
    RowScoreStep(cat, log, Logged(good, now), k);
    RowScoreStep(cat, log + [Logged(good, now)], Logged(bad, later), k);
    SignalMoves(cat, Logged(good, now), k);
    SignalMoves(cat, Logged(bad, later), k);
  }
}
