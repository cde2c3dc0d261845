/**
 The signal log and the affinity scores derived from it
 (backend/internal/services/signal/signal.go): what Append does to the affinity
 tables event by event, what Rebuild computes from the raw log with GROUP BY and
 JOIN, and when the two agree.

 The four affinity tables are one map keyed by (table, user, id); a table is
 named by the subject type it scores. Weights are exact reals.
 */
module Signals {
  import opened Basics
  import opened Catalogue

  datatype Kind =
    | LibraryAdd | FollowAdd | TopRank | PlayFull | PlaySkip | PlaylistAdd
    | HeardGood | HeardBad | Dismiss | FilterClick | OpenClick | OtherKind(name: string)

  /** Unscored covers "tag", "type" and anything else applyAffinity skips. */
  datatype SubjectType = Artist | Album | Track | Label | Unscored(name: string)

  /** What callers hand to Append; weight 0 and a missing time mean "unset". */
  datatype Event = Event(user: string, kind: Kind, subject: SubjectType, id: string, weight: real, ts: Option<Time>)

  /** A row of the signals table. */
  datatype Signal = Signal(user: string, kind: Kind, subject: SubjectType, id: string, weight: real, ts: Time)

  datatype Key = Key(table: SubjectType, user: string, id: string)
  datatype Score = Score(score: real, count: nat, lastAt: Time)
  type Affinity = map<Key, Score>

  /** One increment of one affinity row. */
  datatype Touch = Touch(key: Key, amount: real, ts: Time)

  function DefaultWeight(k: Kind): real {
    match k
    case LibraryAdd => 1.0
    case FollowAdd => 1.2
    case TopRank => 2.0
    case PlayFull => 0.3
    case PlaySkip => -0.3
    case PlaylistAdd => 0.5
    case HeardGood => 1.5
    case HeardBad => -1.5
    case Dismiss => -0.5
    case FilterClick => 0.05
    case OpenClick => 0.1
    case OtherKind(_) => 0.0
  }

  predicate Acceptable(e: Event) {
    e.user != "" && e.kind != OtherKind("") && e.subject != Unscored("") && e.id != ""
  }

  /** The row Append logs: the weight falls back to the kind's default, the time to the clock. */
  function Logged(e: Event, now: Time): Signal {
    Signal(e.user, e.kind, e.subject, e.id,
           if e.weight == 0.0 then DefaultWeight(e.kind) else e.weight,
           if e.ts.Some? then e.ts.value else now)
  }

  // ── Append ──

  function AlbumArtist(cat: Db, album: string): string {
    if album in cat.albums then StringOf(cat.albums[album].data.artist) else ""
  }

  function TrackParents(cat: Db, track: string): (string, string) {
    if track in cat.tracks
    then (StringOf(cat.tracks[track].data.album), StringOf(cat.tracks[track].data.artist))
    else ("", "")
  }

  function Direct(s: Signal): seq<Touch> {
    if s.subject.Unscored? then [] else [Touch(Key(s.subject, s.user, s.id), s.weight, s.ts)]
  }

  function Boost(table: SubjectType, s: Signal, id: string, factor: real): seq<Touch> {
    if id == "" then [] else [Touch(Key(table, s.user, id), s.weight * factor, s.ts)]
  }

  /** A track's own artist, else its album's primary artist. */
  function TrackArtist(cat: Db, track: string): string {
    var (album, artist) := TrackParents(cat, track);
    if album != "" && artist == "" then AlbumArtist(cat, album) else artist
  }

  function Propagated(cat: Db, s: Signal): seq<Touch> {
    match s.subject
    case Album => Boost(Artist, s, AlbumArtist(cat, s.id), 0.5)
    case Track =>
      Boost(Album, s, TrackParents(cat, s.id).0, 0.5) + Boost(Artist, s, TrackArtist(cat, s.id), 0.25)
    case _ => []
  }

  function Touches(cat: Db, s: Signal): seq<Touch> {
    Direct(s) + Propagated(cat, s)
  }

  /** INSERT … ON CONFLICT DO UPDATE of applyAffinity. */
  function Apply(aff: Affinity, t: Touch): Affinity {
    aff[t.key := if t.key in aff then Score(aff[t.key].score + t.amount, aff[t.key].count + 1, t.ts)
                 else Score(t.amount, 1, t.ts)]
  }

  function ApplyAll(aff: Affinity, ts: seq<Touch>): Affinity {
    if ts == [] then aff else Apply(ApplyAll(aff, ts[..|ts| - 1]), ts[|ts| - 1])
  }

  // ── Rebuild ──

  /** The seven aggregating statements of Rebuild. */
  datatype Statement = DirectOf(table: SubjectType) | AlbumToArtist | TrackToAlbum | TrackToArtist

  function Factor(q: Statement): real {
    match q
    case DirectOf(_) => 1.0
    case AlbumToArtist => 0.5
    case TrackToAlbum => 0.5
    case TrackToArtist => 0.25
  }

  function RowIf(table: SubjectType, s: Signal, id: Option<string>): seq<Touch> {
    if id.None? then [] else [Touch(Key(table, s.user, id.value), s.weight, s.ts)]
  }

  /** The rows one signal contributes to a statement's join, before grouping. */
  function JoinRows(q: Statement, cat: Db, user: string, s: Signal): seq<Touch> {
    if s.user != user then [] else
    match q
    case DirectOf(table) => if s.subject == table then RowIf(table, s, Some(s.id)) else []
    case AlbumToArtist =>
      if s.subject == Album && s.id in cat.albums then RowIf(Artist, s, cat.albums[s.id].data.artist) else []
    case TrackToAlbum =>
      if s.subject == Track && s.id in cat.tracks then RowIf(Album, s, cat.tracks[s.id].data.album) else []
    case TrackToArtist =>
      if s.subject == Track && s.id in cat.tracks then RowIf(Artist, s, JoinedArtist(cat, s.id)) else []
  }

  /** COALESCE(t.artist_mbid, a.primary_artist_mbid) over LEFT JOIN albums. */
  function JoinedArtist(cat: Db, track: string): Option<string>
    requires track in cat.tracks
  {
    var t := cat.tracks[track].data;
    var viaAlbum := if t.album.Some? && t.album.value in cat.albums
                    then cat.albums[t.album.value].data.artist else None;
    Coalesce(t.artist, viaAlbum)
  }

  function Join(q: Statement, cat: Db, user: string, log: seq<Signal>): seq<Touch> {
    if log == [] then [] else Join(q, cat, user, log[..|log| - 1]) + JoinRows(q, cat, user, log[|log| - 1])
  }

  /** SUM, COUNT and MAX over the rows of one group, or the table's row for a key;
      None where there is no row. */
  type Tally = Option<Score>

  function Combine(a: Tally, b: Tally): Tally {
    if a.None? then b else if b.None? then a else
    Some(Score(a.value.score + b.value.score, a.value.count + b.value.count, Later(a.value.lastAt, b.value.lastAt)))
  }

  /** GREATEST. */
  function Later(a: Time, b: Time): Time {
    if a >= b then a else b
  }

  function Scale(f: real, t: Tally): Tally {
    if t.None? then None else Some(t.value.(score := t.value.score * f))
  }

  function One(t: Touch, k: Key): Tally {
    if t.key == k then Some(Score(t.amount, 1, t.ts)) else None
  }

  function TallyOf(ts: seq<Touch>, k: Key): Tally {
    if ts == [] then None else
    Combine(TallyOf(ts[..|ts| - 1], k), One(ts[|ts| - 1], k))
  }

  function Groups(rel: seq<Touch>): set<Key> {
    set t | t in rel :: t.key
  }

  function Entry(aff: Affinity, k: Key): Tally {
    if k in aff then Some(aff[k]) else None
  }

  function UpsertedRow(aff: Affinity, rel: seq<Touch>, f: real, k: Key): Tally {
    Combine(Entry(aff, k), Scale(f, TallyOf(rel, k)))
  }

  /** SELECT … GROUP BY, each group upserted with + and GREATEST. */
  function UpsertGroups(aff: Affinity, rel: seq<Touch>, f: real): Affinity {
    map k | k in aff.Keys + Groups(rel) && UpsertedRow(aff, rel, f, k).Some? :: UpsertedRow(aff, rel, f, k).value
  }

  function RunStatement(q: Statement, aff: Affinity, cat: Db, user: string, log: seq<Signal>): Affinity {
    UpsertGroups(aff, Join(q, cat, user, log), Factor(q))
  }

  function WithoutUser(aff: Affinity, user: string): Affinity {
    map k | k in aff && k.user != user :: aff[k]
  }

  function Rebuilt(aff: Affinity, cat: Db, user: string, log: seq<Signal>): Affinity {
    var a1 := RunStatement(DirectOf(Artist), WithoutUser(aff, user), cat, user, log);
    var a2 := RunStatement(DirectOf(Album), a1, cat, user, log);
    var a3 := RunStatement(DirectOf(Track), a2, cat, user, log);
    var a4 := RunStatement(DirectOf(Label), a3, cat, user, log);
    var a5 := RunStatement(AlbumToArtist, a4, cat, user, log);
    var a6 := RunStatement(TrackToAlbum, a5, cat, user, log);
    RunStatement(TrackToArtist, a6, cat, user, log)
  }

  // ── tallies form a commutative monoid ──

  lemma CombineAssoc(a: Tally, b: Tally, c: Tally)
    ensures Combine(Combine(a, b), c) == Combine(a, Combine(b, c))
  {
  }

  lemma CombineSwap(a: Tally, b: Tally, c: Tally, d: Tally)
    ensures Combine(Combine(a, b), Combine(c, d)) == Combine(Combine(a, c), Combine(b, d))
  {
  }

  lemma {:induction false} TallyOfConcat(a: seq<Touch>, b: seq<Touch>, k: Key)
    ensures TallyOf(a + b, k) == Combine(TallyOf(a, k), TallyOf(b, k))
  {
    if b == [] {
      assert a + b == a;
    } else {
      var front, t := b[..|b| - 1], b[|b| - 1];
      var ab := a + b;
      assert ab[..|ab| - 1] == a + front && ab[|ab| - 1] == t;
      TallyOfConcat(a, front, k);
      CombineAssoc(TallyOf(a, k), TallyOf(front, k), One(t, k));
    }
  }

  lemma {:induction false} TallyPresent(ts: seq<Touch>, k: Key)
    ensures k in Groups(ts) <==> TallyOf(ts, k).Some?
  {
    if ts != [] {
      var front := ts[..|ts| - 1];
      TallyPresent(front, k);
      assert Groups(ts) == Groups(front) + {ts[|ts| - 1].key};
    }
  }

  // ── Rebuild, row by row ──

  lemma UpsertGroupsRow(aff: Affinity, rel: seq<Touch>, f: real, k: Key)
    ensures Entry(UpsertGroups(aff, rel, f), k) == Combine(Entry(aff, k), Scale(f, TallyOf(rel, k)))
  {
    TallyPresent(rel, k);
  }

  /** What one statement adds to row k. */
  ghost function Part(q: Statement, cat: Db, user: string, log: seq<Signal>, k: Key): Tally {
    Scale(Factor(q), TallyOf(Join(q, cat, user, log), k))
  }

  function Sum7(a: Tally, b: Tally, c: Tally, d: Tally, e: Tally, f: Tally, g: Tally): Tally {
    Combine(Combine(Combine(Combine(Combine(Combine(a, b), c), d), e), f), g)
  }

  /** What the seven statements add to row k. */
  ghost function Contribution(cat: Db, user: string, log: seq<Signal>, k: Key): Tally {
    Sum7(Part(DirectOf(Artist), cat, user, log, k), Part(DirectOf(Album), cat, user, log, k),
         Part(DirectOf(Track), cat, user, log, k), Part(DirectOf(Label), cat, user, log, k),
         Part(AlbumToArtist, cat, user, log, k), Part(TrackToAlbum, cat, user, log, k),
         Part(TrackToArtist, cat, user, log, k))
  }

  lemma RebuiltOwnRow(aff: Affinity, cat: Db, user: string, log: seq<Signal>, k: Key)
    requires k.user == user
    ensures Entry(Rebuilt(aff, cat, user, log), k) == Contribution(cat, user, log, k)
  {
    var a0 := WithoutUser(aff, user);
    var a1 := RunStatement(DirectOf(Artist), a0, cat, user, log);
    var a2 := RunStatement(DirectOf(Album), a1, cat, user, log);
    var a3 := RunStatement(DirectOf(Track), a2, cat, user, log);
    var a4 := RunStatement(DirectOf(Label), a3, cat, user, log);
    var a5 := RunStatement(AlbumToArtist, a4, cat, user, log);
    var a6 := RunStatement(TrackToAlbum, a5, cat, user, log);
    UpsertGroupsRow(a0, Join(DirectOf(Artist), cat, user, log), 1.0, k);
    UpsertGroupsRow(a1, Join(DirectOf(Album), cat, user, log), 1.0, k);
    UpsertGroupsRow(a2, Join(DirectOf(Track), cat, user, log), 1.0, k);
    UpsertGroupsRow(a3, Join(DirectOf(Label), cat, user, log), 1.0, k);
    UpsertGroupsRow(a4, Join(AlbumToArtist, cat, user, log), 0.5, k);
    UpsertGroupsRow(a5, Join(TrackToAlbum, cat, user, log), 0.5, k);
    UpsertGroupsRow(a6, Join(TrackToArtist, cat, user, log), 0.25, k);
  }

  lemma Distribute(x: real, y: real, total: real, f: real)
    requires total == x + y
    ensures total * f == x * f + y * f
  {
  }

  lemma ScaleCombine(f: real, a: Tally, b: Tally)
    ensures Scale(f, Combine(a, b)) == Combine(Scale(f, a), Scale(f, b))
  {
    if a.Some? && b.Some? {
      var whole, parts := Scale(f, Combine(a, b)).value, Combine(Scale(f, a), Scale(f, b)).value;
      Distribute(a.value.score, b.value.score, Combine(a, b).value.score, f);
      assert whole.score == parts.score && whole.count == parts.count && whole.lastAt == parts.lastAt;
      assert whole == parts;
    }
  }

  lemma Sum7Combine(a: Tally, b: Tally, c: Tally, d: Tally, e: Tally, f: Tally, g: Tally,
                    a': Tally, b': Tally, c': Tally, d': Tally, e': Tally, f': Tally, g': Tally)
    ensures Sum7(Combine(a, a'), Combine(b, b'), Combine(c, c'), Combine(d, d'), Combine(e, e'), Combine(f, f'),
                 Combine(g, g'))
         == Combine(Sum7(a, b, c, d, e, f, g), Sum7(a', b', c', d', e', f', g'))
  {
    var s2, s2' := Combine(a, b), Combine(a', b');
    var s3, s3' := Combine(s2, c), Combine(s2', c');
    var s4, s4' := Combine(s3, d), Combine(s3', d');
    var s5, s5' := Combine(s4, e), Combine(s4', e');
    var s6, s6' := Combine(s5, f), Combine(s5', f');
    CombineSwap(a, a', b, b');
    CombineSwap(s2, s2', c, c');
    CombineSwap(s3, s3', d, d');
    CombineSwap(s4, s4', e, e');
    CombineSwap(s5, s5', f, f');
    CombineSwap(s6, s6', g, g');
  }

  lemma PartStep(q: Statement, cat: Db, user: string, log: seq<Signal>, s: Signal, k: Key)
    ensures Part(q, cat, user, log + [s], k) == Combine(Part(q, cat, user, log, k), PartOf(q, cat, user, s, k))
  {
    assert (log + [s])[..|log|] == log;
    TallyOfConcat(Join(q, cat, user, log), JoinRows(q, cat, user, s), k);
    TallyShort(JoinRows(q, cat, user, s), k);
    ScaleCombine(Factor(q), TallyOf(Join(q, cat, user, log), k), TallyOf(JoinRows(q, cat, user, s), k));
  }

  /** GROUP BY over a longer log adds the new signal's own groups. */
  lemma ContributionStep(cat: Db, user: string, log: seq<Signal>, s: Signal, k: Key)
    ensures Contribution(cat, user, log + [s], k)
         == Combine(Contribution(cat, user, log, k), SignalParts(cat, user, s, k))
  {
    PartStep(DirectOf(Artist), cat, user, log, s, k);
    PartStep(DirectOf(Album), cat, user, log, s, k);
    PartStep(DirectOf(Track), cat, user, log, s, k);
    PartStep(DirectOf(Label), cat, user, log, s, k);
    PartStep(AlbumToArtist, cat, user, log, s, k);
    PartStep(TrackToAlbum, cat, user, log, s, k);
    PartStep(TrackToArtist, cat, user, log, s, k);
    Sum7Combine(Part(DirectOf(Artist), cat, user, log, k), Part(DirectOf(Album), cat, user, log, k),
                Part(DirectOf(Track), cat, user, log, k), Part(DirectOf(Label), cat, user, log, k),
                Part(AlbumToArtist, cat, user, log, k), Part(TrackToAlbum, cat, user, log, k),
                Part(TrackToArtist, cat, user, log, k),
                PartOf(DirectOf(Artist), cat, user, s, k), PartOf(DirectOf(Album), cat, user, s, k),
                PartOf(DirectOf(Track), cat, user, s, k), PartOf(DirectOf(Label), cat, user, s, k),
                PartOf(AlbumToArtist, cat, user, s, k), PartOf(TrackToAlbum, cat, user, s, k),
                PartOf(TrackToArtist, cat, user, s, k));
  }

  function TallyRow(row: seq<Touch>, k: Key): Tally {
    if row == [] then None else One(row[0], k)
  }

  lemma TallyShort(row: seq<Touch>, k: Key)
    requires |row| <= 1
    ensures TallyOf(row, k) == TallyRow(row, k)
  {
    if row != [] {
      assert row[..0] == [];
    }
  }

  /** What one signal adds to row k through one statement. */
  function PartOf(q: Statement, cat: Db, user: string, s: Signal, k: Key): Tally {
    Scale(Factor(q), TallyRow(JoinRows(q, cat, user, s), k))
  }

  function SignalParts(cat: Db, user: string, s: Signal, k: Key): Tally {
    Sum7(PartOf(DirectOf(Artist), cat, user, s, k), PartOf(DirectOf(Album), cat, user, s, k),
         PartOf(DirectOf(Track), cat, user, s, k), PartOf(DirectOf(Label), cat, user, s, k),
         PartOf(AlbumToArtist, cat, user, s, k), PartOf(TrackToAlbum, cat, user, s, k),
         PartOf(TrackToArtist, cat, user, s, k))
  }

  // ── Append, row by row ──

  /** Every increment a log causes, in order. */
  function AllTouches(cat: Db, log: seq<Signal>): seq<Touch> {
    if log == [] then [] else AllTouches(cat, log[..|log| - 1]) + Touches(cat, log[|log| - 1])
  }

  /** The affinity tables after appending a log to empty tables. */
  function Appended(cat: Db, log: seq<Signal>): Affinity {
    if log == [] then map[] else ApplyAll(Appended(cat, log[..|log| - 1]), Touches(cat, log[|log| - 1]))
  }

  /** Both rows absent, or both present with the same score and count. */
  ghost predicate SameScore(a: Tally, b: Tally) {
    (a.Some? <==> b.Some?) && (a.Some? ==> a.value.score == b.value.score && a.value.count == b.value.count)
  }

  lemma {:induction false} ApplyAllRow(aff: Affinity, ts: seq<Touch>, k: Key)
    ensures SameScore(Entry(ApplyAll(aff, ts), k), Combine(Entry(aff, k), TallyOf(ts, k)))
  {
    if ts != [] {
      var front, t := ts[..|ts| - 1], ts[|ts| - 1];
      var before := ApplyAll(aff, front);
      ApplyAllRow(aff, front, k);
      CombineAssoc(Entry(aff, k), TallyOf(front, k), One(t, k));
      assert SameScore(Entry(Apply(before, t), k), Combine(Entry(before, k), One(t, k)));
    }
  }

  /** Score and count of every row are the sum and number of the increments aimed
      at it; a row exists exactly when there was one. */
  lemma {:induction false} AppendedRow(cat: Db, log: seq<Signal>, k: Key)
    ensures SameScore(Entry(Appended(cat, log), k), TallyOf(AllTouches(cat, log), k))
  {
    if log != [] {
      var front, s := log[..|log| - 1], log[|log| - 1];
      AppendedRow(cat, front, k);
      ApplyAllRow(Appended(cat, front), Touches(cat, s), k);
      TallyOfConcat(AllTouches(cat, front), Touches(cat, s), k);
    }
  }

  // ── one signal seen from both sides ──

  /** A parent the catalogue stores as "" instead of NULL: Append skips it, the joins of Rebuild do not. */
  predicate EmptyLink(cat: Db, s: Signal) {
    match s.subject
    case Album => s.id in cat.albums && cat.albums[s.id].data.artist == Some("")
    case Track => s.id in cat.tracks && (cat.tracks[s.id].data.album == Some("") || JoinedArtist(cat, s.id) == Some(""))
    case _ => false
  }

  /** A signal changes the rows of its own user only. */
  lemma TouchesOwnUser(cat: Db, s: Signal, k: Key)
    requires k.user != s.user
    ensures TallyOf(Touches(cat, s), k) == None
  {
    TallyPresent(Touches(cat, s), k);
  }

  lemma TouchesUnrolled(cat: Db, s: Signal, k: Key)
    ensures TallyOf(Touches(cat, s), k) == Combine(TallyRow(Direct(s), k),
              match s.subject
              case Album => TallyRow(Boost(Artist, s, AlbumArtist(cat, s.id), 0.5), k)
              case Track => Combine(TallyRow(Boost(Album, s, TrackParents(cat, s.id).0, 0.5), k),
                                    TallyRow(Boost(Artist, s, TrackArtist(cat, s.id), 0.25), k))
              case _ => None)
  {
    TallyOfConcat(Direct(s), Propagated(cat, s), k);
    TallyShort(Direct(s), k);
    if s.subject == Track {
      var al := Boost(Album, s, TrackParents(cat, s.id).0, 0.5);
      var ar := Boost(Artist, s, TrackArtist(cat, s.id), 0.25);
      TallyOfConcat(al, ar, k);
      TallyShort(al, k);
      TallyShort(ar, k);
    } else {
      TallyShort(Propagated(cat, s), k);
    }
  }

  lemma DirectPart(table: SubjectType, cat: Db, user: string, s: Signal, k: Key)
    requires s.user == user && !table.Unscored?
    ensures PartOf(DirectOf(table), cat, user, s, k) == if s.subject == table then TallyRow(Direct(s), k) else None
  {
  }

  /** Each join finds the parent Append looked up. */
  lemma PropagatedParts(cat: Db, user: string, s: Signal, k: Key)
    requires s.user == user && !EmptyLink(cat, s)
    ensures PartOf(AlbumToArtist, cat, user, s, k)
         == if s.subject == Album then TallyRow(Boost(Artist, s, AlbumArtist(cat, s.id), 0.5), k) else None
    ensures PartOf(TrackToAlbum, cat, user, s, k)
         == if s.subject == Track then TallyRow(Boost(Album, s, TrackParents(cat, s.id).0, 0.5), k) else None
    ensures PartOf(TrackToArtist, cat, user, s, k)
         == if s.subject == Track then TallyRow(Boost(Artist, s, TrackArtist(cat, s.id), 0.25), k) else None
  {
  }

  /** The seven joins see exactly the increments Append made, unless the signal's
      subject hangs off an empty-string parent. */
  lemma OneSignalAgrees(cat: Db, user: string, s: Signal, k: Key)
    requires k.user == user && !(s.user == user && EmptyLink(cat, s))
    ensures SignalParts(cat, user, s, k) == TallyOf(Touches(cat, s), k)
  {
    if s.user != user {
      TouchesOwnUser(cat, s, k);
    } else {
      TouchesUnrolled(cat, s, k);
      DirectPart(Artist, cat, user, s, k);
      DirectPart(Album, cat, user, s, k);
      DirectPart(Track, cat, user, s, k);
      DirectPart(Label, cat, user, s, k);
      PropagatedParts(cat, user, s, k);
    }
  }

  ghost predicate NoEmptyLinks(cat: Db, user: string, log: seq<Signal>) {
    forall i :: 0 <= i < |log| && log[i].user == user ==> !EmptyLink(cat, log[i])
  }

  /** Upserts store a missing parent as NULL, so a catalogue they wrote has no such link. */
  lemma NamedLinksSuffice(cat: Db, user: string, log: seq<Signal>)
    requires LinksNamed(cat)
    ensures NoEmptyLinks(cat, user, log)
  {
    forall i | 0 <= i < |log|
      ensures !EmptyLink(cat, log[i])
    {
      var s := log[i];
      if s.subject == Track && s.id in cat.tracks {
        var t := cat.tracks[s.id].data;
        assert LinkNamed(t.album) && LinkNamed(t.artist);
        assert t.album.Some? && t.album.value in cat.albums ==> LinkNamed(cat.albums[t.album.value].data.artist);
      } else if s.subject == Album && s.id in cat.albums {
        assert LinkNamed(cat.albums[s.id].data.artist);
      }
    }
  }

  lemma {:induction false} ContributionAgrees(cat: Db, user: string, log: seq<Signal>, k: Key)
    requires k.user == user && NoEmptyLinks(cat, user, log)
    ensures Contribution(cat, user, log, k) == TallyOf(AllTouches(cat, log), k)
  {
    if log != [] {
      var front, s := log[..|log| - 1], log[|log| - 1];
      assert log == front + [s];
      assert s == log[|log| - 1];
      ContributionAgrees(cat, user, front, k);
      ContributionStep(cat, user, front, s, k);
      OneSignalAgrees(cat, user, s, k);
      TallyOfConcat(AllTouches(cat, front), Touches(cat, s), k);
    }
  }

  lemma {:induction false} JoinsStayWithUser(q: Statement, cat: Db, user: string, log: seq<Signal>, k: Key)
    requires k.user != user
    ensures TallyOf(Join(q, cat, user, log), k) == None
  {
    if log != [] {
      var front, s := log[..|log| - 1], log[|log| - 1];
      JoinsStayWithUser(q, cat, user, front, k);
      TallyOfConcat(Join(q, cat, user, front), JoinRows(q, cat, user, s), k);
      TallyShort(JoinRows(q, cat, user, s), k);
    }
  }

  lemma RebuiltOtherRow(aff: Affinity, cat: Db, user: string, log: seq<Signal>, k: Key)
    requires k.user != user
    ensures Entry(Rebuilt(aff, cat, user, log), k) == Entry(aff, k)
  {
    OtherRowStays(DirectOf(Artist), WithoutUser(aff, user), cat, user, log, k);
    var a1 := RunStatement(DirectOf(Artist), WithoutUser(aff, user), cat, user, log);
    OtherRowStays(DirectOf(Album), a1, cat, user, log, k);
    var a2 := RunStatement(DirectOf(Album), a1, cat, user, log);
    OtherRowStays(DirectOf(Track), a2, cat, user, log, k);
    var a3 := RunStatement(DirectOf(Track), a2, cat, user, log);
    OtherRowStays(DirectOf(Label), a3, cat, user, log, k);
    var a4 := RunStatement(DirectOf(Label), a3, cat, user, log);
    OtherRowStays(AlbumToArtist, a4, cat, user, log, k);
    var a5 := RunStatement(AlbumToArtist, a4, cat, user, log);
    OtherRowStays(TrackToAlbum, a5, cat, user, log, k);
    OtherRowStays(TrackToArtist, RunStatement(TrackToAlbum, a5, cat, user, log), cat, user, log, k);
  }

  lemma OtherRowStays(q: Statement, aff: Affinity, cat: Db, user: string, log: seq<Signal>, k: Key)
    requires k.user != user
    ensures Entry(RunStatement(q, aff, cat, user, log), k) == Entry(aff, k)
  {
    UpsertGroupsRow(aff, Join(q, cat, user, log), Factor(q), k);
    JoinsStayWithUser(q, cat, user, log, k);
  }

  /** Rebuild, row by row: the user's rows are the sum, number and latest time of
      all increments Append would have made; every other user's rows are untouched. */
  lemma RebuiltRow(aff: Affinity, cat: Db, user: string, log: seq<Signal>, k: Key)
    requires LinksNamed(cat)
    ensures Entry(Rebuilt(aff, cat, user, log), k)
         == if k.user == user then TallyOf(AllTouches(cat, log), k) else Entry(aff, k)
  {
    if k.user == user {
      NamedLinksSuffice(cat, user, log);
      RebuiltOwnRow(aff, cat, user, log, k);
      ContributionAgrees(cat, user, log, k);
    } else {
      RebuiltOtherRow(aff, cat, user, log, k);
    }
  }

  // ── Append and Rebuild agree ──

  lemma ParentsAreNamed(cat: Db, s: Signal)
    ensures forall t :: t in Propagated(cat, s) ==> t.key.id != ""
  {
  }

  lemma EmptyIdUntouched(cat: Db, s: Signal, k: Key)
    requires s.id != "" && k.id == ""
    ensures TallyOf(Touches(cat, s), k) == None
  {
    TallyOfConcat(Direct(s), Propagated(cat, s), k);
    TallyShort(Direct(s), k);
    ParentsAreNamed(cat, s);
    TallyPresent(Propagated(cat, s), k);
  }

  lemma {:induction false} EmptyIdNeverTouched(cat: Db, log: seq<Signal>, k: Key)
    requires forall i :: 0 <= i < |log| ==> log[i].id != ""
    requires k.id == ""
    ensures TallyOf(AllTouches(cat, log), k) == None
  {
    if log != [] {
      var front, s := log[..|log| - 1], log[|log| - 1];
      EmptyIdNeverTouched(cat, front, k);
      EmptyIdUntouched(cat, s, k);
      TallyOfConcat(AllTouches(cat, front), Touches(cat, s), k);
    }
  }

  lemma EmptyLinkPart(cat: Db, user: string, s: Signal) returns (k: Key)
    requires s.user == user && EmptyLink(cat, s)
    ensures k.user == user && k.id == "" && SignalParts(cat, user, s, k).Some?
  {
    k := Key(if s.subject == Track && cat.tracks[s.id].data.album == Some("") then Album else Artist, user, "");
  }

  /** An empty-string parent makes Rebuild write a row whose id is "". */
  lemma {:induction false} EmptyLinkMakesRow(cat: Db, user: string, log: seq<Signal>, i: int) returns (k: Key)
    requires 0 <= i < |log| && log[i].user == user && EmptyLink(cat, log[i])
    ensures k.user == user && k.id == "" && Contribution(cat, user, log, k).Some?
  {
    var front, s := log[..|log| - 1], log[|log| - 1];
    assert log == front + [s];
    if i < |front| {
      k := EmptyLinkMakesRow(cat, user, front, i);
    } else {
      k := EmptyLinkPart(cat, user, s);
    }
    ContributionStep(cat, user, front, s, k);
  }

  /** Over any catalogue the upserts can have written, Rebuild reproduces on every row
      of the user the score and count that Append accumulated, whatever was in the tables. */
  lemma RebuildAgrees(aff: Affinity, ops: seq<Op>, user: string, log: seq<Signal>)
    ensures var cat := Run(EmptyDb(), ops);
      forall k: Key :: k.user == user ==>
          SameScore(Entry(Rebuilt(aff, cat, user, log), k), Entry(Appended(cat, log), k))
  {
    var cat := Run(EmptyDb(), ops);
    ReachedLinksNamed(ops);
    forall k: Key | k.user == user
      ensures SameScore(Entry(Rebuilt(aff, cat, user, log), k), Entry(Appended(cat, log), k))
    {
      RebuiltRow(aff, cat, user, log, k);
      AppendedRow(cat, log, k);
    }
  }

  /** Over an arbitrary catalogue the agreement rests exactly on the signalled albums
      and tracks of that user having no empty-string parent. */
  lemma RebuildAgreesIff(aff: Affinity, cat: Db, user: string, log: seq<Signal>)
    requires forall i :: 0 <= i < |log| ==> log[i].id != ""
    ensures (forall k: Key :: k.user == user ==>
             SameScore(Entry(Rebuilt(aff, cat, user, log), k), Entry(Appended(cat, log), k)))
       <==> NoEmptyLinks(cat, user, log)
  {
    if NoEmptyLinks(cat, user, log) {
      forall k: Key | k.user == user
        ensures SameScore(Entry(Rebuilt(aff, cat, user, log), k), Entry(Appended(cat, log), k))
      {
        RebuiltOwnRow(aff, cat, user, log, k);
        ContributionAgrees(cat, user, log, k);
        AppendedRow(cat, log, k);
      }
    } else {
      var i :| 0 <= i < |log| && log[i].user == user && EmptyLink(cat, log[i]);
      var k := EmptyLinkMakesRow(cat, user, log, i);
      RebuiltOwnRow(aff, cat, user, log, k);
      EmptyIdNeverTouched(cat, log, k);
      AppendedRow(cat, log, k);
      assert !SameScore(Entry(Rebuilt(aff, cat, user, log), k), Entry(Appended(cat, log), k));
    }
  }

  lemma SameRowsSameTable(a: Affinity, b: Affinity)
    requires forall k :: Entry(a, k) == Entry(b, k)
    ensures a == b
  {
    forall k: Key
      ensures k in a <==> k in b
      ensures k in a ==> a[k] == b[k]
    {
      assert Entry(a, k) == Entry(b, k);
    }
  }

  /** Rebuilding twice is rebuilding once, and never touches another user's rows. */
  lemma RebuildIdempotent(aff: Affinity, cat: Db, user: string, log: seq<Signal>)
    ensures Rebuilt(Rebuilt(aff, cat, user, log), cat, user, log) == Rebuilt(aff, cat, user, log)
    ensures forall k: Key :: k.user != user ==> Entry(Rebuilt(aff, cat, user, log), k) == Entry(aff, k)
  {
    var once := Rebuilt(aff, cat, user, log);
    forall k: Key
      ensures Entry(Rebuilt(once, cat, user, log), k) == Entry(once, k)
      ensures k.user != user ==> Entry(once, k) == Entry(aff, k)
    {
      if k.user == user {
        RebuiltOwnRow(aff, cat, user, log, k);
        RebuiltOwnRow(once, cat, user, log, k);
      } else {
        RebuiltOtherRow(aff, cat, user, log, k);
        RebuiltOtherRow(once, cat, user, log, k);
      }
    }
    SameRowsSameTable(Rebuilt(once, cat, user, log), once);
  }

  // ── the order of the log ──

  /** What a log adds up to when signal s adds g(s). */
  ghost function Total(g: Signal -> Tally, log: seq<Signal>): Tally {
    if log == [] then None else Combine(Total(g, log[..|log| - 1]), g(log[|log| - 1]))
  }

  lemma TotalStep(g: Signal -> Tally, log: seq<Signal>, s: Signal)
    ensures Total(g, log + [s]) == Combine(Total(g, log), g(s))
  {
    assert (log + [s])[..|log|] == log;
  }

  lemma CombineRotate(a: Tally, b: Tally, c: Tally)
    ensures Combine(Combine(a, b), c) == Combine(Combine(a, c), b)
  {
  }

  /** A signal may as well come last. */
  lemma {:induction false} MoveToEnd(g: Signal -> Tally, a: seq<Signal>, s: Signal, b: seq<Signal>)
    ensures Total(g, a + [s] + b) == Combine(Total(g, a + b), g(s))
  {
    if b == [] {
      assert a + [s] + b == a + [s] && a + b == a;
      TotalStep(g, a, s);
    } else {
      var front, t := b[..|b| - 1], b[|b| - 1];
      assert a + [s] + b == a + [s] + front + [t];
      assert a + b == a + front + [t];
      MoveToEnd(g, a, s, front);
      TotalStep(g, a + [s] + front, t);
      TotalStep(g, a + front, t);
      CombineRotate(Total(g, a + front), g(s), g(t));
    }
  }

  lemma RemoveOne(log: seq<Signal>, log': seq<Signal>) returns (i: int)
    requires multiset(log) == multiset(log') && log != []
    ensures log == log[..|log| - 1] + [log[|log| - 1]]
    ensures 0 <= i < |log'| && log' == log'[..i] + [log[|log| - 1]] + log'[i + 1..]
    ensures multiset(log[..|log| - 1]) == multiset(log'[..i] + log'[i + 1..])
  {
    var s := log[|log| - 1];
    assert log == log[..|log| - 1] + [s];
    assert s in multiset(log');
    i :| 0 <= i < |log'| && log'[i] == s;
    assert log' == log'[..i] + [s] + log'[i + 1..];
    assert multiset(log[..|log| - 1]) == multiset(log) - multiset{s};
    assert multiset(log'[..i] + log'[i + 1..]) == multiset(log') - multiset{s};
  }

  lemma {:induction false} TotalIgnoresOrder(g: Signal -> Tally, log: seq<Signal>, log': seq<Signal>)
    requires multiset(log) == multiset(log')
    ensures Total(g, log) == Total(g, log')
  {
    if log == [] {
      assert |log'| == |multiset(log')| == 0;
    } else {
      var front, s := log[..|log| - 1], log[|log| - 1];
      var i := RemoveOne(log, log');
      var a, b := log'[..i], log'[i + 1..];
      TotalIgnoresOrder(g, front, a + b);
      MoveToEnd(g, a, s, b);
      TotalStep(g, front, s);
    }
  }

  lemma {:induction false} TouchesAreTotal(cat: Db, log: seq<Signal>, k: Key)
    ensures TallyOf(AllTouches(cat, log), k) == Total(s => TallyOf(Touches(cat, s), k), log)
  {
    if log != [] {
      TouchesAreTotal(cat, log[..|log| - 1], k);
      TallyOfConcat(AllTouches(cat, log[..|log| - 1]), Touches(cat, log[|log| - 1]), k);
    }
  }

  lemma {:induction false} ContributionIsTotal(cat: Db, user: string, log: seq<Signal>, k: Key)
    ensures Contribution(cat, user, log, k) == Total(s => SignalParts(cat, user, s, k), log)
  {
    if log != [] {
      var front, s := log[..|log| - 1], log[|log| - 1];
      assert log == front + [s];
      ContributionIsTotal(cat, user, front, k);
      ContributionStep(cat, user, front, s, k);
    }
  }

  lemma RebuiltIgnoresOrder(aff: Affinity, cat: Db, user: string, log: seq<Signal>, log': seq<Signal>, k: Key)
    requires multiset(log) == multiset(log')
    ensures Entry(Rebuilt(aff, cat, user, log), k) == Entry(Rebuilt(aff, cat, user, log'), k)
  {
    if k.user == user {
      RebuiltOwnRow(aff, cat, user, log, k);
      RebuiltOwnRow(aff, cat, user, log', k);
      ContributionIsTotal(cat, user, log, k);
      ContributionIsTotal(cat, user, log', k);
      TotalIgnoresOrder(s => SignalParts(cat, user, s, k), log, log');
    } else {
      RebuiltOtherRow(aff, cat, user, log, k);
      RebuiltOtherRow(aff, cat, user, log', k);
    }
  }

  lemma AppendedIgnoresOrder(cat: Db, log: seq<Signal>, log': seq<Signal>, k: Key)
    requires multiset(log) == multiset(log')
    ensures SameScore(Entry(Appended(cat, log), k), Entry(Appended(cat, log'), k))
  {
    TouchesAreTotal(cat, log, k);
    TouchesAreTotal(cat, log', k);
    TotalIgnoresOrder(s => TallyOf(Touches(cat, s), k), log, log');
    AppendedRow(cat, log, k);
    AppendedRow(cat, log', k);
  }

  /** Permuting the log changes no score and no count of any row Append accumulates,
      and nothing at all of what Rebuild writes. */
  lemma LogOrderIrrelevant(aff: Affinity, cat: Db, user: string, log: seq<Signal>, log': seq<Signal>)
    requires multiset(log) == multiset(log')
    ensures forall k :: SameScore(Entry(Appended(cat, log), k), Entry(Appended(cat, log'), k))
    ensures Rebuilt(aff, cat, user, log) == Rebuilt(aff, cat, user, log')
  {
    forall k: Key
      ensures SameScore(Entry(Appended(cat, log), k), Entry(Appended(cat, log'), k))
      ensures Entry(Rebuilt(aff, cat, user, log), k) == Entry(Rebuilt(aff, cat, user, log'), k)
    {
      AppendedIgnoresOrder(cat, log, log', k);
      RebuiltIgnoresOrder(aff, cat, user, log, log', k);
    }
    SameRowsSameTable(Rebuilt(aff, cat, user, log), Rebuilt(aff, cat, user, log'));
  }

  // ── last_signal_at ──

  /** The time of the last increment aimed at k. */
  ghost function LastTouch(ts: seq<Touch>, k: Key): Option<Time> {
    if ts == [] then None
    else if ts[|ts| - 1].key == k then Some(ts[|ts| - 1].ts)
    else LastTouch(ts[..|ts| - 1], k)
  }

  lemma {:induction false} LastTouchConcat(a: seq<Touch>, b: seq<Touch>, k: Key)
    ensures LastTouch(a + b, k) == if LastTouch(b, k).Some? then LastTouch(b, k) else LastTouch(a, k)
  {
    if b == [] {
      assert a + b == a;
    } else {
      assert (a + b)[..|a + b| - 1] == a + b[..|b| - 1];
      LastTouchConcat(a, b[..|b| - 1], k);
    }
  }

  ghost function LastAt(t: Tally): Option<Time> {
    if t.Some? then Some(t.value.lastAt) else None
  }

  lemma {:induction false} ApplyAllLast(aff: Affinity, ts: seq<Touch>, k: Key)
    ensures LastAt(Entry(ApplyAll(aff, ts), k))
         == if LastTouch(ts, k).Some? then LastTouch(ts, k) else LastAt(Entry(aff, k))
  {
    if ts != [] {
      ApplyAllLast(aff, ts[..|ts| - 1], k);
    }
  }

  lemma {:induction false} AppendedLast(cat: Db, log: seq<Signal>, k: Key)
    ensures LastAt(Entry(Appended(cat, log), k)) == LastTouch(AllTouches(cat, log), k)
  {
    if log != [] {
      var front, s := log[..|log| - 1], log[|log| - 1];
      AppendedLast(cat, front, k);
      ApplyAllLast(Appended(cat, front), Touches(cat, s), k);
      LastTouchConcat(AllTouches(cat, front), Touches(cat, s), k);
    }
  }

  lemma {:induction false} LastTouchBounded(ts: seq<Touch>, k: Key)
    ensures LastTouch(ts, k).Some? <==> TallyOf(ts, k).Some?
    ensures TallyOf(ts, k).Some? ==> LastTouch(ts, k).value <= TallyOf(ts, k).value.lastAt
    ensures TallyOf(ts, k).Some? ==> exists i :: 0 <= i < |ts| && ts[i].ts == TallyOf(ts, k).value.lastAt
  {
    if ts != [] {
      var front := ts[..|ts| - 1];
      LastTouchBounded(front, k);
      if TallyOf(ts, k).Some? {
        if TallyOf(front, k).Some? && TallyOf(ts, k).value.lastAt == TallyOf(front, k).value.lastAt {
          var i :| 0 <= i < |front| && front[i].ts == TallyOf(front, k).value.lastAt;
          assert ts[i].ts == TallyOf(ts, k).value.lastAt;
        } else {
          assert ts[|ts| - 1].ts == TallyOf(ts, k).value.lastAt;
        }
      }
    }
  }

  ghost predicate InOrder(log: seq<Signal>) {
    forall i, j :: 0 <= i < j < |log| ==> log[i].ts <= log[j].ts
  }

  lemma TouchTimes(cat: Db, s: Signal)
    ensures forall t :: t in Touches(cat, s) ==> t.ts == s.ts
  {
  }

  lemma {:induction false} TallyNotAfter(cat: Db, log: seq<Signal>, limit: Time, k: Key)
    requires forall i :: 0 <= i < |log| ==> log[i].ts <= limit
    ensures TallyOf(AllTouches(cat, log), k).Some? ==> TallyOf(AllTouches(cat, log), k).value.lastAt <= limit
  {
    if log != [] {
      var front, s := log[..|log| - 1], log[|log| - 1];
      TallyNotAfter(cat, front, limit, k);
      TallyOfConcat(AllTouches(cat, front), Touches(cat, s), k);
      LastTouchBounded(Touches(cat, s), k);
      TouchTimes(cat, s);
    }
  }

  lemma {:induction false} SameTimeTouches(ts: seq<Touch>, at: Time, k: Key)
    requires forall t :: t in ts ==> t.ts == at
    ensures LastTouch(ts, k) == LastAt(TallyOf(ts, k))
    ensures LastTouch(ts, k).Some? ==> LastTouch(ts, k).value == at
  {
    if ts != [] {
      SameTimeTouches(ts[..|ts| - 1], at, k);
    }
  }

  /** Increments no earlier than anything before decide both the last and the latest time. */
  lemma LaterTouchesWin(before: seq<Touch>, ts: seq<Touch>, at: Time, k: Key)
    requires LastTouch(before, k) == LastAt(TallyOf(before, k))
    requires TallyOf(before, k).Some? ==> TallyOf(before, k).value.lastAt <= at
    requires forall t :: t in ts ==> t.ts == at
    ensures LastTouch(before + ts, k) == LastAt(TallyOf(before + ts, k))
  {
    LastTouchConcat(before, ts, k);
    TallyOfConcat(before, ts, k);
    SameTimeTouches(ts, at, k);
  }

  lemma {:induction false} OrderedLastIsLatest(cat: Db, log: seq<Signal>, k: Key)
    requires InOrder(log)
    ensures LastTouch(AllTouches(cat, log), k) == LastAt(TallyOf(AllTouches(cat, log), k))
  {
    if log != [] {
      var front, s := log[..|log| - 1], log[|log| - 1];
      OrderedLastIsLatest(cat, front, k);
      TallyNotAfter(cat, front, s.ts, k);
      TouchTimes(cat, s);
      LaterTouchesWin(AllTouches(cat, front), Touches(cat, s), s.ts, k);
    }
  }

  /** On a user's row Append keeps the time of the last event that touched it,
      Rebuild the latest time of all of them: Rebuild's is never earlier, and the
      rows are equal outright when events arrive in time order. */
  lemma LastSignalTimes(aff: Affinity, cat: Db, user: string, log: seq<Signal>, k: Key)
    requires k.user == user && LinksNamed(cat)
    ensures k in Appended(cat, log) <==> k in Rebuilt(aff, cat, user, log)
    ensures k in Appended(cat, log) ==> Appended(cat, log)[k].lastAt <= Rebuilt(aff, cat, user, log)[k].lastAt
    ensures InOrder(log) ==> Entry(Appended(cat, log), k) == Entry(Rebuilt(aff, cat, user, log), k)
  {
    AppendedRow(cat, log, k);
    AppendedLast(cat, log, k);
    RebuiltRow(aff, cat, user, log, k);
    LastTouchBounded(AllTouches(cat, log), k);
    if InOrder(log) {
      OrderedLastIsLatest(cat, log, k);
    }
  }

  // ── catalogue changes between events ──

  /** A signal with the catalogue in force when it was appended. */
  datatype Stamped = Stamped(cat: Db, signal: Signal)

  function SignalsOf(h: seq<Stamped>): seq<Signal> {
    seq(|h|, i requires 0 <= i < |h| => h[i].signal)
  }

  function AppendedOver(h: seq<Stamped>): Affinity {
    if h == [] then map[]
    else ApplyAll(AppendedOver(h[..|h| - 1]), Touches(h[|h| - 1].cat, h[|h| - 1].signal))
  }

  /** The rows a signal boosts besides its subject's own. */
  ghost function Parents(cat: Db, s: Signal): set<Key> {
    Groups(Propagated(cat, s))
  }

  lemma TrackBoost(cat: Db, s: Signal, k: Key)
    requires s.subject == Track
    ensures TallyOf(Propagated(cat, s), k)
         == Combine(TallyRow(Boost(Album, s, TrackParents(cat, s.id).0, 0.5), k),
                    TallyRow(Boost(Artist, s, TrackArtist(cat, s.id), 0.25), k))
  {
    var al := Boost(Album, s, TrackParents(cat, s.id).0, 0.5);
    var ar := Boost(Artist, s, TrackArtist(cat, s.id), 0.25);
    TallyOfConcat(al, ar, k);
    TallyShort(al, k);
    TallyShort(ar, k);
  }

  /** A parent row gets half the weight, the artist of a signalled track a quarter. */
  lemma ParentBoost(cat: Db, s: Signal, k: Key)
    ensures TallyOf(Propagated(cat, s), k)
         == if k in Parents(cat, s)
            then Some(Score(s.weight * (if s.subject == Track && k.table == Artist then 0.25 else 0.5), 1, s.ts))
            else None
  {
    TallyPresent(Propagated(cat, s), k);
    if s.subject == Track {
      TrackBoost(cat, s, k);
    } else {
      TallyShort(Propagated(cat, s), k);
    }
  }

  lemma ParentsDecide(cat: Db, cat': Db, s: Signal, k: Key)
    requires k in Parents(cat, s) <==> k in Parents(cat', s)
    ensures TallyOf(Touches(cat, s), k) == TallyOf(Touches(cat', s), k)
  {
    ParentBoost(cat, s, k);
    ParentBoost(cat', s, k);
    TallyOfConcat(Direct(s), Propagated(cat, s), k);
    TallyOfConcat(Direct(s), Propagated(cat', s), k);
  }

  /** Row k is a parent of each of its user's signalled subjects in cat just when it
      was one when the signal was appended. */
  ghost predicate SameParenthood(h: seq<Stamped>, cat: Db, k: Key) {
    forall i :: 0 <= i < |h| && h[i].signal.user == k.user ==>
        (k in Parents(h[i].cat, h[i].signal) <==> k in Parents(cat, h[i].signal))
  }

  lemma LastStampAgrees(h: seq<Stamped>, cat: Db, k: Key)
    requires h != [] && SameParenthood(h, cat, k)
    ensures var last := h[|h| - 1]; TallyOf(Touches(last.cat, last.signal), k) == TallyOf(Touches(cat, last.signal), k)
    ensures SameParenthood(h[..|h| - 1], cat, k)
  {
    var last := h[|h| - 1];
    if last.signal.user == k.user {
      ParentsDecide(last.cat, cat, last.signal, k);
    } else {
      TouchesOwnUser(last.cat, last.signal, k);
      TouchesOwnUser(cat, last.signal, k);
    }
  }

  lemma ApplyAgreeing(aff: Affinity, before: seq<Touch>, ts: seq<Touch>, ts': seq<Touch>, k: Key)
    requires SameScore(Entry(aff, k), TallyOf(before, k)) && TallyOf(ts, k) == TallyOf(ts', k)
    ensures SameScore(Entry(ApplyAll(aff, ts), k), TallyOf(before + ts', k))
  {
    ApplyAllRow(aff, ts, k);
    TallyOfConcat(before, ts', k);
  }

  lemma AllTouchesStamped(h: seq<Stamped>, cat: Db)
    requires h != []
    ensures AllTouches(cat, SignalsOf(h)) == AllTouches(cat, SignalsOf(h[..|h| - 1])) + Touches(cat, h[|h| - 1].signal)
  {
    var log := SignalsOf(h);
    assert log[..|log| - 1] == SignalsOf(h[..|h| - 1]);
  }

  /** When the catalogue changes between events, the incremental tables and a later
      Rebuild still agree on every row that is a parent of each signalled subject
      at rebuild time just when it was one at signalling time. */
  lemma {:induction false} InterleavedRow(h: seq<Stamped>, cat: Db, k: Key)
    requires SameParenthood(h, cat, k)
    ensures SameScore(Entry(AppendedOver(h), k), TallyOf(AllTouches(cat, SignalsOf(h)), k))
  {
    if h != [] {
      var front, last := h[..|h| - 1], h[|h| - 1];
      LastStampAgrees(h, cat, k);
      InterleavedRow(front, cat, k);
      AllTouchesStamped(h, cat);
      ApplyAgreeing(AppendedOver(front), AllTouches(cat, SignalsOf(front)), Touches(last.cat, last.signal),
                    Touches(cat, last.signal), k);
    }
  }

  lemma InterleavedRebuild(h: seq<Stamped>, cat: Db, aff: Affinity, k: Key)
    requires LinksNamed(cat) && SameParenthood(h, cat, k)
    ensures SameScore(Entry(AppendedOver(h), k), Entry(Rebuilt(aff, cat, k.user, SignalsOf(h)), k))
  {
    InterleavedRow(h, cat, k);
    RebuiltRow(aff, cat, k.user, SignalsOf(h), k);
  }

  /** Catalogue upserts and logged signals in the order they happened. */
  datatype Happening = Wrote(op: Op) | Signalled(signal: Signal)

  function CatalogueAfter(past: seq<Happening>): Db {
    if past == [] then EmptyDb() else
    var before, last := CatalogueAfter(past[..|past| - 1]), past[|past| - 1];
    if last.Wrote? then Step(before, last.op).0 else before
  }

  function Stamps(past: seq<Happening>): seq<Stamped> {
    if past == [] then [] else
    var before, last := Stamps(past[..|past| - 1]), past[|past| - 1];
    if last.Signalled? then before + [Stamped(CatalogueAfter(past[..|past| - 1]), last.signal)] else before
  }

  lemma {:induction false} HistoryLinksNamed(past: seq<Happening>)
    ensures LinksNamed(CatalogueAfter(past))
  {
    if past != [] {
      HistoryLinksNamed(past[..|past| - 1]);
      if past[|past| - 1].Wrote? {
        StepKeepsLinksNamed(CatalogueAfter(past[..|past| - 1]), past[|past| - 1].op);
      }
    }
  }

  /** Over any history from an empty backend, the row Append has kept equals the row
      Rebuild computes at its end, unless some signalled subject has gained or lost
      that row as a parent since. */
  lemma HistoryRebuild(past: seq<Happening>, aff: Affinity, k: Key)
    requires SameParenthood(Stamps(past), CatalogueAfter(past), k)
    ensures SameScore(Entry(AppendedOver(Stamps(past)), k),
                      Entry(Rebuilt(aff, CatalogueAfter(past), k.user, SignalsOf(Stamps(past))), k))
  {
    HistoryLinksNamed(past);
    InterleavedRebuild(Stamps(past), CatalogueAfter(past), aff, k);
  }

  // ── how far the two drift apart ──

  function Amount(t: Tally): real {
    if t.Some? then t.value.score else 0.0
  }

  function Count(t: Tally): nat {
    if t.Some? then t.value.count else 0
  }

  lemma CombineAdds(a: Tally, b: Tally)
    ensures Amount(Combine(a, b)) == Amount(a) + Amount(b) && Count(Combine(a, b)) == Count(a) + Count(b)
  {
  }

  /** What signal s gives to row k as a parent of its subject in cat. */
  ghost function ParentShare(cat: Db, s: Signal, k: Key): Tally {
    TallyOf(Propagated(cat, s), k)
  }

  ghost function GainedFrom(x: Stamped, cat: Db, k: Key): Tally {
    if k !in Parents(x.cat, x.signal) then ParentShare(cat, x.signal, k) else None
  }

  ghost function LostFrom(x: Stamped, cat: Db, k: Key): Tally {
    if k !in Parents(cat, x.signal) then ParentShare(x.cat, x.signal, k) else None
  }

  /** Shares of the signals whose subject has row k as a parent now, but had not when signalled. */
  ghost function Gained(h: seq<Stamped>, cat: Db, k: Key): Tally {
    if h == [] then None else Combine(Gained(h[..|h| - 1], cat, k), GainedFrom(h[|h| - 1], cat, k))
  }

  /** Shares of the signals whose subject had row k as a parent, and no longer has. */
  ghost function Lost(h: seq<Stamped>, cat: Db, k: Key): Tally {
    if h == [] then None else Combine(Lost(h[..|h| - 1], cat, k), LostFrom(h[|h| - 1], cat, k))
  }

  ghost predicate Balanced(kept: Tally, gained: Tally, computed: Tally, lost: Tally) {
    && Amount(kept) + Amount(gained) == Amount(computed) + Amount(lost)
    && Count(kept) + Count(gained) == Count(computed) + Count(lost)
  }

  lemma StampBalances(x: Stamped, cat: Db, k: Key)
    ensures Balanced(TallyOf(Touches(x.cat, x.signal), k), GainedFrom(x, cat, k),
                     TallyOf(Touches(cat, x.signal), k), LostFrom(x, cat, k))
  {
    var direct := TallyOf(Direct(x.signal), k);
    TallyOfConcat(Direct(x.signal), Propagated(x.cat, x.signal), k);
    TallyOfConcat(Direct(x.signal), Propagated(cat, x.signal), k);
    CombineAdds(direct, ParentShare(x.cat, x.signal, k));
    CombineAdds(direct, ParentShare(cat, x.signal, k));
    ParentBoost(x.cat, x.signal, k);
    ParentBoost(cat, x.signal, k);
  }

  /** Every increment Append made, each over the catalogue of its time. */
  function StampedTouches(h: seq<Stamped>): seq<Touch> {
    if h == [] then [] else StampedTouches(h[..|h| - 1]) + Touches(h[|h| - 1].cat, h[|h| - 1].signal)
  }

  lemma {:induction false} StampedRow(h: seq<Stamped>, k: Key)
    ensures SameScore(Entry(AppendedOver(h), k), TallyOf(StampedTouches(h), k))
  {
    if h != [] {
      var front, last := h[..|h| - 1], h[|h| - 1];
      var ts := Touches(last.cat, last.signal);
      StampedRow(front, k);
      ApplyAgreeing(AppendedOver(front), StampedTouches(front), ts, ts, k);
    }
  }

  lemma BalanceAdds(a: Tally, a': Tally, g: Tally, g': Tally, b: Tally, b': Tally, l: Tally, l': Tally)
    requires Balanced(a, g, b, l) && Balanced(a', g', b', l')
    ensures Balanced(Combine(a, a'), Combine(g, g'), Combine(b, b'), Combine(l, l'))
  {
    CombineAdds(a, a');
    CombineAdds(g, g');
    CombineAdds(b, b');
    CombineAdds(l, l');
  }

  lemma {:induction false} TouchesBalance(h: seq<Stamped>, cat: Db, k: Key)
    ensures Balanced(TallyOf(StampedTouches(h), k), Gained(h, cat, k),
                     TallyOf(AllTouches(cat, SignalsOf(h)), k), Lost(h, cat, k))
  {
    if h != [] {
      var front, last := h[..|h| - 1], h[|h| - 1];
      var ts, ts' := Touches(last.cat, last.signal), Touches(cat, last.signal);
      TouchesBalance(front, cat, k);
      StampBalances(last, cat, k);
      AllTouchesStamped(h, cat);
      TallyOfConcat(StampedTouches(front), ts, k);
      TallyOfConcat(AllTouches(cat, SignalsOf(front)), ts', k);
      BalanceAdds(TallyOf(StampedTouches(front), k), TallyOf(ts, k), Gained(front, cat, k), GainedFrom(last, cat, k),
                  TallyOf(AllTouches(cat, SignalsOf(front)), k), TallyOf(ts', k),
                  Lost(front, cat, k), LostFrom(last, cat, k));
    }
  }

  lemma {:induction false} TalliesCount(ts: seq<Touch>, k: Key)
    ensures Counted(TallyOf(ts, k))
  {
    if ts != [] {
      TalliesCount(ts[..|ts| - 1], k);
      CombineAdds(TallyOf(ts[..|ts| - 1], k), One(ts[|ts| - 1], k));
    }
  }

  ghost function KeptRow(past: seq<Happening>, k: Key): Tally {
    Entry(AppendedOver(Stamps(past)), k)
  }

  ghost function ComputedRow(past: seq<Happening>, aff: Affinity, k: Key): Tally {
    Entry(Rebuilt(aff, CatalogueAfter(past), k.user, SignalsOf(Stamps(past))), k)
  }

  ghost predicate Counted(t: Tally) {
    t.Some? ==> Count(t) > 0
  }

  lemma BalanceCarries(a: Tally, a': Tally, g: Tally, b: Tally, l: Tally)
    requires Balanced(a', g, b, l) && SameScore(a, a') && Counted(a')
    ensures Balanced(a, g, b, l) && Counted(a)
  {
  }

  lemma RowsBalance(h: seq<Stamped>, cat: Db, k: Key)
    ensures var kept, computed := Entry(AppendedOver(h), k), TallyOf(AllTouches(cat, SignalsOf(h)), k);
      Balanced(kept, Gained(h, cat, k), computed, Lost(h, cat, k)) && Counted(kept) && Counted(computed)
  {
    var kept, stamped := Entry(AppendedOver(h), k), TallyOf(StampedTouches(h), k);
    var computed := TallyOf(AllTouches(cat, SignalsOf(h)), k);
    StampedRow(h, k);
    TouchesBalance(h, cat, k);
    TalliesCount(StampedTouches(h), k);
    TalliesCount(AllTouches(cat, SignalsOf(h)), k);
    BalanceCarries(kept, stamped, Gained(h, cat, k), computed, Lost(h, cat, k));
  }

  lemma ComputedIs(past: seq<Happening>, aff: Affinity, k: Key)
    ensures ComputedRow(past, aff, k) == TallyOf(AllTouches(CatalogueAfter(past), SignalsOf(Stamps(past))), k)
  {
    HistoryLinksNamed(past);
    RebuiltRow(aff, CatalogueAfter(past), k.user, SignalsOf(Stamps(past)), k);
  }

  /** Over any history from an empty backend: what Append has kept on a row, plus the
      shares it would gain from parents set since, is what Rebuild computes, plus the
      shares lost with parents replaced since; in score and in count. */
  lemma HistoryDrift(past: seq<Happening>, aff: Affinity, k: Key)
    ensures Balanced(KeptRow(past, k), Gained(Stamps(past), CatalogueAfter(past), k),
                     ComputedRow(past, aff, k), Lost(Stamps(past), CatalogueAfter(past), k))
    ensures Counted(KeptRow(past, k)) && Counted(ComputedRow(past, aff, k))
  {
    ComputedIs(past, aff, k);
    RowsBalance(Stamps(past), CatalogueAfter(past), k);
  }

  lemma BalancedAgreeIff(a: Tally, g: Tally, b: Tally, l: Tally)
    requires Balanced(a, g, b, l) && Counted(a) && Counted(b)
    ensures SameScore(a, b) <==> Amount(g) == Amount(l) && Count(g) == Count(l)
  {
  }

  /** So the two agree on a row exactly if the shares gained and lost are equal in number
      and in weight. */
  lemma HistoryAgreesIff(past: seq<Happening>, aff: Affinity, k: Key)
    ensures var g, l := Gained(Stamps(past), CatalogueAfter(past), k), Lost(Stamps(past), CatalogueAfter(past), k);
      SameScore(KeptRow(past, k), ComputedRow(past, aff, k)) <==> Amount(g) == Amount(l) && Count(g) == Count(l)
  {
    HistoryDrift(past, aff, k);
    BalancedAgreeIff(KeptRow(past, k), Gained(Stamps(past), CatalogueAfter(past), k),
                     ComputedRow(past, aff, k), Lost(Stamps(past), CatalogueAfter(past), k));
  }

  lemma OneMoreHappening(past: seq<Happening>, x: Happening)
    ensures CatalogueAfter(past + [x]) == if x.Wrote? then Step(CatalogueAfter(past), x.op).0 else CatalogueAfter(past)
    ensures Stamps(past + [x])
         == if x.Signalled? then Stamps(past) + [Stamped(CatalogueAfter(past), x.signal)] else Stamps(past)
  {
    assert (past + [x])[..|past|] == past;
  }

  lemma OneStamp(h: seq<Stamped>, cat: Db, k: Key)
    requires |h| == 1
    ensures SameScore(Entry(AppendedOver(h), k), TallyOf(Touches(h[0].cat, h[0].signal), k))
    ensures TallyOf(AllTouches(cat, SignalsOf(h)), k) == TallyOf(Touches(cat, h[0].signal), k)
  {
    StampedRow(h, k);
    assert h[..0] == [] && SignalsOf(h[..0]) == [];
    assert StampedTouches(h) == Touches(h[0].cat, h[0].signal);
    AllTouchesStamped(h, cat);
    assert AllTouches(cat, SignalsOf(h)) == Touches(cat, h[0].signal);
  }

  /** What an album signal gives its artist. */
  lemma AlbumGives(cat: Db, s: Signal, k: Key)
    requires s.subject == Album && k.table == Artist && k.user == s.user && k.id != ""
    ensures TallyOf(Touches(cat, s), k)
         == if AlbumArtist(cat, s.id) == k.id then Some(Score(s.weight * 0.5, 1, s.ts)) else None
  {
    TallyOfConcat(Direct(s), Propagated(cat, s), k);
    TallyShort(Direct(s), k);
    TallyShort(Propagated(cat, s), k);
  }

  /** The writes of an album before and after its artist is known. */
  lemma LateLink(artist: string, album: string)
    requires artist != "" && album != ""
    ensures var db1 := Step(EmptyDb(), UpsertArtist(artist, "", "")).0;
      var db2 := Step(db1, UpsertAlbumPlaceholder(album, "", "", "")).0;
      var db3 := Step(db2, UpsertAlbumPlaceholder(album, "", "", artist)).0;
      AlbumArtist(db2, album) == "" && AlbumArtist(db3, album) == artist
  {
    var db1 := Step(EmptyDb(), UpsertArtist(artist, "", "")).0;
    assert artist in db1.artists && album !in db1.albums;
    var db2 := Step(db1, UpsertAlbumPlaceholder(album, "", "", "")).0;
    assert album in db2.albums && db2.albums[album].data.artist == None && artist in db2.artists;
  }

  /** Three writes, the second followed by a signal. */
  lemma FourHappenings(past: seq<Happening>)
    requires |past| == 4 && past[0].Wrote? && past[1].Wrote? && past[2].Signalled? && past[3].Wrote?
    ensures var db2 := Step(Step(EmptyDb(), past[0].op).0, past[1].op).0;
      CatalogueAfter(past) == Step(db2, past[3].op).0 && Stamps(past) == [Stamped(db2, past[2].signal)]
  {
    assert past[..0] == [] && past[..4] == past;
    PrefixStep(past, 0);
    PrefixStep(past, 1);
    PrefixStep(past, 2);
    PrefixStep(past, 3);
    OneMoreHappening(past[..0], past[0]);
    OneMoreHappening(past[..1], past[1]);
    OneMoreHappening(past[..2], past[2]);
    OneMoreHappening(past[..3], past[3]);
  }

  /** An album is signalled before its artist link is known: Append never credits the
      artist, a later Rebuild does. */
  lemma LateLinkDrifts(past: seq<Happening>, artist: string, s: Signal, aff: Affinity)
    requires artist != "" && s.id != "" && s.subject == Album && |past| == 4
    requires past[0] == Wrote(UpsertArtist(artist, "", ""))
    requires past[1] == Wrote(UpsertAlbumPlaceholder(s.id, "", "", ""))
    requires past[2] == Signalled(s) && past[3] == Wrote(UpsertAlbumPlaceholder(s.id, "", "", artist))
    ensures KeptRow(past, Key(Artist, s.user, artist)) == None
    ensures ComputedRow(past, aff, Key(Artist, s.user, artist)) == Some(Score(s.weight * 0.5, 1, s.ts))
  {
    var k := Key(Artist, s.user, artist);
    FourHappenings(past);
    LateLink(artist, s.id);
    ComputedIs(past, aff, k);
    OneStamp(Stamps(past), CatalogueAfter(past), k);
    AlbumGives(Stamps(past)[0].cat, s, k);
    AlbumGives(CatalogueAfter(past), s, k);
  }
}
