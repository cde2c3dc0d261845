/** The signal store as the services use it: Append and Rebuild, statement by statement. */
module SignalStore {
  import opened Basics
  import opened Catalogue
  import opened Signals

  datatype SubjectKey = SubjectKey(user: string, subject: SubjectType, id: string)
  datatype Rating = Rating(good: bool, at: Time)

  function SubjectOf(s: Signal): SubjectKey {
    SubjectKey(s.user, s.subject, s.id)
  }

  predicate Heard(k: Kind) {
    k == HeardGood || k == HeardBad
  }

  /** hides and ratings as a function of the log. */
  function HidesOf(log: seq<Signal>): map<SubjectKey, Time> {
    if log == [] then map[] else
    var s := log[|log| - 1];
    var before := HidesOf(log[..|log| - 1]);
    if s.kind == Dismiss then before[SubjectOf(s) := s.ts] else before
  }

  function RatingsOf(log: seq<Signal>): map<SubjectKey, Rating> {
    if log == [] then map[] else
    var s := log[|log| - 1];
    var before := RatingsOf(log[..|log| - 1]);
    if Heard(s.kind) then before[SubjectOf(s) := Rating(s.kind == HeardGood, s.ts)] else before
  }

  /** Position i holds the log's last signal about subject k of a kind in ks. */
  ghost predicate LastAbout(log: seq<Signal>, k: SubjectKey, ks: set<Kind>, i: int) {
    && 0 <= i < |log| && SubjectOf(log[i]) == k && log[i].kind in ks
    && forall j :: i < j < |log| ==> !(SubjectOf(log[j]) == k && log[j].kind in ks)
  }

  lemma LastAboutStep(log: seq<Signal>, k: SubjectKey, ks: set<Kind>, i: int)
    requires log != []
    ensures var front, n := log[..|log| - 1], |log| - 1;
      LastAbout(log, k, ks, i) <==>
        if SubjectOf(log[n]) == k && log[n].kind in ks then i == n else LastAbout(front, k, ks, i)
  {
  }

  /** A subject's rating is the verdict of its last heard_good or heard_bad; no such signal, no row. */
  lemma {:induction false} RatingsShowLast(log: seq<Signal>, k: SubjectKey, i: int)
    requires LastAbout(log, k, {HeardGood, HeardBad}, i)
    ensures k in RatingsOf(log) && RatingsOf(log)[k] == Rating(log[i].kind == HeardGood, log[i].ts)
  {
    LastAboutStep(log, k, {HeardGood, HeardBad}, i);
    if i < |log| - 1 {
      RatingsShowLast(log[..|log| - 1], k, i);
    }
  }

  lemma {:induction false} RatedWasHeard(log: seq<Signal>, k: SubjectKey) returns (i: int)
    requires k in RatingsOf(log)
    ensures LastAbout(log, k, {HeardGood, HeardBad}, i)
  {
    var s := log[|log| - 1];
    if SubjectOf(s) == k && Heard(s.kind) {
      i := |log| - 1;
    } else {
      i := RatedWasHeard(log[..|log| - 1], k);
      LastAboutStep(log, k, {HeardGood, HeardBad}, i);
    }
  }

  /** A hidden subject was dismissed, and shows the time of its last dismissal. */
  lemma {:induction false} HidesShowLast(log: seq<Signal>, k: SubjectKey, i: int)
    requires LastAbout(log, k, {Dismiss}, i)
    ensures k in HidesOf(log) && HidesOf(log)[k] == log[i].ts
  {
    LastAboutStep(log, k, {Dismiss}, i);
    if i < |log| - 1 {
      HidesShowLast(log[..|log| - 1], k, i);
    }
  }

  lemma {:induction false} HiddenWasDismissed(log: seq<Signal>, k: SubjectKey) returns (i: int)
    requires k in HidesOf(log)
    ensures LastAbout(log, k, {Dismiss}, i)
  {
    var s := log[|log| - 1];
    if SubjectOf(s) == k && s.kind == Dismiss {
      i := |log| - 1;
    } else {
      i := HiddenWasDismissed(log[..|log| - 1], k);
      LastAboutStep(log, k, {Dismiss}, i);
    }
  }

  /** Every affinity row shows the sum and number of the increments the log causes. */
  ghost predicate ScoresFollow(aff: Affinity, cat: Db, log: seq<Signal>) {
    forall k :: SameScore(Entry(aff, k), TallyOf(AllTouches(cat, log), k))
  }

  class Store {
    var catalogue: Db
    var signals: seq<Signal>
    var affinity: Affinity
    var hides: map<SubjectKey, Time>
    var ratings: map<SubjectKey, Rating>

    /** All derived tables follow the log. */
    ghost predicate Consistent()
      reads this
    {
      && hides == HidesOf(signals) && ratings == RatingsOf(signals)
      && ScoresFollow(affinity, catalogue, signals)
    }

    constructor (catalogue: Db)
      ensures Consistent() && this.catalogue == catalogue && signals == [] && affinity == map[]
    {
      this.catalogue := catalogue;
      signals, affinity, hides, ratings := [], map[], map[], map[];
    }

    method ApplyAffinity(user: string, subject: SubjectType, id: string, w: real, ts: Time)
      modifies this`affinity
      ensures affinity == if subject.Unscored? then old(affinity)
                          else Apply(old(affinity), Touch(Key(subject, user, id), w, ts))
    {
      if !subject.Unscored? {
        affinity := Apply(affinity, Touch(Key(subject, user, id), w, ts));
      }
    }

    method Propagate(s: Signal)
      modifies this`affinity
      ensures affinity == ApplyAll(old(affinity), Propagated(catalogue, s))
    {
      if s.subject == Album {
        var artist := AlbumArtist(catalogue, s.id);
        if artist != "" {
          ApplyAffinity(s.user, Artist, artist, s.weight * 0.5, s.ts);
        }
      } else if s.subject == Track {
        var (album, artist) := TrackParents(catalogue, s.id);
        if album != "" {
          ApplyAffinity(s.user, Album, album, s.weight * 0.5, s.ts);
          if artist == "" {
            artist := AlbumArtist(catalogue, album);
          }
        }
        if artist != "" {
          ApplyAffinity(s.user, Artist, artist, s.weight * 0.25, s.ts);
        }
        ghost var toAlbum, toArtist := Boost(Album, s, album, 0.5), Boost(Artist, s, artist, 0.25);
        ApplyAllConcat(old(affinity), toAlbum, toArtist);
        OneTouch(old(affinity), toAlbum);
        OneTouch(ApplyAll(old(affinity), toAlbum), toArtist);
      }
    }

    method SideTables(s: Signal)
      modifies this`hides, this`ratings
      ensures hides == if s.kind == Dismiss then old(hides)[SubjectOf(s) := s.ts] else old(hides)
      ensures ratings == if Heard(s.kind) then old(ratings)[SubjectOf(s) := Rating(s.kind == HeardGood, s.ts)]
                         else old(ratings)
    {
      match s.kind
      case Dismiss =>
        hides := hides[SubjectOf(s) := s.ts];
      case HeardGood =>
        ratings := ratings[SubjectOf(s) := Rating(true, s.ts)];
      case HeardBad =>
        ratings := ratings[SubjectOf(s) := Rating(false, s.ts)];
      case _ =>
    }

    /** One transaction: the log row, the subject's affinity, its parents', the side tables. */
    method Append(e: Event, now: Time) returns (ok: bool)
      modifies this`signals, this`affinity, this`hides, this`ratings
      ensures ok <==> e.user != "" && e.kind != OtherKind("") && e.subject != Unscored("") && e.id != ""
      ensures !ok ==> unchanged(this)
      ensures ok ==> signals == old(signals) + [Logged(e, now)]
      ensures ok ==> affinity == ApplyAll(old(affinity), Touches(catalogue, Logged(e, now)))
      ensures old(Consistent()) ==> Consistent()
    {
      if e.user == "" || e.kind == OtherKind("") || e.subject == Unscored("") || e.id == "" {
        return false;
      }
      var s := Logged(e, now);
      ghost var before := affinity;
      signals := signals + [s];
      ApplyAffinity(s.user, s.subject, s.id, s.weight, s.ts);
      assert affinity == ApplyAll(before, Direct(s)) by { OneTouch(before, Direct(s)); }
      Propagate(s);
      ApplyAllConcat(before, Direct(s), Propagated(catalogue, s));
      SideTables(s);
      ok := true;
      assert signals[..|signals| - 1] == old(signals);
      if old(Consistent()) {
        AppendKeepsScores(before, catalogue, old(signals), s);
      }
    }

    /** The rows of one GROUP BY, upserted in whatever order they come. */
    method ReplayAggregated(rel: seq<Touch>, factor: real)
      modifies this`affinity
      ensures affinity == UpsertGroups(old(affinity), rel, factor)
    {
      var todo := Groups(rel);
      while todo != {}
        invariant todo <= Groups(rel)
        invariant affinity.Keys == old(affinity).Keys + (Groups(rel) - todo)
        invariant forall k :: k in affinity ==>
                    Some(affinity[k]) == if k in Groups(rel) - todo then UpsertedRow(old(affinity), rel, factor, k)
                                         else Entry(old(affinity), k)
      {
        var k :| k in todo;
        TallyPresent(rel, k);
        affinity := affinity[k := Combine(Entry(affinity, k), Scale(factor, TallyOf(rel, k))).value];
        todo := todo - {k};
      }
      forall k | k !in Groups(rel)
        ensures UpsertedRow(old(affinity), rel, factor, k) == Entry(old(affinity), k)
      {
        TallyPresent(rel, k);
      }
    }

    method Execute(q: Statement, user: string)
      modifies this`affinity
      ensures affinity == RunStatement(q, old(affinity), catalogue, user, signals)
    {
      ReplayAggregated(Join(q, catalogue, user, signals), Factor(q));
    }

    method RebuildTables(user: string)
      modifies this`affinity
      ensures affinity == Rebuilt(old(affinity), catalogue, user, signals)
    {
      affinity := WithoutUser(affinity, user);
      Execute(DirectOf(Artist), user);
      Execute(DirectOf(Album), user);
      Execute(DirectOf(Track), user);
      Execute(DirectOf(Label), user);
      Execute(AlbumToArtist, user);
      Execute(TrackToAlbum, user);
      Execute(TrackToArtist, user);
    }

    /** Clears and recomputes one user's rows from the log. */
    method Rebuild(user: string) returns (ok: bool)
      requires LinksNamed(catalogue)
      modifies this`affinity
      ensures ok <==> user != ""
      ensures !ok ==> unchanged(this)
      ensures ok ==> affinity == Rebuilt(old(affinity), catalogue, user, signals)
      ensures ok ==> forall k: Key :: k.user == user ==>
                Entry(affinity, k) == TallyOf(AllTouches(catalogue, signals), k)
      ensures old(Consistent()) ==> Consistent()
    {
      if user == "" {
        return false;
      }
      RebuildTables(user);
      ok := true;
      RebuildScores(old(affinity), catalogue, user, signals);
    }
  }

  lemma RebuildScores(aff: Affinity, cat: Db, user: string, log: seq<Signal>)
    requires LinksNamed(cat)
    ensures forall k: Key :: k.user == user ==>
              Entry(Rebuilt(aff, cat, user, log), k) == TallyOf(AllTouches(cat, log), k)
    ensures ScoresFollow(aff, cat, log) ==> ScoresFollow(Rebuilt(aff, cat, user, log), cat, log)
  {
    forall k: Key
      ensures Entry(Rebuilt(aff, cat, user, log), k)
           == if k.user == user then TallyOf(AllTouches(cat, log), k) else Entry(aff, k)
    {
      RebuiltRow(aff, cat, user, log, k);
    }
  }

  lemma OneTouch(aff: Affinity, ts: seq<Touch>)
    requires |ts| <= 1
    ensures ApplyAll(aff, ts) == if ts == [] then aff else Apply(aff, ts[0])
  {
    if ts != [] {
      assert ts[..0] == [];
    }
  }

  lemma {:induction false} ApplyAllConcat(aff: Affinity, a: seq<Touch>, b: seq<Touch>)
    ensures ApplyAll(aff, a + b) == ApplyAll(ApplyAll(aff, a), b)
  {
    if b == [] {
      assert a + b == a;
    } else {
      var ab := a + b;
      assert ab[..|ab| - 1] == a + b[..|b| - 1];
      ApplyAllConcat(aff, a, b[..|b| - 1]);
    }
  }

  lemma AppendKeepsScores(aff: Affinity, cat: Db, log: seq<Signal>, s: Signal)
    requires ScoresFollow(aff, cat, log)
    ensures ScoresFollow(ApplyAll(aff, Touches(cat, s)), cat, log + [s])
  {
    forall k
      ensures SameScore(Entry(ApplyAll(aff, Touches(cat, s)), k), TallyOf(AllTouches(cat, log + [s]), k))
    {
      ApplyAllRow(aff, Touches(cat, s), k);
      assert (log + [s])[..|log|] == log;
      TallyOfConcat(AllTouches(cat, log), Touches(cat, s), k);
      assert SameScore(Entry(aff, k), TallyOf(AllTouches(cat, log), k));
    }
  }
}
