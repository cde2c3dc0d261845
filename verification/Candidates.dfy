/**
 The discover_candidates rows a pass writes (mbrels.go and samelabel.go): one user's
 and one source's rows, keyed by release group.
 */
module Candidates {
  import opened Basics

  /** Release group to raw_score. */
  type CandidateRows = map<string, real>
  datatype Write = Write(mbid: string, score: real)

  /** Where the write of a release stops: at the album row, at the candidate row, or not at all. */
  datatype WriteFate = AlbumFails | CandidateFails | Written

  /** What a pass counts. New is every successful candidate write: upsertCandidate goes by
      the rows affected, and an update of an old row reports one as well. */
  datatype Counters = Counters(seedsScanned: nat, discovered: nat, candidatesNew: nat, candidatesUpdated: nat,
                               errors: nat)
  datatype Status = Done | Partial | Failed
  datatype RunResult = RunResult(status: Status, counters: Counters)

  /** INSERT … ON CONFLICT DO UPDATE, write after write. */
  function Put(t: CandidateRows, ws: seq<Write>): CandidateRows {
    if ws == [] then t else Put(t, ws[..|ws| - 1])[ws[|ws| - 1].mbid := ws[|ws| - 1].score]
  }

  lemma {:induction false} PutConcat(t: CandidateRows, a: seq<Write>, b: seq<Write>)
    ensures Put(t, a + b) == Put(Put(t, a), b)
  {
    if b == [] {
      assert a + b == a;
    } else {
      assert (a + b)[..|a + b| - 1] == a + b[..|b| - 1];
      PutConcat(t, a, b[..|b| - 1]);
    }
  }

  method UpsertAll(t: CandidateRows, ws: seq<Write>) returns (t': CandidateRows, inserted: nat)
    ensures t' == Put(t, ws) && inserted == |ws|
  {
    t', inserted := t, 0;
    for i := 0 to |ws|
      invariant t' == Put(t, ws[..i]) && inserted == i
    {
      assert ws[..i + 1][..i] == ws[..i];
      t', inserted := t'[ws[i].mbid := ws[i].score], inserted + 1;
    }
    assert ws[..|ws|] == ws;
  }

  /** All writes go to release groups without a row, each to another one. */
  ghost predicate AllNew(t: CandidateRows, ws: seq<Write>) {
    forall i :: 0 <= i < |ws| ==> ws[i].mbid !in t && forall j :: 0 <= j < i ==> ws[j].mbid != ws[i].mbid
  }

  lemma {:induction false} PutKeys(t: CandidateRows, ws: seq<Write>, m: string)
    ensures m in Put(t, ws) <==> m in t || exists i :: 0 <= i < |ws| && ws[i].mbid == m
  {
    if ws != [] {
      var front := ws[..|ws| - 1];
      PutKeys(t, front, m);
      assert forall i :: 0 <= i < |front| ==> front[i] == ws[i];
      if i :| 0 <= i < |ws| && ws[i].mbid == m {
        assert i < |front| ==> front[i].mbid == m;
      }
      if i :| 0 <= i < |front| && front[i].mbid == m {
        assert ws[i].mbid == m;
      }
    }
  }

  lemma PutOne(t: CandidateRows, m: string, score: real)
    ensures |t[m := score]| == if m in t then |t| else |t| + 1
  {
    assert t[m := score].Keys == t.Keys + {m};
    assert |t| == |t.Keys| && |t[m := score]| == |t[m := score].Keys|;
  }

  lemma AllNewStep(t: CandidateRows, ws: seq<Write>)
    requires ws != []
    ensures AllNew(t, ws) <==> AllNew(t, ws[..|ws| - 1]) && ws[|ws| - 1].mbid !in Put(t, ws[..|ws| - 1])
  {
    var n := |ws| - 1;
    var front, m := ws[..n], ws[n].mbid;
    PutKeys(t, front, m);
    assert forall i :: 0 <= i < n ==> front[i] == ws[i];
    if AllNew(t, front) && m !in Put(t, front) {
      forall j | 0 <= j < n
        ensures ws[j].mbid != m
      {
        assert front[j].mbid == ws[j].mbid;
      }
    }
  }

  /** The table grows by the number of writes, which is what a pass counts as new, exactly
      if no write hit an existing row; otherwise it grows by less. */
  lemma {:induction false} CountedAsNewIff(t: CandidateRows, ws: seq<Write>)
    ensures |Put(t, ws)| <= |t| + |ws|
    ensures |Put(t, ws)| == |t| + |ws| <==> AllNew(t, ws)
  {
    if ws != [] {
      var front, x := ws[..|ws| - 1], ws[|ws| - 1];
      CountedAsNewIff(t, front);
      PutOne(Put(t, front), x.mbid, x.score);
      AllNewStep(t, ws);
    }
  }

  /** A candidate row shows the score of its last write. */
  lemma {:induction false} LastWriteScores(t: CandidateRows, ws: seq<Write>, i: nat)
    requires i < |ws| && forall j :: i < j < |ws| ==> ws[j].mbid != ws[i].mbid
    ensures ws[i].mbid in Put(t, ws) && Put(t, ws)[ws[i].mbid] == ws[i].score
  {
    if i < |ws| - 1 {
      LastWriteScores(t, ws[..|ws| - 1], i);
    }
  }
}
