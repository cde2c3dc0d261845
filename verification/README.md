# Music Advisor backend: verified model

A Dafny model of the stateful middle of the Music Advisor backend: the places
where a fast, incremental or cut-short form has to agree with a slow and simple
one, and the state machines whose guarantees range over whole runs. SQL tables are
maps from their primary keys, a transaction is one step, times are integers,
weights and scores are exact reals. External services (Spotify, MusicBrainz) are
arbitrary answers handed in as parameters, and so are statement failures.

| File | What it covers |
|---|---|
| `Signals.dfy`, `SignalStore.dfy`, `SignalWeights.dfy` | the signal log, the affinity tables kept by `Append` and recomputed by `Rebuild`, hides and ratings |
| `Catalogue.dfy` | artists, albums, tracks and the upserts every service writes them through |
| `Listening.dfy`, `PlayVerdicts.dfy`, `RepeatedPlays.dfy` | the recently-played poller, alone and behind the resolver cache |
| `FeedMerge.dfy`, `FeedSources.dfy`, `Sorting.dfy` | the Discover merge, the sources its cards show, the stable sort under it |
| `ResolverCache.dfy` | the Spotify to MusicBrainz resolver cache |
| `LibraryRank.dfy`, `LibrarySync.dfy` | gathering, ranking and resolving a Spotify library |
| `MbRels.dfy`, `SameLabel.dfy`, `Candidates.dfy`, `ReleaseDates.dfy`, `RunGate.dfy` | two discover passes, the candidate rows they write, partial release dates, the run gate |
| `SseHub.dfy` | the per-user event hub |
| `UserTokens.dfy` | external accounts and token refresh |
| `TopLists.dfy`, `TopListsSync.dfy` | the weight of top-list signals, the top-lists sync and its gate |

What `Append`, a poll, a sync or a merge does is written once as a function; the
methods, in the statement order of the code, are proved to compute it, and the
lemmas prove what it guarantees.

Where the code does not do what it or its documentation says, the code is modelled
and the exact condition is proved:

- A track served from the resolver cache comes back without its artist and album,
  so its next play is linked to placeholder rows. If the first play stored the real
  ones, the placeholders do not exist, their upserts find the Spotify ids on the real
  rows, and the play is lost to a foreign-key error (`CachedRepeatLostIff`,
  `CachedRepeatLost`).
- The general cause: an upsert that finds the Spotify id on another row updates that
  row and creates none for the MusicBrainz id it was given. A write that links to that
  id next fails; a resolved play, a follow or a saved album is then lost
  (`LinkAfterArtistUpsert`, `ResolvedPlayLostIff`, `FollowLostIff`, `AlbumLostIff`).
- Weight 0 means "unset" to `Append`, so top-list rank 50 is logged with 2.0 where
  section 4.4 of the backend design gives 0, and outweighs most better ranks
  (`BetterRankWeighsMoreIff`).
- The library's album upsert overwrites a stored release date with NULL in its
  conflict branch (`ReleaseDateLostIff`).
- A hit cached with an empty MusicBrainz id reads back as unresolved
  (`ServedRepeatsLastDecision`).
- The mbrels score favours newer releases if and only if the seed's score is at least
  -10 (`NewerScoresIff`).
- samelabel.go:260 announces "newest first" but takes the first three release
  groups as listed: that is safe for every listing of n groups if and only if n is at
  most 3 (`ProbesNewestIff`), and for any listing already sorted
  (`SortedListingProbesNewest`).
- A merged card is documented to list every other source; a source whose own 50 rows
  leave the subject out is missing from it. An untied row is left out exactly if 50 live
  rows of its source score better (`SourcesSurviveIff`, `SourceHiddenIff`,
  `NarrowSourcesSurvive`, `SourceGoesMissing`).
- A resync is documented not to count a saved artist again; one saved as a placeholder
  and resolved later is counted again exactly if the resolved mbid has a row and was not
  saved (`SignalledAgainIff`, `FollowSignalledTwice`).
- A row Append keeps and the one Rebuild computes drift apart when parents are set or
  replaced after a signal, by exactly the shares gained and lost (`HistoryDrift`,
  `HistoryAgreesIff`, `LateLinkDrifts`).
- Candidate upserts go by the rows affected, which an update also reports, so a pass
  counts rewritten candidates as new and never counts an updated one
  (`CountedAsNewIff`).

The decay and clamp formula of section 4 of the backend design is not in the code and
not in the model.

## Model

| member | source | states |
|---|---|---|
| Signals.AppendedRow | backend/internal/services/signal/signal.go:99-258 | after any log, every affinity row holds the sum and the number of all increments aimed at it, direct and propagated, and exists only if there was one |
| Signals.OneSignalAgrees | backend/internal/services/signal/signal.go:322-426 | the seven grouped joins see exactly the increments one Append makes, unless its subject has an empty-string parent |
| Signals.RebuiltRow | backend/internal/services/signal/signal.go:298-463 | over any catalogue whose parent links are NULL or non-empty, which is what the upserts write, Rebuild leaves sum, count and latest time of all increments on each of the user's rows, whatever was there, and other users' rows alone |
| Signals.RebuildAgrees | backend/internal/services/signal/signal.go:295-429 | over every catalogue that upserts can have written, Rebuild reproduces score and count of every row Append accumulated, unconditionally |
| Signals.RebuildAgreesIff | backend/internal/services/signal/signal.go:295-429 | over an arbitrary catalogue the agreement holds if and only if no signalled subject of the user has an empty-string parent, so RebuildAgrees rests on the upserts writing NULL |
| Signals.RebuildIdempotent | backend/internal/services/signal/signal.go:298-429 | rebuilding twice gives the tables of rebuilding once, and no other user's row changes |
| Signals.LogOrderIrrelevant | backend/internal/services/signal/signal.go:148-197 | permuting the log changes no score and no count Append accumulates, and nothing at all of what Rebuild writes |
| Signals.LastSignalTimes | backend/internal/services/signal/signal.go:155-159 | over such a catalogue last_signal_at is the last event's time under Append and the latest under Rebuild: never earlier there, and whole rows are equal when events arrive in time order |
| Signals.InterleavedRow | backend/internal/services/signal/signal.go:199-258 | with catalogue changes between events, the incremental row equals the row the final catalogue would have given if its parenthood of each signalled subject is the same then and now |
| Signals.InterleavedRebuild | backend/internal/services/signal/signal.go:373-426 | under that condition the incremental row also equals a later Rebuild's row, over a final catalogue without empty-string parents |
| Signals.HistoryRebuild | backend/internal/services/signal/signal.go:295-429 | over any history of upserts and signals from an empty backend, the row Append kept equals the row Rebuild computes at the end, unless a signalled subject gained or lost that row as a parent since |
| Signals.HistoryDrift | backend/internal/services/signal/signal.go:295-429 | over any such history, what Append kept on a row plus the shares of parents set since equals what Rebuild computes plus the shares of parents replaced since, in score and in count |
| Signals.HistoryAgreesIff | backend/internal/services/signal/signal.go:295-429 | so the two agree on a row if and only if the shares gained and lost are equal in number and in weight |
| Signals.LateLinkDrifts | backend/internal/services/signal/signal.go:203-233 | an album signalled before its artist link is set: Append never credits the artist, Rebuild does |
| SignalWeights.FreshEffect | backend/internal/services/signal/signal.go:465-496 | on a fresh store an event writes its subject's row with the weight it carries or, without one, its kind's number: 1.2 follow, 1.0 library add, 0.5 playlist add, 0.3 full play, -0.3 skip, 2.0 top rank, 1.5 and -1.5 heard, -0.5 dismiss, 0.1 and 0.05 clicks; and with the time it carries or the clock's |
| SignalWeights.TrackScoreIsPlays | backend/internal/services/signal/signal.go:99-258 | after events without weights, of which f are full plays and s skips of one track, the track's row scores 0.3 (f - s), whatever other events were logged |
| SignalWeights.HeardCancels | backend/internal/services/signal/signal.go:99-258 | a good and a bad hearing of one subject leave every row's score as it was |
| SignalWeights.KindsOrdered | backend/internal/services/signal/signal.go:465-496 | a follow outweighs a library add, that a playlist add, that a full play, that a skip |
| SignalWeights.SignalMoves | backend/internal/services/signal/signal.go:199-258 | a signal moves its subject's row by its weight, an album's artist and a track's album by half, a track's own artist, or else its album's, by a quarter, and no other row |
| SignalStore.RatingsShowLast | backend/internal/services/signal/signal.go:262-287 | a subject's rating is the verdict of its last heard_good or heard_bad signal |
| SignalStore.RatedWasHeard | backend/internal/services/signal/signal.go:262-287 | a rating row exists only where such a signal was logged |
| SignalStore.HidesShowLast | backend/internal/services/signal/signal.go:262-287 | a hides row shows the time of the subject's last dismiss signal |
| SignalStore.HiddenWasDismissed | backend/internal/services/signal/signal.go:262-287 | a hides row exists only where a dismiss signal was logged |
| SignalStore.Store.Append | backend/internal/services/signal/signal.go:99-140 | incomplete events are refused and change nothing; otherwise the log row, the touched affinity rows and the side tables are exactly the specified ones, and all derived tables keep following the log |
| SignalStore.Store.Propagate | backend/internal/services/signal/signal.go:203-258 | album to artist by half, track to album by half, track to artist by a quarter, through the track's own artist or its album's |
| SignalStore.Store.ReplayAggregated | backend/internal/services/signal/signal.go:433-463 | upserting the groups one at a time, in whatever order they come, adds each group's aggregate once |
| SignalStore.Store.Rebuild | backend/internal/services/signal/signal.go:298-429 | the user's rows become the tallies of the whole log, and the store is consistent again |
| Catalogue.UpsertNeverCollides | backend/internal/services/listening/listening.go:332-361 | with unique spotify ids before, the pre-update makes the insert collision-free, ids stay unique, no row is removed, at most one is added, and that one exists unless another row owned the id |
| Catalogue.UpsertLeavesOneOwner | backend/internal/services/library/library.go:425-451 | exactly one row owns the given spotify id afterwards, with the new column values |
| Catalogue.StepKeepsValid | backend/internal/services/listening/listening.go:332-427 | an upsert never hits the unique constraint, fails exactly when a parent it names is missing, and keeps ids unique and links resolved |
| Catalogue.RunKeepsValid | backend/internal/services/toplists/toplists.go:358-458 | over any sequence of upserts by all services the catalogue stays consistent, loses no row and grows by at most one row per upsert; each upsert fails exactly when a parent it names is missing at that moment |
| Catalogue.ReachedLinksNamed | backend/internal/services/toplists/toplists.go:358-458 | no catalogue written by the upserts, in any order and whichever fail, holds an empty-string parent link |
| Catalogue.RunClearsNothing | backend/internal/services/listening/listening.go:363-427 | rows never vanish and a parent link, duration or track count once set never returns to NULL |
| Catalogue.ReleaseDateLostIff | backend/internal/services/library/library.go:457-495 | a stored release date is lost exactly when the conflict branch hits its row with no new date |
| Catalogue.OwnerShowsNewTitle | backend/internal/services/toplists/toplists.go:358-458 | the one owner of the spotify id shows the name or title just written |
| Catalogue.AlbumRowShows | backend/internal/services/listening/listening.go:363-390 | every album upsert writes one row and shows its title and each artist link, date and track count it gives; it keeps the former value where it gives none, except that the library's conflict branch drops the date |
| Catalogue.TrackRowShows | backend/internal/services/listening/listening.go:392-427 | a track upsert writes one row and shows its title, links and positive length in seconds, and keeps what it does not give |
| Catalogue.ArtistRowShows | backend/internal/services/listening/listening.go:339-361 | an artist upsert writes one row and shows its name |
| Catalogue.OtherTablesStay | backend/internal/services/listening/listening.go:332-427 | an upsert changes the table it names and no other |
| Catalogue.LinkAfterArtistUpsert | backend/internal/services/listening/listening.go:340-390 | linking to an artist just upserted fails exactly when its mbid is unknown and its spotify id sits on another row |
| Catalogue.Store.UpsertArtist | backend/internal/services/listening/listening.go:339-361 | the update, the row count test and the insert make up the specified step |
| Catalogue.Store.UpsertAlbumPlaceholder | backend/internal/services/listening/listening.go:363-390 | the same for placeholder albums, foreign keys included |
| Catalogue.Store.UpsertAlbum | backend/internal/services/library/library.go:457-495 | the same for the library's full album write |
| Catalogue.Store.UpsertTrack | backend/internal/services/listening/listening.go:392-427 | the same for tracks |
| Listening.PollAdvances | backend/internal/services/listening/listening.go:107-204 | whatever fails in it and whatever stays unresolved, a poll appends the plays it could record to the history and delivers the verdicts that become known with them; without errors it records every listed play and loses no verdict |
| Listening.PollSplitting | backend/internal/services/listening/listening.go:133-187 | for any run of polls listing recorded plays or later ones, in any order, with any ingest and Append failures, tracks unresolved at one play and resolved at another, and other services writing the catalogue in between, the signals are the delivered verdicts on all adjacent pairs of the history as recorded |
| Listening.SplitIrrelevant | backend/internal/services/listening/listening.go:13-17 | two such runs that recorded the same history send the same signals, whatever their splits, errors and catalogues |
| Listening.CleanRunSendsAll | backend/internal/services/listening/listening.go:107-204 | if no poll reports an error every listed play is recorded and exactly the verdicts on all adjacent pairs are sent |
| PlayVerdicts.CleanRunRule | backend/internal/services/listening/listening.go:206-217 | in an error-free run every resolved play at time t with length d seconds and a successor has one signal, a skip if and only if the successor starts before t + 1000 d - 30000 |
| PlayVerdicts.EverySignalRuled | backend/internal/services/listening/listening.go:206-217 | in any run, whatever fails, every signal follows that rule |
| PlayVerdicts.LaterSuccessor | backend/internal/services/listening/listening.go:206-217 | a later successor never turns a full play into a skip |
| PlayVerdicts.CountersRule | backend/internal/services/listening/listening.go:231-235 | a poll's skipped and playedFull count the plays cut short and the others, among those whose signal went out |
| Listening.ExactlyOnce | backend/internal/services/listening/listening.go:178-236 | a resolved play with a successor has one signal, its verdict, and no other |
| Listening.SignalStems | backend/internal/services/listening/listening.go:178-187 | every signal stems from a resolved play with a successor, so the newest play has none |
| Listening.ReplaySendsNothing | backend/internal/services/listening/listening.go:13-17 | a poll that lists only recorded plays inserts nothing and sends nothing, whatever the resolver answers now and whatever fails |
| Listening.ResolvedPlayLostIff | backend/internal/services/listening/listening.go:241-281 | over a consistent catalogue a resolved play is lost exactly when its artist, album or, if new, track row is displaced by an older owner of the spotify id, or a nameless artist is unknown |
| Listening.IngestedRowShows | backend/internal/services/listening/listening.go:241-276 | an ingested track's row shows Spotify's title and length and links to the artist and album resolved, or to their placeholders |
| Listening.IngestedParentsShow | backend/internal/services/listening/listening.go:254-270 | its artist row shows the resolved name or else Spotify's, its album row Spotify's title and that artist |
| Listening.Service.LoadLastKnownPlay | backend/internal/services/listening/listening.go:285-316 | the newest persisted play with its track's mbid and duration, and its time as the cursor, or neither |
| Listening.Service.IngestBatch | backend/internal/services/listening/listening.go:159-176 | the ingest loop builds the chain of newly inserted plays and counts unresolved and failed ones |
| Listening.Service.EmitPairs | backend/internal/services/listening/listening.go:178-187 | the pair loop delivers the signals of the chain's resolved pairs and counts them |
| Listening.Service.Sync | backend/internal/services/listening/listening.go:107-204 | fails without touching anything if there is no token or the plays behind the cursor cannot be fetched; else one poll, ok exactly if nothing failed and nothing stayed unresolved |
| RepeatedPlays.CachedRepeatLostIff | backend/internal/services/listening/listening.go:251-276 | a recorded track played again and answered by the cache, whatever was written since, is lost exactly when its placeholder artist or its placeholder album has no row, as long as both Spotify ids have owners |
| RepeatedPlays.CachedRepeatLost | backend/internal/providers/resolver/resolver.go:204-227 | a track whose artist MusicBrainz named, with no placeholder artist row, loses its next play within the cache's TTL |
| RepeatedPlays.FirstIngestSucceeds | backend/internal/services/listening/listening.go:241-281 | on an empty backend the first play of such a track is recorded |
| Sorting.StableSortSpec | backend/internal/services/library/library.go:289-298 | the stable sort the services rely on: ordered, a permutation, equal elements in input order |
| FeedMerge.MergedSpec | backend/internal/http/handlers/feed.go:274-343 | one card per subject of the rows, each the first best-scoring row with all contributing sources in order when more than one, by score with ties by first appearance |
| FeedSources.FeedCardSources | backend/internal/http/handlers/feed.go:291-337 | read from distinct sources, a card shows the sources of the rows read for its subject, in order, if there are several, and none if there is one |
| FeedSources.SourcesShown | backend/internal/http/handlers/feed.go:332-337 | the same for any rows with one row per subject and source |
| FeedMerge.CutSpec | backend/internal/http/handlers/feed.go:334-343 | a card is dropped only when 50 are shown, none of which it outscores |
| FeedMerge.ListedIsLive | backend/internal/http/handlers/feed.go:192-211 | a source's list holds at most 50 rows, all of candidates of that source without expiry or with one after now, and all of those if they are fewer |
| FeedMerge.RankByCount | backend/internal/http/handlers/feed.go:320-333 | the i-th merged card reaches a score exactly when more than i subjects do |
| FeedMerge.LimitPushDown | backend/internal/http/handlers/feed.go:207-211 | cutting each source to its 50 best live rows first, ties broken arbitrarily, leaves the shown score sequence as without the cut |
| FeedMerge.LimitPushDownDistinct | backend/internal/http/handlers/feed.go:207-342 | with distinct scores the same subjects are shown through the same rows |
| FeedSources.SourcesSurviveIff | backend/internal/http/handlers/feed.go:268-272 | the inner limit leaves a subject's contributing sources as they are if and only if every source that lists it still lists it in its cut |
| FeedSources.SourceHiddenIff | backend/internal/http/handlers/feed.go:207-211 | a source loses an untied live row exactly if 50 of its live rows score better |
| FeedSources.NarrowSourcesSurvive | backend/internal/http/handlers/feed.go:268-272 | with at most 50 live rows a source no contributing source goes missing |
| FeedSources.SourceGoesMissing | backend/internal/http/handlers/feed.go:268-272 | a source with more than 50 live rows, the lowest shared with a second source: the merge sees the second alone |
| FeedMerge.AbsorbRow | backend/internal/http/handlers/feed.go:291-317 | the map and insertion-order step is one step of the ordered aggregator list |
| FeedMerge.ReadDiscoverMerged | backend/internal/http/handlers/feed.go:274-343 | the loops over sources and rows, the sort and the cut return the merge's first 50 cards |
| ResolverCache.CacheHoldsLastDecision | backend/internal/providers/resolver/resolver.go:197-248 | in any run a cached row is the last definitive verdict on its key |
| ResolverCache.DecisionsSpaced | backend/internal/providers/resolver/resolver.go:197-227 | with a monotone clock nothing gets past the cache within ttl of a hit or missTTL of a miss |
| ResolverCache.UpstreamCallsSpaced | backend/internal/providers/resolver/resolver.go:92-195 | two upstream calls for one key, the first definitive, are more than the applicable TTL apart |
| ResolverCache.ServedRepeatsLastDecision | backend/internal/providers/resolver/resolver.go:204-227 | a cached answer repeats the mbid and confidence, or the miss, of a verdict within its TTL, if and only if that verdict is not a hit with an empty mbid; it carries no other field |
| ResolverCache.AnswersFollowDecisions | backend/internal/providers/resolver/resolver.go:92-248 | with non-empty mbids every non-transient answer gives the mapping of the latest verdict |
| ResolverCache.ArtistAnswered | backend/internal/providers/resolver/resolver.go:162-195 | past the cache a found artist is mapped if and only if the match scores 90 or more, with confidence score/100, and cached so; below that it is unresolved and tombstoned |
| ResolverCache.RecordingAnswered | backend/internal/providers/resolver/resolver.go:92-158 | past the cache a found track or album is mapped and cached, with artist and title, a track with its release group at 0.95, an album with its type and date at 0.85 |
| ResolverCache.MissAnswered | backend/internal/providers/resolver/resolver.go:92-195 | past the cache no identifier or nothing found is unresolved with a tombstone, and a failing lookup changes nothing |
| ResolverCache.Service.CheckCache | backend/internal/providers/resolver/resolver.go:197-227 | a row answers exactly while within the TTL of its kind |
| ResolverCache.Service.Resolve | backend/internal/providers/resolver/resolver.go:92-195 | cache, lookup, score threshold and write as specified; upstream is asked exactly for unserved non-empty identifiers |
| LibraryRank.Gather | backend/internal/services/library/library.go:224-264 | one bucket per delivered non-empty artist id, with the first non-empty name, the follow flag and the artist's albums |
| LibraryRank.AlbumsKeepOrder | backend/internal/services/library/library.go:254-259 | a bucket lists its albums in fetch order |
| LibraryRank.BucketsPartitionAlbums | backend/internal/services/library/library.go:224-264 | the ranked buckets hold each album that names an artist as often as it was delivered, and no other |
| LibraryRank.BucketsByScoreDesc | backend/internal/services/library/library.go:284-300 | every bucket exactly once, ordered by score, then name, whatever the map order |
| LibraryRank.EqualScoresEqualParts | backend/internal/services/library/library.go:276-282 | equal scores mean as many albums and the same follow flag |
| LibraryRank.RankingDetermined | backend/internal/services/library/library.go:284-300 | any two rankings show the same score, name and follow flag at every rank |
| LibraryRank.FollowedFirstIff | backend/internal/services/library/library.go:276-298 | of a followed artist with a albums and an unfollowed one with b, the followed one stands first if and only if b is at most a + 3 |
| LibraryRank.AlbumsThenName | backend/internal/services/library/library.go:276-298 | of two artists followed alike the one with more albums stands first, with as many the one with the smaller name |
| LibraryRank.FirstNameShown | backend/internal/services/library/library.go:226-239 | a bucket is named by the first non-empty name delivered |
| LibrarySync.RunProgress | backend/internal/services/library/library.go:304-421 | in any run the counters equal the signals sent per kind, signals go out only for rows not saved before, each once; without Append failures every new row gets its signal |
| LibrarySync.SignalledAtMostOnce | backend/internal/services/library/library.go:344-421 | over any number of syncs and foreign catalogue writes: at most one follow_add per user and artist mbid and one library_add per user and album mbid, each with its saved row, and the two sets are equal if no Append ever fails |
| LibrarySync.FollowSignalsIff | backend/internal/services/library/library.go:304-366 | a followed artist is signalled under the mbid it gets exactly if that mbid was not saved before and its row is not displaced |
| LibrarySync.SignalledAgainIff | backend/internal/services/library/library.go:344-366 | a followed artist saved under one mbid and given another by a later sync is signalled again exactly if that one was not saved yet and has its row |
| LibrarySync.FollowSignalledTwice | backend/internal/services/library/library.go:344-366 | an artist followed while unresolved that later resolves to an existing row without a Spotify id is signalled twice |
| LibrarySync.LostSignalStaysLost | backend/internal/services/library/library.go:344-366 | a saved row whose Append failed is never signalled later |
| LibrarySync.CleanRunSavesAll | backend/internal/services/library/library.go:129-220 | a run without errors and unresolved items leaves every followed artist with an mbid and every bucketed album saved |
| LibrarySync.FollowLostIff | backend/internal/services/library/library.go:333-366 | a resolved follow is not saved exactly when its mbid is unknown and its spotify id sits on another row |
| LibrarySync.AlbumLostIff | backend/internal/services/library/library.go:371-421 | a resolved album is not saved exactly when it was not before and its artist link is missing or displaced, or its own mbid is |
| LibrarySync.AlbumShows | backend/internal/services/library/library.go:457-495 | a written album's row shows MusicBrainz's title, date and type where given and Spotify's otherwise, Spotify's track count, and the resolved or fallback artist |
| LibrarySync.TypeShown | backend/internal/services/library/library.go:628-642 | EP and Single in any letter case stay, everything else is an Album |
| LibrarySync.Service.ResolveOneAlbum | backend/internal/services/library/library.go:371-421 | every path of one album, with its tables and counters |
| LibrarySync.Service.ResolveBucketArtist | backend/internal/services/library/library.go:304-366 | every path of a bucket's artist: resolved, placeholder, skipped, abandoned |
| LibrarySync.Service.ResolveOneBucket | backend/internal/services/library/library.go:304-369 | the artist, then the albums in order unless the bucket was abandoned |
| LibrarySync.Service.Sync | backend/internal/services/library/library.go:129-220 | resolves a ranking of the gathered buckets; ok exactly when both listings were complete and nothing failed or stayed unresolved; no token changes nothing |
| MbRels.SelectTargets | backend/internal/services/mbrels/mbrels.go:140-164 | at most 4 distinct non-excluded targets, each by its first strongest relation, strongest first, none left out stronger than one taken |
| MbRels.PickReleases | backend/internal/services/mbrels/mbrels.go:174-218 | at most 2 releases written, each listed and in the window, tried newest first; an in-window one is left untried only for 2 written, everything tried being at least as recent; failed writes are counted |
| MbRels.ScanIsPick | backend/internal/services/mbrels/mbrels.go:174-218 | the sorted scan is such a pick whichever single writes fail |
| MbRels.Service.Sync | backend/internal/services/mbrels/mbrels.go:88-238 | fails only on the seed or exclusion query; else best targets and best picks for every seed, the candidate rows they write with their scores, every counter and the status |
| MbRels.PassBudget | backend/internal/services/mbrels/mbrels.go:129-218 | at most 4 targets a seed and 2 candidate writes a target |
| MbRels.NewerScoresIff | backend/internal/services/mbrels/mbrels.go:192-250 | a newer release never scores lower if and only if the seed's score is at least -10 |
| MbRels.OlderScoresHigher | backend/internal/services/mbrels/mbrels.go:192-250 | for a seed below -10 a release 180 days old outscores one of today |
| MbRels.CandidateScore | backend/internal/services/mbrels/mbrels.go:190-250 | a candidate scores the relation's strength times 1 plus a tenth of the seed's score times a recency that falls over 126 days from 1 to 0.3 |
| MbRels.CloserKindScoresHigher | backend/internal/services/mbrels/mbrels.go:190-194 | for a seed above -10 the same release scores higher for band members than for collaborators, then supporting musicians, then performers, then any other relation |
| MbRels.WrittenIsRecent | backend/internal/services/mbrels/mbrels.go:129-190 | a written release has a date, at most 180 days before the pass |
| Candidates.CountedAsNewIff | backend/internal/services/mbrels/mbrels.go:366-381 | the candidate table grows by the number counted as new if and only if no write hits an existing row or one written before, and by less otherwise |
| Candidates.LastWriteScores | backend/internal/services/samelabel/samelabel.go:426-441 | a candidate row shows the score of its last write |
| Candidates.UpsertAll | backend/internal/services/samelabel/samelabel.go:426-441 | every successful candidate write is counted as an insert |
| ReleaseDates.StringOrderRefinesDates | backend/internal/services/mbrels/mbrels.go:174-176 | of two parseable partial dates the smaller string is not the later date |
| ReleaseDates.DayNumberOrders | backend/internal/services/mbrels/mbrels.go:252-259 | day numbers follow the calendar, so date comparisons are theirs |
| ReleaseDates.YearLength | backend/internal/services/mbrels/mbrels.go:252-259 | years have 366 days exactly if they have a 29th of February, every fourth but three centuries of four |
| ReleaseDates.ParsesIffSpelled | backend/internal/services/mbrels/mbrels.go:252-259 | a string parses to a date if and only if it spells it: YYYY-MM-DD of an existing day, YYYY-MM for a first of the month, YYYY for a first of January |
| SameLabel.EachLabelOnce | backend/internal/services/samelabel/samelabel.go:126-151 | no label is browsed twice in a pass |
| SameLabel.PassBudget | backend/internal/services/samelabel/samelabel.go:132-206 | at most 3 labels a seed and 3 writes a label: 135 for 15 seeds |
| SameLabel.VisitsAreSound | backend/internal/services/samelabel/samelabel.go:132-206 | every visit is made for a label of one of the seeds walked |
| SameLabel.VisitScans | backend/internal/services/samelabel/samelabel.go:155-201 | a visited label has at most 3 writes, all of listed, in-window, non-excluded releases, and an eligible one is left untried only after 3 writes |
| SameLabel.CandidateScore | backend/internal/services/samelabel/samelabel.go:168-176 | a candidate scores 1 plus a tenth of the seed's score times a recency that falls over 273.75 days from 1 to 0.25 |
| SameLabel.NewerScoresIff | backend/internal/services/samelabel/samelabel.go:168-293 | a newer release never scores lower if and only if the seed's score is at least -10 |
| SameLabel.WrittenIsRecent | backend/internal/services/samelabel/samelabel.go:126-174 | a written release is not excluded and has a date, at most 365 days before the pass |
| SameLabel.SeedExhausted | backend/internal/services/samelabel/samelabel.go:141-151 | a label of a seed stays unprocessed only if the seed used up its budget of 3 |
| SameLabel.Service.Sync | backend/internal/services/samelabel/samelabel.go:86-220 | fails only on the seed or exclusion query; else the three loops make the specified pass, with the candidate rows it writes, every counter and the status |
| SameLabel.CollectLabels | backend/internal/services/samelabel/samelabel.go:225-281 | every label once: the artist's known labels if any, else those of the first 3 release groups as listed |
| SameLabel.ProbesNewestIff | backend/internal/services/samelabel/samelabel.go:255-263 | taking the first three of n listed release groups probes the newest whatever the listing's order, if and only if n is at most 3 |
| SameLabel.SortedListingProbesNewest | backend/internal/services/samelabel/samelabel.go:260-263 | a listing sorted newest first by its date strings is probed as the comment says |
| RunGate.OpensIff | backend/internal/services/mbrels/mbrels.go:322-335 | the gate opens exactly when every run not failed by now started at least MinInterval ago |
| RunGate.GateSpacesRuns | backend/internal/services/mbrels/mbrels.go:88-107 | at every moment of every run of the gate, starts that have not failed are at least MinInterval apart |
| RunGate.WindowBound | backend/internal/services/samelabel/samelabel.go:366-379 | a window of length L holds at most L / MinInterval + 1 starts that have not failed |
| RunGate.Gate.HasFreshRun | backend/internal/services/mbrels/mbrels.go:322-335 | the latest start among runs not failed is younger than MinInterval |
| RunGate.Gate.Start | backend/internal/services/mbrels/mbrels.go:88-107 | skips behind a fresh run, else records a running one; spacing is kept |
| RunGate.Gate.FinishRun | backend/internal/services/mbrels/mbrels.go:393-402 | only the run's status changes; spacing is kept |
| SseHub.SubsequencePositions | backend/internal/sse/hub.go:81-99 | a subsequence is given by increasing positions: events arrive in publishing order |
| SseHub.SubscriberSees | backend/internal/sse/hub.go:53-99 | at every moment of every run, what a live subscriber received and still holds is in order some of what the hub published to its user since it subscribed, all of it unless a publish found its buffer full |
| SseHub.ReadNext | backend/internal/sse/hub.go:53-55 | reading from a live subscription hands out the oldest event and keeps the hub's guarantees |
| SseHub.Channel.TrySend | backend/internal/sse/hub.go:91-98 | appends if there is room, else drops; received plus buffered stays a subsequence of published, and all of it while nothing was dropped |
| SseHub.Channel.Receive | backend/internal/sse/hub.go:53-55 | hands out the oldest buffered event and keeps that guarantee, also after the channel is closed |
| SseHub.RegisterKeepsTable | backend/internal/sse/hub.go:54-62 | a new subscription has an id and a channel of its own, no other moves |
| SseHub.UnregisterKeepsTable | backend/internal/sse/hub.go:64-74 | exactly one subscription goes, and its user with the last one |
| SseHub.Hub.Subscribe | backend/internal/sse/hub.go:53-76 | a new id and an empty channel that starts at the current end of the hub's publications; one more subscriber |
| SseHub.Hub.Cancel | backend/internal/sse/hub.go:64-75 | the subscription is gone, its channel closed with exactly its user's publications since it subscribed offered; one subscriber less; no empty inner map |
| SseHub.Hub.Publish | backend/internal/sse/hub.go:81-99 | each live channel of the user is offered the event once, no other channel changes |
| SseHub.Hub.SubscriberCount | backend/internal/sse/hub.go:103-107 | the number of live subscriptions |
| UserTokens.RunKeepsValid | backend/internal/services/user/user.go:44-117 | over any run an identity has one account, a user one account, and no account or identity ever moves |
| UserTokens.UserNeverChanges | backend/internal/services/user/user.go:44-102 | whatever happens in between, two connects return the same user if and only if they name the same provider and external id |
| UserTokens.TokenIsCurrent | backend/internal/services/user/user.go:164-200 | a returned token is stored and more than 60 s from expiry, or was just issued and stored with its refresh token and expiry |
| UserTokens.CallsIff | backend/internal/services/user/user.go:157-168 | the refresh callback runs exactly for an unlocked account whose token does not expire more than 60 seconds from now |
| UserTokens.FetchChangesIff | backend/internal/services/user/user.go:168-197 | exactly when a fetch changes the account row; a transient failure never does |
| UserTokens.LockedUntilReconnect | backend/internal/services/user/user.go:157-184 | after a terminal failure whose lock was written no callback runs until the identity is connected again |
| UserTokens.ReconnectUnlocks | backend/internal/services/user/user.go:84-96 | connecting the identity stores the new tokens and unlocks its account, and changes nothing else |
| UserTokens.FirstConnect | backend/internal/services/user/user.go:66-83 | a first connect creates the user and an unlocked account with the tokens given |
| UserTokens.QuietWhileFresh | backend/internal/services/user/user.go:164-168 | until the grace window opens the stored token is returned and no callback runs |
| UserTokens.Service.UpsertByExternal | backend/internal/services/user/user.go:44-117 | finds, creates or rejects as specified, and keeps the invariant |
| UserTokens.Service.AccessToken | backend/internal/services/user/user.go:128-200 | every outcome; the callback runs exactly when specified, with the account's external id and stored refresh token |
| TopLists.LoggedAsComputedIff | backend/internal/services/toplists/toplists.go:330-337 | the computed weight is logged exactly at ranks other than 50, where 2.0 is |
| TopLists.BetterRankWeighsMoreIff | backend/internal/services/toplists/toplists.go:330-337 | a better rank weighs more, if and only if the worse one is not 50 or it is among the first 16 of the short range |
| TopLists.RecentRangeWeighsMoreIff | backend/internal/services/toplists/toplists.go:101-105 | short outweighs medium outweighs long exactly at ranks below 50 |
| TopLists.TotalClosedForm | backend/internal/services/signal/signal.go:103-106 | the first n ranks log n(99 - n)/50 times the multiplier, so 49 times it for ranks 1 to 49, and 2.0 more from rank 50 on |
| TopLists.RankWeights | backend/internal/services/toplists/toplists.go:330-337 | the logged weights in numbers: 3 - 0.06 r, 2 - 0.04 r and 1.4 - 0.028 r for the three ranges, and 2.0 at rank 50 |
| TopLists.ListTotals | backend/internal/services/toplists/toplists.go:330-337 | ranks 1 to 49 log 73.5, 49 and 34.3 in the three ranges |
| TopListsSync.ListLogsTotal | backend/internal/services/toplists/toplists.go:151-185 | a list ranked 1 to n of which every item is done adds that total weight to the log |
| TopListsSync.SyncProgress | backend/internal/services/toplists/toplists.go:110-202 | over a sync every listed item is counted once as done, unresolved or failed, other errors are failed fetches, signals and done items are equally many, each signal has its snapshot and nothing recorded before changes |
| TopListsSync.DoneTrackShows | backend/internal/services/toplists/toplists.go:250-319 | a done track has its row, or one that holds its Spotify id, with title and length, linked to the artist and album resolved or to their placeholders |
| TopListsSync.DoneArtistShows | backend/internal/services/toplists/toplists.go:204-244 | a done artist has its row, or one that holds its Spotify id, under its name |
| TopListsSync.DoneWrites | backend/internal/services/toplists/toplists.go:204-319 | a done item leaves one snapshot with its rank and mbid and one signal of that rank's weight |
| TopListsSync.GateClosedIff | backend/internal/services/toplists/toplists.go:343-356 | the gate is closed exactly while some artist snapshot is younger than 12 hours, whatever track snapshots there are |
| TopListsSync.Service.ResolveOne | backend/internal/services/toplists/toplists.go:204-319 | every path of one artist or track: resolver, catalogue writes up to the first failing one, snapshot, signal, counters |
| TopListsSync.Service.Sync | backend/internal/services/toplists/toplists.go:110-202 | skipped behind a fresh snapshot, failed without a token or any range, else the three ranges in order with the status the counters call for |

## Left out

- Floating point: weights and scores are exact reals; with rounding, log order would matter.
- Column widths, updated_at columns, signal source and context, reason payloads and expiry of candidates, sync_runs columns beyond start and status.
- Database and transaction errors other than constraint violations and the failing statements passed in as parameters; the foreign keys to users.
- Concurrent use: a transaction, a gate check with its start, and each hub operation are atomic. Two triggers at once can pass the gate together, and a cancel between Publish's copy of the receivers and its sends is not covered.
- RunGate.Gate.Start: assumes check and insert happen together, as in a sequential run.
- SseHub.Hub.Cancel: requires the subscription to be live, so a cancel function called twice is outside the model.
- Listening.PollSplitting: assumes that a Spotify track resolves to one mbid whenever it resolves, that an mbid has one positive length, also in other services' track writes that give a length, that polls list recorded plays or later ones, and that one track plays at a time; other services write between polls, not within one; an Append failure is a property of the signal, which is tried once.
- FeedMerge.ReadDiscoverMerged: takes the rows of each source's query as given, with one clock for all sources; which rows win a tie at the inner limit is the database's choice.
- ResolverCache.Service.Resolve: cache writes succeed; the code ignores a failed one. One method stands for the three Resolve functions, which differ in identifier, confidence and score threshold.
- MbRels.Service.Sync: the seed and exclusion queries and the catalogue rows of targets and releases are left out, as they are in SameLabel.Service.Sync with the label tables; whether an album or candidate write fails is given from outside, write by write.
- UserTokens.Service.AccessToken: tokens are stored in the clear; encryption is taken to round trip and its failures are left out.
- TopListsSync.Service.Sync: the errors of the gate query and of opening the run are left out.
- LibrarySync.Service.Sync: the account's token is only there or not; saved_at, log lines and timing are left out; letters of album types are lower-cased in ASCII.
- lbsimilar, lfsimilar and releases repeat the gate and budget shapes of mbrels and samelabel.
- HTTP handlers, cookies, OAuth redirects, the SSE wire format, provider clients, rate limiters, schedulers, migrations and the frontend.
- Random ids are arbitrary: a drawn user id that exists makes the connect fail, as the primary key does.
