# DSSC_IR music recommender — a Dafny model

DSSC_IR is a music recommender. The model covers its data layer and the discrete logic of
its recommenders.

The data layer is a small SQLite handler with four tables: USERS, SONGS, HISTORY and
RATINGS. The recommenders are:

- a cold-start recommender, based on song neighbours;
- a relevance ranking over numeric song attributes;
- a user-based recommender, built from the listening histories;
- a handler that runs every recommender whose tables are available and merges their
  suggestions into one ranked list.

The model has one Dafny module per source file. Each has the same name, except that
`SQLHandler.py` becomes `SqlHandler` and `Ratings_count_unique_id.py` becomes
`RatingsCountUniqueId`. There are three helper modules:

- `Wrappers`: `Option` and `Result`.
- `Text`: Python's `str`/`int` on integers, `join`, `[:-2]`, `*`, and character counts.
- `OrderedDict`: a Python `dict` as an association list in insertion order, with Python's
  stable `sorted(..., reverse=True)` and slicing.

The model is built as follows:

- **Tables.** Each table is a class. Its rows are a `map` keyed by the primary key, and its
  methods update that map in place. Foreign-key checks are membership tests in the key sets
  of the other tables, which are passed in.
- **Query building.** The SQL handler's query building is modelled twice: as loops over the
  condition list, and as functions that specify those loops.
- **Recommenders.** A recommender that keeps a running result (`rec_songs`) is a class.
  Its floating-point and scikit-learn parts are parameters: neighbour index lists,
  distances, similarity order, random draws and the centroid match. Scores are exact
  `real`s.
- **Running the recommenders.** The four guarded calls of `recommend_songs` are written as
  one guarded step, `RunIf`, applied to each position of the fixed order in a `for` loop
  (`RunRecommenders`). `SelectedRuns` proves that the loop runs exactly the recommenders
  that the four blocks as written select (`Selected`), in the same order.
- **Exceptions.** A Python exception that ends an operation is an `Err` of the `Errors.Error`
  datatype. A warning that is only issued is either left out or returned as data
  (`Table.Search`).

## Model

| member | source | states |
|---|---|---|
| SqlHandler.WhereClause | core/data_handlers/SQLHandler.py:267-273 | the WHERE loop produces exactly the condition text and the values of the triples, in order; connectors are copied verbatim |
| SqlHandler.WherePlaceholders | core/data_handlers/SQLHandler.py:267-273 | the condition text has exactly one `?` per bound value when names, operators and connectors hold no `?` |
| SqlHandler.WhereTextEmpty | core/data_handlers/SQLHandler.py:267-275 | the condition text is empty exactly when the WHERE list is empty |
| SqlHandler.WhereClausePresence | core/data_handlers/SQLHandler.py:275-282 | a SELECT has a WHERE clause exactly when there are conditions; a DELETE always has one |
| SqlHandler.SetClause | core/data_handlers/SQLHandler.py:283-294 | the SET loop over more than two targets unpacks each into a column and a value and yields the `column = ?` assignments and the values in order, stopping at the first target that does not unpack; two or fewer targets are read as one `(column, value)` tuple, with a missing item raising `IndexError` and a non-string column `TypeError` |
| SqlHandler.UnpackAllFacts | core/data_handlers/SQLHandler.py:287-290 | the loop succeeds exactly when every target unpacks, then yields each target's own column and value in order; otherwise it raises the error of the first target that does not unpack |
| SqlHandler.UnpackAllStops | core/data_handlers/SQLHandler.py:287-290 | once a target fails to unpack, the later targets change nothing |
| SqlHandler.SetPartTwoCharacters | core/data_handlers/SQLHandler.py:287-291 | a two-character string among three targets unpacks into a one-character column and a one-character value |
| SqlHandler.SetPartUnpackErrors | core/data_handlers/SQLHandler.py:287-288 | among three targets, a string of another length raises `ValueError` and a non-string value raises `TypeError` |
| SqlHandler.SetPlaceholders | core/data_handlers/SQLHandler.py:283-294 | the SET text has one `?` per SET value |
| SqlHandler.UpdateValueOrder | core/data_handlers/SQLHandler.py:283-296 | in an UPDATE the SET values precede the WHERE values |
| SqlHandler.BuildQuery | core/data_handlers/SQLHandler.py:249-301 | `build_query` yields the statement of the query specification; an operation other than SELECT, DELETE or UPDATE raises `SQLException` |
| SqlHandler.QueryPlaceholders | core/data_handlers/SQLHandler.py:264-301 | for every accepted operation the SQL text has exactly one `?` per value in the tuple |
| SqlHandler.SelectPlaceholders | core/data_handlers/SQLHandler.py:275-280 | a SELECT, with or without a WHERE clause, has one `?` per condition value |
| SqlHandler.DeletePlaceholders | core/data_handlers/SQLHandler.py:281-282 | a DELETE has one `?` per condition value |
| SqlHandler.UpdatePlaceholders | core/data_handlers/SQLHandler.py:283-296 | an UPDATE has one `?` per SET value and per condition value |
| SqlHandler.Dispatch | core/data_handlers/SQLHandler.py:227-245 | conditions only, sql with truthy data, and sql with no data are accepted and drive the cursor as built, raw or bare statements; every other shape, including sql with empty data, raises `SQLException` |
| SqlHandler.Shape | core/data_handlers/SQLHandler.py:194-199 | a 1x1 result becomes the bare value; a single row becomes a list when `flat`; otherwise the rows are returned unchanged |
| SqlHandler.ShapeRoundTrip | core/data_handlers/SQLHandler.py:194-199 | shaping loses nothing: the fetched rows can be recovered from every shape |
| SqlHandler.LookupContains | core/data_handlers/SQLHandler.py:194-199 | `v in search(column = v)` is true exactly when one row holds `v`; zero rows or two rows make it false |
| SqlHandler.IsEmptyWide | core/data_handlers/SQLHandler.py:201-203 | a table of at least two columns is empty exactly when it has no rows |
| SqlHandler.IsEmptySingleCell | core/data_handlers/SQLHandler.py:201-203 | a one-column table holding `''` counts as empty, and one holding `0` raises `TypeError` |
| SqlHandler.PlaceholderList | core/data_handlers/SQLHandler.py:104 | `('?, ' * n)[:-2]` is `n` question marks joined by `, ` |
| SqlHandler.InsertPlaceholders | core/data_handlers/SQLHandler.py:100-107 | no statement when the table is missing; otherwise exactly one `?` per column |
| SqlHandler.Alter | core/data_handlers/SQLHandler.py:319-332 | a missing table does nothing; adding an existing column raises `ColumnNameAlreadyExist`; an unknown action raises `AlterActionNotExist`; every statement starts with `ALTER TABLE t` |
| SqlHandler.SelectColumns | core/data_handlers/SQLHandler.py:487-498 | a missing table raises `TableNotExist`; otherwise the nested loop yields the selected column names |
| SqlHandler.MatchesMembership | core/data_handlers/SQLHandler.py:494-497 | a row contributes its name exactly when one of the requested types is among its fields |
| SqlHandler.SelectedMembership | core/data_handlers/SQLHandler.py:492-497 | a name is selected exactly when a table-info row with that name matches a requested type |
| SqlHandler.ColumnNotExist | core/data_handlers/SQLHandler.py:543-546 | for an existing table, true exactly when no column has the name; for a missing table, `in None` raises |
| Table.Search | core/data_handlers/Table.py:74-84 | the rows are returned unchanged; for an empty-list result with conditions, one warning per triple (connectors skipped) unless silenced |
| Table.WarnTriples | core/data_handlers/Table.py:77-81 | one not-exist warning per triple condition, in order, and none when warnings are ignored |
| Table.WarningsFollowValues | core/data_handlers/Table.py:76-81 | there is one warning per bound value, for that triple's column and value |
| Table.LookupItemNotExist | core/data_handlers/Table.py:146-150 | `item_not_exist` is true exactly when no row holds the id, however many rows hold it |
| Table.UserAndSongExist | core/data_handlers/HistoryTable.py:208-214 | true exactly when the user is in USERS and the song is in SONGS |
| Table.CreateId | core/data_handlers/UserTable.py:103-107 | `'0'` for the empty list; otherwise `str(int(last) + 1)`, parsing back to one more; non-numeric raises `ValueError` |
| Table.NextId | core/data_handlers/UserTable.py:82-86 | sort the ids numerically and create the next one: `'0'` for no ids, otherwise max + 1; a non-numeric id raises `ValueError` |
| Table.NextIdFresh | core/data_handlers/UserTable.py:84-86 | the new id is numeric, larger than every existing id, and therefore unused |
| UserTable.UniqueHolders | core/data_handlers/UserTable.py:36-42 | under the UNIQUE constraints, at most one row holds a given username, email or id |
| UserTable.InsertKeepsUnique | core/data_handlers/UserTable.py:79-87 | inserting a user whose username and email nobody holds keeps the constraints |
| UserTable.AssignKeepsUnique | core/data_handlers/UserTable.py:125-126 | an UPDATE (with SQLite's rejection of duplicates) never breaks the UNIQUE constraints |
| UserTable.AssignOnlyTouches | core/data_handlers/UserTable.py:125-126 | an update of a non-key column changes only that column of that user |
| UserTable.UserTable.constructor | core/data_handlers/UserTable.py:36-50 | the table starts with the existing rows, which satisfy the constraints |
| UserTable.UserTable.ColumnValueAlreadyUsed | core/data_handlers/UserTable.py:189-194 | true for an unknown column; otherwise true exactly when one row holds the value |
| UserTable.UserTable.CheckColumnValueValidity | core/data_handlers/UserTable.py:210-215 | true exactly when the column is known and the user exists |
| UserTable.UserTable.HasUser | core/data_handlers/UserTable.py:52 | the lookup of the constructor finds the id exactly when that user exists |
| UserTable.UserTable.Add | core/data_handlers/UserTable.py:78-89 | a taken username or email returns None and changes nothing; otherwise exactly one row is inserted under the next id, which is returned; a non-numeric stored id raises `ValueError` |
| UserTable.UserTable.Bootstrap | core/data_handlers/UserTable.py:52-56 | the admin (default admin/pwd/admin@gmail.com) is added only when id `'0'` is missing; on an empty table it gets id `'0'` |
| UserTable.UserTable.Update | core/data_handlers/UserTable.py:125-126 | only a known column of an existing user is written, and the constraints are kept |
| UserTable.UserTable.Remove | core/data_handlers/UserTable.py:140-143 | the user's row is removed if present; otherwise nothing changes |
| SongTable.AssignOnlyTouches | core/data_handlers/SongTable.py:116-118 | an update of a non-key attribute changes only that attribute of that song |
| SongTable.AssignRenames | core/data_handlers/SongTable.py:116-118 | an update of `song_id` moves the row to the new key unless the key is taken |
| SongTable.AssignKeepsArity | core/data_handlers/SongTable.py:116-118 | every stored song keeps its attribute count |
| SongTable.SongTable.constructor | core/data_handlers/SongTable.py:21-43 | the table starts with the existing rows |
| SongTable.SongTable.CheckColumnValueValidity | core/data_handlers/SongTable.py:176-181 | true exactly when the column is known and the song exists |
| SongTable.SongTable.Add | core/data_handlers/SongTable.py:57-80 | a song equal in all 17 attributes to a stored one is not inserted and the matching ids are returned; otherwise the next id is allocated and the row is stored with it in front; a wrong arity raises |
| SongTable.SongTable.Update | core/data_handlers/SongTable.py:116-118 | only a known column of an existing song is written |
| SongTable.SongTable.Remove | core/data_handlers/SongTable.py:132 | the song's row is removed, with no existence check |
| HistoryTable.UserHasHistory | core/data_handlers/HistoryTable.py:187 | true exactly when some HISTORY row belongs to the user |
| HistoryTable.SongNotListenedByUser | core/data_handlers/HistoryTable.py:169-170 | true exactly when the (user, song) pair has no row |
| HistoryTable.AfterListenCounts | core/data_handlers/HistoryTable.py:104-108 | a listen raises the pair's repetition by exactly one (or stores 1 for a new pair) and leaves every other row unchanged |
| HistoryTable.HistoryTable.constructor | core/data_handlers/HistoryTable.py:35-54 | the table starts with the existing rows |
| HistoryTable.HistoryTable.Seed | core/data_handlers/HistoryTable.py:56-58 | with a known user and song, the pair is inserted with repetition 1; a duplicate pair raises `IntegrityError`; otherwise nothing changes |
| HistoryTable.HistoryTable.Add | core/data_handlers/HistoryTable.py:74-83 | a new pair is inserted with repetition 1 and returns 1; a heard pair is incremented and returns None; an unknown user or song changes nothing |
| HistoryTable.HistoryTable.Update | core/data_handlers/HistoryTable.py:104-114 | a heard pair is incremented by one; a never-heard pair of known user and song is added with repetition 1 |
| HistoryTable.HistoryTable.Remove | core/data_handlers/HistoryTable.py:116-121 | nothing changes |
| HistoryTable.HistoryTable.AddNewUserWithSong | core/data_handlers/HistoryTable.py:186-192 | with a known user and song, the pair is listened (inserted or incremented); otherwise nothing changes |
| RatingsTable.BoundsAlwaysPass | core/data_handlers/RatingsTable.py:69 | the `or` bound test fails only when `upper < rating < lower`, so it accepts every rating whenever `lower <= upper + 1` |
| RatingsTable.RatingAlreadyExist | core/data_handlers/RatingsTable.py:117-125 | true exactly when a nonzero rating is stored; no row or a stored 0 is false |
| RatingsTable.RatingsTable.constructor | core/data_handlers/RatingsTable.py:28-48 | the table starts with the existing rows and the given bounds |
| RatingsTable.RatingsTable.Add | core/data_handlers/RatingsTable.py:68-79 | for a known pair within the bounds, the rating is inserted or overwritten and returned; a stored 0 raises `IntegrityError`; otherwise None and no change |
| RatingsTable.RatingsTable.Update | core/data_handlers/RatingsTable.py:147-156 | a nonzero stored rating is replaced; a missing pair changes nothing (`[] != 0`); a stored 0 re-adds and raises `IntegrityError` |
| RatingsTable.RatingsTable.Remove | core/data_handlers/RatingsTable.py:172-174 | the pair's row is removed when user and song exist; otherwise nothing changes |
| GeneralModel.NonZeroMembership | core/utilities/GeneralModel.py:42 | `flatnonzero` lists exactly the nonzero columns of the row |
| GeneralModel.SampleInRange | core/utilities/GeneralModel.py:42-47 | every sampled column is in range and nonzero in its row |
| GeneralModel.CopyAndZeros | core/utilities/GeneralModel.py:37-38 | the train set starts as a fresh copy of `x` and the test set as fresh zeros of the same shape |
| GeneralModel.MoveToTest | core/utilities/GeneralModel.py:48-49 | the chosen entries of a row move from the train set to the test set; other rows are untouched |
| GeneralModel.GeneralModel.constructor | core/utilities/GeneralModel.py:15-19 | no train set, test set or mask yet |
| GeneralModel.GeneralModel.Split | core/utilities/GeneralModel.py:21-56 | `x` is unchanged; the train set is `x` with the chosen entries zeroed and the test set holds exactly those entries; the mask is returned and stored; a row with too few nonzeros raises `ValueError` with the rows before it recorded |
| RSWeighter.UniformSumsToOne | core/recommender_systems/RSWeighter.py:58 | the uniform weights sum to 1 when there is a recommender |
| RSWeighter.RSWeighter.constructor | core/recommender_systems/RSWeighter.py:18-20 | both fields start as None |
| RSWeighter.RSWeighter.Set | core/recommender_systems/RSWeighter.py:36-41 | only suggestions are stored when only they are given, only the song when only it is given; both or neither change nothing |
| RSWeighter.RSWeighter.UniformWeight | core/recommender_systems/RSWeighter.py:55-58 | raises `RSNotInstantiated` without recommenders; otherwise one weight per recommender, summing to 1 when there are any |
| RatingsCountUniqueId.WidenBounds | data_manipulation/Ratings_count_unique_id.py:22-40 | one step of the running max/min keeps them the exact bounds of the ids seen |
| RatingsCountUniqueId.AbsorbBounds | data_manipulation/Ratings_count_unique_id.py:18-40 | a readable row keeps both ranges the exact bounds of the ids counted so far |
| RatingsCountUniqueId.ScanRow | data_manipulation/Ratings_count_unique_id.py:16-40 | a short row raises `IndexError` and a non-numeric id `ValueError`; a readable row widens the ranges by its ids, the header changes nothing |
| RatingsCountUniqueId.Scan | data_manipulation/Ratings_count_unique_id.py:7-43 | header rows are skipped; the ranges are None with no counted row, otherwise the largest and smallest counted user and song ids; the first unreadable row raises `IndexError` or `ValueError` |
| RecommenderSystem.Print | core/recommender_systems/RecommenderSystem.py:52-56 | the message is the name, a newline, one line per entry, and a closing newline |
| RecommenderSystem.EmptyMessage | core/recommender_systems/RecommenderSystem.py:52-56 | no entries print as `name + '\n\n'` |
| RecommenderSystem.LinesCount | core/recommender_systems/RecommenderSystem.py:53-54 | one line break per entry |
| RecommenderSystem.MessageLineCount | core/recommender_systems/RecommenderSystem.py:52-56 | without line breaks in the parts, the message has one line per entry plus two |
| RelevanceBasedRS.FirstNotNumeric | core/recommender_systems/RelevanceBasedRS.py:41-43 | None exactly when every requested column is numeric, otherwise the first non-numeric one |
| RelevanceBasedRS.OrderByJoin | core/recommender_systems/RelevanceBasedRS.py:45 | the ORDER BY text is the `DESC` columns joined by `, ` |
| RelevanceBasedRS.ColumnMax | core/recommender_systems/RelevanceBasedRS.py:51 | the column maximum bounds every value and is attained |
| RelevanceBasedRS.ColumnMin | core/recommender_systems/RelevanceBasedRS.py:51 | the column minimum bounds every value and is attained |
| RelevanceBasedRS.Scaled | core/recommender_systems/RelevanceBasedRS.py:50-51 | scaling keeps the song ids, the row count and the width |
| RelevanceBasedRS.ScaledRange | core/recommender_systems/RelevanceBasedRS.py:51 | after min-max scaling each value lies in [0, 1], the column maximum maps to 1 and the minimum to 0 |
| RelevanceBasedRS.ScaleRange | core/recommender_systems/RelevanceBasedRS.py:51 | `(x - min) / (max - min)` maps `[min, max]` onto `[0, 1]`, `max` to 1 and `min` to 0 |
| RelevanceBasedRS.FilledHit | core/recommender_systems/RelevanceBasedRS.py:55-57 | with distinct song ids, a song among the first `n` rows scores its scaled value in the last requested column |
| RelevanceBasedRS.FilledMiss | core/recommender_systems/RelevanceBasedRS.py:55-57 | a song outside the first `n` rows keeps its earlier score |
| RelevanceBasedRS.RelevanceBasedRS.constructor | core/recommender_systems/RelevanceBasedRS.py:21-25 | the running result starts empty |
| RelevanceBasedRS.RelevanceBasedRS.CheckNumeric | core/recommender_systems/RelevanceBasedRS.py:41-43 | the loop reports the first requested column that is not numeric, and none when all are |
| RelevanceBasedRS.RelevanceBasedRS.PutValues | core/recommender_systems/RelevanceBasedRS.py:56-57 | writing a row's values one after another under its song id leaves the last one |
| RelevanceBasedRS.RelevanceBasedRS.FillRows | core/recommender_systems/RelevanceBasedRS.py:55-57 | the first `n_songs` rows are written in order; a row index past the end raises `IndexError` after the writes before it |
| RelevanceBasedRS.RelevanceBasedRS.RecommendSongs | core/recommender_systems/RelevanceBasedRS.py:41-59 | a non-numeric column raises before any query; with no columns the invalid query is reported by the handler and finds no rows, so the result is unchanged and any positive `n` raises `IndexError`; a single row cannot be framed; otherwise the first `n` scaled rows are added to the never-cleared result, and asking beyond the rows raises `IndexError` after the earlier writes |
| CoolStartRS.HeardListened | core/recommender_systems/CoolStartRS.py:71-74 | with `get_listened`, every gathered song after the seed is in the user's history |
| CoolStartRS.ScoredKeys | core/recommender_systems/CoolStartRS.py:76-78 | without `get_listened`, every scored song is unheard, and there is at most one per counted novel neighbour |
| CoolStartRS.ScoredSize | core/recommender_systems/CoolStartRS.py:76-78 | scoring stores at most one song per unheard hit among the neighbours visited |
| CoolStartRS.ScoredUnheard | core/recommender_systems/CoolStartRS.py:76-78 | any song that scoring stores is one the user has not listened to |
| CoolStartRS.StopsAtUnique | core/recommender_systems/CoolStartRS.py:59 | the loop's stopping position is unique |
| CoolStartRS.StopsWithin | core/recommender_systems/CoolStartRS.py:59 | the counter never exceeds `n_songs` (0 for a negative count) |
| CoolStartRS.Visit | core/recommender_systems/CoolStartRS.py:60-80 | one position: an empty ROWID lookup is skipped uncounted; otherwise a listened neighbour is gathered (counting every hit) or an unheard one is scored `1 - distance` (counting insertions) |
| CoolStartRS.Walk | core/recommender_systems/CoolStartRS.py:57-80 | the loop stops when the list runs out or the counter reaches `n_songs`, with the gathered songs or scores of the positions visited |
| CoolStartRS.KNeighbors | core/recommender_systems/CoolStartRS.py:53-81 | anchors start with the seed and hold only heard songs; scores hold only unheard songs and at most `n_songs` of them |
| CoolStartRS.CoolStartRS.constructor | core/recommender_systems/CoolStartRS.py:24-26 | the running result starts empty |
| CoolStartRS.ScoredDistinct | core/recommender_systems/CoolStartRS.py:76-78 | the scored songs form a dict: no song is stored twice |
| CoolStartRS.MeanScoresOne | core/recommender_systems/CoolStartRS.py:163-176 | a fresh mean song keeps its score 1.0 after the merge unless a neighbour of the mean scores it again |
| CoolStartRS.CoolStartRS.AddCentroidNeighbours | core/recommender_systems/CoolStartRS.py:163-176 | a fresh (found, unheard) mean song is stored with 1.0 and the count drops by one; the result is the earlier dict, so extended, updated with the unheard neighbours of the mean scanned up to their stopping point; old keys are kept and new keys are unheard |
| CoolStartRS.CoolStartRS.RecommendSongs | core/recommender_systems/CoolStartRS.py:142-180 | the centroid path is taken exactly when more than one anchor was gathered; it then yields the earlier dict, with a fresh mean song scored 1.0, updated with the scored neighbours of the mean for `n_songs` (one fewer after the mean song); otherwise the result is replaced by exactly the scored unheard neighbours of the seed, at most `n_songs` of them |
| UserBasedRS.ListenedInMembership | core/recommender_systems/UserBasedRS.py:83-86 | a user's list holds exactly the songs with a positive count |
| UserBasedRS.ListenedInDistinct | core/recommender_systems/UserBasedRS.py:83-86 | a user's list has no repeats |
| UserBasedRS.HistoryPerUser | core/recommender_systems/UserBasedRS.py:83-90 | the dict has one entry per user, in index order |
| UserBasedRS.HistoryPerUserMembership | core/recommender_systems/UserBasedRS.py:83-90 | entry `i` is user `i` with exactly the songs that user heard |
| UserBasedRS.PopAt | core/recommender_systems/UserBasedRS.py:292 | `pop(i)` removes one element |
| UserBasedRS.NoOtherItems | core/recommender_systems/UserBasedRS.py:289-295 | without a key, true exactly for an empty dict; with a key, `int(key)` picks a position to drop (non-numeric raises `ValueError`, out of range `IndexError`) and the result says whether nothing remains |
| UserBasedRS.RankedOutStep | core/recommender_systems/UserBasedRS.py:370-372 | the users pruned so far grow by the user at each position beyond `n_songs` |
| UserBasedRS.Prune | core/recommender_systems/UserBasedRS.py:370-376 | the loop drops exactly the users ranked beyond position `n_songs` and keeps every other entry |
| UserBasedRS.NotIn | core/recommender_systems/UserBasedRS.py:386-387 | the valid songs are those not heard by the current user |
| UserBasedRS.NotInDistinct | core/recommender_systems/UserBasedRS.py:386-387 | filtering keeps a list free of repeats |
| UserBasedRS.TallySongsGet | core/recommender_systems/UserBasedRS.py:389-393 | counting a list adds its occurrences to each song's count and adds its songs to the keys |
| UserBasedRS.TallyKeys | core/recommender_systems/UserBasedRS.py:384-393 | the candidates are exactly the songs some other user heard and the current user did not |
| UserBasedRS.TallyGet | core/recommender_systems/UserBasedRS.py:384-393 | each candidate's count is the number of other users who heard it |
| UserBasedRS.CountUser | core/recommender_systems/UserBasedRS.py:389-393 | the inner loop equals the counting specification |
| UserBasedRS.CountRepetitions | core/recommender_systems/UserBasedRS.py:384-393 | the outer loop equals the counting specification |
| UserBasedRS.PyIndex | core/recommender_systems/UserBasedRS.py:406 | Python indexing accepts exactly `-n <= i < n`, and a negative index counts from the end |
| UserBasedRS.Pairs | core/recommender_systems/UserBasedRS.py:406-410 | one pair per neighbour, in neighbour order: a repetition-dict key and that neighbour's `1 - distance` |
| UserBasedRS.ClosestKeys | core/recommender_systems/UserBasedRS.py:406-410 | every candidate kept is a key of the repetition dict |
| UserBasedRS.Clamp | core/recommender_systems/UserBasedRS.py:242-248 | the sample size is never above `n_songs`, always below the number of candidates, and equal to one of `n_songs` and that number minus one, i.e. the smaller |
| UserBasedRS.MinOf | core/recommender_systems/UserBasedRS.py:276 | `np.min` is a lower bound of the weights and is one of them |
| UserBasedRS.TiedMinimumFails | core/recommender_systems/UserBasedRS.py:271-281 | when two candidates tie at the smallest weight and all but one candidate are to be drawn, Distribution sampling raises `ValueError`: min-max scaling zeroes both, leaving too few nonzero probabilities |
| UserBasedRS.Picked | core/recommender_systems/UserBasedRS.py:257 | drawn songs keep their own scores |
| UserBasedRS.Filtered | core/recommender_systems/UserBasedRS.py:263-265 | the Distribution pool holds only candidates |
| UserBasedRS.Weights | core/recommender_systems/UserBasedRS.py:271-273 | one weight per candidate |
| UserBasedRS.SampleFacts | core/recommender_systems/UserBasedRS.py:238-287 | TopN with nonzero `n` is the first `n + 1` entries in order; TopN with 0 and an unknown mode return the candidates; Uniform fails exactly on no candidates or a negative clamped count; every result keeps the candidates' scores |
| UserBasedRS.SampleKeepsScores | core/recommender_systems/UserBasedRS.py:238-287 | in every mode each sampled song keeps its own score |
| UserBasedRS.TakeGet | core/recommender_systems/UserBasedRS.py:240 | a slice of a dict keeps each kept key's score |
| UserBasedRS.UserBasedRS.constructor | core/recommender_systems/UserBasedRS.py:31-45 | no result yet |
| UserBasedRS.NeighbourCount | core/recommender_systems/UserBasedRS.py:206-212 | the neighbour count is never above the candidates and is `n_songs` with local neighbours; it is refused with `ValueError` exactly when local and `n_songs` is not positive or exceeds the candidates |
| UserBasedRS.UserBasedRS.RecommendSongs | core/recommender_systems/UserBasedRS.py:297-425 | an unknown listened song raises `KeyError`; with local neighbours and `n_songs <= 0` only the empty early answers succeed; an empty answer keeps the old result, otherwise the result is sorted by score, descending; every recommended song is unheard by the current user and heard by a kept similar user |
| UserBasedRS.CandidatesRecommendable | core/recommender_systems/UserBasedRS.py:378-397 | every counted candidate is recommendable |
| OrderedDict.Put | core/recommender_systems/MusicRSHandler.py:149-152 | `d[k] = v` sets `k` and no other key |
| OrderedDict.PutKeys | core/recommender_systems/MusicRSHandler.py:149-152 | an existing key keeps its position; a new key goes last |
| OrderedDict.PutDistinct | core/recommender_systems/MusicRSHandler.py:149-152 | assignment keeps the keys distinct |
| OrderedDict.PutAllGet | core/recommender_systems/CoolStartRS.py:176 | `update` takes each key from the argument when it has it, otherwise from the old dict |
| OrderedDict.PutAllKeys | core/recommender_systems/CoolStartRS.py:176 | `update` keeps every old key and adds only the argument's keys |
| OrderedDict.Remove | core/recommender_systems/UserBasedRS.py:372 | `pop` removes exactly that key |
| OrderedDict.Take | core/recommender_systems/MusicRSHandler.py:158 | the slice `[:n]` is a prefix of length `min(n, len)` |
| OrderedDict.SortByScoreDescFacts | core/recommender_systems/MusicRSHandler.py:158 | the sort is descending by score, a permutation, and stable (ties keep their order) |
| OrderedDict.SortDistinct | core/recommender_systems/MusicRSHandler.py:158 | sorting keeps the keys distinct |
| MusicRSHandler.Exist | core/recommender_systems/MusicRSHandler.py:65-66 | a table is usable exactly when it exists and has a row |
| MusicRSHandler.Active | core/recommender_systems/MusicRSHandler.py:51-61 | CoolStartRS and UserBasedRS are active exactly when SONGS and HISTORY are usable, RelevanceBasedRS when SONGS is, WeightedMFBasedRS when RATINGS is; order as in `refresh` |
| MusicRSHandler.Activate | core/recommender_systems/MusicRSHandler.py:48-61 | the four guarded activations of `refresh` yield exactly `Active(db)` |
| MusicRSHandler.Selected | core/recommender_systems/MusicRSHandler.py:124-138 | a recommender runs exactly when it is active and its arguments are given, in the fixed order |
| MusicRSHandler.RunsBelow | core/recommender_systems/MusicRSHandler.py:124-138 | the first `k` blocks run only recommenders placed before position `k`, so no recommender runs twice |
| MusicRSHandler.SelectedRuns | core/recommender_systems/MusicRSHandler.py:124-138 | the blocks taken one position at a time run exactly the recommenders that `Selected` names, in the same order |
| MusicRSHandler.SuggestedDicts | core/recommender_systems/MusicRSHandler.py:124-138 | when every recommender returns a dict, every suggestion is a dict |
| MusicRSHandler.AddScoreGet | core/recommender_systems/MusicRSHandler.py:149-152 | adding a weighted score raises exactly that song's total |
| MusicRSHandler.AddScoresGet | core/recommender_systems/MusicRSHandler.py:149-152 | one recommender's pass adds `score * weight` to each song it proposes |
| MusicRSHandler.AccumulateGet | core/recommender_systems/MusicRSHandler.py:147-152 | each song's total is its earlier score plus the weighted scores of all recommenders |
| MusicRSHandler.AccumulateKeys | core/recommender_systems/MusicRSHandler.py:147-152 | the songs are the earlier ones plus those some recommender proposed |
| MusicRSHandler.AccumulateDistinct | core/recommender_systems/MusicRSHandler.py:147-152 | merging keeps the keys distinct |
| MusicRSHandler.DividedGet | core/recommender_systems/MusicRSHandler.py:154-155 | dividing keeps the songs and divides each score |
| MusicRSHandler.ContributionConstant | core/recommender_systems/MusicRSHandler.py:141-152 | with equal weights, a song's contribution is the sum of its scores times the weight |
| MusicRSHandler.EnsembleScore | core/recommender_systems/MusicRSHandler.py:140-155 | with `k` recommenders, a song's combined score is `(earlier + (sum of scores) * (1/k)) / k`; exactly the earlier and proposed songs are present |
| MusicRSHandler.TopN | core/recommender_systems/MusicRSHandler.py:158 | the result is sorted descending, has `min(n, len)` entries and only merged entries, and none left out scores higher than one kept |
| MusicRSHandler.RankedDistinct | core/recommender_systems/MusicRSHandler.py:158 | the ranked result has distinct songs |
| MusicRSHandler.MusicRSHandler.constructor | core/recommender_systems/MusicRSHandler.py:25-30 | an empty result, no recommenders, no recordings and no weighter |
| MusicRSHandler.MusicRSHandler.Refresh | core/recommender_systems/MusicRSHandler.py:48-63 | the active recommenders are exactly `Active(db)`, recordings are emptied, a fresh weighter is made, and the running result is kept |
| MusicRSHandler.MusicRSHandler.ExecuteRecommender | core/recommender_systems/MusicRSHandler.py:90-94 | the result is recorded under the recommender's name, added to the suggestions, and the counter rises by one |
| MusicRSHandler.MusicRSHandler.AddItems | core/recommender_systems/MusicRSHandler.py:149-152 | the inner loop adds one recommender's weighted scores |
| MusicRSHandler.MusicRSHandler.AddAll | core/recommender_systems/MusicRSHandler.py:147-152 | the outer loop merges every recommender's weighted scores |
| MusicRSHandler.MusicRSHandler.DivideAll | core/recommender_systems/MusicRSHandler.py:154-155 | each score is divided by the count; with no recommender and a non-empty result, `ZeroDivisionError` |
| MusicRSHandler.MusicRSHandler.RunIf | core/recommender_systems/MusicRSHandler.py:124-138 | one guarded block: the recommender in position `k` of the fixed order runs, is recorded and is counted exactly when it is active and its arguments are given; the suggestions, count and recordings go from those of the first `k` blocks to those of the first `k + 1` |
| MusicRSHandler.MusicRSHandler.RunRecommenders | core/recommender_systems/MusicRSHandler.py:121-138 | after the four guarded blocks, in order, the suggestions hold one result per recommender that ran, the count is their number, each is recorded under its name, and nothing else changes |
| MusicRSHandler.MusicRSHandler.Combine | core/recommender_systems/MusicRSHandler.py:140-160 | the weighter is given the suggestions; with no recommender and a non-empty running dict, `ZeroDivisionError` and the dict is unchanged; otherwise the dict becomes the `n` best songs of the uniformly weighted, divided merge and stays a dict |
| MusicRSHandler.MusicRSHandler.RecommendSongs | core/recommender_systems/MusicRSHandler.py:121-160 | without `refresh`, `TypeError`; otherwise the weighter holds the suggestions, and the result is the top `n` of the merged, doubly divided scores (the old result included), or `ZeroDivisionError` when nothing ran over a non-empty result |
| MusicRSHandler.MusicRSHandler.ListenedSongByUser | core/recommender_systems/MusicRSHandler.py:175 | without a weighter, `AttributeError`; otherwise only the listened song is stored |
| MusicRSHandler.MusicRSHandler.Recommended | core/recommender_systems/MusicRSHandler.py:188-192 | before `refresh`, `AttributeError`; `{}` for a recommender with no recorded result; otherwise its last result |
| MusicRSHandler.AccessorAfterRun | core/recommender_systems/MusicRSHandler.py:205-209 | after a run, each accessor returns the result its recommender produced |

## Notable behaviour of the code

The model follows the code in each of these places:

- **Ensemble scores.** The handler weights each score by `1/k`, the uniform weight of
  `RSWeighter`, and then divides the weighted sum by `k` (`MusicRSHandler.py:146-155`). A
  song's score is therefore `(sum of scores) / k^2`, and earlier results are divided again
  on every call.
- **`refresh` is not called by the constructor.** Its docstring (`MusicRSHandler.py:38`)
  says it runs when an instance is created, but `__init__` (`MusicRSHandler.py:25-30`) does
  not call it. `recommend_songs` before `refresh` fails: `recommenders` is still None, so
  membership raises `TypeError`.
- **The running result is never reset.** `rec_songs` is set to `{}` only in `__init__`
  (`MusicRSHandler.py:27`) and keeps its songs across calls.
- **Sample size.** The variable `ten_percent_test_size` (`GeneralModel.py:39`) is
  `int(10 * n / 100)`, which is `n div 10`.
- **CoolStartRS ROWID lookups.** The neighbour indices are 0-based positions, but
  `CoolStartRS.py:61` looks them up as SQLite ROWIDs, which start at 1. The model takes
  the ROWID-to-song map as given.
- **Rating bounds.** The test `rating >= lower or rating <= upper` (`RatingsTable.py:69`)
  accepts every rating (`RatingsTable.BoundsAlwaysPass`).
- **Ratings updates.** For a missing pair, the search returns `[]` and `[] != 0` holds
  (`RatingsTable.py:150`), so `update` takes the UPDATE branch and changes nothing. A stored
  rating of 0 takes the re-add branch, whose INSERT violates the primary key.
- **`no_other_items` with a key** pops the position `int(key)`, not the key
  (`UserBasedRS.py:291-292`).
- **`k_neighbors` with `get_listened`** counts every found song, heard or not
  (`CoolStartRS.py:71-74`).

## Left out

- SQLite itself is replaced by in-memory maps: connections, commits, PRAGMA and the
  foreign-key cascades of HISTORY and RATINGS, because only the relational outcome is modelled.
- CSV `store`/`load`, `unicode_conversion` (calls `unidecode`), `print` dumps, `__str__` and
  the `generator` methods are not modelled; they are file I/O, foreign code or random data.
- Python `int()` is modelled only on an optional minus sign followed by digits. Spaces,
  underscores and `+` are treated as `ValueError`.
- `date.today()` is the `today` parameter; `np.random.choice` draws are the `choose`
  parameter and the `choice` argument of `GeneralModel.GeneralModel.Split`.
- WeightedMFBasedRS, WeightedMF, WeightedALS and HyperTuner are not part of this model. They are floating-point linear algebra and an
  external optimiser. In the handler, WeightedMFBasedRS is only a name in `Active` and
  `Selected`, and its output is part of the `results` parameter.
- StandardScaler, NearestNeighbors, cosine similarity, centroids and `np.mean`/`np.equal`
  are left out. Their outputs are parameters: neighbour lists, distances, the similarity
  order, and the song matching the centroid.
- Scores are exact `real`s, not IEEE doubles, and Python's rendering of a float is the `show`
  parameter of `RecommenderSystem.Print`.
- RelevanceBasedRS.Scaled: a constant column scales to NaN in pandas; the model gives 0.
- CoolStartRS.CoolStartRS.RecommendSongs: the centroid match is the `meanSong` parameter (at
  most one song). A failing `get_vector` is not modelled.
- UserBasedRS.UserBasedRS.RecommendSongs has five gaps:
  - the HISTORY-missing path and the `create_dataframe` filter are not modelled;
  - pruning is modelled on the users dict only, because the other four dicts are float data;
  - the Distribution weights are not min-max scaled or normalised as numbers. The failures
    of that step are modelled: all weights equal, or fewer weights above the smallest than
    songs to draw. The draw itself is the `choose` parameter;
  - the nearest-neighbour search is taken to be fitted on one row per candidate, and the
    neighbour list `nb` is not tied to the neighbour count. A count that exceeds the
    candidates raises `ValueError` in the body (`NeighbourCount`), but the contract states
    only the `n_songs <= 0` case;
  - the result contract covers the recommendable songs and the order, not the exact sampled set.
- SqlHandler.SetClause: with exactly two targets whose second is itself a
  `(column, value)` pair, the source appends that tuple as the bound value and the later
  binding error is swallowed by the handler; the model raises `TypeError` instead, because
  a bound value is a scalar here.
- SqlHandler.BuildQuery: inherits the same gap for an UPDATE whose second target is a pair.
- SongTable.AssignRenames: an update of `song_id` to a float or to NULL is modelled as
  refused, leaving the table unchanged. SQLite would store the float's text, or a NULL key,
  and re-key the row. Keys are modelled as text, and SQLite's rendering of reals is not
  modelled.
- SongTable.SongTable.Update: inherits the same gap for `song_id` set to a float or to NULL.
- MusicRSHandler.MusicRSHandler.RecommendSongs: what each recommender returns is its field
  of the `results` parameter (an `Outputs`, one dict per recommender), the same on every
  call. An exception raised inside a recommender is not modelled, and recommenders are
  keyed by name rather than by object.
- MusicRSHandler.Exist requires tables of at least two columns (`Wide`). `is_empty` on a
  one-column table is covered separately by `SqlHandler.IsEmptySingleCell`.
- Warnings are not modelled as output, except the not-exist warnings of `Table.Search`.
  They are never raised, so they change no outcome.
