# GramAddict place-likers core, modelled in Dafny

This project models two pieces of the GramAddict Instagram bot:

- **The interacted-users store** (`GramAddict/core/storage.py`). It maps each username to an interaction record. The model covers the update `add_interacted_user`, the queries `check_user_was_interacted`, `check_user_was_interacted_recently` and `get_following_status`, whitelist and blacklist membership, `_get_last_day_interactions_count`, and the `FollowingStatus` enum. The store is the immutable datatype `Storage.StorageState`. The update is a pure function returning a new state. "Now" is an explicit integer number of microseconds instead of `datetime.now()`.
- **The per-source retry controller** (`run` in `GramAddict/plugins/interact_place_likers.py`). The mode selects a list of places. For each place, the controller checks the global limit once and resets a completion flag. It then repeats the job until one attempt returns normally, and stops the whole run when the limit check was true. The model also covers the scroll-end configuration that `handle_place` builds.

The collaborators whose code is not part of this model are passed in as parameters:

- `check_limit` is `limitAt: nat -> bool`. It gives the answer of the single check made before the i-th visited source.
- The attempts of `job()` are `attemptsAt: nat -> seq<bool>`. For the i-th source, this lists whether each attempt returned normally or raised and was recovered by `run_safely`.
- `sample_sources` is a function `sample`.
- `get_value` is a function `getValue`.

The code loops forever when a source never succeeds. The model observes a finite prefix of attempts instead. When that prefix holds no success, the run ends in `StillRetrying`.

`limit_reached` is computed once per source, at line 75 of `interact_place_likers.py`, and the `while` at line 121 never re-evaluates it. A limit reached during a source's retries therefore does not stop the retries. It is seen only by the check before the next source. `RetrySource` and `RunFrom` model that.

## Model

| member | source | states |
|---|---|---|
| Storage.StatusByName | GramAddict/core/storage.py:202-208 | Enum lookup by name returns the member with exactly that name, and returns nothing when no member has it. |
| Storage.StatusValuesUnique | GramAddict/core/storage.py:202-208 | `@unique`: two members have the same value only if they are the same member. |
| Storage.StatusNameRoundTrip | GramAddict/core/storage.py:99-104 | For every member, upper-casing its lower-cased name and looking that up gives back the same member. |
| Storage.DeriveStatus | GramAddict/core/storage.py:133-140 | The status is FOLLOWED iff `followed`; UNFOLLOWED iff `unfollowed` and not `followed`; SCRAPED iff `scraped` and neither of the others; NONE iff no flag is set. It is never NOT_IN_LIST. |
| Storage.KeepUnlessChanged | GramAddict/core/storage.py:158-173 | The "update only if we have a real update" expression always equals the argument, so it is plain assignment. |
| Storage.AddInteractedUser | GramAddict/core/storage.py:117-176 | Only `username`'s entry changes; every other record and both lists stay the same. Liked, watched and commented are the old value plus the argument, or just the argument for a missing key. Session, job, target and the three flags equal the latest arguments. The stored time reads back as `now`. |
| Storage.WasInteracted | GramAddict/core/storage.py:86-87 | True iff the user has a record; an unknown user's status is NOT_IN_LIST. Its relation to the update is stated by `AddThenQuery`, `UnknownUser` and `AddKeepsOtherUsers`. |
| Storage.GetFollowingStatus | GramAddict/core/storage.py:99-104 | An unknown user gives NOT_IN_LIST, and only a known user can raise. A known user's lookup succeeds iff the status key is present and its upper-cased value names a member, and the answer is that member. |
| Storage.LastInteraction | GramAddict/core/storage.py:94-96 | The corrected read of a record's time: it raises KeyError exactly when the `last_interaction` key is missing, and otherwise gives the written whole seconds with the written fraction, or 0 microseconds when none is written. |
| Storage.LastInteractionAsWritten | GramAddict/core/storage.py:94-96 | The read as written: KeyError for a missing key, otherwise the `".%f"` parse, which raises ValueError for a time written without a fraction. |
| Storage.WasInteractedRecently | GramAddict/core/storage.py:89-97 | An unknown user gives false. For a known user it raises exactly when the time cannot be read, with that error, and otherwise answers true iff `now` is at most three days after the last interaction. |
| Storage.WasInteractedRecentlyAsWritten | GramAddict/core/storage.py:89-97 | The query with the source's own format string: false for an unknown user, KeyError for a missing time, ValueError for a time written without a fraction, and otherwise true iff `now` is at most three days after the time read. |
| Storage.TimeToText | GramAddict/core/storage.py:131 | `str(datetime)` leaves out the fractional part exactly when the microsecond is 0. |
| Storage.ParseTimeAsWritten | GramAddict/core/storage.py:94-96 | The `".%f"` format rejects exactly the texts with no fractional part. Otherwise the time read has the written whole seconds and the written fraction as its microsecond. |
| Storage.ParseTime | GramAddict/core/storage.py:188-190 | The corrected reader gives the written whole seconds and a fraction of 0 when none is written. |
| Storage.ParseTimeRoundTrip | GramAddict/core/storage.py:131 | The corrected reader gives back every instant the writer writes. |
| Storage.ParseTimeAsWrittenRoundTrip | GramAddict/core/storage.py:94 | The reader as written gives back exactly the instants that are not whole seconds. It raises ValueError on the others. |
| Storage.WholeSecondStampRejected | GramAddict/core/storage.py:95 | Concrete case: the instant one second after the epoch is rejected as written and read back correctly by the corrected reader. |
| Storage.CountLastDay | GramAddict/core/storage.py:184-194 | The loop over every record, for any reader of the time: it raises iff some record's time cannot be read, with that record's error. Otherwise the count equals the number of users seen within one day of `now`, and is at most the number of stored users. |
| Storage.LastDayInteractionsCount | GramAddict/core/storage.py:184-194 | With the corrected reader: it raises, with KeyError, iff some record has no `last_interaction`. Otherwise the count equals the number of users seen within one day of `now`, and is at most the number of stored users. |
| Storage.LastDayInteractionsCountAsWritten | GramAddict/core/storage.py:184-194 | As written: any record whose time was written without a fraction makes the count raise. When every record has a time, the error is ValueError. Otherwise the count equals the number of users seen within one day of `now` as the format string reads them. |
| Storage.ListContains | GramAddict/core/storage.py:178-182 | A front-to-back scan finds the username iff it occurs at some index of the list. |
| Storage.IsUserInWhitelist | GramAddict/core/storage.py:178-179 | True iff the username is in the whitelist. |
| Storage.IsUserInBlacklist | GramAddict/core/storage.py:181-182 | True iff the username is in the blacklist. |
| Storage.AddThenQuery | GramAddict/core/storage.py:86-104 | After an update, the user counts as interacted and recently interacted at that `now`. `get_following_status` returns the status derived from the flags. |
| Storage.AddAtWholeSecondThenRecentlyAsWrittenRaises | GramAddict/core/storage.py:89-97 | As written, an update made at a whole second makes the recency query for that user raise ValueError. |
| Storage.AddKeepsOtherUsers | GramAddict/core/storage.py:130-175 | For any other user, all three queries answer the same before and after an update. |
| Storage.AddTwice | GramAddict/core/storage.py:142-156 | Two updates of a new user: the counters hold the sums of both calls, and every other field equals what the second call alone stores. |
| Storage.AddCountsForLastDay | GramAddict/core/storage.py:184-194 | An update at `now` adds exactly the updated user to the users counted for the last day at `now`. Every other user's membership stays the same. |
| Storage.AddDefaultInteraction | GramAddict/core/storage.py:117-156 | An update with every keyword at its default keeps the user's three counters (0 for a missing key), stores status `none` with all three flags false, and reads back as NONE. |
| Storage.UnknownUser | GramAddict/core/storage.py:86-102 | With no entry: not interacted, status NOT_IN_LIST, not interacted recently. |
| PlaceLikers.SelectSources | GramAddict/plugins/interact_place_likers.py:64-71 | Mode "place-likers-top" gives the top list and any other mode gives the recent list. An unset chosen list is an error. |
| PlaceLikers.SelectIgnoresOtherList | GramAddict/plugins/interact_place_likers.py:64-71 | The list that is not chosen has no effect on the result. |
| PlaceLikers.FirstSuccess | GramAddict/plugins/interact_place_likers.py:119-122 | The index found is the first attempt that returned normally: every earlier attempt failed. Nothing is found only when every attempt failed. |
| PlaceLikers.RetrySource | GramAddict/plugins/interact_place_likers.py:100-122 | Limit reached before the source: zero attempts, flag false. Otherwise: attempts up to and including the first normal return (index + 1), and then the flag is true. With no normal return, every observed attempt runs and the flag stays false. The flag is true iff the last attempt returned normally. |
| PlaceLikers.ProcessSource | GramAddict/plugins/interact_place_likers.py:75-122 | The loop agrees with the reference per-source behaviour `VisitSource`. |
| PlaceLikers.ProcessSources | GramAddict/plugins/interact_place_likers.py:74-129 | The loop over sources, with its `break` on a reached limit, agrees with the reference run `RunFrom`. |
| PlaceLikers.Run | GramAddict/plugins/interact_place_likers.py:49-129 | It fails iff the chosen source list is unset. Otherwise it processes the sampled sources as `RunFrom` does. |
| PlaceLikers.RunVisitsInOrder | GramAddict/plugins/interact_place_likers.py:74-79 | The k-th report is about the k-th sampled source, in order. It depends only on that source's own limit check and attempts: the completion flag does not carry over. |
| PlaceLikers.RunStopsOnlyAtEnd | GramAddict/plugins/interact_place_likers.py:121-129 | Every visited source but the last completed. The run ends at the limit iff the last visited source saw the limit, and that source got zero attempts. It ends AllDone iff every source was visited and completed. |
| PlaceLikers.LimitStopsRun | GramAddict/plugins/interact_place_likers.py:75-129 | Suppose the check before a source is true and all earlier sources completed. Then that source gets zero attempts, no later source is visited, and the run ends at the limit. |
| PlaceLikers.NoLimitRunCompletes | GramAddict/plugins/interact_place_likers.py:74-122 | With the limit never reached and a success for every source: every source is visited and completes. The total attempts equal the sum over sources of (failed attempts + 1). |
| PlaceLikers.TwoCafesScenario | GramAddict/plugins/interact_place_likers.py:74-122 | CafeA succeeds first time and CafeB on the third attempt: both complete, with 1 and 3 attempts, 4 in total. |
| PlaceLikers.LimitBeforeSecondCafeScenario | GramAddict/plugins/interact_place_likers.py:74-129 | The limit check before CafeB is true: CafeA completes, CafeB gets no attempt, and the run ends at the limit. |
| PlaceLikers.PostsEndDetector | GramAddict/plugins/interact_place_likers.py:174-181 | `repeats_to_end` is always 2. The skipped-list and fling limits come from `get_value` with defaults 15 and 0. |
| PlaceLikers.DefaultScrollEndConfig | GramAddict/plugins/interact_place_likers.py:174-181 | If `get_value` returns its default for an unset option, unset options give (2, 15, 0). |

## Left out

- Reading and writing files: `Storage.__init__` loading the JSON history and the whitelist and blacklist text files, `_update_file`, and the `sys.exit` on a parse error. The lists are given as already-read sequences.
- `add_filter_user`: it takes the profile object's own attribute dictionary (`__dict__`, by reference, not a copy), writes `follow_button_text` and `skip_reason` into it, so the profile object itself gains both attributes, stores it under the username, and writes the whole history to a file. Python object reflection and the file are outside this model.
- `datetime.now()`: it is an explicit `now` parameter. The datetime text is abstracted to its whole seconds plus an optional fraction, which is the only part of the format the behaviour depends on.
- `str.upper` and `str.lower` are modelled for ASCII letters only. Python also maps other letters; for example `"ſ".upper()` is `"S"`.
- In a record, `session_id`, `job_name` and `target` do not distinguish a missing key from a key holding `null`. Records that are not dictionaries, and counters that are not integers, are not modelled.
- The class-level default attributes shared between `Storage` instances: the store is one value per instance.
- `run_safely`: its recovery steps, screen recording, crash counting and any escape that ends the process. The model only keeps its effect that a failed attempt returns without setting the flag.
- `handle_likers`, `interact_with_user`, `is_follow_limit_reached_for_source`, `init_on_things`, `Filter`, `ScrollEndDetector` and `check_limit`: their code is not part of this model. They appear only as the oracles described above.
- The two `partial` bindings in `handle_place` and the `int(follow_limit)` conversion: they only pass values on to `handle_likers`, which is not part of this model.
- Logging, the colour output, the second `check_limit(..., output=True)` call before `break` (it only logs), the global `seed()`, and the command-line argument metadata (lines 30-47).
- A source whose attempts never succeed: the code loops forever. The model ends with `StillRetrying` once the observed attempts run out.
- Storage.WasInteractedRecently: reads the stored time with the corrected reader `ParseTime`, not the format string the source uses (see Findings). `WasInteractedRecentlyAsWritten` models the source as written.
- Storage.LastInteraction: reads the time with the corrected reader, so it never raises the ValueError that lines 94-96 raise for a time written without a fraction. `LastInteractionAsWritten` models those lines as written.
- Storage.LastDayInteractionsCount: reads times with the corrected reader, so a record written at a whole second is counted instead of raising ValueError as the source would. `LastDayInteractionsCountAsWritten` models the source as written.
- Storage.LastDayInteractionsCountAsWritten: when one record lacks the key and another was written at a whole second, it does not say whether KeyError or ValueError comes first, because that depends on dictionary order.

## Findings

| source | as written | input that shows it | evidently intended | confidence | as-written member | corrected member |
|---|---|---|---|---|---|---|
| GramAddict/core/storage.py:94-96 | `last_interaction` is written as `str(datetime.now())`, which leaves out `.ffffff` when the microsecond is 0. It is read back with `strptime(..., "%Y-%m-%d %H:%M:%S.%f")`, which requires the fraction. | An interaction recorded at a whole second, such as `2024-01-01 12:00:00.000000`, is stored as `"2024-01-01 12:00:00"`. Then `check_user_was_interacted_recently` and `_get_last_day_interactions_count` raise ValueError. | Every time the store writes can be read back. | high; not executed | Storage.ParseTimeAsWritten, Storage.WholeSecondStampRejected, Storage.AddAtWholeSecondThenRecentlyAsWrittenRaises, Storage.LastDayInteractionsCountAsWritten | Storage.ParseTime, Storage.ParseTimeRoundTrip, Storage.LastDayInteractionsCount |
