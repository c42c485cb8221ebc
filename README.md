# Music bot core, modelled in Dafny

This project models the parts of a Discord music bot that make decisions on
their own, without the chat platform, the Lavalink audio node or the database.
It covers:

- the per-guild playback queue (`AdvancedQueue`, `TrackInfo`, `QueueManager`):
  capacity, priority insertion, shuffle that keeps priority entries first,
  the 100-entry history, repeat modes, favourites, listening preferences,
  statistics and the autoplay fallback from history;
- the track-end step of the music cog, which replays, re-queues, takes the
  next entry or falls back to an autoplay suggestion;
- the DJ and moderation tables: who counts as a DJ, skip votes and their
  threshold, banned tracks, DJ roles and per-user queue counts;
- the text helpers: time parsing and formatting, the three kinds of progress
  bar, YouTube thumbnail ids, source classification, field truncation,
  embed pagination, lyric chunking and page cycling, and Spotify link
  recognition;
- the configuration read from the process environment, given here as a map;
- the error counter, the user-facing error messages, the performance
  counters, the uptime text and the database log buffer.

Code that changes state in place is written as classes whose methods carry
`modifies` clauses: `AdvancedQueue`, `QueueManager`, `DjModeration`,
`LyricsView`, `TrackEndHandler`, `DatabaseLogHandler`, `ErrorHandler` and
`PerformanceMonitor`. Each of their methods states its whole new state,
through specification functions of the old state (`InsertAt`,
`RemoveAt`, `PushHistory`, `PrefsAfter`, `AllowedPick` and the like),
and the lemmas about those functions carry the properties. The track-end
step is stated through the same functions, so the entry it plays is one
`get` may take. Pure code is written as functions and lemmas.

Files and modules:

| file | module | models |
|---|---|---|
| wrappers.dfy | Wrappers | `Option`, `Result` |
| text.dfy | Text | Python string operations used throughout: `in`, `split`, `join`, `strip`, `lower`, `int()`, `str()`, slicing with negative indices, truncating division |
| queue_model.dfy | QueueModel | queue entries and the pure rules of the queue |
| advanced_queue.dfy | Queues | `AdvancedQueue` and `QueueManager` as classes |
| advanced_music.dfy | AdvancedMusic | `format_time`, the unclamped progress bar, the volume check, the YouTube thumbnail and the track-end step |
| enhanced_commands.dfy | EnhancedCommands | `parse_time`, `/seek`, `/fastforward` and `/rewind` targets |
| lyrics.dfy | Lyrics | `_split_lyrics`, `_clean_lyrics`, `LyricsView` |
| spotify.dfy | Spotify | `extract_spotify_id`, `is_available` |
| dj_moderation.dfy | Moderation | the DJ and moderation cog |
| enhanced_embeds.dfy | Embeds | embed helpers |
| animated_embeds.dfy | AnimatedBars | `ProgressBarGenerator` |
| config.dfy | Config | `BotConfig` |
| logging_system.dfy | Logging | `DatabaseLogHandler`, `ErrorHandler`, `PerformanceMonitor` |

## Model

| member | source | states |
|---|---|---|
| QueueModel.ToDict | utils/advanced_queue.py:37-51 | The dictionary form keeps the entry's uri, length, priority, requester id and play count. |
| QueueModel.InsertionIndex | utils/advanced_queue.py:135-145 | The insertion point is the first entry of strictly lower priority, or the end of the queue; every entry before it has priority at least as high. |
| QueueModel.InsertAt | utils/advanced_queue.py:140 | `list.insert`: the new entry sits at the index; the entries before and after keep their order. |
| QueueModel.InsertionIndexUnique | utils/advanced_queue.py:135-145 | Exactly one index meets the insertion rule. |
| QueueModel.AddKeepsOrder | utils/advanced_queue.py:135-147 | A queue in non-increasing priority order stays ordered after an add at the computed place. |
| QueueModel.AddNextGoesFirst | utils/advanced_queue.py:153-155 | `add_next` (priority 999) goes to the front exactly when the queue is empty or its front entry has priority below 999. |
| QueueModel.EqualPriorityFifo | utils/advanced_queue.py:135-145 | A new entry goes behind every entry of the same priority, so equal priorities keep arrival order. |
| QueueModel.Newest | utils/advanced_queue.py:95 | The capped history is the last min(n, 100) entries. |
| QueueModel.PushHistory | utils/advanced_queue.py:185 | Appending to the capped history keeps at most 100 entries and puts the new one last. |
| QueueModel.PushAllKeepsNewest | utils/advanced_queue.py:185 | Pushing entries one by one leaves the newest 100 of the whole sequence. |
| QueueModel.NewestOfNewest | utils/advanced_queue.py:95 | Dropping old history early changes nothing about what is kept later. |
| QueueModel.MarkPlayed | utils/advanced_queue.py:180-181 | A taken entry's play count goes up by one and its last-played time is set; nothing else changes. |
| QueueModel.RemoveAt | utils/advanced_queue.py:199 | `list.pop(i)` removes exactly that one element. |
| QueueModel.IndexOfUri | utils/advanced_queue.py:205-208 | The index found is the first entry with the uri; no earlier entry has it; none means no entry has it. |
| QueueModel.MoveMeaning | utils/advanced_queue.py:215-222 | `pop` then `insert` keeps the same entries; the moved entry lands at `to_index`, or last when `to_index` is past the end; moving to the same index changes nothing. |
| QueueModel.Uris | utils/advanced_queue.py:301 | The uri list has one uri per history entry, in order. |
| QueueModel.WasRecentlyPlayedWindow | utils/advanced_queue.py:299-302 | An uri was recently played exactly when it is among the last three history entries. |
| QueueModel.ShufflePickAvoidsRecent | utils/advanced_queue.py:162-175 | In shuffle mode with more than one entry, when some entry was not recently played, the pick was not recently played. |
| QueueModel.SomePickAllowed | utils/advanced_queue.py:162-177 | A non-empty queue always has an allowed pick, so `get` cannot get stuck. |
| QueueModel.HighPriority | utils/advanced_queue.py:228 | Only entries with priority above 0 are kept. |
| QueueModel.Normal | utils/advanced_queue.py:229 | Only entries with priority 0 or below are kept. |
| QueueModel.PartitionIsPermutation | utils/advanced_queue.py:228-234 | The two parts together hold exactly the queue's entries. |
| QueueModel.ShuffleIsPermutation | utils/advanced_queue.py:224-235 | A shuffled queue has the same entries as before. |
| QueueModel.ParseMode | utils/advanced_queue.py:244-248 | Exactly "off", "track" and "queue" name a repeat mode. |
| QueueModel.NextModeCycle | utils/advanced_queue.py:250-256 | Three toggles return to the start, and no one or two toggles do. |
| QueueModel.PrefsAfterCounts | utils/advanced_queue.py:278-297 | With a requester, that user's track count goes up by one and the count of the lower-cased non-empty author by one; nothing else changes; without a requester nothing changes. |
| QueueModel.BumpCounts | utils/advanced_queue.py:391-396 | `d[k] = d.get(k, 0) + 1` adds one to k's count only and keeps keys distinct. |
| QueueModel.BumpKeys | utils/advanced_queue.py:391-396 | The keys after a bump are the old keys plus k. |
| QueueModel.TallyOfCounts | utils/advanced_queue.py:387-396 | The counting loop gives each key its number of occurrences. |
| QueueModel.FirstMax | utils/advanced_queue.py:398 | `max` by count gives the first entry with the largest count. |
| QueueModel.StatsMeaning | utils/advanced_queue.py:368-407 | Empty queue: zeros, key `genres`, no artist. Otherwise: key `artists`, the track count, the sum of lengths, floor average, counts per artist and requester, no most-requested artist exactly when no entry has an author, and otherwise one with the maximal count. |
| QueueModel.Stats | utils/advanced_queue.py:368-407 | The track count and total duration of the queue; the `genres` key exactly for an empty queue; a most-requested artist exactly when some entry has an author. |
| QueueModel.LookupAt | utils/advanced_queue.py:396 | A tally with distinct keys returns the stored count for a key it holds. |
| QueueModel.LookupBound | utils/advanced_queue.py:398 | No lookup exceeds a bound on all counts. |
| QueueModel.Dicts | utils/advanced_queue.py:413-414 | One dictionary per entry, in order. |
| QueueModel.InsertByPlays | utils/advanced_queue.py:354-358 | Inserting into the play-count order adds exactly that entry. |
| QueueModel.SortByPlays | utils/advanced_queue.py:354-358 | Sorting keeps exactly the history's entries. |
| QueueModel.InsertByPlaysSorted | utils/advanced_queue.py:354-358 | Insertion keeps the order by play count, highest first. |
| QueueModel.SortByPlaysSorted | utils/advanced_queue.py:354-358 | The result is ordered by play count, highest first. |
| QueueModel.PopularPass | utils/advanced_queue.py:360-364 | The popular pass only appends to what the artist pass found. |
| QueueModel.SimilarTracks | utils/advanced_queue.py:332-366 | Fails (the source's error on a missing current track) exactly when the history is non-empty, there is no current track and `limit` is positive; with no current track it never suggests anything. |
| QueueModel.ArtistPassProps | utils/advanced_queue.py:341-351 | The artist pass returns at most `limit` history tracks, all by the current artist and none with the current uri. |
| QueueModel.PopularPassProps | utils/advanced_queue.py:354-364 | The popular pass keeps the earlier picks, stays within `limit`, adds only history tracks not already chosen and not the current uri. |
| QueueModel.SimilarTracksProps | utils/advanced_queue.py:332-366 | The suggestions hold at most `limit` history tracks and never the current uri; same-artist tracks come first. |
| QueueModel.AutoplaySuggestions | utils/advanced_queue.py:304-330 | Nothing with autoplay off or when the Spotify step raises; the converted recommendations, even an empty conversion, once Spotify recommended something for a current track; any other non-empty result comes from the history and needs a current track. |
| QueueModel.AutoplayFromHistory | utils/advanced_queue.py:304-330 | Unless Spotify recommended something, the suggestions are at most `limit` history tracks, never the current one, and none with autoplay off. |
| Queues.AdvancedQueue.constructor | utils/advanced_queue.py:89-111 | A new queue is empty; `max_size or MAX_QUEUE_SIZE` picks the size; modes are off and counters are zero. |
| Queues.AdvancedQueue.IsFull | utils/advanced_queue.py:123-125 | The queue is full exactly when it holds its capacity. |
| Queues.AdvancedQueue.Add | utils/advanced_queue.py:127-151 | A full queue refuses and nothing changes. Otherwise the entry goes to its priority place, the added counter goes up by one and the preferences are updated. History, favourites and modes are untouched. |
| Queues.AdvancedQueue.AddNext | utils/advanced_queue.py:153-155 | `add` with priority 999: goes first unless entries of priority 999 or more are already queued; a successful add counts one more track added and updates the requester's preferences; history, favourites, modes and the play counter are unchanged. |
| Queues.AdvancedQueue.UpdateUserPreferences | utils/advanced_queue.py:278-297 | The preferences become `PrefsAfter` of the old ones. |
| Queues.AdvancedQueue.Get | utils/advanced_queue.py:157-187 | An empty queue gives None and changes nothing. Otherwise exactly one allowed entry leaves the queue, is marked played and is pushed to the capped history. |
| Queues.AdvancedQueue.PickIndex | utils/advanced_queue.py:162-177 | The chosen index is the front entry without shuffle, a not-recently-played entry when one exists, and otherwise any entry. |
| Queues.AdvancedQueue.Peek | utils/advanced_queue.py:189-194 | Python indexing: an index in [-n, n) gives that entry, counted from the end when negative; any other index gives None. |
| Queues.AdvancedQueue.Remove | utils/advanced_queue.py:196-201 | Removes and returns the entry `peek` would show; an out-of-range index changes nothing. |
| Queues.AdvancedQueue.RemoveByUri | utils/advanced_queue.py:203-209 | True exactly when some entry has the uri; then only the first such entry is removed. |
| Queues.AdvancedQueue.Clear | utils/advanced_queue.py:211-213 | The queue becomes empty. |
| Queues.AdvancedQueue.Move | utils/advanced_queue.py:215-222 | Fails only when `from_index` is out of range; `to_index` is clamped as `list.insert` does; the entries are kept. |
| Queues.AdvancedQueue.Shuffle | utils/advanced_queue.py:224-235 | With more than one entry: priority entries first in order, then a permutation of the rest, and shuffle is switched on. Otherwise nothing changes. |
| Queues.AdvancedQueue.ToggleShuffle | utils/advanced_queue.py:237-242 | Flips the flag and returns it; switching on shuffles the queue. |
| Queues.AdvancedQueue.SetRepeatMode | utils/advanced_queue.py:244-248 | A valid mode is stored; an invalid one is ignored; the current mode is returned. |
| Queues.AdvancedQueue.ToggleRepeat | utils/advanced_queue.py:250-256 | The mode moves off → track → queue → off. |
| Queues.AdvancedQueue.GetHistory | utils/advanced_queue.py:258-260 | `history[-limit:]`: the last `limit` entries; a limit of 0 gives the whole history; a negative limit drops entries from the front. |
| Queues.AdvancedQueue.AddToFavorites | utils/advanced_queue.py:262-264 | The uri is added to the set. |
| Queues.AdvancedQueue.RemoveFromFavorites | utils/advanced_queue.py:266-268 | The uri is removed if present; otherwise nothing changes. |
| Queues.AdvancedQueue.IsFavorite | utils/advanced_queue.py:270-272 | True exactly for a uri in the favourites set that `AddToFavorites` and `RemoveFromFavorites` maintain. |
| Queues.AdvancedQueue.GetFavorites | utils/advanced_queue.py:274-276 | The list holds each favourite exactly once. |
| Queues.AdvancedQueue.SimilarTracksFromHistory | utils/advanced_queue.py:332-366 | The loop computes `SimilarTracks` of the history. |
| Queues.AdvancedQueue.GenerateAutoplaySuggestions | utils/advanced_queue.py:304-330 | The result is `AutoplaySuggestions` of the history for the given Spotify outcome. |
| Queues.AdvancedQueue.GetQueueStats | utils/advanced_queue.py:368-407 | The loop computes `Stats` of the queue; its meaning is `StatsMeaning`. |
| Queues.AdvancedQueue.ToSnapshot | utils/advanced_queue.py:409-423 | The saved form has every queued entry and only the last 20 history entries. |
| Queues.SwapKeepsElements | utils/advanced_queue.py:231 | A swap step of `random.shuffle` keeps the entries. |
| Queues.QueueManager.constructor | utils/advanced_queue.py:463-467 | No queues; persistence on; 300-second interval. |
| Queues.QueueManager.GetQueue | utils/advanced_queue.py:469-473 | Repeated calls for a guild return the same queue; a queue is created only when absent. |
| Queues.QueueManager.RemoveQueue | utils/advanced_queue.py:475-480 | True exactly when the guild was registered; only that entry is removed. |
| Queues.QueueManager.CleanupGuildData | utils/advanced_queue.py:535-539 | Only the guild's queue is removed. |
| EnhancedCommands.DigitRun | cogs/enhanced_commands.py:299 | The run is the maximal leading block of digits. |
| EnhancedCommands.ParseTime | cogs/enhanced_commands.py:283-313 | The result is `TimeValue` of the input: strip, lower-case, then the colon forms or the unit sum. |
| EnhancedCommands.ParseNormalized | cogs/enhanced_commands.py:288-313 | Two colon parts give m·60+s, three give h·3600+m·60+s, each failing when a part is not an integer; anything else the unit sum. |
| EnhancedCommands.SumUnits | cogs/enhanced_commands.py:298-313 | The loop over digit runs computes `UnitSum`. |
| EnhancedCommands.HoursMinutesSecondsOf | cogs/enhanced_commands.py:293-295 | Parsed parts combine to h·3600+m·60+s. |
| EnhancedCommands.DigitRunIs | cogs/enhanced_commands.py:299 | Any maximal digit prefix is the digit run. |
| EnhancedCommands.UnitSumNoDigits | cogs/enhanced_commands.py:299-313 | Text without digits sums to 0. |
| EnhancedCommands.UnitSumConcat | cogs/enhanced_commands.py:299-313 | The sum splits over text that does not cut a digit run or its unit. |
| EnhancedCommands.UnitSumOfRun | cogs/enhanced_commands.py:301-311 | A run with 'h', 'm', 's' or no unit counts 3600, 60, 1 or 1 times its value. |
| EnhancedCommands.NoDigitsIsZero | cogs/enhanced_commands.py:298-313 | Input with no digits and no colon parses as 0. |
| EnhancedCommands.NormalizingIsIdempotent | cogs/enhanced_commands.py:285 | Stripping and lower-casing first changes nothing. |
| EnhancedCommands.MinutesSeconds | cogs/enhanced_commands.py:288-292 | "a:b" is read as minutes and seconds. |
| EnhancedCommands.HoursMinutesSeconds | cogs/enhanced_commands.py:288-295 | "a:b:c" is read as hours, minutes and seconds. |
| EnhancedCommands.SplitAtColon | cogs/enhanced_commands.py:289 | `split(':')` cuts at the first colon. |
| EnhancedCommands.SplitNoColon | cogs/enhanced_commands.py:289 | Text without a colon splits into itself. |
| EnhancedCommands.SeekTarget | cogs/enhanced_commands.py:86-104 | A bad format is reported as such; otherwise seeking succeeds exactly for positions within the track, in whole seconds as milliseconds. |
| EnhancedCommands.FastForwardTarget | cogs/enhanced_commands.py:114-115 | The target never passes the track length and is either the length or position + seconds·1000. |
| EnhancedCommands.RewindTarget | cogs/enhanced_commands.py:134-135 | The target never goes below 0 and is either 0 or position − seconds·1000. |
| Lyrics.Rest | integrations/lyrics.py:243-246 | What is left of a cut line is at most `max_length` long. |
| Lyrics.SplitLyricsChunks | integrations/lyrics.py:226-253 | The loop computes `SplitLyrics`. |
| Lyrics.CutLine | integrations/lyrics.py:243-245 | The inner loop produces exactly `Pieces` and `Rest` of the over-long line. |
| Lyrics.ShortLyricsUnchanged | integrations/lyrics.py:228-229 | Lyrics no longer than the limit come back as one chunk, unchanged. |
| Lyrics.ConcatAppend | integrations/lyrics.py:231-253 | Concatenation splits over appended chunk lists. |
| Lyrics.PiecesCover | integrations/lyrics.py:243-246 | An over-long line is cut into pieces of exactly `max_length`, and the pieces plus the rest give the line back. |
| Lyrics.StripDropsTrailingSpace | integrations/lyrics.py:239 | Stripping text that ends in whitespace shortens it. |
| Lyrics.FoldFits | integrations/lyrics.py:235-248 | When every line fits, every closed chunk fits. |
| Lyrics.ChunksFit | integrations/lyrics.py:231-253 | When every '\n'-separated line fits, every chunk has at most `max_length` characters. |
| Lyrics.LinesTextCons | integrations/lyrics.py:233 | The non-space text of lines is that of the first line followed by the rest. |
| Lyrics.JoinLinesText | integrations/lyrics.py:233 | Joining lines with '\n' adds no non-space text. |
| Lyrics.FoldKeepsText | integrations/lyrics.py:235-248 | The chunk loop keeps all non-space text, in order. |
| Lyrics.StepKeepsText | integrations/lyrics.py:236-248 | One loop step keeps all non-space text. |
| Lyrics.ChunkGrowsKeepsText | integrations/lyrics.py:248 | Growing the chunk adds exactly the line's non-space text. |
| Lyrics.ChunkClosedKeepsText | integrations/lyrics.py:238-240 | Closing a stripped chunk loses no non-space text. |
| Lyrics.LineCutKeepsText | integrations/lyrics.py:242-246 | Cutting a long line loses no non-space text. |
| Lyrics.NothingLost | integrations/lyrics.py:226-253 | With whitespace removed, the chunks joined give the input with whitespace removed. |
| Lyrics.OverlongLine | integrations/lyrics.py:237-246 | A long line met with an empty chunk is cut into exact pieces; one met after a non-empty chunk is kept whole. |
| Lyrics.CleanLyrics | integrations/lyrics.py:139-155 | Never empty; empty input gives "No lyrics available"; otherwise the stripped cleaned text, which keeps the cleaned text's non-space characters. |
| Lyrics.NextPage | integrations/lyrics.py:319-320 | The next page index is within the pages. |
| Lyrics.PreviousPage | integrations/lyrics.py:314-315 | The previous page index is within the pages. |
| Lyrics.NextPageIs | integrations/lyrics.py:320 | Next moves forward by one and wraps from the last page to 0. |
| Lyrics.PreviousPageIs | integrations/lyrics.py:315 | Previous moves back by one and wraps from 0 to the last page. |
| Lyrics.PagesInverse | integrations/lyrics.py:314-321 | Next and previous undo each other. |
| Lyrics.NextTimes | integrations/lyrics.py:319-320 | Repeated presses stay within the pages. |
| Lyrics.NextTimesIsShift | integrations/lyrics.py:319-320 | k presses of next move from p to (p + k) mod n. |
| Lyrics.ModStep | integrations/lyrics.py:320 | Taking the remainder at each step equals taking it once. |
| Lyrics.LyricsView.constructor | integrations/lyrics.py:303-311 | The view starts on page 0, with both buttons disabled exactly when there is at most one page. |
| Lyrics.LyricsView.Next | integrations/lyrics.py:319-321 | The page moves to `NextPage`; with no pages Python's modulo raises and nothing changes. |
| Lyrics.LyricsView.Previous | integrations/lyrics.py:314-316 | The page moves to `PreviousPage`; with no pages nothing changes. |
| Spotify.AlnumRun | integrations/spotify.py:50-53 | `[a-zA-Z0-9]+` matches the maximal run of ASCII letters and digits. |
| Spotify.IdAfter | integrations/spotify.py:59 | The id is a non-empty, maximal alphanumeric run at the match position. |
| Spotify.SearchFrom | integrations/spotify.py:57 | `re.search` finds the leftmost match of a kind's pattern, either alternative. |
| Spotify.ExtractFrom | integrations/spotify.py:56-62 | None exactly when no kind matches anywhere; otherwise a kind from the table. |
| Spotify.ExtractSpotifyId | integrations/spotify.py:46-62 | (None, None) exactly when no pattern of any kind matches anywhere; a recognised id is a non-empty run of ASCII letters and digits. |
| Spotify.KindIndex | integrations/spotify.py:49-54 | Every kind has a place in the table order track, playlist, album, artist. |
| Spotify.RecognisedMeaning | integrations/spotify.py:49-60 | The result's kind is the first kind in table order that matches, and the id is that match's run. |
| Spotify.TrackLinkRecognised | integrations/spotify.py:50 | "spotify:track:ID" and "open.spotify.com/track/ID" both give (ID, track). |
| Spotify.ClientCreated | integrations/spotify.py:27-41 | A client exists only when both credentials are non-empty. |
| Spotify.IsAvailable | integrations/spotify.py:43-45 | Available exactly when a client was created and the Spotify flag is on. |
| AdvancedMusic.FormatTime | cogs/advanced_music.py:27-29 | Below one day, the text is unpadded hours and two-digit minutes and seconds. |
| AdvancedMusic.FormatTimeRoundTrip | cogs/advanced_music.py:27-29 | Reading the formatted time back with `parse_time` gives the seconds. |
| AdvancedMusic.ClockArithmetic | cogs/advanced_music.py:29 | Hours, minutes and seconds recombine to the total. |
| AdvancedMusic.ClockString | cogs/advanced_music.py:29 | A digits:digits:digits text is read in the h:m:s form. |
| AdvancedMusic.ClockParts | cogs/advanced_music.py:29 | The rendered hours and two-digit fields read back as their values. |
| AdvancedMusic.ClockIsNormal | cogs/advanced_music.py:29 | A clock text is already stripped and lower-case. |
| AdvancedMusic.NoColonInDigits | cogs/advanced_music.py:29 | A run of digits has no ':'. |
| AdvancedMusic.ProgressBar | cogs/advanced_music.py:31-35 | A total of 0 raises (None); any other total gives a bar. |
| AdvancedMusic.ProgressBarInRange | cogs/advanced_music.py:31-35 | For 0 ≤ current ≤ total the bar has exactly `length` characters, filled before empty. |
| AdvancedMusic.ProgressBarOverflow | cogs/advanced_music.py:31-35 | For current > total the bar is not clamped: it holds at least `length` filled characters and no empty one, and more than `length` once current·length ≥ (length+1)·total. |
| AdvancedMusic.VolumeBar | cogs/advanced_music.py:899-905 | Levels outside 0..200 are refused; accepted ones show a 15-character bar. |
| AdvancedMusic.YoutubeVideoId | cogs/advanced_music.py:469-475 | An id exists exactly when the uri contains "youtube" and one of "youtube.com", "youtu.be". |
| AdvancedMusic.YoutubeThumbnail | cogs/advanced_music.py:467-477 | A thumbnail exists exactly when an id does, and it is the maxresdefault URL for it. |
| AdvancedMusic.YoutubeIdIsPiece | cogs/advanced_music.py:470-471 | For youtube.com, the id is the text after the last "v=" up to the first "&". |
| AdvancedMusic.FirstSuggestion | cogs/advanced_music.py:957-960 | No suggestion leaves the player idle; otherwise the first suggestion plays. |
| AdvancedMusic.Forgotten | cogs/advanced_music.py:921-927 | The ended track's start time is dropped when a database is present; all other start times stay. |
| AdvancedMusic.TrackEndHandler.constructor | cogs/advanced_music.py:434-439 | No start times recorded. |
| AdvancedMusic.TrackEndHandler.OnTrackEnd | cogs/advanced_music.py:909-965 | Repeat "track" replays the ended track and changes no queue state. Otherwise a non-empty queue plays an entry `get` may take (the front one, or with shuffle one not heard in the last three plays when there is one), which leaves the queue and is pushed onto the history with its play count raised. In repeat "queue" with an empty queue the ended track is added, counted, and taken straight back. Else the first autoplay suggestion, else idle. The counters move by exactly those adds and takes; favourites, modes and preferences are unchanged; the played track's start time is recorded. |
| AdvancedMusic.RequeueEnded | cogs/advanced_music.py:945-947 | In repeat "queue" with an empty queue, the ended track is added as a fresh entry and counted; otherwise the queue and counters are untouched; nothing else changes. |
| AdvancedMusic.TakeNext | cogs/advanced_music.py:949-960 | A non-empty queue loses exactly one entry `get` may take, that entry goes onto the history, its track is played and one more play is counted; an empty queue is untouched and the first autoplay suggestion is played, if any. |
| Moderation.HumanCount | cogs/dj_moderation.py:73 | The count of non-bot members; all members when none is a bot, none when all are. |
| Moderation.ThresholdForHumans | cogs/dj_moderation.py:74-79 | 1 for at most 2 listeners, 2 for 3–4, about half above that; always at least 1, and at most the listeners when there is at least one. |
| Moderation.VoteThreshold | cogs/dj_moderation.py:66-79 | 1 without a voice client; never below 1, and at most the listeners when there is at least one. |
| Moderation.ThresholdMonotone | cogs/dj_moderation.py:74-79 | More listeners never lower the threshold. |
| Moderation.RemoveFirst | cogs/dj_moderation.py:198 | `list.remove` drops exactly one occurrence when present, else changes nothing. |
| Moderation.RemoveFirstInSource | cogs/dj_moderation.py:198 | Removal adds nothing new. |
| Moderation.TailOfDistinct | cogs/dj_moderation.py:198 | The tail of a duplicate-free list is duplicate-free and lacks the head. |
| Moderation.RemoveFromDistinct | cogs/dj_moderation.py:195-198 | Removing from a duplicate-free list leaves it duplicate-free and without the element. |
| Moderation.AddThenRemove | cogs/dj_moderation.py:179-198 | Adding a new item and removing it restores the list. |
| Moderation.DjModeration.constructor | cogs/dj_moderation.py:22-28 | All four tables start empty. |
| Moderation.DjModeration.IsDj | cogs/dj_moderation.py:44-64 | A DJ is exactly an owner, an administrator, a holder of a registered DJ role, or the only human in their voice channel. |
| Moderation.DjModeration.VoteSkip | cogs/dj_moderation.py:82-140 | Nothing playing or another channel leaves the votes alone; a DJ skips at once; a repeated vote is rejected; reaching the threshold skips and clears the guild's votes; a recorded vote stays below the threshold. |
| Moderation.DjModeration.ForceSkip | cogs/dj_moderation.py:143-158 | Only a DJ can skip, only when something plays; skipping clears the guild's votes. |
| Moderation.DjModeration.TrackEnded | cogs/dj_moderation.py:406-414 | The guild's vote set becomes empty; other guilds and tables are untouched. |
| Moderation.DjModeration.SetDjRole | cogs/dj_moderation.py:168-179 | Only administrators; a registered role is refused; a new role is appended and every holder becomes a DJ. |
| Moderation.DjModeration.RemoveDjRole | cogs/dj_moderation.py:190-198 | Only administrators; an unregistered role is refused; otherwise it is removed and no longer listed. |
| Moderation.DjModeration.BanTrack | cogs/dj_moderation.py:238-249 | Only DJs; an already banned URL is refused; otherwise it is appended and is banned. |
| Moderation.DjModeration.UnbanTrack | cogs/dj_moderation.py:267-275 | Only DJs; an unbanned URL is refused; otherwise it is removed and no longer banned. |
| Moderation.DjModeration.IsBanned | cogs/dj_moderation.py:383-386 | A track is banned exactly when its URL is in the guild's list. |
| Moderation.DjModeration.SetQueueLimit | cogs/dj_moderation.py:316-329 | Only DJs; a negative limit is refused; otherwise every recorded count in the guild becomes 0, and the limit itself is not stored. |
| Moderation.DjModeration.CheckUserQueueLimit | cogs/dj_moderation.py:388-397 | A limit of 0 always allows; otherwise allowed exactly when the user's count is below the limit; no count changes. |
| Moderation.DjModeration.IncrementUserQueueCount | cogs/dj_moderation.py:399-404 | The user's count goes up by exactly 1; other users' counts stay. |
| Embeds.FilledCount | utils/enhanced_embeds.py:315-316 | The filled count is clamped to [0, length]. |
| Embeds.ClampedBar | utils/enhanced_embeds.py:304-319 | The bar has exactly `length` characters (none when negative), all empty when total ≤ 0, and filled before empty. |
| Embeds.FullIff | utils/enhanced_embeds.py:315-318 | The bar is full exactly when current ≥ total. |
| Embeds.EmptyIff | utils/enhanced_embeds.py:315-318 | The bar is empty exactly when current·length < total. |
| Embeds.SourceOf | utils/enhanced_embeds.py:357-388 | Unknown exactly when the lower-cased uri contains none of "youtube", "soundcloud", "spotify", "twitch"; "youtube" wins over the others. |
| Embeds.GetSourceInfo | utils/enhanced_embeds.py:354-388 | The branding of the classified source: "Unknown Source", exactly when no service name is found, is the only entry without a colour; a "youtube" uri gets the YouTube entry. |
| Embeds.GetSourceEmoji | utils/enhanced_embeds.py:390-392 | The emoji is the source entry's emoji; only the unknown source, with no colour, shows 🌐. |
| Embeds.SourceIgnoresCase | utils/enhanced_embeds.py:357 | Lower-casing the uri first changes nothing. |
| Embeds.SplitHead | utils/enhanced_embeds.py:335 | `split(sep)[0]` is the text before the first separator. |
| Embeds.SplitSecond | utils/enhanced_embeds.py:335 | `split(sep)[1]` is the text between the first and second separator. |
| Embeds.HqVideoId | utils/enhanced_embeds.py:331-338 | An id exists for youtube.com exactly when the uri has "v=", and otherwise for any youtu.be uri; a youtu.be id holds no "/" and no "?". |
| Embeds.HighQualityThumbnail | utils/enhanced_embeds.py:321-352 | No uri gives None; a non-empty YouTube id gives the maxresdefault URL; any other track gives its artwork URL when that is set and None otherwise; any result is non-empty. |
| Embeds.WatchIdIsBetween | utils/enhanced_embeds.py:333-335 | For youtube.com with "v=", the id is the text after the first "v=", up to the next "&" or "v=", whichever comes first. |
| Embeds.LimitField | utils/enhanced_embeds.py:402-403 | A value within the limit is unchanged; a longer one becomes its first max−3 characters plus "...", exactly max long. |
| Embeds.LimitFieldIdempotent | utils/enhanced_embeds.py:402-403 | Limiting twice equals limiting once. |
| Embeds.PageCount | utils/enhanced_embeds.py:416 | `ceil(n / k)`: the pages hold all items, and one page fewer would not. |
| Embeds.NumberedLines | utils/enhanced_embeds.py:435 | One numbered line per item on the page. |
| Embeds.PaginatedList | utils/enhanced_embeds.py:408-440 | A page size of 0 raises; a negative size gives no pages; otherwise `ceil(n/k)` pages, page p holding items [p·k, min(p·k+k, n)) with its title. |
| Embeds.PagesCoverPrefix | utils/enhanced_embeds.py:418-421 | The first p pages hold exactly the first min(p·k, n) items, in order. |
| Embeds.PagesCoverItems | utils/enhanced_embeds.py:416-421 | All pages together hold exactly the items, in order. |
| Embeds.NumberingContinues | utils/enhanced_embeds.py:435 | Item j is numbered j+1 on its page, so numbering continues across pages. |
| AnimatedBars.BasicProgress | utils/animated_embeds.py:151-161 | Exactly `length` characters, all empty when total ≤ 0, else filled up to the clamped count then empty. |
| AnimatedBars.AnimatedProgress | utils/animated_embeds.py:163-181 | The basic bar's shape, except that when 0 < filled < length the cell at `filled` is `animation_chars[frame % 4]`; frame 3 gives the basic bar. |
| AnimatedBars.GradientCell | utils/animated_embeds.py:196-204 | Cells below the filled length are '█', cells after it '▱', the cell at it '▱' unless there is a fraction; every cell is a gradient character. |
| AnimatedBars.GradientProgress | utils/animated_embeds.py:183-206 | Exactly `length` characters, each the gradient cell for its index, '█' below the filled length. |
| Config.FlagIgnoresCase | config/config.py:28 | A flag is true exactly when the lower-cased value, or the default, is "true". |
| Config.EnvIntReadsDefaultText | config/config.py:25 | An integer setting is `int()` of the variable, or of the default written out. |
| Config.ParseInts | config/config.py:21 | Every piece parses, giving the list, or some piece does not. |
| Config.EnvIntList | config/config.py:21 | An unset or empty variable gives []. |
| Config.IntListRoundTrip | config/config.py:21 | Integers written comma-separated read back as the same list. |
| Config.LoadCore | config/config.py:13-21 | Loading succeeds exactly when APPLICATION_ID and OWNERS parse; the owners are the parsed list. |
| Config.LoadLavalink | config/config.py:24-28 | Succeeds exactly when LAVALINK_PORT, default "4499", parses; the port is that value. |
| Config.LoadSecurity | config/config.py:75-79 | The allowed guilds are the parsed ALLOWED_GUILDS list. |
| Config.LoadConfig | config/config.py:12-88 | Loading succeeds exactly when every group of settings parses (only `int()` conversions are checked), and then holds every group, the API keys, the features, the audio settings and the localization as read from the environment. |
| Config.LoadedLists | config/config.py:12-88 | A loaded configuration holds exactly the owner, allow and block lists in the environment; a malformed OWNERS list stops loading. |
| Config.EmptyEnvironmentDefaults | config/config.py:12-88 | With nothing set, loading succeeds with no owners, every guild allowed, no one blocked, and insecure Lavalink at lavalink.pericsq.ro:4499. |
| Config.LavalinkUri | config/config.py:90-93 | The URI starts with "https://" when secure, else "http://". |
| Config.LavalinkPortRoundTrip | config/config.py:90-93 | The port reads back from the text after the last ':'. |
| Config.IsGuildAllowed | config/config.py:99-101 | An empty allow-list admits every guild; otherwise exactly the listed ones. |
| Config.IsOwner | config/config.py:95-97 | True exactly for a user in the OWNERS list. |
| Config.IsUserBlocked | config/config.py:103-105 | True exactly for a user in the BLOCKED_USERS list. |
| Config.ToDictHidesSecrets | config/config.py:107-125 | The token, passwords, secret key, API keys and database URL do not affect `to_dict`. |
| Logging.EntryOf | utils/logging_system.py:51-61 | An entry is built exactly when the record's message renders, and it keeps that message, the level and the exception text. |
| Logging.DatabaseLogHandler.constructor | utils/logging_system.py:43-46 | The buffer starts empty. |
| Logging.DatabaseLogHandler.Emit | utils/logging_system.py:48-70 | Exactly one entry is appended per record whose message renders, and a flush is scheduled when the buffer then holds at least 100; a record that cannot be rendered goes to `handleError`, leaving the buffer unchanged and scheduling nothing. |
| Logging.DatabaseLogHandler.FlushToDatabase | utils/logging_system.py:76-92 | An empty buffer or no database returns at once; the entries are written in order; the buffer is cleared only when every write succeeded, and a failed write leaves it whole. |
| Logging.FillWithoutPlaceholder | utils/logging_system.py:278-279 | Formatting a message without the retry placeholder leaves it unchanged. |
| Logging.FillOnePlaceholder | utils/logging_system.py:278-279 | Formatting a message with one placeholder puts the value in its place. |
| Logging.FriendlyMessage | utils/logging_system.py:268-283 | A known class name gives its table message, filled with `retry_after` when the error has one; an unknown one the generic fallback. |
| Logging.ErrorHandler.constructor | utils/logging_system.py:193-197 | No errors counted. |
| Logging.ErrorHandler.HandleError | utils/logging_system.py:229-266 | The id is class name, '_' and time stamp; that class's count goes up by exactly 1 and no other count changes; the reply is the friendly message. |
| Logging.ErrorHandler.GetErrorStats | utils/logging_system.py:285-287 | A snapshot equal to the counts at the time of the call. |
| Logging.PerformanceMonitor.constructor | utils/logging_system.py:334-343 | The five counters start at 0. |
| Logging.PerformanceMonitor.IncrementMetric | utils/logging_system.py:345-349 | Only a predefined counter changes, by `value`; an unknown name changes nothing; the set of counters stays the five. |
| Logging.UptimePartsRecombine | utils/logging_system.py:351-356 | Days, hours, minutes and seconds recombine to the elapsed time, with each part below its unit. |
| Logging.UptimeText | utils/logging_system.py:351-365 | The text always ends in the seconds field. |
| Logging.PerformanceMonitor.UptimeAt | utils/logging_system.py:351-365 | The uptime text of the whole seconds since start always ends in the seconds field, and under a minute it is only the seconds. |
| Logging.UptimeUnderAMinute | utils/logging_system.py:364-365 | Under a minute, the text is just the seconds. |
| Logging.UptimeWithinADay | utils/logging_system.py:358-361 | From one hour up to a day, the text leads with the hours and has no days. |

## Left out

- The chat platform, the Lavalink node, the database, HTTP services and timers are not modelled. Results of those calls become parameters: a Spotify recommendation list, whether the database is present, which write fails, the current time.
- Floating-point division is replaced by exact integer arithmetic: `int(x / y)` becomes division truncated toward zero.
- Embeds.FilledCount: this is exact arithmetic, whereas the source divides in floating point, which can round differently at boundaries.
- AnimatedBars.GradientCell: the partial glyph uses the exact fraction, whereas the source uses a floating-point remainder.
- AdvancedMusic.ProgressBar: this is exact arithmetic; the source uses floating point.
- The wave bar (`create_wave_progress`) uses `math.sin` and is left out.
- Config.LoadAudio: CROSSFADE_DURATION is kept as its text, because `float()` parsing is not modelled.
- Config.LoadConfig: a CROSSFADE_DURATION that `float()` rejects still loads here, whereas `BotConfig()` raises ValueError on it; loading fails only where an `int()` conversion raises.
- Logging.FriendlyMessage: `retry_after` is taken already rendered with one decimal. Float formatting is not modelled.
- `lower()`, `strip()` and `isdigit` cover ASCII only.
- `int()` accepts an optional sign and ASCII digits with single underscores, inside whitespace; other Unicode digits are not modelled.
- Queues.AdvancedQueue.GetQueueStats: requesters are counted by user id, not by display name. Display names come from the chat platform.
- `random.choice` and `random.randint` become a nondeterministic choice of an allowed index.
- `random.shuffle` becomes some permutation, built by a swap loop over nondeterministic indices.
- Lyrics.CleanLyrics: the regular-expression substitution chain is a parameter. Only the empty-input fallback, the final strip and the non-empty result are modelled.
- `TrackInfo.from_dict` and `AdvancedQueue.from_dict` re-resolve tracks over the network and are not modelled. `save_all_queues`, `load_all_queues` and the periodic save task are database I/O and are not modelled either.
- The `generate_autoplay_suggestions` Spotify branch is represented by its outcome, given as a parameter: unavailable, no recommendations, the converted recommendations, or an exception.
- The track-end handler's three-minute idle wait and its disconnect are not modelled. The listening-time statistics it computes are never stored by the source and are not modelled.
- Queue methods that the DJ and enhanced-command cogs call but that `AdvancedQueue` does not define are not modelled: `remove_user_tracks`, `move_to_top`, `remove_at_position`, `move_track` and `clear_range`. They have no behaviour to model.
- The `dj_roles` and `banned_tracks` listing commands only render embeds and are not modelled. The same holds for all other embed construction and every view and button class apart from `LyricsView`'s page index.
- `get_performance_report` reads process statistics through psutil and is not modelled. `setup_logging` and the log formatters configure the logging library and are not modelled either.
- The library's level filter in front of the database handler is not modelled. Emission is modelled from the point where `emit` is called.
- The `asyncio.create_task` scheduling of a flush is not modelled. `Emit` reports that a flush is due, and a flush is its own call, so entries emitted while a flush is running are not modelled.
- Logging.UptimeText: elapsed time is taken in whole seconds.
- Logging.PerformanceMonitor.UptimeAt: subtracts two whole-second time stamps, and that difference can be one second more than the `timedelta` of the exact times, whose fraction the source drops.
- Spotify.IsAvailable: whether the client library initialised is a parameter.
- Lyrics.SplitLyricsChunks: `max_length` must be positive. With 0 or a negative length the source loops forever on many inputs, but not on all (with 0, "\nabc" gives ["", "abc"]); those terminating runs are not modelled.
