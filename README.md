# Music cog: a verified model

This project models the playback core of a Discord music bot: the `Music` cog
in `cogs/music.py` and `YTDLSource.from_query` in `utils/ytdl.py`. The cog keeps
one dict per kind of state, keyed by guild id: queue, current player, history,
loop mode, volume, speed, filter, start time, autoplay flag, text channel and
lock. Its commands and its `play_next` flow change those dicts in place.

The dicts become the map fields of the class `MusicCog.Music`. Every method of
the class leaves every guild other than the one it is called for as it was
(`Elsewhere(gid)`). For the guild it is called for, the methods state the
new entry `At(gid)` in one of three ways:

- Each command and each part of `play_next` is proved to give what a function
  of the `Session` module gives for the old entry. `Session.Guild` is the
  per-guild record those functions work on. Most of these functions have the
  method's own name. The others are `Volume`/`SetVolume`, `Speed`/`SetSpeed`,
  `Filter`/`SetFilter`, `VoiceStateUpdate`/`LeaveEmptyRoom`,
  `Leave`/`Teardown`, `RequeueCurrent`/`Requeue`,
  `CleanupGuildData`/`Cleanup` and `ReloadCurrent`/`Reload`. The method's
  "## Model" row names its function.
- `Shuffle` is stated relationally: the new queue is some permutation of the
  old one, and nothing else changes.
- The getters, setters and the small write steps (`PopHead`, `StartPlaying`,
  `AddTracksAt`, `PushFrontAndStop`) state their record update directly over
  the fields.

Most `Session` functions accept every record. A few carry preconditions that
their callers establish: `SetSpeed` takes a rate between 0.5 and 2.0 (the
only rates the parameter type `app_commands.Range[float, 0.5, 2.0]` of
`speed` lets through), `Reload` needs a connected voice
client and a current track, and `RunDry` and `PlayHead` need fuel left, with
`PlayHead` also needing a non-empty queue. The properties the code relies on
are proved about those functions in `SessionProps`.

Files:

- `wrappers.dfy`: `Option`.
- `pystr.dfy`: the Python string operations the code uses: `lower`, `in`,
  `split(sep)[0]` and `strip`.
- `ytdl.dfy`: `from_query`, covering the query prefix, entry selection,
  validation and the FFmpeg options.
- `queue_edits.dfy`: the 1-indexed `remove`, `move` and `swap`.
- `clock.dfy`: `format_time`, with a parser that inverts it.
- `autoplay.dfy`: `_find_related_song`, given as a specification function
  `Propose` and imperative methods proved equal to it.
- `session.dfy`: the per-guild record and one function per command and per
  part of `play_next`.
- `session_props.dfy`: lemmas about those functions.
- `music.dfy`: the cog as a class over maps.

## The outside world as parameters

Extraction is the function `extract` in `Ytdl.FromQuery` and `search` in
`Autoplay.Propose`. Each returns either "raised" or a possibly-None info dict.

Turning a queue entry into a playing source is the function `Env.resolve`.
This covers everything inside `play_next`'s `try`: `from_query`, the FFmpeg
process and `vc.play`. The clock is `Env.now`.

The Spotify expansion of a link is a parameter of `Music.Enqueue`, where None
means it raised.

The bot's voice client for a guild is a map entry: `Idle`, `Playing` or
`Paused`. For the queries `vc.is_playing()` and `vc.is_paused()`:

- `vc.stop()` sets the state to `Idle`.
- `vc.disconnect()` removes the entry.
- `vc.play` sets it to `Playing`.

Whether the user is in a voice channel is the parameter `userInVoice`.

The after-callback of `vc.play` is the separate method `SafePlayNext`. A
caller runs it after the voice client has stopped. The `asyncio.Lock` section
of `play`/`playnext` is one atomic method call.

## Behaviour of the code that the model keeps

- **No track ever resolves.** `play_next` calls `from_query` with the keyword
  `filter_options`, which `from_query` does not declare
  (`utils/ytdl.py:37`). Every call therefore raises TypeError, which the
  `except` at `cogs/music.py:353` catches. `Session.AsWritten` is the
  environment that results. `SessionProps.NoPlaybackAsWritten` proves that
  `play_next` then never starts a source. All other lemmas take the resolver
  as a parameter, so they also describe the code once that keyword is
  accepted.
- **Speed survives cleanup.** `cleanup_guild_data` does not touch `speeds`, so
  every teardown keeps the guild's speed.
- **Autoplay turns back on.** `stop` and the teardown paths set autoplay off,
  but cleanup then drops that entry. `get_autoplay` therefore answers True
  again.
- **`from_back` is never passed.** After `back` stops the client, the
  after-callback runs `play_next` with `from_back` false. Under loop "song"
  the current track therefore plays again, and the previous title waits
  behind it.
- **Seek is a restart.** Under loop "song" it also leaves a spare copy of the
  current query in the queue.
- **Failure does not always shrink the queue.** A failed resolution leaves
  the current track as it was, so every requeue sees it again:
  - Under loop "song", a current track that cannot be resolved keeps being
    reinserted at the front, so the recursion never ends
    (`SessionProps.SongLoopFailureNeverEnds`).
  - Under loop "queue", each failure pops one entry but the current query is
    appended again. When neither the current track nor any queued entry can
    be resolved, they rotate without end
    (`SessionProps.QueueLoopFailureNeverEnds`).
  - With the loop off and autoplay on, once the queue is empty the related
    song that autoplay proposes for the current track is queued, fails, and
    is proposed again (`SessionProps.AutoplayFailureNeverEnds`).

  Only with no current track, or with the loop off above a non-empty queue,
  does each failure consume one entry (`SessionProps.FailingQueueDrains`,
  `SessionProps.FailedHeadIsSkipped`).
- **A user outside voice still adds tracks.** `play` and `playnext` add the
  tracks and create the lock before finding that the user is not in a voice
  channel. The tracks stay queued.
- **The em dash is mojibake.** The second separator of
  `_find_related_song` is the three characters "â€”", an em dash's UTF-8
  bytes read as cp1252. The title is split on the bare separator, so the
  artist can end inside a word: "Hobby by Me" gives "Hob".

Stated as facts about the code, these points mean:

- `back` does not bypass the requeue on the next advance.
- Resolution failures are not bounded by the queue length.
- Teardown does not remove all of a guild's state: the speed stays.
- The queue can hold the current track's entry, after `seek` under loop
  "song" and after `back`.
- When the user is not in a voice channel, `play` and `playnext` still change
  the queue and the lock.

## Model

| member | source | states |
|---|---|---|
| PyStr.ContainsIff | cogs/music.py:173 | `needle in hay` holds exactly when needle is a prefix of some suffix of hay |
| PyStr.SplitHead | cogs/music.py:174 | the result is the longest prefix of s before the first occurrence of sep, or all of s when sep does not occur |
| PyStr.Strip | cogs/music.py:174 | the result is the slice of s left after dropping every leading and every trailing white-space character: everything before and after it is white space, and it neither starts nor ends with white space |
| PyStr.StripBounds | cogs/music.py:174 | gives the two cut points of `strip`: the result is s[i..j], with only white space before i and from j on |
| PyStr.MissingCharNotContained | cogs/music.py:173 | a string holding a character that hay lacks is not in hay |
| Ytdl.SearchQuery | utils/ytdl.py:41-42 | a query starting with "http" is unchanged; any other query becomes exactly "ytsearch:" followed by the query |
| Ytdl.Chosen | utils/ytdl.py:44-58 | raised or None gives nothing; with entries, the first one, if the list is non-empty and it has a "url"; without entries, the dict itself if it has a "url" |
| Ytdl.BuildOptions | utils/ytdl.py:60-66 | speed 1.0 gives the defaults; any other speed gives the same keys plus "options", with " -af atempo=<speed>" appended to a truthy "options", or "-af atempo=<speed>" otherwise; the defaults stay as they were |
| Ytdl.OptionsWithTempo | utils/ytdl.py:18-21 | from the module defaults, a speed other than 1.0 gives "options" = "-vn -af atempo=<speed>" and leaves "before_options" as it is |
| Ytdl.FromQuery | utils/ytdl.py:37-72 | a source exactly when extraction gives playable data and FFmpeg starts; its url, title and data come from the chosen dict, and its options are the defaults, or the defaults with the atempo filter |
| QueueEdits.RemoveAt | cogs/music.py:627-633 | None exactly for a position outside 1..len(q); otherwise the removed entry is q[idx-1], and the rest is q with only it taken out (order kept, multiset minus it) |
| QueueEdits.Move | cogs/music.py:637-643 | None exactly when a position is out of range; otherwise same length and multiset, the moved entry at `to`, and the other entries in their old relative order |
| QueueEdits.Swap | cogs/music.py:647-652 | None exactly when a position is out of range; otherwise positions a and b are exchanged, and nothing else changes |
| Clock.FormatTimeRoundTrip | cogs/music.py:143-147 | the "m:ss" or "h:mm:ss" text, whose minute and second fields after a colon have exactly two digits, reads back as the same number of seconds, negative counts included (floor division); the short "m:ss" form is used exactly when the hour part is zero, that is for 0 <= seconds < 3600 |
| Autoplay.ArtistFrom | cogs/music.py:169-175 | a non-empty artist means some separator occurs with a space on each side in the lower-cased title; the artist is always a slice of the title |
| Autoplay.DetectArtist | cogs/music.py:169-175 | the separator loop with its break computes ArtistFrom over the five separators |
| Autoplay.LastTen | cogs/music.py:184 | the last min(10, n) entries of the history, in order |
| Autoplay.LowerAll | cogs/music.py:184 | defined exactly when every title is non-None; then each entry is the lower-cased title |
| Autoplay.ScanEntries | cogs/music.py:185-192 | the loop returns the first accepted title, or "exhausted", or "crashed" at a None entry (FirstAccepted) |
| Autoplay.FindRelatedSong | cogs/music.py:167-215 | the two-stage search, step by step, returns Propose(title, history, search) |
| Autoplay.FirstAcceptedIff | cogs/music.py:185-192 | the scan takes x exactly when x is the title of an accepted entry and every entry before it is a dict the filter passes over |
| Autoplay.StageAccepts | cogs/music.py:183-192 | a title a stage accepts is among that search's results and passes the filter against the recent titles |
| Autoplay.ProposalIsFresh | cogs/music.py:167-215 | a proposal is non-empty, comes from the targeted or the fallback search, and neither contains nor is contained in any of the last ten titles, lower-cased; those titles are all non-None |
| Autoplay.TargetedStageFirst | cogs/music.py:183-195 | when the targeted stage accepts x, x is the proposal whatever the fallback search would return |
| Autoplay.UntitledRecentHistoryStops | cogs/music.py:184 | a None title among the last ten history entries makes every proposal fail |
| Autoplay.EmptyHistoryTakesFirstTitle | cogs/music.py:183-192 | with no history, the first result whose title is non-empty is taken; results before it have no title or an empty one |
| Autoplay.RemixIsRefused | cogs/music.py:187-191 | after "Song A Remix", "Song A Remix (Official Video)" is refused (case-insensitive containment) |
| Autoplay.ArtistFromSkips | cogs/music.py:172-173 | a separator that does not occur spaced is passed over |
| Autoplay.ArtistFromTakes | cogs/music.py:173-175 | the first separator that occurs spaced decides: the stripped text before its first bare occurrence |
| Autoplay.ArtistCanEndInsideWord | cogs/music.py:174 | "Hobby by Me" gives the artist "Hob" |
| Session.AsWritten | cogs/music.py:308-310 | the keywords play_next passes are not all declared by from_query, so every resolution fails |
| Session.Cleanup | cogs/music.py:48-62 | only the speed and the voice client are left of the guild's entry |
| Session.Teardown | cogs/music.py:262-300 | after play_next's leave paths, only the speed is left |
| Session.Requeue | cogs/music.py:239-243 | only the queue changes; it is unchanged without a current track, under from_back, or with the loop off; under loop "song" the current query goes to the front, under loop "queue" to the back |
| Session.TracksFor | cogs/music.py:392-407 | a query without "open.spotify.com" is the one track; a Spotify link gives its expansion, and nothing when that raised or is empty; a result is never an empty list |
| Session.Stop | cogs/music.py:496-510 | after `stop`, only the speed is left |
| Session.LeaveEmptyRoom | cogs/music.py:68-93 | a bot member, no voice client, or a listener left changes nothing; otherwise only the speed is left |
| SessionProps.SkipRunsPlayNext | cogs/music.py:484-493 | a playing or paused client is stopped, and its after-callback then runs play_next with the stored channel and from_back false; an idle or missing client is left alone; queue, current track and history never change |
| Session.Pause | cogs/music.py:516-532 | playing becomes paused and paused becomes playing, in both directions; only the voice state changes |
| Session.FilterFor | cogs/music.py:134-135 | a filter is stored exactly when the lower-cased name is a known filter other than "none", and it is that filter's text |
| SessionProps.FilterNameCaseInsensitive | cogs/music.py:134-135 | a name and its lower-cased form choose the same filter |
| Session.NextLoop | cogs/music.py:655-659 | off goes to "song", "song" to "queue", "queue" to off, each in both directions |
| Session.ClampVolume | cogs/music.py:665 | the level clamped to 0..200 |
| Session.ToggleAutoplay | cogs/music.py:735-739 | the autoplay flag as read is negated; nothing else changes |
| SessionProps.StartedFacts | cogs/music.py:302-336 | when play_next starts a source: the client plays; the source is the resolver's result for the current query at the guild's speed and filter; it plays at the guild's volume; history grows by exactly its title; the start time is now; the settings are unchanged |
| SessionProps.HeadStartedFacts | cogs/music.py:302-336 | the same for the pop-and-play half of play_next |
| SessionProps.NoPlaybackAsWritten | cogs/music.py:308-310 | as written, play_next never starts a source |
| SessionProps.TornDownFacts | cogs/music.py:245-300 | whenever play_next leaves, only the speed is left and autoplay reads as on |
| SessionProps.HeadTornDownFacts | cogs/music.py:311-320 | the same after a failed head |
| SessionProps.SongLoopReplays | cogs/music.py:240-241 | under loop "song", the current query plays again and the queue is as it was |
| SessionProps.QueueLoopRotates | cogs/music.py:242-243 | under loop "queue", the queue rotates: the current query goes to the back and the head plays |
| SessionProps.PlainPlaysHead | cogs/music.py:303-336 | with no requeue, the head is popped and played; the queue shrinks by exactly it; history grows by its title |
| SessionProps.FailedHeadIsSkipped | cogs/music.py:311-320 | an unplayable head is dropped and play_next recurses on the rest |
| SessionProps.FailingQueueDrains | cogs/music.py:311-320 | with no current track, a queue of unplayable entries is drained one by one and the bot then leaves |
| SessionProps.SongLoopFailureNeverEnds | cogs/music.py:240-241 | under loop "song", an unplayable current track makes play_next recurse without end |
| SessionProps.QueueLoopFailureNeverEnds | cogs/music.py:242-243 | under loop "queue", when the current track and every queued entry are unplayable, play_next recurses until any fuel bound runs out |
| SessionProps.AutoplayContinues | cogs/music.py:246-254 | on an empty queue with autoplay on and a current track, the proposal is queued and played |
| SessionProps.EmptyQueueLeaves | cogs/music.py:246-300 | on an empty queue, with autoplay off, no current track or no proposal, the bot leaves and only the speed is left |
| SessionProps.CleanupIdempotent | cogs/music.py:48-62 | cleaning up twice is cleaning up once, and the speed is kept |
| SessionProps.StopForgetsAutoplayOff | cogs/music.py:496-510 | after `stop`, autoplay reads as on, the speed is kept, and queue, current and voice are gone |
| SessionProps.BusyEnqueueQueues | cogs/music.py:409-423 | while a source plays or is paused, play and playnext only add the tracks and store the channel |
| SessionProps.PlaysConcatenate | cogs/music.py:412 | two plays add their tracks at the tail, in call order |
| SessionProps.PlayNextsStack | cogs/music.py:461 | playnext [A] then [B] gives [B, A, ...], each batch in its own order |
| SessionProps.SecondPlayDoesNotRestart | cogs/music.py:422-423 | after a play starts a source, a second play or playnext queues and keeps the current track |
| SessionProps.PlayWithoutVoiceQueues | cogs/music.py:409-418 | with no voice client and the user outside voice, the tracks are still added and nothing else happens |
| SessionProps.BackNeedsTwo | cogs/music.py:545-546 | with fewer than two history entries, queue and history are as they were |
| SessionProps.BackMovesOne | cogs/music.py:547-553 | otherwise, when the last history entry is the current title, it is dropped and the one before it goes to the front of the queue; else the last entry alone goes there; the client is stopped and nothing else changes |
| SessionProps.BackUnderSongLoopReplaysCurrent | cogs/music.py:537-558 | under loop "song", the callback after `back` plays the current query again, with the previous title behind it |
| SessionProps.AutoplayFailureNeverEnds | cogs/music.py:235-320 | with the loop off, autoplay on, an empty queue and a current track, a proposal that cannot be resolved makes play_next recurse until any fuel bound runs out |
| SessionProps.SeekReplaysCurrent | cogs/music.py:671-683 | with the loop off, a seek replays the current query from its start and the queue ends as before |
| SessionProps.SeekUnderSongLoopLeavesCopy | cogs/music.py:679-683 | under loop "song", a seek leaves a spare copy of the current query at the front of the queue |
| SessionProps.SpeedReloadUsesRate | cogs/music.py:697-702 | after `speed`, the reloaded track is resolved at the new rate |
| SessionProps.FilterReloadUsesFilter | cogs/music.py:719-727 | `filter` always stores the filter, and a reloaded track is resolved with it |
| SessionProps.VolumeApplies | cogs/music.py:664-666 | the clamped volume is stored and applied to a playing or paused source; otherwise the current player is untouched |
| SessionProps.LoopCycles | cogs/music.py:658 | three loop toggles come back to the start, and each toggle changes the mode |
| SessionProps.EditsOutOfRange | cogs/music.py:627-652 | remove, move and swap with a position outside 1..len(q) leave the queue as it was |
| MusicCog.Music.constructor | cogs/music.py:33-43 | every dict starts empty: each guild is Absent |
| MusicCog.Music.GetLock | cogs/music.py:98-99 | the guild's lock exists afterwards; nothing else changes |
| MusicCog.Music.GetQueue | cogs/music.py:101-102 | returns the queue (empty when missing) and stores it; nothing else changes |
| MusicCog.Music.GetHistory | cogs/music.py:104-105 | returns the history (empty when missing) and stores it; nothing else changes |
| MusicCog.Music.GetLoop | cogs/music.py:107-108 | the stored mode, off when missing |
| MusicCog.Music.SetLoop | cogs/music.py:110-111 | stores the mode, which then reads back |
| MusicCog.Music.GetVol | cogs/music.py:113-114 | the stored volume, 100 percent when missing |
| MusicCog.Music.SetVol | cogs/music.py:116-123 | stores the volume and applies it to a playing or paused current player |
| MusicCog.Music.GetSpeed | cogs/music.py:125-126 | the stored speed, 1.0 when missing |
| MusicCog.Music.SetSpeed | cogs/music.py:128-129 | stores the speed |
| MusicCog.Music.GetFilter | cogs/music.py:131-132 | the stored filter, none when missing |
| MusicCog.Music.SetFilter | cogs/music.py:134-135 | stores FilterFor(name) |
| MusicCog.Music.GetAutoplay | cogs/music.py:137-138 | the stored flag, on when missing |
| MusicCog.Music.SetAutoplay | cogs/music.py:140-141 | stores the flag |
| MusicCog.Music.CleanupGuildData | cogs/music.py:48-62 | the guild's entry becomes Cleanup of the old one; speeds, the voice clients and the other guilds are untouched |
| MusicCog.Music.Leave | cogs/music.py:262-299 | play_next's leave path gives Teardown of the old entry |
| MusicCog.Music.RequeueCurrent | cogs/music.py:231-243 | the channel is stored and the loop requeue applied (Requeue); returns the resulting queue |
| MusicCog.Music.PlayNext | cogs/music.py:228-364 | the new entry and the outcome are Session.PlayNext of the old entry; other guilds are untouched |
| MusicCog.Music.RunDry | cogs/music.py:245-300 | the empty-queue branch matches Session.RunDry: it asks FindRelatedSong and plays the proposal, or leaves |
| MusicCog.Music.PlayHead | cogs/music.py:302-364 | the pop-resolve-play part matches Session.PlayHead, including the recursive skip and the no-voice branch |
| MusicCog.Music.PopHead | cogs/music.py:304 | returns the head of the queue and leaves its tail |
| MusicCog.Music.StartPlaying | cogs/music.py:322-336 | current becomes the player at the guild's volume; history grows by its title; the start time is now; the client plays |
| MusicCog.Music.SafePlayNext | cogs/music.py:220-223 | with a voice client, play_next with the stored channel; otherwise nothing |
| MusicCog.Music.Enqueue | cogs/music.py:389-472 | play/playnext: a failed Spotify expansion changes nothing; otherwise the result matches Session.Enqueue |
| MusicCog.Music.AddTracksAt | cogs/music.py:409-412 | takes the lock and adds the tracks at the tail (play) or front (playnext) |
| MusicCog.Music.ReloadCurrent | cogs/music.py:679-682 | the current query goes to the front of the queue and the client stops |
| MusicCog.Music.PushFrontAndStop | cogs/music.py:553-557 | the entry goes to the front of the queue and the client stops |
| MusicCog.Music.Skip | cogs/music.py:484-493 | matches Session.Skip |
| MusicCog.Music.Stop | cogs/music.py:496-510 | matches Session.Stop: only the speed is left |
| MusicCog.Music.Pause | cogs/music.py:516-532 | matches Session.Pause |
| MusicCog.Music.Back | cogs/music.py:537-558 | matches Session.Back |
| MusicCog.Music.ReturnPrevious | cogs/music.py:547-557 | the history surgery of back, once something plays and history has two or more entries |
| MusicCog.Music.Clear | cogs/music.py:615-616 | the queue becomes empty |
| MusicCog.Music.Shuffle | cogs/music.py:620-622 | only the queue changes, to a permutation of itself |
| MusicCog.Music.Remove | cogs/music.py:627-633 | matches Session.Remove; returns the removed entry, or None exactly for an invalid index |
| MusicCog.Music.Move | cogs/music.py:637-643 | matches Session.Move |
| MusicCog.Music.Swap | cogs/music.py:647-652 | matches Session.Swap |
| MusicCog.Music.ToggleLoop | cogs/music.py:655-659 | stores and returns the next loop mode |
| MusicCog.Music.Volume | cogs/music.py:664-666 | stores the clamped level (SetVolume) and returns it |
| MusicCog.Music.Seek | cogs/music.py:671-683 | matches Session.Seek |
| MusicCog.Music.Speed | cogs/music.py:688-702 | matches Session.SetSpeed |
| MusicCog.Music.Filter | cogs/music.py:714-732 | matches Session.SetFilter |
| MusicCog.Music.ToggleAutoplay | cogs/music.py:735-739 | stores and returns the negated flag |
| MusicCog.Music.VoiceStateUpdate | cogs/music.py:68-93 | matches Session.LeaveEmptyRoom |

## Left out

- Discord I/O is not modelled: messages, `defer`/`followup`, embeds, and the check whether the last message contains "Autoplaying". These are presentation.
- `join_vc` is reduced to its effect: an idle voice client appears when the user is in voice. `move_to` and the connection handshake are not modelled.
- Concurrency is left out. The `asyncio.Lock` section and `call_soon_threadsafe` are treated as atomic method calls, and the 3-second sleep in `on_voice_state_update` is a single boolean `alone` for both looks. The code has no staleness check on late resolutions, so the model has none either.
- MusicCog.Music.Volume: the volume is stored as an integer percent, not as the float `capped / 100`. `get_vol`'s default 1.0 is 100.
- The speed is a `real`. Its `repr` inside "atempo=" is the opaque piece `Tempo(speed)`.
- The elapsed-time display of `queue` and `nowplaying` is not modelled, because it is float arithmetic on the clock. `format_time` itself is modelled.
- MusicCog.Music.Shuffle: `random.shuffle` is modelled as an arbitrary permutation of the queue. Which permutation it picks is not modelled.
- yt-dlp, FFmpeg and `vc.play` are function parameters. The DSP meaning of the filter strings is not modelled.
- `utils/spotify.py` is a parameter: the expansion of a Spotify link. `bot.py` and the loading of `config.json` are not part of this model.
- PyStr.Lower folds only the ASCII letters A-Z. Python's `str.lower` also folds the rest of Unicode.
- MusicCog.Music.PlayNext: the recursion on a failed resolution is bounded by `fuel`, which gives the outcome OutOfFuel when it runs out. Python's recursion limit is not modelled.
- `vc.stop()` and `vc.disconnect()` are assumed to succeed. The code ignores their exceptions, and its state changes do not depend on them.
- `queue_cmd`, `nowplaying`, `interaction_check` and `setup` are not modelled. They change no state: they only read it or wire the cog up.
