# Music bot queue and playback rules, in Dafny

This project models the core of a chat bot that plays audio into a guild's voice
channel (`cogs/music.py`). It covers:

- the per-guild queue state `MusicPlayer`: a FIFO of pending songs, a `current`
  slot, a `loop` flag and the id of the latest "Now Playing" control message;
- the cog `Music`, which holds a lazily filled registry `guild id -> MusicPlayer`;
- the rules the cog applies to a guild's voice connection: `play_next`, the
  play-if-idle rule of `play`, the guards of `pause`, `resume`, `skip`, `stop` and
  `leave`, `loop`, `nowplaying`, `queue`, and the reaction remote control;
- the pure helpers around them: the `m:ss` duration, the "Now Playing" card, the
  queue listing capped at ten entries, the `ytsearch1:` query prefix and the
  defaulting of extracted metadata.

Layout, one module per component:

- `Wrappers.dfy`: `Option` and `Result`.
- `Text.dfy`: decimal rendering of naturals and its inverse, zero padding, `startswith`, `join`.
- `Songs.dfy`: the song record, query normalisation and metadata defaulting.
- `Render.dfy`: duration field, control icons, "Now Playing" card, queue listing and queue view.
- `Player.dfy`: `PlayerState`, what `add`/`next`/`clear`/loop toggle do to it, the class
  `MusicPlayer` proved against that, and the FIFO and loop-replay lemmas.
- `Playback.dfy`: the cog's rules for one guild, as functions over
  `GuildState = (PlayerState, Sink)`, and lemmas about them.
- `Cog.dfy`: the class `Music`. It holds the player registry and the guilds' voice
  clients. Every handler is proved to change its own guild exactly as the matching
  `Playback` rule says, and to leave every other guild unchanged.

The voice client is abstracted as a `Sink`:

- `NoClient`: `guild.voice_client is None`.
- `Disconnected`: a client object whose `is_connected()` is false.
- `Idle`: connected, with no audio source attached.
- `Playing(song)` and `Paused(song)`: connected, with a source attached.

`voice_client.stop()` detaches the source. That fires the source's completion
callback exactly once, and the callback runs `play_next`. The model runs that
callback straight away (`Playback.StopVoice`, `Playback.SongEnded`), so skipping a
song and the song ending by itself are the same transition
(`Playback.SkipIsSongEnd`).

Some behaviour of the code is easy to misread; the model follows the code as written:

- `play_next` calls `next()` before it checks the voice client (cogs/music.py:143
  against 148-150). With no usable client, the next song still becomes `current`
  and is never played. So `play_next` is not a no-op on a disconnected guild
  (`Playback.PlayNextWithoutClientStillAdvances`).
- Songs come only from the extractor; there is no other kind of source. `resume`
  on a client that has lost its connection does not rejoin: it replies that
  nothing is paused unless the client reports a paused source.
- `leave` empties the queue, so the completion that disconnecting fires finds
  nothing to play (`Playback.LeaveClearsAndDisconnects`).
- With loop on, `skip` restarts the same song (`Playback.SkipWhileLoopingReplays`),
  because `next()` replays `current`.
- The reaction handler calls `get_player` before it checks the control message, so
  a reaction in a new guild still adds a fresh player to the registry.

## Model

| member | source | states |
|---|---|---|
| `Player.Advanced` | cogs/music.py:46-53 | `next()` returns the replayed `current` and keeps the queue when looping with a song current; otherwise returns something exactly when the queue is non-empty, and the old queue is the returned song followed by the new queue; afterwards `current` equals the returned value |
| `Player.MusicPlayer.constructor` | cogs/music.py:37-41 | a new player has an empty queue, nothing current, loop off and no control message |
| `Player.MusicPlayer.Add` | cogs/music.py:43-44 | appends the song at the back of the queue and changes nothing else |
| `Player.MusicPlayer.Next` | cogs/music.py:46-53 | returns and leaves the state that `Advanced` gives for the old state |
| `Player.MusicPlayer.Clear` | cogs/music.py:55-57 | empties the queue and clears `current`; the loop flag and control message stay |
| `Player.DrainInOrder` | cogs/music.py:43-53 | with loop off, `|queue| + 1` calls of `next()` return every pending song in insertion order and then nothing, and leave the queue empty with nothing current |
| `Player.ThreeSongsThenNothing` | cogs/music.py:43-53 | adding A, B, C to a fresh player and calling `next()` four times yields A, B, C, nothing |
| `Player.LoopReplays` | cogs/music.py:47-48 | with loop on and a song current, any number of `next()` calls all return that song and leave the whole state, queue included, unchanged |
| `Player.ClearThenNext` | cogs/music.py:55-57 | after `clear()`, `next()` returns nothing even with loop on, and changes nothing further |
| `Player.LoopToggleTwice` | cogs/music.py:389 | one toggle flips the loop flag; two toggles restore the state |
| `Player.FifoHistory` | cogs/music.py:43-53 | with loop off, for any interleaving of `add` and `next`, the songs returned followed by those still pending are exactly the songs ever added, in order |
| `Cog.Music.constructor` | cogs/music.py:63-65 | the registry starts empty and no guild has a voice client |
| `Cog.Music.GetPlayer` | cogs/music.py:67-70 | returns the registered player of the guild; inserts a fresh player only for an unseen guild; other entries stay the same objects and no guild's state changes |
| `Cog.Music.SendNowPlaying` | cogs/music.py:109-138 | returns the card of the song and makes the new message the guild's control message; nothing else changes |
| `Playback.PlayNext` | cogs/music.py:140-163 | the queue is always advanced; a card is sent exactly when `next()` yields a song and the client is connected and idle, and then that song plays and its message becomes the control message; otherwise the client is unchanged |
| `Cog.Music.PlayNext` | cogs/music.py:140-163 | changes the guild as `Playback.PlayNext` says and leaves every other guild unchanged |
| `Playback.PlayNextWithoutClientStillAdvances` | cogs/music.py:143-150 | with no client or a disconnected one, `play_next` still advances the queue and plays nothing |
| `Cog.Music.StopVoice` | cogs/music.py:154-160 | `stop()` on a client with a source attached leaves it idle and runs `play_next` once; otherwise does nothing |
| `Cog.Music.SongEnded` | cogs/music.py:154-160 | a finished song leaves the client idle and runs `play_next` once |
| `Playback.SongEndedPlaysNextInOrder` | cogs/music.py:154-160 | with loop off, the end of a song starts the front pending song and shows its card; with nothing pending the client goes idle with nothing current |
| `Cog.Music.Join` | cogs/music.py:252-257 | on a failed connect nothing changes; otherwise a guild without a client gets an idle one and an existing client keeps its state |
| `Cog.Music.Leave` | cogs/music.py:259-269 | without a client replies "not in a voice channel" and changes nothing; otherwise clears the queue state, drops the client and runs the completion that disconnecting fires |
| `Playback.LeaveClearsAndDisconnects` | cogs/music.py:259-269 | after `leave` the guild has no client, an empty queue and nothing current, whatever was playing |
| `Cog.Music.Play` | cogs/music.py:271-301 | connects when there is no client (a failed connect changes nothing); a failed resolution leaves the queue state alone; otherwise continues as `PlayIfIdle` |
| `Cog.Music.PlayIfIdle` | cogs/music.py:293-301 | enqueues the song; runs `play_next` only when a client exists with no source attached, otherwise replies "Added to queue" |
| `Playback.PlayWhileBusyQueues` | cogs/music.py:293-301 | while playing or paused, `play` only appends the song and replies "Added to queue" |
| `Playback.PlayWhenIdleStarts` | cogs/music.py:293-301 | on an idle client with nothing pending and nothing to replay, `play` starts the new song at once and replies with its card |
| `Playback.PlayKeepsSong` | cogs/music.py:281-301 | a resolved song ends up last in the queue or as the current song; a failed connect changes nothing; a failed resolution leaves the queue state as it was |
| `Cog.Music.Pause` | cogs/music.py:303-311 | pauses exactly when playing; otherwise replies "Nothing is playing!" and changes nothing |
| `Cog.Music.Resume` | cogs/music.py:313-321 | resumes exactly when paused; otherwise replies "Nothing is paused!" and changes nothing |
| `Cog.Music.Stop` | cogs/music.py:323-333 | without a client changes nothing; otherwise clears the queue state, then stops the client |
| `Playback.StopEmptiesQueue` | cogs/music.py:323-333 | after `stop` with a client, the queue is empty, nothing is current and no source is attached; without a client nothing changes |
| `Cog.Music.Skip` | cogs/music.py:335-343 | only when playing: stops the client, which runs `play_next`; otherwise replies "Nothing is playing!" and changes nothing |
| `Playback.CommandGuards` | cogs/music.py:303-343 | pause changes the guild exactly when playing, resume exactly when paused; skip replies "Nothing is playing!" and changes nothing exactly when not playing; resuming after a pause restores the guild |
| `Playback.SkipChangesPlayingGuild` | cogs/music.py:335-343 | a skip on a playing client changes the guild whenever the new card gets a new message id; in any case afterwards either the client is idle, or it plays the song that is now current under the new card |
| `Playback.SkipIsSongEnd` | cogs/music.py:335-343 | skipping a playing song leaves the guild exactly as if the song had ended by itself |
| `Playback.SkipWhileLoopingReplays` | cogs/music.py:335-343 | with loop on, skipping restarts the current song and leaves the queue unchanged |
| `Cog.Music.ShowQueue` | cogs/music.py:345-373 | replies with the queue view of the guild's current song and queue, and changes no guild's state |
| `Cog.Music.NowPlaying` | cogs/music.py:375-383 | with nothing current replies "Nothing is playing!"; otherwise re-sends the card, whose message becomes the control message |
| `Playback.NewCardSupersedesOld` | cogs/music.py:375-383 | after a new card is sent, a reaction on any earlier card changes nothing |
| `Cog.Music.ToggleLoop` | cogs/music.py:385-392 | flips the guild's loop flag and reports the new value |
| `Cog.Music.OnReactionAdd` | cogs/music.py:189-250 | reactions by bots or outside a guild change nothing; every other reaction changes its guild as `Playback.Reaction` says and no other guild |
| `Playback.StaleReactionIgnored` | cogs/music.py:201-205 | a reaction when the guild has no control message, or on any other message, changes nothing and sends nothing |
| `Playback.ReactionMatchesCommands` | cogs/music.py:216-250 | an accepted pause, resume, skip or stop icon does what the command does (or nothing, when that command would refuse); the queue icon and unknown emoji change nothing |
| `Render.Classify` | cogs/music.py:25-31 | a reaction selects the control whose icon it equals, in the listed order, and no control when it is none of the five icons |
| `Render.DurationRoundTrip` | cogs/music.py:122-124 | the `m:ss` duration field reads back as the duration in seconds, through a parser that accepts only minutes without leading zeros and two-digit seconds below 60 |
| `Render.OnlyCanonical` | cogs/music.py:122-124 | any text the duration parser reads as a value is exactly the `m:ss` text the card prints for that value, so the card's duration field is pinned to the printed text |
| `Render.NonCanonicalDurationsRejected` | cogs/music.py:122-124 | the two texts "0:75" and "01:15", which the field never shows, are not read as durations |
| `Text.NatToStringParseNat` | cogs/music.py:124 | a digit string without a leading zero is the decimal rendering of the number it reads as |
| `Render.DurationExample` | cogs/music.py:122-124 | 200 seconds is shown as "3:20" |
| `Render.NowPlayingCard` | cogs/music.py:113-127 | the heading is "🎵 Now Playing", the description is the song title in bold and the footer lists the five control icons; the card has a duration field exactly when the duration is nonzero, and that field is the canonical `m:ss` text of the duration; a thumbnail is shown exactly when it is present and non-empty |
| `Render.UpNextLines` | cogs/music.py:362-369 | the listing has min(n, 10) lines numbered from 1 with the titles in queue order, plus one "... and n-10 more" line exactly when n > 10 |
| `Render.ListingAccountsForQueue` | cogs/music.py:245-249 | numbered lines plus the count on the "more" line add up to the queue length |
| `Render.ListingExample` | cogs/music.py:362-369 | twelve queued songs give ten numbered lines and "... and 2 more" |
| `Render.ShowQueue` | cogs/music.py:345-372 | "Queue is empty" exactly when the queue is empty and nothing is current; otherwise the bold current title exactly when one exists, the capped "Up Next" listing of the queued titles exactly when the queue is non-empty, and the "Total in queue" footer only for the command, not for the queue icon |
| `Songs.NormalizeQuery` | cogs/music.py:84-86 | an http(s) URL is kept as it is; anything else becomes `ytsearch1:` followed by the query |
| `Songs.NormalizeQueryInjective` | cogs/music.py:84-86 | two different queries never turn into the same lookup |
| `Songs.ChosenResult` | cogs/music.py:94-97 | a search result uses its first entry and fails with `NoResults` when there are no entries; a direct result is used as it is |
| `Songs.SongOf` | cogs/music.py:99-105 | succeeds exactly when `url` is present; keeps present keys; title defaults to "Unknown", duration to 0, page URL to the normalised query |
| `Songs.Resolve` | cogs/music.py:79-107 | an extractor failure, an empty search or a missing URL all become errors; otherwise the song is the defaulted first result of the lookup of the normalised query |
| `Songs.ErrorText` | cogs/music.py:106-107 | every extraction error is reported as "Failed to extract audio: " followed by its cause: the extractor's own message, "No results found", or "'url'" for the missing key |
| `Text.ParseNatToString` | cogs/music.py:124 | the decimal rendering of a number reads back as that number |
| `Text.PadZeros` | cogs/music.py:124 | `02d` padding keeps the digits at the end and fills the front with zeros to the width |

## Left out

- `bot.py` and `config.py`: gateway set-up, intents, slash-command sync and reading the token. This is start-up plumbing with no queue logic.
- The extraction library call and its executor (cogs/music.py:79-91). The model takes it as the parameter `extract` of `Songs.Resolve`, a total function from the normalised query to a result or an error message.
- FFmpeg source construction and options (cogs/music.py:20-23, 152). This is an external transcoding process.
- The cross-thread hand-off of the completion callback (cogs/music.py:154-158). The model runs the callback at once. It does not model another command running between `stop()` and the callback, such as a `play` that finds the client idle first.
- `connect_to_voice` (cogs/music.py:165-187): the caller not being in a voice channel, timeouts and client errors are one boolean, `connected`. `move_to` keeps the client's state.
- Message sending, embed colours and titles other than the "Now Playing" heading, `delete_after` timings, adding and removing reactions, and swallowed `HTTPException`s. Replies are modelled as the `Playback.Reply` value the handler would send. The "Searching for" message is left out.
- The sink's audio itself, and errors during playback. An error still ends in the same completion callback.
- Cog.Music.PlayNext: a client that is paused is refused a new source, like a playing one. The voice library's own checks are not part of this model.
- Songs.SongOf: a duration is a whole number of seconds. A fractional or `null` duration from the extractor is not modelled. A key present with a `null` value counts as absent.
- Songs.ChosenResult: a search entry that itself has `entries` is taken as it is. The code does not unwrap twice either.
- No invariant says the queue never holds the current song. The code does not keep one: the same song may be queued twice, and a looping player keeps replaying `current`.
