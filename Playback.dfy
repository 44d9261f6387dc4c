/** The rules of the music cog for one guild, stated over the guild's queue state
    and an abstract view of its voice connection. Each command and the reaction
    handler is a function from the old state to the new state and the reply. */
module Playback {
  import opened Wrappers
  import opened Songs
  import opened Render
  import opened Player

  /** The guild's voice connection as the cog observes it: no client at all, a
      client that is no longer connected, or a connected client that is idle,
      playing a song or paused on one. */
  datatype Sink = NoClient | Disconnected | Idle | Playing(song: Song) | Paused(song: Song)
  {
    /** `is_playing() or is_paused()`: an audio source is attached. */
    predicate Rendering() {
      Playing? || Paused?
    }
  }

  datatype GuildState = GuildState(player: PlayerState, sink: Sink)

  /** What a command or reaction says back in the channel. */
  datatype Reply =
    | Silent
    | NotInVoice
    | ConnectFailed
    | Joined
    | Left
    | NothingPlaying
    | NothingPaused
    | PausedReply
    | ResumedReply
    | SkippedReply
    | StoppedReply
    | Queued(title: string)
    | Started(card: Card)
    | ExtractFailed(text: string)
    | QueueShown(view: QueueView)
    | NowPlayingShown(card: Card)
    | LoopSet(enabled: bool)

  // ---------------------------------------------------------------------------
  // play_next and the completion callback

  /** `play_next`: advance the queue first, then start the returned song only on a
      connected client with nothing attached, sending a new card whose id `msg`
      becomes the control message. A song from the advance is dropped unplayed when
      there is no usable client. The branch for a client that already has a source
      is never reached: every caller attaches nothing before it runs. */
  function PlayNext(gs: GuildState, msg: MessageId): (r: (GuildState, Option<Card>))
    ensures r.0.player.(nowPlayingMessage := gs.player.nowPlayingMessage) == Advanced(gs.player).1
    ensures r.1.Some? <==> Advanced(gs.player).0.Some? && gs.sink == Idle
    ensures r.1.Some? ==>
      var song := Advanced(gs.player).0.value;
      r.0.sink == Playing(song) && r.0.player.nowPlayingMessage == Some(msg) && r.1.value == NowPlayingCard(song)
    ensures r.1.None? ==> r.0 == GuildState(Advanced(gs.player).1, gs.sink)
  {
    var (song, player) := Advanced(gs.player);
    if song.None? then (GuildState(player, gs.sink), None)
    else if gs.sink.NoClient? || gs.sink.Disconnected? then (GuildState(player, gs.sink), None)
    else if gs.sink.Rendering() then (GuildState(player, gs.sink), None)
    else (GuildState(player.(nowPlayingMessage := Some(msg)), Playing(song.value)), Some(NowPlayingCard(song.value)))
  }

  /** `voice_client.stop()`: detaching a source fires its completion callback once,
      which runs `play_next`; with nothing attached nothing fires. */
  function StopVoice(gs: GuildState, msg: MessageId): GuildState {
    if gs.sink.Rendering() then PlayNext(gs.(sink := Idle), msg).0 else gs
  }

  /** A song that finishes by itself fires the same callback. */
  function SongEnded(gs: GuildState, msg: MessageId): GuildState {
    if gs.sink.Playing? then PlayNext(gs.(sink := Idle), msg).0 else gs
  }

  // ---------------------------------------------------------------------------
  // Commands

  /** `join`: connect, or move an existing client (which keeps its state). */
  function Join(gs: GuildState, connected: bool): (GuildState, Reply) {
    if !connected then (gs, ConnectFailed)
    else if gs.sink.NoClient? then (gs.(sink := Idle), Joined)
    else (gs, Joined)
  }

  /** `leave`: clear the queue state and disconnect. Disconnecting detaches any
      source, so its completion still runs `play_next`, now without a client. */
  function Leave(gs: GuildState, msg: MessageId): (GuildState, Reply) {
    if gs.sink.NoClient? then (gs, NotInVoice)
    else
      var gone := GuildState(Cleared(gs.player), NoClient);
      (if gs.sink.Rendering() then PlayNext(gone, msg).0 else gone, Left)
  }

  /** The tail of `play` once the song is resolved: always enqueue it, and run
      `play_next` only when the client has nothing attached. */
  function PlayIfIdle(gs: GuildState, song: Song, msg: MessageId): (GuildState, Reply) {
    var gs1 := gs.(player := Added(gs.player, song));
    if !gs1.sink.NoClient? && !gs1.sink.Rendering() then
      var (gs2, card) := PlayNext(gs1, msg);
      (gs2, if card.Some? then Started(card.value) else Silent)
    else (gs1, Queued(song.title))
  }

  /** `play`: connect if there is no client, resolve the query, then `PlayIfIdle`. */
  function Play(gs: GuildState, connected: bool, resolved: Result<Song, ExtractError>, msg: MessageId): (GuildState, Reply) {
    if gs.sink.NoClient? && !connected then (gs, ConnectFailed)
    else
      var gs1 := if gs.sink.NoClient? then gs.(sink := Idle) else gs;
      match resolved
      case Failure(e) => (gs1, ExtractFailed(ErrorText(e)))
      case Success(song) => PlayIfIdle(gs1, song, msg)
  }

  function Pause(gs: GuildState): (GuildState, Reply) {
    if gs.sink.Playing? then (gs.(sink := Paused(gs.sink.song)), PausedReply) else (gs, NothingPlaying)
  }

  function Resume(gs: GuildState): (GuildState, Reply) {
    if gs.sink.Paused? then (gs.(sink := Playing(gs.sink.song)), ResumedReply) else (gs, NothingPaused)
  }

  /** `skip` forces completion of the playing song. */
  function Skip(gs: GuildState, msg: MessageId): (GuildState, Reply) {
    if gs.sink.Playing? then (StopVoice(gs, msg), SkippedReply) else (gs, NothingPlaying)
  }

  /** `stop` clears the queue state and forces completion (if anything is attached). */
  function Stop(gs: GuildState, msg: MessageId): (GuildState, Reply) {
    if gs.sink.NoClient? then (gs, NotInVoice)
    else (StopVoice(gs.(player := Cleared(gs.player)), msg), StoppedReply)
  }

  function ShowQueueCommand(gs: GuildState): Reply {
    QueueShown(ShowQueue(gs.player.current, gs.player.queue, true))
  }

  /** `nowplaying` re-sends the card of the current song; the new card becomes the
      control message. */
  function NowPlaying(gs: GuildState, msg: MessageId): (GuildState, Reply) {
    match gs.player.current
    case None => (gs, NothingPlaying)
    case Some(song) =>
      (gs.(player := gs.player.(nowPlayingMessage := Some(msg))), NowPlayingShown(NowPlayingCard(song)))
  }

  function ToggleLoop(gs: GuildState): (GuildState, Reply) {
    var player := LoopToggled(gs.player);
    (gs.(player := player), LoopSet(player.loop))
  }

  // ---------------------------------------------------------------------------
  // Reactions

  /** A user's reaction `emoji` on message `messageId` of this guild: ignored
      unless it is on the current control message; otherwise one of five actions,
      each of which silently does nothing when the client is not in the right state. */
  function Reaction(gs: GuildState, messageId: MessageId, emoji: string, msg: MessageId): (GuildState, Reply) {
    if gs.player.nowPlayingMessage != Some(messageId) then (gs, Silent)
    else match Classify(emoji)
      case PauseControl => if gs.sink.Playing? then Pause(gs) else (gs, Silent)
      case ResumeControl => if gs.sink.Paused? then Resume(gs) else (gs, Silent)
      case SkipControl => if gs.sink.Playing? then Skip(gs, msg) else (gs, Silent)
      case StopControl => if !gs.sink.NoClient? then Stop(gs, msg) else (gs, Silent)
      case QueueControl => (gs, QueueShown(ShowQueue(gs.player.current, gs.player.queue, false)))
      case OtherEmoji => (gs, Silent)
  }

  // ---------------------------------------------------------------------------
  // Properties of the rules

  /** As written, `play_next` advances the queue before it looks at the client: with
      no usable client the next song becomes current and is never played. */
  lemma PlayNextWithoutClientStillAdvances(gs: GuildState, msg: MessageId)
    requires gs.sink.NoClient? || gs.sink.Disconnected?
    ensures PlayNext(gs, msg) == (GuildState(Advanced(gs.player).1, gs.sink), None)
  {
  }

  /** With loop off, each natural end of a song starts the next pending one in
      order, and the end of the last one leaves the client idle with nothing current. */
  lemma SongEndedPlaysNextInOrder(gs: GuildState, msg: MessageId)
    requires gs.sink.Playing? && !gs.player.loop
    ensures gs.player.queue != [] ==>
      SongEnded(gs, msg).sink == Playing(gs.player.queue[0]) &&
      SongEnded(gs, msg).player.queue == gs.player.queue[1..] &&
      SongEnded(gs, msg).player.nowPlayingMessage == Some(msg)
    ensures gs.player.queue == [] ==>
      SongEnded(gs, msg) == GuildState(gs.player.(current := None), Idle)
  {
  }

  /** Skipping is forcing completion: the guild ends up exactly as if the playing
      song had finished by itself. */
  lemma SkipIsSongEnd(gs: GuildState, msg: MessageId)
    requires gs.sink.Playing?
    ensures Skip(gs, msg) == (SongEnded(gs, msg), SkippedReply)
  {
  }

  /** With loop on, skipping restarts the current song and leaves the queue alone. */
  lemma SkipWhileLoopingReplays(gs: GuildState, song: Song, msg: MessageId)
    requires gs.player.loop && gs.player.current == Some(song) && gs.sink.Playing?
    ensures Skip(gs, msg).0.sink == Playing(song)
    ensures Skip(gs, msg).0.player == gs.player.(nowPlayingMessage := Some(msg))
  {
  }

  /** Pause, resume and skip change nothing unless the client is in the one state
      each of them needs; when it is, they do change it. */
  lemma CommandGuards(gs: GuildState, msg: MessageId)
    ensures Pause(gs).0 == gs <==> !gs.sink.Playing?
    ensures Resume(gs).0 == gs <==> !gs.sink.Paused?
    ensures !gs.sink.Playing? <==> Skip(gs, msg) == (gs, NothingPlaying)
    ensures gs.sink.Playing? ==> Pause(gs).0.sink == Paused(gs.sink.song) && Resume(Pause(gs).0).0 == gs
  {
  }

  /** A skip on a playing client always changes the guild, provided the new card
      gets a message id that is not already the control message: either the
      next (or replayed) song plays under the new card, or the client goes idle. */
  lemma SkipChangesPlayingGuild(gs: GuildState, msg: MessageId)
    requires gs.sink.Playing? && gs.player.nowPlayingMessage != Some(msg)
    ensures Skip(gs, msg).0 != gs
    ensures var after := Skip(gs, msg).0;
      || after.sink == Idle
      || (after.sink.Playing? && after.player.nowPlayingMessage == Some(msg) && after.player.current == Some(after.sink.song))
  {
  }

  /** `stop` with a client empties the queue state and leaves nothing attached;
      without a client it changes nothing. */
  lemma StopEmptiesQueue(gs: GuildState, msg: MessageId)
    ensures gs.sink.NoClient? ==> Stop(gs, msg) == (gs, NotInVoice)
    ensures !gs.sink.NoClient? ==>
      var after := Stop(gs, msg).0;
      after.player == Cleared(gs.player) &&
      after.sink == (if gs.sink.Disconnected? then Disconnected else Idle)
  {
    if !gs.sink.NoClient? {
      ClearThenNext(gs.player);
    }
  }

  /** `leave` clears and disconnects; the completion it fires finds nothing to play. */
  lemma LeaveClearsAndDisconnects(gs: GuildState, msg: MessageId)
    requires !gs.sink.NoClient?
    ensures Leave(gs, msg) == (GuildState(Cleared(gs.player), NoClient), Left)
  {
    ClearThenNext(gs.player);
  }

  /** `play` while something is attached only appends the song. */
  lemma PlayWhileBusyQueues(gs: GuildState, connected: bool, song: Song, msg: MessageId)
    requires gs.sink.Rendering()
    ensures Play(gs, connected, Success(song), msg) ==
      (gs.(player := Added(gs.player, song)), Queued(song.title))
  {
  }

  /** `play` on an idle client with nothing to replay and nothing pending starts the
      new song at once and shows its card. */
  lemma PlayWhenIdleStarts(gs: GuildState, connected: bool, song: Song, msg: MessageId)
    requires gs.sink.Idle? || (gs.sink.NoClient? && connected)
    requires gs.player.queue == [] && !(gs.player.loop && gs.player.current.Some?)
    ensures Play(gs, connected, Success(song), msg).0.sink == Playing(song)
    ensures Play(gs, connected, Success(song), msg).0.player ==
      gs.player.(current := Some(song), nowPlayingMessage := Some(msg))
    ensures Play(gs, connected, Success(song), msg).1 == Started(NowPlayingCard(song))
  {
    var gs2 := GuildState(Added(gs.player, song), Idle);
    assert gs2.player.queue == [song];
    assert Advanced(gs2.player).0 == Some(song);
  }

  /** A resolved song is never lost by `play`: it ends up last in the queue or as
      the current song. A failed connection or resolution changes no queue state. */
  lemma PlayKeepsSong(gs: GuildState, connected: bool, resolved: Result<Song, ExtractError>, msg: MessageId)
    ensures gs.sink.NoClient? && !connected ==> Play(gs, connected, resolved, msg) == (gs, ConnectFailed)
    ensures resolved.Failure? ==> Play(gs, connected, resolved, msg).0.player == gs.player
    ensures resolved.Success? && !(gs.sink.NoClient? && !connected) ==>
      var p := Play(gs, connected, resolved, msg).0.player;
      (p.queue != [] && p.queue[|p.queue| - 1] == resolved.value) || p.current == Some(resolved.value)
  {
    if resolved.Success? && !(gs.sink.NoClient? && !connected) {
      var song := resolved.value;
      var gs1 := if gs.sink.NoClient? then gs.(sink := Idle) else gs;
      var added := Added(gs1.player, song);
      if !gs1.sink.Rendering() {
        var (next, p) := Advanced(added);
        if !(added.loop && added.current.Some?) && next.Some? {
          assert added.queue == [next.value] + p.queue;
          if p.queue == [] {
            assert next.value == song;
          } else {
            assert p.queue[|p.queue| - 1] == added.queue[|added.queue| - 1];
          }
        }
      }
    }
  }

  /** A reaction that is not on the current control message changes nothing. */
  lemma StaleReactionIgnored(gs: GuildState, messageId: MessageId, emoji: string, msg: MessageId)
    requires gs.player.nowPlayingMessage != Some(messageId)
    ensures Reaction(gs, messageId, emoji, msg) == (gs, Silent)
  {
  }

  /** Sending a new card (here by `nowplaying`) makes every earlier card inert. */
  lemma NewCardSupersedesOld(gs: GuildState, msg: MessageId, earlier: MessageId, emoji: string, msg2: MessageId)
    requires gs.player.current.Some? && earlier != msg
    ensures Reaction(NowPlaying(gs, msg).0, earlier, emoji, msg2) == (NowPlaying(gs, msg).0, Silent)
  {
    StaleReactionIgnored(NowPlaying(gs, msg).0, earlier, emoji, msg2);
  }

  /** An accepted reaction does to the guild what the matching command does, and an
      unknown emoji or the queue icon does nothing to it. */
  lemma ReactionMatchesCommands(gs: GuildState, messageId: MessageId, emoji: string, msg: MessageId)
    requires gs.player.nowPlayingMessage == Some(messageId)
    ensures Classify(emoji) == PauseControl ==> Reaction(gs, messageId, emoji, msg).0 == Pause(gs).0
    ensures Classify(emoji) == ResumeControl ==> Reaction(gs, messageId, emoji, msg).0 == Resume(gs).0
    ensures Classify(emoji) == SkipControl ==> Reaction(gs, messageId, emoji, msg).0 == Skip(gs, msg).0
    ensures Classify(emoji) == StopControl ==> Reaction(gs, messageId, emoji, msg).0 == Stop(gs, msg).0
    ensures Classify(emoji) in {QueueControl, OtherEmoji} ==> Reaction(gs, messageId, emoji, msg).0 == gs
  {
  }
}
