/** The music cog as an object: the per-guild registry of `MusicPlayer`s, the
    guilds' voice clients as the cog observes them, and the command and reaction
    handlers, each proved to do to its guild what the rule of the same name in
    `Playback` says, and nothing to any other guild. */
module Cog {
  import opened Wrappers
  import opened Songs
  import opened Render
  import opened Player
  import Playback

  type GuildId = nat

  class Music {
    /** guild id -> player, created on first use and never removed. */
    var players: map<GuildId, MusicPlayer>
    /** `guild.voice_client` of each guild; a guild missing here has no client. */
    var sinks: map<GuildId, Playback.Sink>

    /** Each guild owns its own player object. */
    ghost predicate Valid()
      reads this
    {
      forall g, h :: g in players && h in players && g != h ==> players[g] != players[h]
    }

    /** A guild never seen has the state of a fresh player. */
    ghost function PlayerView(g: GuildId): PlayerState
      reads this, if g in players then {players[g]} else {}
    {
      if g in players then players[g].State() else Fresh()
    }

    function SinkOf(g: GuildId): Playback.Sink
      reads this
    {
      if g in sinks then sinks[g] else Playback.NoClient
    }

    ghost function View(g: GuildId): Playback.GuildState
      reads this, if g in players then {players[g]} else {}
    {
      Playback.GuildState(PlayerView(g), SinkOf(g))
    }

    constructor ()
      ensures Valid() && players == map[] && sinks == map[]
    {
      players := map[];
      sinks := map[];
    }

    /** `get_player`: the guild's player, inserted the first time the guild is seen. */
    method GetPlayer(g: GuildId) returns (p: MusicPlayer)
      requires Valid()
      modifies this
      ensures Valid() && g in players && p == players[g]
      ensures g in old(players) ==> players == old(players)
      ensures g !in old(players) ==> fresh(p) && players == old(players)[g := p]
      ensures sinks == old(sinks)
      ensures forall h :: View(h) == old(View(h))
    {
      if g !in players {
        var created := new MusicPlayer();
        players := players[g := created];
      }
      p := players[g];
    }

    /** `send_now_playing`: the card for `song`, whose message `msg` becomes the
        guild's control message. */
    method SendNowPlaying(g: GuildId, song: Song, msg: MessageId) returns (card: Card)
      requires Valid()
      modifies this, players.Values
      ensures Valid() && old(players.Keys) + {g} == players.Keys
      ensures forall h :: h in old(players) ==> players[h] == old(players[h])
      ensures card == NowPlayingCard(song)
      ensures View(g) == old(View(g)).(player := old(View(g)).player.(nowPlayingMessage := Some(msg)))
      ensures forall h :: h != g ==> View(h) == old(View(h))
    {
      var p := GetPlayer(g);
      card := NowPlayingCard(song);
      p.nowPlayingMessage := Some(msg);
    }

    /** `play_next`. */
    method PlayNext(g: GuildId, msg: MessageId) returns (card: Option<Card>)
      requires Valid()
      modifies this, players.Values
      ensures Valid() && old(players.Keys) + {g} == players.Keys
      ensures forall h :: h in old(players) ==> players[h] == old(players[h])
      ensures (View(g), card) == Playback.PlayNext(old(View(g)), msg)
      ensures forall h :: h != g ==> View(h) == old(View(h))
    {
      var p := GetPlayer(g);
      var song := p.Next();
      if song.None? {
        return None;
      }
      var voice := SinkOf(g);
      if voice.NoClient? || voice.Disconnected? {
        return None;
      }
      if voice.Rendering() {
        // never reached: every caller runs this with nothing attached
        return None;
      }
      sinks := sinks[g := Playback.Playing(song.value)];
      var shown := SendNowPlaying(g, song.value, msg);
      card := Some(shown);
    }

    /** `voice_client.stop()`, including the one completion callback it fires. */
    method StopVoice(g: GuildId, msg: MessageId)
      requires Valid()
      modifies this, players.Values
      ensures Valid() && old(players.Keys) <= players.Keys <= old(players.Keys) + {g}
      ensures forall h :: h in old(players) ==> players[h] == old(players[h])
      ensures View(g) == Playback.StopVoice(old(View(g)), msg)
      ensures forall h :: h != g ==> View(h) == old(View(h))
    {
      if SinkOf(g).Rendering() {
        sinks := sinks[g := Playback.Idle];
        var _ := PlayNext(g, msg);
      }
    }

    /** The completion callback of a song that finished by itself. */
    method SongEnded(g: GuildId, msg: MessageId)
      requires Valid()
      modifies this, players.Values
      ensures Valid() && old(players.Keys) <= players.Keys <= old(players.Keys) + {g}
      ensures forall h :: h in old(players) ==> players[h] == old(players[h])
      ensures View(g) == Playback.SongEnded(old(View(g)), msg)
      ensures forall h :: h != g ==> View(h) == old(View(h))
    {
      if SinkOf(g).Playing? {
        sinks := sinks[g := Playback.Idle];
        var _ := PlayNext(g, msg);
      }
    }

    method Join(g: GuildId, connected: bool) returns (reply: Playback.Reply)
      modifies this
      ensures players == old(players)
      ensures (View(g), reply) == Playback.Join(old(View(g)), connected)
      ensures forall h :: h != g ==> View(h) == old(View(h))
    {
      if !connected {
        return Playback.ConnectFailed;
      }
      if SinkOf(g).NoClient? {
        sinks := sinks[g := Playback.Idle];
      }
      reply := Playback.Joined;
    }

    method Leave(g: GuildId, msg: MessageId) returns (reply: Playback.Reply)
      requires Valid()
      modifies this, players.Values
      ensures Valid() && old(players.Keys) <= players.Keys <= old(players.Keys) + {g}
      ensures forall h :: h in old(players) ==> players[h] == old(players[h])
      ensures (View(g), reply) == Playback.Leave(old(View(g)), msg)
      ensures forall h :: h != g ==> View(h) == old(View(h))
    {
      var voice := SinkOf(g);
      if voice.NoClient? {
        return Playback.NotInVoice;
      }
      var p := GetPlayer(g);
      p.Clear();
      sinks := sinks - {g};
      if voice.Rendering() {
        // disconnecting detached the source, whose completion still runs
        var _ := PlayNext(g, msg);
      }
      reply := Playback.Left;
    }

    /** `play <query>`: `extract` stands for the extraction library. */
    method Play(g: GuildId, connected: bool, query: string, extract: string -> Result<Info, string>, msg: MessageId)
      returns (reply: Playback.Reply)
      requires Valid()
      modifies this, players.Values
      ensures Valid() && old(players.Keys) <= players.Keys <= old(players.Keys) + {g}
      ensures forall h :: h in old(players) ==> players[h] == old(players[h])
      ensures (View(g), reply) == Playback.Play(old(View(g)), connected, Resolve(query, extract), msg)
      ensures forall h :: h != g ==> View(h) == old(View(h))
    {
      if SinkOf(g).NoClient? {
        if !connected {
          return Playback.ConnectFailed;
        }
        sinks := sinks[g := Playback.Idle];
      }
      var resolved := Resolve(query, extract);
      if resolved.Failure? {
        return Playback.ExtractFailed(ErrorText(resolved.error));
      }
      reply := PlayIfIdle(g, resolved.value, msg);
    }

    method PlayIfIdle(g: GuildId, song: Song, msg: MessageId) returns (reply: Playback.Reply)
      requires Valid()
      modifies this, players.Values
      ensures Valid() && old(players.Keys) + {g} == players.Keys
      ensures forall h :: h in old(players) ==> players[h] == old(players[h])
      ensures (View(g), reply) == Playback.PlayIfIdle(old(View(g)), song, msg)
      ensures forall h :: h != g ==> View(h) == old(View(h))
    {
      var p := GetPlayer(g);
      p.Add(song);
      var voice := SinkOf(g);
      if voice.NoClient? || voice.Playing? || voice.Paused? {
        return Playback.Queued(song.title);
      }
      var card := PlayNext(g, msg);
      reply := if card.Some? then Playback.Started(card.value) else Playback.Silent;
    }

    method Pause(g: GuildId) returns (reply: Playback.Reply)
      modifies this
      ensures players == old(players)
      ensures (View(g), reply) == Playback.Pause(old(View(g)))
      ensures forall h :: h != g ==> View(h) == old(View(h))
    {
      var voice := SinkOf(g);
      if !voice.Playing? {
        return Playback.NothingPlaying;
      }
      sinks := sinks[g := Playback.Paused(voice.song)];
      reply := Playback.PausedReply;
    }

    method Resume(g: GuildId) returns (reply: Playback.Reply)
      modifies this
      ensures players == old(players)
      ensures (View(g), reply) == Playback.Resume(old(View(g)))
      ensures forall h :: h != g ==> View(h) == old(View(h))
    {
      var voice := SinkOf(g);
      if !voice.Paused? {
        return Playback.NothingPaused;
      }
      sinks := sinks[g := Playback.Playing(voice.song)];
      reply := Playback.ResumedReply;
    }

    method Stop(g: GuildId, msg: MessageId) returns (reply: Playback.Reply)
      requires Valid()
      modifies this, players.Values
      ensures Valid() && old(players.Keys) <= players.Keys <= old(players.Keys) + {g}
      ensures forall h :: h in old(players) ==> players[h] == old(players[h])
      ensures (View(g), reply) == Playback.Stop(old(View(g)), msg)
      ensures forall h :: h != g ==> View(h) == old(View(h))
    {
      if SinkOf(g).NoClient? {
        return Playback.NotInVoice;
      }
      var p := GetPlayer(g);
      p.Clear();
      StopVoice(g, msg);
      reply := Playback.StoppedReply;
    }

    method Skip(g: GuildId, msg: MessageId) returns (reply: Playback.Reply)
      requires Valid()
      modifies this, players.Values
      ensures Valid() && old(players.Keys) <= players.Keys <= old(players.Keys) + {g}
      ensures forall h :: h in old(players) ==> players[h] == old(players[h])
      ensures (View(g), reply) == Playback.Skip(old(View(g)), msg)
      ensures forall h :: h != g ==> View(h) == old(View(h))
    {
      if !SinkOf(g).Playing? {
        return Playback.NothingPlaying;
      }
      StopVoice(g, msg);
      reply := Playback.SkippedReply;
    }

    method ShowQueue(g: GuildId) returns (reply: Playback.Reply)
      requires Valid()
      modifies this
      ensures Valid() && old(players.Keys) + {g} == players.Keys
      ensures reply == Playback.ShowQueueCommand(View(g))
      ensures forall h :: View(h) == old(View(h))
    {
      var p := GetPlayer(g);
      reply := Playback.QueueShown(Render.ShowQueue(p.current, p.queue, true));
    }

    method NowPlaying(g: GuildId, msg: MessageId) returns (reply: Playback.Reply)
      requires Valid()
      modifies this, players.Values
      ensures Valid() && old(players.Keys) + {g} == players.Keys
      ensures forall h :: h in old(players) ==> players[h] == old(players[h])
      ensures (View(g), reply) == Playback.NowPlaying(old(View(g)), msg)
      ensures forall h :: h != g ==> View(h) == old(View(h))
    {
      var p := GetPlayer(g);
      if p.current.None? {
        return Playback.NothingPlaying;
      }
      var card := SendNowPlaying(g, p.current.value, msg);
      reply := Playback.NowPlayingShown(card);
    }

    method ToggleLoop(g: GuildId) returns (reply: Playback.Reply)
      requires Valid()
      modifies this, players.Values
      ensures Valid() && old(players.Keys) + {g} == players.Keys
      ensures forall h :: h in old(players) ==> players[h] == old(players[h])
      ensures (View(g), reply) == Playback.ToggleLoop(old(View(g)))
      ensures forall h :: h != g ==> View(h) == old(View(h))
    {
      var p := GetPlayer(g);
      p.loop := !p.loop;
      reply := Playback.LoopSet(p.loop);
    }

    /** `on_reaction_add`: reactions by bots and outside guilds are dropped before
        anything is looked at; the rest go through `Playback.Reaction`. */
    method OnReactionAdd(isBot: bool, guild: Option<GuildId>, messageId: MessageId, emoji: string, msg: MessageId)
      returns (reply: Playback.Reply)
      requires Valid()
      modifies this, players.Values
      ensures Valid()
      ensures isBot || guild.None? ==>
        reply == Playback.Silent && players == old(players) && sinks == old(sinks) &&
        forall p :: p in players.Values ==> p.State() == old(p.State())
      ensures !isBot && guild.Some? ==>
        var g := guild.value;
        && old(players.Keys) + {g} == players.Keys
        && (forall h :: h in old(players) ==> players[h] == old(players[h]))
        && (View(g), reply) == Playback.Reaction(old(View(g)), messageId, emoji, msg)
        && (forall h :: h != g ==> View(h) == old(View(h)))
    {
      if isBot || guild.None? {
        return Playback.Silent;
      }
      var g := guild.value;
      var p := GetPlayer(g);
      if p.nowPlayingMessage.None? || p.nowPlayingMessage.value != messageId {
        return Playback.Silent;
      }
      var voice := SinkOf(g);
      match Classify(emoji)
      case PauseControl =>
        reply := Playback.Silent;
        if voice.Playing? {
          reply := Pause(g);
        }
      case ResumeControl =>
        reply := Playback.Silent;
        if voice.Paused? {
          reply := Resume(g);
        }
      case SkipControl =>
        reply := Playback.Silent;
        if voice.Playing? {
          reply := Skip(g, msg);
        }
      case StopControl =>
        reply := Playback.Silent;
        if !voice.NoClient? {
          reply := Stop(g, msg);
        }
      case QueueControl =>
        reply := Playback.QueueShown(Render.ShowQueue(p.current, p.queue, false));
      case OtherEmoji =>
        reply := Playback.Silent;
    }
  }
}
