/** The bot's slash commands and the track-finished callback, each one atomic
    step from a state to a new state plus the messages it sends. */
module Commands {
  import opened Types
  import opened Voice
  import opened Queues
  import opened Playback

  /** `SONG_QUEUES` together with each guild's `guild.voice_client`; a guild
      absent from `voice` has no voice client. */
  datatype State = State(queues: SongQueues, voice: map<GuildId, VoiceClient>)

  /** The messages the handlers send, as tags. */
  datatype Reply =
    | Skipped                 // "Skipped the current song."
    | NothingToSkip           // "Not playing anything to skip."
    | NotInVoice              // "I'm not in a voice channel."
    | NothingPlaying          // "Nothing is currently playing."
    | PlaybackPaused          // "Playback paused!"
    | NotPaused               // "I'm not paused right now."
    | PlaybackResumed         // "Playback resumed!"
    | NotConnected            // "I'm not connected to any voice channel."
    | StoppedAndDisconnected  // "Stopped playback and disconnected!"
    | MustJoinVoice           // "You must be in a voice channel."
    | NoResults               // "No results found."
    | AddedToQueue(title: string)
    | NowPlaying(title: string)
    | AudioError(title: string)     // the audio source for a track could not be built
    | PlaybackError(title: string)  // a track ended with an error

  datatype Step = Step(state: State, replies: seq<Reply>)

  function ClientOf(s: State, g: GuildId): Option<VoiceClient>
  {
    if g in s.voice then Some(s.voice[g]) else None
  }

  /** Install or release the guild's client. */
  function SetClient(voice: map<GuildId, VoiceClient>, g: GuildId, c: Option<VoiceClient>): map<GuildId, VoiceClient>
  {
    if c.Some? then voice[g := c.value] else voice - {g}
  }

  /** The guild has a voice client that reports `is_playing()` or `is_paused()`. */
  predicate Active(s: State, g: GuildId)
  {
    g in s.voice && (s.voice[g].playing || s.voice[g].paused)
  }

  /** The guild has a voice client that reports `is_connected()`. */
  predicate Connected(s: State, g: GuildId)
  {
    g in s.voice && s.voice[g].connected
  }

  /** Every voice client is well formed. */
  predicate Inv(s: State)
  {
    forall g :: g in s.voice ==> WellFormed(s.voice[g])
  }

  /** No guild other than `g` sees any change. */
  predicate OnlyGuildChanged(s: State, t: State, g: GuildId)
  {
    t.queues - {g} == s.queues - {g} && t.voice - {g} == s.voice - {g}
  }

  /** One failure notice per entry whose source could not be built, then the
      "Now playing" notice of the track that started, if any. */
  function Notices(a: Advance): (rs: seq<Reply>)
    ensures |rs| == |a.failed| + (if a.outcome.Started? then 1 else 0)
    ensures forall i :: 0 <= i < |a.failed| ==> rs[i] == AudioError(a.failed[i].title)
    ensures a.outcome.Started? ==> rs[|a.failed|] == NowPlaying(a.outcome.track.title)
  {
    var errors := seq(|a.failed|, i requires 0 <= i < |a.failed| => AudioError(a.failed[i].title));
    if a.outcome.Started? then errors + [NowPlaying(a.outcome.track.title)] else errors
  }

  /** `play_next_song(voice_client, guild_id, channel)` on the guild as it
      stands. Indexing `SONG_QUEUES[guild_id]` raises `KeyError` for a guild
      that never had a queue, which leaves everything as it was. */
  function AdvanceGuild(s: State, g: GuildId, opens: Entry -> bool): (r: Step)
    ensures g !in s.queues ==> r == Step(s, [])
    ensures g in s.queues ==>
      var a := PlayNext(s.queues[g], ClientOf(s, g), opens);
      && r.state.queues == s.queues[g := a.queue]
      && ClientOf(r.state, g) == a.client
      && r.replies == Notices(a)
    ensures OnlyGuildChanged(s, r.state, g)
  {
    if g !in s.queues then Step(s, [])
    else
      var a := PlayNext(s.queues[g], ClientOf(s, g), opens);
      Step(State(s.queues[g := a.queue], SetClient(s.voice, g, a.client)), Notices(a))
  }

  /** `/skip`: stop the player when it is playing or paused; its callback then advances the queue. */
  function Skip(s: State, g: GuildId): (r: Step)
    ensures r.replies == [Skipped] <==> Active(s, g)
    ensures !Active(s, g) ==> r == Step(s, [NothingToSkip])
    ensures Active(s, g) ==>
      && g in r.state.voice
      && !r.state.voice[g].playing && !r.state.voice[g].paused
      && r.state.voice[g].connected == s.voice[g].connected
      && r.state.voice[g].channel == s.voice[g].channel
      && r.state.voice[g].current == s.voice[g].current
    ensures r.state.queues == s.queues
    ensures OnlyGuildChanged(s, r.state, g)
  {
    if Active(s, g) then
      Step(s.(voice := s.voice[g := StopPlayer(s.voice[g])]), [Skipped])
    else
      Step(s, [NothingToSkip])
  }

  /** `/pause`: needs a voice client that is playing. */
  function Pause(s: State, g: GuildId): (r: Step)
    ensures g !in s.voice ==> r == Step(s, [NotInVoice])
    ensures g in s.voice && !s.voice[g].playing ==> r == Step(s, [NothingPlaying])
    ensures r.replies == [PlaybackPaused] <==> g in s.voice && s.voice[g].playing
    ensures r.replies == [PlaybackPaused] ==>
      && g in r.state.voice
      && r.state.voice[g].paused && !r.state.voice[g].playing
      && r.state.voice[g].connected == s.voice[g].connected
      && r.state.voice[g].channel == s.voice[g].channel
      && r.state.voice[g].current == s.voice[g].current
    ensures r.state.queues == s.queues
    ensures OnlyGuildChanged(s, r.state, g)
  {
    if g !in s.voice then Step(s, [NotInVoice])
    else if !s.voice[g].playing then Step(s, [NothingPlaying])
    else Step(s.(voice := s.voice[g := PausePlayer(s.voice[g])]), [PlaybackPaused])
  }

  /** `/resume`: needs a voice client that is paused. */
  function Resume(s: State, g: GuildId): (r: Step)
    ensures g !in s.voice ==> r == Step(s, [NotInVoice])
    ensures g in s.voice && !s.voice[g].paused ==> r == Step(s, [NotPaused])
    ensures r.replies == [PlaybackResumed] <==> g in s.voice && s.voice[g].paused
    ensures r.replies == [PlaybackResumed] ==>
      && g in r.state.voice
      && r.state.voice[g].playing && !r.state.voice[g].paused
      && r.state.voice[g].connected == s.voice[g].connected
      && r.state.voice[g].channel == s.voice[g].channel
      && r.state.voice[g].current == s.voice[g].current
    ensures r.state.queues == s.queues
    ensures OnlyGuildChanged(s, r.state, g)
  {
    if g !in s.voice then Step(s, [NotInVoice])
    else if !s.voice[g].paused then Step(s, [NotPaused])
    else Step(s.(voice := s.voice[g := ResumePlayer(s.voice[g])]), [PlaybackResumed])
  }

  /** `/stop`: needs a connected client; empties the guild's queue if it has
      one, halts the player and disconnects. `stop()` halts the player and
      `disconnect()` then releases the client, so only the release remains
      visible. */
  function Stop(s: State, g: GuildId): (r: Step)
    ensures !Connected(s, g) ==> r == Step(s, [NotConnected])
    ensures Connected(s, g) ==>
      && r.replies == [StoppedAndDisconnected]
      && g !in r.state.voice
      && r.state.queues.Keys == s.queues.Keys
      && (g in s.queues ==> r.state.queues[g] == [])
    ensures OnlyGuildChanged(s, r.state, g)
  {
    if !Connected(s, g) then Step(s, [NotConnected])
    else Step(State(Clear(s.queues, g), s.voice - {g}), [StoppedAndDisconnected])
  }

  /** Lines 118-123 of `/play`: connect when the guild has no client, move the
      client when it sits in another channel than the requester's. */
  function Join(s: State, g: GuildId, ch: ChannelId): (t: State)
    ensures g in t.voice && t.voice[g].channel == ch
    ensures g !in s.voice ==> t.voice[g] == Connect(ch)
    ensures g in s.voice ==> t.voice[g].(channel := s.voice[g].channel) == s.voice[g]
    ensures t.queues == s.queues
    ensures OnlyGuildChanged(s, t, g)
  {
    if g !in s.voice then s.(voice := s.voice[g := Connect(ch)])
    else if ch != s.voice[g].channel then s.(voice := s.voice[g := MoveTo(s.voice[g], ch)])
    else s
  }

  /** `/play`: `requester` is the caller's voice channel, `hits` what the
      search returned. The first hit is queued; playback starts only when the
      client is neither playing nor paused. */
  function Play(s: State, g: GuildId, requester: Option<ChannelId>, hits: seq<SearchHit>,
                opens: Entry -> bool): (r: Step)
    ensures requester.None? ==> r == Step(s, [MustJoinVoice])
    ensures requester.Some? && |hits| == 0 ==>
      r == Step(Join(s, g, requester.value), [NoResults])
    ensures requester.Some? && |hits| > 0 && Active(s, g) ==>
      && r.replies == [AddedToQueue(EntryOf(hits[0]).title)]
      && r.state.queues == Append(s.queues, g, EntryOf(hits[0]))
      && r.state.voice == Join(s, g, requester.value).voice
    ensures requester.Some? && |hits| > 0 && !Active(s, g) ==>
      var joined := Join(s, g, requester.value);
      var a := PlayNext(QueueOf(s.queues, g) + [EntryOf(hits[0])], Some(joined.voice[g]), opens);
      && r.replies == [NowPlaying(EntryOf(hits[0]).title)] + Notices(a)
      && g in r.state.queues && r.state.queues[g] == a.queue
      && ClientOf(r.state, g) == a.client
    ensures OnlyGuildChanged(s, r.state, g)
  {
    if requester.None? then Step(s, [MustJoinVoice])
    else
      var joined := Join(s, g, requester.value);
      if |hits| == 0 then Step(joined, [NoResults])
      else
        var e := EntryOf(hits[0]);
        var queued := joined.(queues := Append(joined.queues, g, e));
        if Active(queued, g) then Step(queued, [AddedToQueue(e.title)])
        else
          var r := AdvanceGuild(queued, g, opens);
          Step(r.state, [NowPlaying(e.title)] + r.replies)
  }

  /** `/play` as written. `voice` is `interaction.user.voice`, which is `None`
      for a member in no voice channel; line 112 then reads `.channel` of
      `None`, and the `AttributeError` ends the handler after `defer()`
      without any reply. A voice state without a channel behaves like `Play`. */
  function PlayAsWritten(s: State, g: GuildId, voice: Option<Option<ChannelId>>, hits: seq<SearchHit>,
                         opens: Entry -> bool): (r: Step)
    ensures voice.None? ==> r.state == s && r.replies == []
    ensures voice.Some? ==> r == Play(s, g, voice.value, hits, opens)
  {
    if voice.None? then Step(s, [])
    else Play(s, g, voice.value, hits, opens)
  }

  /** `after_play(error)`: the guild's current track has ended (on its own, with
      an error, or by an earlier `stop()`). Its callback reports the error, if
      any, and advances the queue either way. With no callback owed, nothing
      happens. */
  function TrackFinished(s: State, g: GuildId, error: bool, opens: Entry -> bool): (r: Step)
    ensures g !in s.voice || s.voice[g].current.None? ==> r == Step(s, [])
    ensures g in s.voice && s.voice[g].current.Some? && g !in s.queues ==>
      && r.state == s.(voice := s.voice[g := FinishTrack(s.voice[g])])
      && r.replies == (if error then [PlaybackError(s.voice[g].current.value.title)] else [])
    ensures g in s.voice && s.voice[g].current.Some? && g in s.queues ==>
      var a := PlayNext(s.queues[g], Some(FinishTrack(s.voice[g])), opens);
      && g in r.state.queues && r.state.queues[g] == a.queue
      && ClientOf(r.state, g) == a.client
      && r.replies == (if error then [PlaybackError(s.voice[g].current.value.title)] else []) + Notices(a)
    ensures OnlyGuildChanged(s, r.state, g)
  {
    if g !in s.voice || s.voice[g].current.None? then Step(s, [])
    else
      var t := s.voice[g].current.value;
      var finished := s.(voice := s.voice[g := FinishTrack(s.voice[g])]);
      var r := AdvanceGuild(finished, g, opens);
      Step(r.state, (if error then [PlaybackError(t.title)] else []) + r.replies)
  }

  /** Everything that can happen to the bot. */
  datatype Event =
    | PlayCommand(guild: GuildId, requester: Option<ChannelId>, hits: seq<SearchHit>)
    | SkipCommand(guild: GuildId)
    | PauseCommand(guild: GuildId)
    | ResumeCommand(guild: GuildId)
    | StopCommand(guild: GuildId)
    | TrackEnded(guild: GuildId, error: bool)

  function Next(s: State, ev: Event, opens: Entry -> bool): (r: Step)
    ensures OnlyGuildChanged(s, r.state, ev.guild)
  {
    match ev
    case PlayCommand(g, requester, hits) => Play(s, g, requester, hits, opens)
    case SkipCommand(g) => Skip(s, g)
    case PauseCommand(g) => Pause(s, g)
    case ResumeCommand(g) => Resume(s, g)
    case StopCommand(g) => Stop(s, g)
    case TrackEnded(g, error) => TrackFinished(s, g, error, opens)
  }
}
