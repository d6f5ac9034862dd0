/** The part of a guild's voice client that the command handlers observe
    (`is_connected()`, `channel`, `is_playing()`, `is_paused()`) and the direct
    effect of each call they make on it. */
module Voice {
  import opened Types

  /** `current` is the track last handed to `play` whose `after` callback has
      not run yet: it survives `stop()` and is cleared when the callback runs. */
  datatype VoiceClient = VoiceClient(
    connected: bool,
    channel: ChannelId,
    playing: bool,
    paused: bool,
    current: Option<Entry>)

  /** A player is never playing and paused at once, and is neither without a loaded track. */
  predicate WellFormed(v: VoiceClient)
  {
    && !(v.playing && v.paused)
    && ((v.playing || v.paused) ==> v.current.Some?)
  }

  /** `voice_channel.connect()`: a fresh client in the channel, with nothing loaded. */
  function Connect(ch: ChannelId): (v: VoiceClient)
    ensures WellFormed(v)
    ensures v.connected && v.channel == ch
    ensures !v.playing && !v.paused && v.current.None?
  {
    VoiceClient(true, ch, false, false, None)
  }

  /** `voice_client.move_to(ch)`: only the channel changes. */
  function MoveTo(v: VoiceClient, ch: ChannelId): (w: VoiceClient)
    ensures w.channel == ch
    ensures w.(channel := v.channel) == v
  {
    v.(channel := ch)
  }

  /** `voice_client.stop()`: the player halts; its callback is still owed. */
  function StopPlayer(v: VoiceClient): (w: VoiceClient)
    ensures !w.playing && !w.paused
    ensures WellFormed(w)
    ensures w.connected == v.connected && w.channel == v.channel && w.current == v.current
  {
    v.(playing := false, paused := false)
  }

  /** `voice_client.pause()`, called only on a playing client. */
  function PausePlayer(v: VoiceClient): (w: VoiceClient)
    requires v.playing
    ensures w.paused && !w.playing
    ensures WellFormed(v) ==> WellFormed(w)
    ensures w.connected == v.connected && w.channel == v.channel && w.current == v.current
  {
    v.(playing := false, paused := true)
  }

  /** `voice_client.resume()`, called only on a paused client. */
  function ResumePlayer(v: VoiceClient): (w: VoiceClient)
    requires v.paused
    ensures w.playing && !w.paused
    ensures WellFormed(v) ==> WellFormed(w)
    ensures w.connected == v.connected && w.channel == v.channel && w.current == v.current
  {
    v.(playing := true, paused := false)
  }

  /** `voice_client.play` raises `ClientException` when the client is not
      connected or already playing; otherwise it starts the source. */
  predicate CanStart(v: VoiceClient)
  {
    v.connected && !v.playing
  }

  /** `voice_client.play(source, after=after_play)` on a client that accepts it. */
  function StartPlayer(v: VoiceClient, e: Entry): (w: VoiceClient)
    requires CanStart(v)
    ensures WellFormed(w)
    ensures w.playing && w.current == Some(e)
    ensures w.connected == v.connected && w.channel == v.channel
  {
    v.(playing := true, paused := false, current := Some(e))
  }

  /** The player once a track has ended and its `after` callback has started. */
  function FinishTrack(v: VoiceClient): (w: VoiceClient)
    ensures WellFormed(w)
    ensures !w.playing && !w.paused && w.current.None?
    ensures w.connected == v.connected && w.channel == v.channel
  {
    v.(playing := false, paused := false, current := None)
  }
}
