# bot-ra playback queue — a Dafny model

bot-ra is a Discord music bot. Each guild (chat server) has a FIFO of songs
(`SONG_QUEUES`, keyed by guild id) and at most one voice client. Five slash
commands act on them: `/play`, `/skip`, `/pause`, `/resume` and `/stop`.
`play_next_song` advances the queue. Each track's `after_play` callback calls it
again once the track ends. This project models that logic as pure functions over
an immutable state, and proves what each step does and how steps combine.

Files:

- `types.dfy` (`Types`): guild and channel ids, `Option`, the queue entry
  `(audio_url, title)`, and the search hit it is built from.
- `voice.dfy` (`Voice`): the voice-client status the handlers read
  (`is_connected()`, `channel`, `is_playing()`, `is_paused()`) and the track whose
  callback is still owed. It also gives the direct effect of `connect`,
  `move_to`, `stop`, `pause`, `resume` and `play`.
- `queues.dfy` (`Queues`): `SONG_QUEUES`, with lazy creation, append and clear.
- `playback.dfy` (`Playback`): `play_next_song` as a recursive advance that
  decreases with the queue length.
- `commands.dfy` (`Commands`): the state, the reply tags, one function per command
  plus the track-finished callback, and `Next`, which dispatches an event.
- `properties.dfy` (`Properties`): lemmas that relate several steps.
- `isolation.dfy` (`Isolation`): guilds are independent, and steps on different
  guilds commute.

Modelling choices:

- A guild's voice client is a map entry. `disconnect()` removes the entry,
  because discord.py's `guild.voice_client` reads `None` afterwards. A client can
  still exist with `connected` false.
- `voice_client.play` raises unless the client is connected and not already
  playing. When that happens, the entry that was just popped is lost and the
  chain stops. The model's `Refused` outcome covers this.
- The model keeps each client's `current` track: the one whose `after` callback
  has not run yet. `stop()` clears `playing` and `paused` but leaves `current`
  set, because the callback is still owed. The track-finished event runs only
  while a callback is owed. It first makes the player idle, then reports an
  error if there was one, then advances the queue.
- Whether `FFmpegOpusAudio` can be built for an entry is an oracle parameter,
  `opens: Entry -> bool`. The search result is an input: a possibly empty list
  of hits, each with a URL and an optional title.
- Each handler and each callback is one atomic step. The retry that
  `run_coroutine_threadsafe` schedules after a source failure happens inside the
  same step.
- `Play` takes the requester's channel as an optional value. A caller in no
  voice channel is read as "no channel". This corrects the crash described
  under Findings.
- When the queue runs dry, the bot disconnects at once (bot.py:188-189); there
  is no waiting state between the last track and the disconnect.
- `/skip` also stops a paused track (bot.py:43).

## Model

| member | source | states |
|---|---|---|
| Types.EntryOf | bot.py:142-144 | The queued entry takes the first hit's URL and its title, or "Untitled" when the hit has no title |
| Queues.Append | bot.py:146-150 | A missing queue is created empty, then exactly one entry goes to the back; earlier entries keep their order and no other guild's queue changes |
| Queues.Clear | bot.py:93-95 | An existing queue becomes empty; no queue is created for a guild without one, and other guilds are untouched |
| Queues.AppendAllKeepsOrder | bot.py:146-150 | Entries appended one by one end up behind the existing ones in arrival order (FIFO) |
| Playback.PlayNext | bot.py:159-191 | The queue equals the failed entries, then the popped track, then what is left. Every failed entry fails to open and the popped track opens. At most the queue's length of sources are tried. A track starts only if the client accepts `play`. An empty queue (or one whose entries all fail) ends disconnected with nothing left |
| Playback.PlayNextExhaustsIffNoneOpens | bot.py:159-189 | The advance disconnects exactly when no entry of the queue can be opened |
| Playback.PlayNextTakesFirstOpenable | bot.py:160-178 | Against a reference definition: the advance skips exactly the entries before the first one that opens, takes that one, and leaves the rest in order |
| Voice.Connect | bot.py:121 | Assumed library effect of `voice_channel.connect()`: a connected client in the requested channel, neither playing nor paused, with nothing loaded |
| Voice.MoveTo | bot.py:123 | Assumed library effect of `move_to`: the client is in the new channel and nothing else about it changes |
| Voice.StopPlayer | bot.py:44 | Assumed library effect of `stop()` (also bot.py:99): neither playing nor paused afterwards, connection and channel kept, and the owed callback still owed |
| Voice.PausePlayer | bot.py:63 | Assumed library effect of `pause()` on a playing client: paused and not playing, with connection, channel and loaded track kept |
| Voice.ResumePlayer | bot.py:80 | Assumed library effect of `resume()` on a paused client: playing and not paused, with connection, channel and loaded track kept |
| Voice.StartPlayer | bot.py:186 | Assumed library effect of `play(source, after=after_play)` on a client that accepts it: playing the given track, whose callback is now owed, in the same connection and channel |
| Voice.FinishTrack | bot.py:180 | Assumed library state when `after_play` runs: the player is idle with no track loaded, in the same connection and channel |
| Commands.AdvanceGuild | bot.py:159-161 | For a guild with a queue, the guild's queue and client become what the advance leaves, with one notice per failed entry and then one for the started track. A guild with no queue (the `KeyError`) stays unchanged. Other guilds never change |
| Commands.Skip | bot.py:41-47 | Replies "skipped" iff a client exists and is playing or paused; then it is neither playing nor paused, and its connection, channel and owed callback stay the same. Otherwise nothing changes. The queue is never touched |
| Commands.Pause | bot.py:50-64 | With no client, or a client that is not playing, the state is unchanged and the reply says why. Otherwise it replies "paused" iff the client was playing, and the client is then paused and not playing, with nothing else changed |
| Commands.Resume | bot.py:67-81 | With no client, or a client that is not paused, the state is unchanged and the reply says why. Otherwise it replies "resumed" iff the client was paused, and the client is then playing, with nothing else changed |
| Commands.Stop | bot.py:84-104 | Without a connected client, nothing changes. Otherwise the guild's queue is empty if it existed (none is created), the client is released, and other guilds are untouched |
| Commands.PlayAsWritten | bot.py:109-116 | `/play` as written: a caller with no voice state gets no reply and nothing changes (the `AttributeError` at line 112); any other caller is handled exactly as the corrected `/play` |
| Commands.Join | bot.py:118-123 | After joining, the guild has a client in the requester's channel: a fresh idle client if there was none, otherwise the same client with only its channel changed |
| Commands.Play | bot.py:107-156 | Without a requester channel, nothing changes. With no results, the bot is still joined and the queue is unchanged. On a playing or paused client it only appends and replies "added to queue". Otherwise it replies "now playing" and advances the queue with the new entry at its back |
| Commands.TrackFinished | bot.py:180-186 | With no owed callback, nothing happens. Otherwise an error notice comes first if the track failed, and then the queue advances from an idle player, whether or not there was an error |
| Commands.Next | bot.py:41-191 | Dispatches every handler and the track callback; every event changes only its own guild's queue and client, since `SONG_QUEUES` and `voice_client` are per guild (bot.py:15) |
| Properties.NextPreservesInv | bot.py:41-191 | Every step keeps every voice client from being both playing and paused, and from playing or pausing with no track loaded |
| Properties.PlayWhileActiveOnlyQueues | bot.py:152-153 | A `/play` on a playing or paused client appends its entry and changes the client at most in its channel; no track starts |
| Properties.PlaysWhileActiveQueueInOrder | bot.py:146-153 | A run of `/play`s on a playing or paused guild queues every hit in arrival order behind the existing queue. The client changes at most in its channel, so no track starts |
| Properties.FirstPlayStartsAtOnce | bot.py:146-187 | The first `/play` on a guild with no client and an empty queue connects and starts the track, and leaves the queue empty. The track is announced twice: once as the reply and once on the channel |
| Properties.PlaysOnFreshGuild | bot.py:146-187 | After N `/play`s on a fresh guild, the first hit is playing and hits 2..N are queued in order |
| Properties.SkipThenFinishAdvancesOnce | bot.py:180-189 | A skip followed by the skipped track's callback either starts the front entry (if it opens) with the rest still queued, or disconnects on an empty queue |
| Properties.FinishErrorOnlyAddsNotice | bot.py:180-184 | The callback leaves the same state whether or not the track ended with an error; an error only adds one notice in front |
| Properties.FinishSkipsBrokenPrefix | bot.py:171-187 | One callback reports each entry that fails to open, in order, then starts the first one that opens and leaves the rest queued |
| Properties.PauseThenResumeRestores | bot.py:62-80 | Pausing a playing guild and then resuming it gives back exactly the original state |
| Properties.ResumeThenPauseRestores | bot.py:62-80 | Resuming a paused guild and then pausing it gives back exactly the original state |
| Properties.StopIsIdempotent | bot.py:89-102 | A second `/stop` replies "not connected" and changes nothing |
| Properties.StopSilencesCallback | bot.py:89-102 | After `/stop`, a late track-finished callback has no client to act on and changes nothing |
| Properties.PlayAsWrittenLeavesCallerUnanswered | bot.py:109-116 | As written, a caller in no voice channel gets no reply at all. The corrected `/play` tells them to join a channel |
| Properties.PlayAlwaysReplies | bot.py:109-156 | Every `/play` is answered. The first reply says "join a voice channel" iff there is no requester channel, and "no results" iff the search found nothing. Otherwise it is "added to queue" or "now playing" for the first hit |
| Properties.EndToEnd | bot.py:107-191 | Play A, then play B while A is playing, then A finishes, then B finishes. B is queued and then started. After B the bot disconnects, so a later `/stop` replies "not connected" |
| Isolation.OtherGuildsUntouched | bot.py:41-191 | A step leaves every other guild's queue and client as they were: handlers index `SONG_QUEUES` (bot.py:15) and `voice_client` by their own guild only |
| Isolation.NextIsLocal | bot.py:41-191 | What a step does to its guild, and what it replies, depends only on that guild's queue and client |
| Isolation.DifferentGuildsCommute | bot.py:41-191 | Two events on different guilds give the same final state in either order, and each one's replies do not depend on the other |

## Left out

- The yt-dlp search (bot.py:17-23, 125-136) is an external library call run on a
  thread executor. It is an input here: a possibly empty list of hits. Exceptions
  raised by the search are not modelled.
- Building `FFmpegOpusAudio` and the FFmpeg options (bot.py:163-172) belong to a
  foreign media pipeline. They are modelled as an oracle that says, per entry,
  whether the source can be built.
- Discord setup (bot.py:10-12, 26-38, 195) is left out: intents, `on_ready`,
  tree sync, token loading and `bot.run`.
- Sending messages is left out (bot.py:175, 183, 187 and the interaction
  replies). Replies are tags, and the exact message text is not modelled.
  `interaction.response.defer()` is left out too.
- Scheduling by `asyncio.create_task` and `run_coroutine_threadsafe` is left out.
  Each handler and each callback is one atomic step, and a retry after a source
  failure runs inside the same step.
- Races between steps are not modelled. One example is a stale `after` callback
  for a track that a later `play` has already replaced: the model delivers a
  callback only for the client's current track. Another is a handler that keeps
  using a `voice_client` it captured before the client was released.
- Commands.Stop: `/stop` releases the client, so the stopped track's callback,
  which is still owed, is dropped. In the source that callback advances an
  empty queue and disconnects an already-disconnected client, which has no
  visible effect.
- Failures of `connect()` and `move_to()` (bot.py:121-123) are left out. The
  source does not catch them, and their semantics are library code.
- A connection lost outside a command (the bot kicked from the channel, a
  network drop) is not an event. No step of the model clears `connected`, so
  the `Refused` outcome of `play_next_song` and the branch of `/stop` for a
  client that exists but is not connected (bot.py:89) are reached only from an
  initial state that already holds such a client.

## Findings

| source | as written | input that shows it | evidently intended | confidence | as-written member | corrected member |
|---|---|---|---|---|---|---|
| bot.py:112-116 | `interaction.user.voice.channel` is read before the `None` check. discord.py's `Member.voice` is `None` for a member in no voice channel, so the handler raises `AttributeError` after `defer()` and sends nothing | `/play` from a member who is not in any voice channel | Reply "You must be in a voice channel." and change nothing | medium, not executed | Commands.PlayAsWritten, Properties.PlayAsWrittenLeavesCallerUnanswered | Commands.Play, Properties.PlayAlwaysReplies |
