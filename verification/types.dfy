/** Values shared by every part of the model: identifiers, the queued song entry
    and the raw search hit it is built from. */
module Types {

  /** `interaction.guild_id`; the bot keys its queues by `str(guild_id)`, an
      injective renaming, so the model keys them by the id itself. */
  type GuildId = nat

  /** A voice channel, compared by identity as `voice_channel != voice_client.channel` does. */
  type ChannelId = nat

  datatype Option<T> = None | Some(value: T)

  /** One queued song: the stream URL yt-dlp resolved and the title shown in replies. */
  datatype Entry = Entry(audioUrl: string, title: string)

  /** One search result as yt-dlp reports it; the title may be missing. */
  datatype SearchHit = SearchHit(url: string, title: Option<string>)

  /** The title used when a search hit carries none. */
  const UntitledTitle: string := "Untitled"

  /** The queue entry `(audio_url, title)` built from the first search hit. */
  function EntryOf(hit: SearchHit): (e: Entry)
    ensures e.audioUrl == hit.url
    ensures hit.title.Some? ==> e.title == hit.title.value
    ensures hit.title.None? ==> e.title == UntitledTitle
  {
    match hit.title
    case Some(t) => Entry(hit.url, t)
    case None => Entry(hit.url, UntitledTitle)
  }
}
