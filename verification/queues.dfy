/** `SONG_QUEUES`: one FIFO of entries per guild, created lazily by the first
    `/play` that finds a song and never removed afterwards. */
module Queues {
  import opened Types

  type SongQueues = map<GuildId, seq<Entry>>

  /** The guild's queue, reading a guild that has none yet as empty. */
  function QueueOf(qs: SongQueues, g: GuildId): seq<Entry>
  {
    if g in qs then qs[g] else []
  }

  /** Create the guild's queue if absent, then append one entry at the back. */
  function Append(qs: SongQueues, g: GuildId, e: Entry): (r: SongQueues)
    ensures r.Keys == qs.Keys + {g}
    ensures |r[g]| == |QueueOf(qs, g)| + 1 && r[g][|r[g]| - 1] == e
    ensures r[g][..|r[g]| - 1] == QueueOf(qs, g)
    ensures r - {g} == qs - {g}
  {
    var q := if g in qs then qs[g] else [];
    assert (q + [e])[..|q|] == q;
    qs[g := q + [e]]
  }

  /** `SONG_QUEUES[g].clear()` when the guild has a queue; no queue is created. */
  function Clear(qs: SongQueues, g: GuildId): (r: SongQueues)
    ensures r.Keys == qs.Keys
    ensures g in qs ==> r[g] == []
    ensures r - {g} == qs - {g}
  {
    if g in qs then qs[g := []] else qs
  }

  /** Appending a run of entries one at a time. */
  function AppendAll(qs: SongQueues, g: GuildId, es: seq<Entry>): SongQueues
    decreases |es|
  {
    if |es| == 0 then qs else AppendAll(Append(qs, g, es[0]), g, es[1..])
  }

  /** FIFO: entries appended one by one sit behind the existing ones in arrival
      order, and no other guild's queue moves. */
  lemma {:induction false} AppendAllKeepsOrder(qs: SongQueues, g: GuildId, es: seq<Entry>)
    ensures QueueOf(AppendAll(qs, g, es), g) == QueueOf(qs, g) + es
    ensures AppendAll(qs, g, es) - {g} == qs - {g}
    decreases |es|
  {
    if |es| > 0 {
      var next := Append(qs, g, es[0]);
      assert QueueOf(next, g) == QueueOf(qs, g) + [es[0]];
      AppendAllKeepsOrder(next, g, es[1..]);
      assert es == [es[0]] + es[1..];
    }
  }
}
