/** `play_next_song`: pop the front of a guild's queue and start it, retrying
    on the already-shortened queue whenever the audio source cannot be built,
    and disconnecting once the queue is empty. */
module Playback {
  import opened Types
  import opened Voice

  /** How one advance ends: a track started, a track was popped but the client
      refused to play it (the exception ends the chain), or the queue ran dry. */
  datatype Outcome = Started(track: Entry) | Refused(track: Entry) | Exhausted

  /** The queue and client left behind, and the entries whose audio source
      failed along the way (each reported on the text channel), in pop order. */
  datatype Advance = Advance(
    queue: seq<Entry>,
    client: Option<VoiceClient>,
    failed: seq<Entry>,
    outcome: Outcome)

  /** The client accepts `play`. A released client (`None`) never does. */
  predicate Ready(c: Option<VoiceClient>)
  {
    c.Some? && CanStart(c.value)
  }

  /** No entry of `q` yields an audio source. */
  ghost predicate NoneOpens(q: seq<Entry>, opens: Entry -> bool)
  {
    forall i :: 0 <= i < |q| ==> !opens(q[i])
  }

  /** `i` is the first position of `q` whose audio source can be built. */
  ghost predicate FirstOpens(q: seq<Entry>, opens: Entry -> bool, i: int)
  {
    && 0 <= i < |q|
    && opens(q[i])
    && NoneOpens(q[..i], opens)
  }

  /** The number of audio sources the chain tries to build. */
  function Attempts(a: Advance): nat
  {
    |a.failed| + (if a.outcome.Exhausted? then 0 else 1)
  }

  /** One queue advance from `q` with client `c`; `opens(e)` says whether
      `FFmpegOpusAudio` can be built for `e`. */
  function PlayNext(q: seq<Entry>, c: Option<VoiceClient>, opens: Entry -> bool): (r: Advance)
    ensures Attempts(r) <= |q|
    ensures NoneOpens(r.failed, opens)
    ensures r.outcome.Exhausted? ==> r.failed == q && r.queue == [] && r.client.None?
    ensures !r.outcome.Exhausted? ==> q == r.failed + [r.outcome.track] + r.queue
    ensures !r.outcome.Exhausted? ==> opens(r.outcome.track)
    ensures r.outcome.Started? <==> !r.outcome.Exhausted? && Ready(c)
    ensures r.outcome.Started? ==> r.client == Some(StartPlayer(c.value, r.outcome.track))
    ensures r.outcome.Refused? ==> r.client == c
    decreases |q|
  {
    if |q| == 0 then
      Advance([], None, [], Exhausted)
    else if !opens(q[0]) then
      var r := PlayNext(q[1..], c, opens);
      assert q == [q[0]] + q[1..];
      r.(failed := [q[0]] + r.failed)
    else if Ready(c) then
      Advance(q[1..], Some(StartPlayer(c.value, q[0])), [], Started(q[0]))
    else
      Advance(q[1..], c, [], Refused(q[0]))
  }

  /** The chain runs dry exactly when no entry of the queue can be opened. */
  lemma PlayNextExhaustsIffNoneOpens(q: seq<Entry>, c: Option<VoiceClient>, opens: Entry -> bool)
    ensures PlayNext(q, c, opens).outcome.Exhausted? <==> NoneOpens(q, opens)
  {
    var r := PlayNext(q, c, opens);
    if !r.outcome.Exhausted? {
      assert q[|r.failed|] == r.outcome.track;
    }
  }

  /** Reference behaviour: the advance skips precisely the entries before the
      first one that opens, takes that one, and leaves the rest in order. */
  lemma PlayNextTakesFirstOpenable(q: seq<Entry>, c: Option<VoiceClient>, opens: Entry -> bool, i: int)
    requires FirstOpens(q, opens, i)
    ensures PlayNext(q, c, opens).failed == q[..i]
    ensures PlayNext(q, c, opens).outcome.track == q[i]
    ensures PlayNext(q, c, opens).queue == q[i + 1..]
  {
    var r := PlayNext(q, c, opens);
    PlayNextExhaustsIffNoneOpens(q, c, opens);
    assert !r.outcome.Exhausted?;
    var k := |r.failed|;
    assert q[k] == r.outcome.track;
    assert k == i;
    assert q[..i] == r.failed;
    assert q[i + 1..] == r.queue;
  }
}
