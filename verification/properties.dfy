/** Properties relating several steps of the bot. */
module Properties {
  import opened Types
  import opened Voice
  import opened Queues
  import opened Playback
  import opened Commands

  /** The entries the bot would queue for a run of search hits. */
  function EntriesOf(hs: seq<SearchHit>): (es: seq<Entry>)
    ensures |es| == |hs|
    ensures forall i :: 0 <= i < |hs| ==> es[i] == EntryOf(hs[i])
  {
    seq(|hs|, i requires 0 <= i < |hs| => EntryOf(hs[i]))
  }

  lemma EntriesOfSplits(hs: seq<SearchHit>)
    requires |hs| > 0
    ensures EntriesOf(hs) == [EntryOf(hs[0])] + EntriesOf(hs[1..])
  {
  }

  /** One `/play` per hit, all from the same requester channel. */
  function PlayEach(s: State, g: GuildId, ch: ChannelId, hs: seq<SearchHit>, opens: Entry -> bool): State
    decreases |hs|
  {
    if |hs| == 0 then s
    else PlayEach(Play(s, g, Some(ch), [hs[0]], opens).state, g, ch, hs[1..], opens)
  }

  /** Two clients agree on everything but possibly the channel. */
  predicate SamePlayer(v: VoiceClient, w: VoiceClient)
  {
    v.connected == w.connected && v.playing == w.playing && v.paused == w.paused && v.current == w.current
  }

  // ---------------------------------------------------------------------------
  // The well-formedness invariant

  lemma AdvanceGuildPreservesInv(s: State, g: GuildId, opens: Entry -> bool)
    requires Inv(s)
    ensures Inv(AdvanceGuild(s, g, opens).state)
  {
    var r := AdvanceGuild(s, g, opens);
    forall h | h in r.state.voice
      ensures WellFormed(r.state.voice[h])
    {
      if h == g && g in s.queues {
        var a := PlayNext(s.queues[g], ClientOf(s, g), opens);
        assert ClientOf(r.state, g) == a.client;
        if a.outcome.Refused? {
          assert a.client == ClientOf(s, g);
        }
      } else if h != g {
        assert h in r.state.voice - {g};
      }
    }
  }

  lemma JoinPreservesInv(s: State, g: GuildId, ch: ChannelId)
    requires Inv(s)
    ensures Inv(Join(s, g, ch))
  {
    var t := Join(s, g, ch);
    forall h | h in t.voice ensures WellFormed(t.voice[h]) {
      if h != g { assert h in t.voice - {g}; }
    }
  }

  lemma PlayPreservesInv(s: State, g: GuildId, requester: Option<ChannelId>, hits: seq<SearchHit>,
                         opens: Entry -> bool)
    requires Inv(s)
    ensures Inv(Play(s, g, requester, hits, opens).state)
  {
    if requester.Some? && |hits| > 0 {
      var joined := Join(s, g, requester.value);
      JoinPreservesInv(s, g, requester.value);
      var queued := joined.(queues := Append(joined.queues, g, EntryOf(hits[0])));
      if !Active(queued, g) {
        AdvanceGuildPreservesInv(queued, g, opens);
      }
    } else if requester.Some? {
      JoinPreservesInv(s, g, requester.value);
    }
  }

  lemma TrackFinishedPreservesInv(s: State, g: GuildId, error: bool, opens: Entry -> bool)
    requires Inv(s)
    ensures Inv(TrackFinished(s, g, error, opens).state)
  {
    if g in s.voice && s.voice[g].current.Some? {
      var finished := s.(voice := s.voice[g := FinishTrack(s.voice[g])]);
      AdvanceGuildPreservesInv(finished, g, opens);
    }
  }

  /** Every step keeps every voice client well formed. */
  lemma NextPreservesInv(s: State, ev: Event, opens: Entry -> bool)
    requires Inv(s)
    ensures Inv(Next(s, ev, opens).state)
  {
    match ev
    case PlayCommand(g, requester, hits) => PlayPreservesInv(s, g, requester, hits, opens);
    case SkipCommand(g) =>
    case PauseCommand(g) =>
    case ResumeCommand(g) =>
    case StopCommand(g) =>
    case TrackEnded(g, error) => TrackFinishedPreservesInv(s, g, error, opens);
  }

  // ---------------------------------------------------------------------------
  // /play

  /** One `/play` on a guild that is playing or paused only queues its hit. */
  lemma PlayWhileActiveOnlyQueues(s: State, g: GuildId, ch: ChannelId, hit: SearchHit, opens: Entry -> bool)
    requires Active(s, g)
    ensures var t := Play(s, g, Some(ch), [hit], opens).state;
      && g in t.voice
      && SamePlayer(t.voice[g], s.voice[g])
      && QueueOf(t.queues, g) == QueueOf(s.queues, g) + [EntryOf(hit)]
  {
    var t := Play(s, g, Some(ch), [hit], opens).state;
    var joined := Join(s, g, ch);
    assert t.voice == joined.voice;
    assert t.queues == Append(s.queues, g, EntryOf(hit));
    var q := t.queues[g];
    assert q == q[..|q| - 1] + [q[|q| - 1]];
  }

  /** What a run of `/play`s on a playing or paused guild leaves behind. */
  predicate QueuedBehind(s: State, t: State, g: GuildId, es: seq<Entry>)
  {
    && g in s.voice && g in t.voice
    && SamePlayer(t.voice[g], s.voice[g])
    && QueueOf(t.queues, g) == QueueOf(s.queues, g) + es
  }

  lemma QueuedBehindTrans(a: State, b: State, c: State, g: GuildId, e1: seq<Entry>, e2: seq<Entry>)
    requires QueuedBehind(a, b, g, e1) && QueuedBehind(b, c, g, e2)
    ensures QueuedBehind(a, c, g, e1 + e2)
  {
    assert QueueOf(a.queues, g) + e1 + e2 == QueueOf(a.queues, g) + (e1 + e2);
  }

  lemma PlayEachUnfolds(s: State, g: GuildId, ch: ChannelId, hs: seq<SearchHit>, opens: Entry -> bool)
    requires |hs| > 0
    ensures PlayEach(s, g, ch, hs, opens)
         == PlayEach(Play(s, g, Some(ch), [hs[0]], opens).state, g, ch, hs[1..], opens)
  {
  }

  /** The inductive step: the first `/play` queues the first hit, and the rest
      queue theirs behind it. */
  lemma PlaysStep(s: State, g: GuildId, ch: ChannelId, hs: seq<SearchHit>, opens: Entry -> bool)
    requires |hs| > 0 && Active(s, g)
    requires var t := Play(s, g, Some(ch), [hs[0]], opens).state;
      QueuedBehind(t, PlayEach(t, g, ch, hs[1..], opens), g, EntriesOf(hs[1..]))
    ensures QueuedBehind(s, PlayEach(s, g, ch, hs, opens), g, EntriesOf(hs))
  {
    var t := Play(s, g, Some(ch), [hs[0]], opens).state;
    var u := PlayEach(t, g, ch, hs[1..], opens);
    PlayWhileActiveOnlyQueues(s, g, ch, hs[0], opens);
    assert QueuedBehind(s, t, g, [EntryOf(hs[0])]);
    QueuedBehindTrans(s, t, u, g, [EntryOf(hs[0])], EntriesOf(hs[1..]));
    EntriesOfSplits(hs);
    PlayEachUnfolds(s, g, ch, hs, opens);
  }

  /** While the guild is playing or paused, each `/play` only queues: the hits
      land behind the existing entries in arrival order and no track starts. */
  lemma {:induction false} PlaysWhileActiveQueueInOrder(
    s: State, g: GuildId, ch: ChannelId, hs: seq<SearchHit>, opens: Entry -> bool)
    requires Active(s, g)
    ensures QueuedBehind(s, PlayEach(s, g, ch, hs, opens), g, EntriesOf(hs))
    decreases |hs|
  {
    if |hs| > 0 {
      var t := Play(s, g, Some(ch), [hs[0]], opens).state;
      PlayWhileActiveOnlyQueues(s, g, ch, hs[0], opens);
      PlaysWhileActiveQueueInOrder(t, g, ch, hs[1..], opens);
      PlaysStep(s, g, ch, hs, opens);
    } else {
      assert EntriesOf(hs) == [];
    }
  }

  /** The first `/play` on a guild with no client and nothing queued connects
      and starts its track at once, replying "Now playing" and then announcing
      the track on the channel; the queue is empty again afterwards. */
  lemma FirstPlayStartsAtOnce(s: State, g: GuildId, ch: ChannelId, hit: SearchHit, opens: Entry -> bool)
    requires g !in s.voice && QueueOf(s.queues, g) == []
    requires opens(EntryOf(hit))
    ensures var r := Play(s, g, Some(ch), [hit], opens);
      && g in r.state.voice
      && r.state.voice[g] == StartPlayer(Connect(ch), EntryOf(hit))
      && r.state.queues[g] == []
      && r.replies == [NowPlaying(EntryOf(hit).title), NowPlaying(EntryOf(hit).title)]
  {
    var e := EntryOf(hit);
    var a := PlayNext([e], Some(Connect(ch)), opens);
    assert [] + [e] == [e];
    assert a.failed == [] && a.outcome == Started(e);
  }

  /** The Nth `/play` on a fresh guild puts its track at position N - 1 of the
      queue; only the first starts playing. */
  lemma PlaysOnFreshGuild(s: State, g: GuildId, ch: ChannelId, hs: seq<SearchHit>, opens: Entry -> bool)
    requires g !in s.voice && QueueOf(s.queues, g) == []
    requires |hs| > 0 && opens(EntryOf(hs[0]))
    ensures var t := PlayEach(s, g, ch, hs, opens);
      && g in t.voice
      && t.voice[g].playing
      && t.voice[g].current == Some(EntryOf(hs[0]))
      && QueueOf(t.queues, g) == EntriesOf(hs[1..])
  {
    var first := Play(s, g, Some(ch), [hs[0]], opens).state;
    FirstPlayStartsAtOnce(s, g, ch, hs[0], opens);
    assert Active(first, g) && QueueOf(first.queues, g) == [];
    PlaysWhileActiveQueueInOrder(first, g, ch, hs[1..], opens);
    assert PlayEach(s, g, ch, hs, opens) == PlayEach(first, g, ch, hs[1..], opens);
  }

  // ---------------------------------------------------------------------------
  // /skip and the track-finished callback

  /** A skip followed by the skipped track's callback advances the queue once:
      the front entry starts when it opens, and an empty queue disconnects. */
  lemma SkipThenFinishAdvancesOnce(s: State, g: GuildId, opens: Entry -> bool)
    requires Inv(s) && Active(s, g) && g in s.queues
    ensures var r := TrackFinished(Skip(s, g).state, g, false, opens);
      && (s.queues[g] == [] ==> g !in r.state.voice && r.state.queues[g] == [])
      && (s.queues[g] != [] && opens(s.queues[g][0]) && s.voice[g].connected ==>
            && g in r.state.voice
            && r.state.voice[g].playing
            && r.state.voice[g].current == Some(s.queues[g][0])
            && r.state.queues[g] == s.queues[g][1..])
  {
    var k := Skip(s, g).state;
    assert k.voice[g].current.Some?;
    var q := s.queues[g];
    var a := PlayNext(q, Some(FinishTrack(k.voice[g])), opens);
    if q != [] && opens(q[0]) && s.voice[g].connected {
      assert a.failed == [] && a.outcome == Started(q[0]);
    }
  }

  /** The callback advances the queue whether or not the track ended with an
      error; the error only adds a notice in front. */
  lemma FinishErrorOnlyAddsNotice(s: State, g: GuildId, opens: Entry -> bool)
    requires g in s.voice && s.voice[g].current.Some?
    ensures TrackFinished(s, g, true, opens).state == TrackFinished(s, g, false, opens).state
    ensures TrackFinished(s, g, true, opens).replies
         == [PlaybackError(s.voice[g].current.value.title)] + TrackFinished(s, g, false, opens).replies
  {
  }

  /** A run of unopenable tracks is skipped in one callback: each is reported
      once, in order, and the first openable track after them starts. */
  lemma FinishSkipsBrokenPrefix(s: State, g: GuildId, opens: Entry -> bool, i: int)
    requires g in s.voice && s.voice[g].current.Some? && s.voice[g].connected
    requires g in s.queues && FirstOpens(s.queues[g], opens, i)
    ensures var r := TrackFinished(s, g, false, opens);
      && g in r.state.voice
      && r.state.voice[g].current == Some(s.queues[g][i])
      && r.state.queues[g] == s.queues[g][i + 1..]
      && |r.replies| == i + 1
      && (forall j :: 0 <= j < i ==> r.replies[j] == AudioError(s.queues[g][j].title))
      && r.replies[i] == NowPlaying(s.queues[g][i].title)
  {
    var q := s.queues[g];
    var c := Some(FinishTrack(s.voice[g]));
    PlayNextTakesFirstOpenable(q, c, opens, i);
    var a := PlayNext(q, c, opens);
    assert a.outcome.Started?;
    var r := TrackFinished(s, g, false, opens);
    assert r.replies == Notices(a);
    assert ClientOf(r.state, g) == a.client;
    forall j | 0 <= j < i
      ensures r.replies[j] == AudioError(q[j].title)
    {
      assert a.failed[j] == q[j];
    }
  }

  // ---------------------------------------------------------------------------
  // /pause, /resume, /stop

  /** Pausing a playing guild and resuming it restores the state exactly. */
  lemma PauseThenResumeRestores(s: State, g: GuildId)
    requires g in s.voice && s.voice[g].playing && !s.voice[g].paused
    ensures Pause(s, g).replies == [PlaybackPaused]
    ensures Resume(Pause(s, g).state, g) == Step(s, [PlaybackResumed])
  {
    assert s.voice[g := s.voice[g]] == s.voice;
  }

  /** Resuming a paused guild and pausing it again restores the state exactly. */
  lemma ResumeThenPauseRestores(s: State, g: GuildId)
    requires g in s.voice && s.voice[g].paused && !s.voice[g].playing
    ensures Resume(s, g).replies == [PlaybackResumed]
    ensures Pause(Resume(s, g).state, g) == Step(s, [PlaybackPaused])
  {
    assert s.voice[g := s.voice[g]] == s.voice;
  }

  /** A second `/stop` finds nothing connected and changes nothing. */
  lemma StopIsIdempotent(s: State, g: GuildId)
    ensures Stop(Stop(s, g).state, g) == Step(Stop(s, g).state, [NotConnected])
  {
  }

  /** After `/stop`, a late track-finished callback finds no client and does nothing. */
  lemma StopSilencesCallback(s: State, g: GuildId, error: bool, opens: Entry -> bool)
    requires Connected(s, g)
    ensures TrackFinished(Stop(s, g).state, g, error, opens) == Step(Stop(s, g).state, [])
  {
  }

  // ---------------------------------------------------------------------------
  // The caller outside any voice channel

  /** As written, a caller in no voice channel gets no reply at all, although
      the handler has a branch meant to tell them to join one. */
  lemma PlayAsWrittenLeavesCallerUnanswered(s: State, g: GuildId, hits: seq<SearchHit>, opens: Entry -> bool)
    ensures PlayAsWritten(s, g, None, hits, opens).replies == []
    ensures Play(s, g, None, hits, opens).replies == [MustJoinVoice]
  {
  }

  /** With the missing voice state read as "no channel", every `/play` is
      answered: first with the reason it stopped, or with what it queued or
      started. */
  lemma PlayAlwaysReplies(s: State, g: GuildId, requester: Option<ChannelId>, hits: seq<SearchHit>,
                          opens: Entry -> bool)
    ensures var r := Play(s, g, requester, hits, opens);
      && |r.replies| > 0
      && (r.replies[0] == MustJoinVoice <==> requester.None?)
      && (r.replies[0] == NoResults <==> requester.Some? && |hits| == 0)
      && (requester.Some? && |hits| > 0 ==>
            r.replies[0] in {AddedToQueue(EntryOf(hits[0]).title), NowPlaying(EntryOf(hits[0]).title)})
  {
  }

  // ---------------------------------------------------------------------------
  // An end-to-end scenario

  /** Guild 1, requester in channel 5, every source opens: play A, play B while
      A plays, A finishes, B finishes. Once the queue runs dry the bot
      disconnects, so a following `/stop` reports that it is not connected. */
  lemma EndToEnd()
    ensures
      var opens := (e: Entry) => true;
      var A := Entry("a-url", "A");
      var B := Entry("b-url", "B");
      var s0 := State(map[], map[]);
      var s1 := Play(s0, 1, Some(5), [SearchHit("a-url", Some("A"))], opens);
      var s2 := Play(s1.state, 1, Some(5), [SearchHit("b-url", Some("B"))], opens);
      var s3 := TrackFinished(s2.state, 1, false, opens);
      var s4 := TrackFinished(s3.state, 1, false, opens);
      var s5 := Stop(s4.state, 1);
      && s1.state.voice[1].current == Some(A) && s1.state.voice[1].playing && s1.state.queues[1] == []
      && s2.replies == [AddedToQueue("B")] && s2.state.queues[1] == [B]
      && s3.state.voice[1].current == Some(B) && s3.state.queues[1] == []
      && 1 !in s4.state.voice && s4.state.queues[1] == []
      && s5 == Step(s4.state, [NotConnected])
  {
    var opens := (e: Entry) => true;
    var A := Entry("a-url", "A");
    var B := Entry("b-url", "B");
    var s0 := State(map[], map[]);
    var s1 := Play(s0, 1, Some(5), [SearchHit("a-url", Some("A"))], opens);
    assert PlayNext([A], Some(Connect(5)), opens).outcome == Started(A);
    var s2 := Play(s1.state, 1, Some(5), [SearchHit("b-url", Some("B"))], opens);
    assert s2.state.queues[1] == [B];
    var s3 := TrackFinished(s2.state, 1, false, opens);
    assert PlayNext([B], Some(FinishTrack(s2.state.voice[1])), opens).outcome == Started(B);
    var s4 := TrackFinished(s3.state, 1, false, opens);
    assert PlayNext([], Some(FinishTrack(s3.state.voice[1])), opens).outcome == Exhausted;
  }
}
