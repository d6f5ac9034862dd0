/** Guilds are independent: what a step does to its guild depends only on that
    guild's queue and client, so steps on different guilds commute. */
module Isolation {
  import opened Types
  import opened Voice
  import opened Queues
  import opened Playback
  import opened Commands

  /** Everything the bot keeps about one guild. */
  datatype GuildView = GuildView(queue: Option<seq<Entry>>, client: Option<VoiceClient>)

  function ViewOf(s: State, g: GuildId): GuildView
  {
    GuildView(if g in s.queues then Some(s.queues[g]) else None, ClientOf(s, g))
  }

  predicate SameGuild(s: State, t: State, g: GuildId)
  {
    ViewOf(s, g) == ViewOf(t, g)
  }

  /** Two states that agree on every guild are the same state. */
  lemma StatesEqualByGuild(a: State, b: State)
    requires forall k :: SameGuild(a, b, k)
    ensures a == b
  {
    forall k | k in a.queues ensures k in b.queues && a.queues[k] == b.queues[k] {
      assert SameGuild(a, b, k);
    }
    forall k | k in b.queues ensures k in a.queues {
      assert SameGuild(a, b, k);
    }
    forall k | k in a.voice ensures k in b.voice && a.voice[k] == b.voice[k] {
      assert SameGuild(a, b, k);
    }
    forall k | k in b.voice ensures k in a.voice {
      assert SameGuild(a, b, k);
    }
  }

  /** A step leaves every other guild as it was. */
  lemma OtherGuildsUntouched(s: State, ev: Event, opens: Entry -> bool, h: GuildId)
    requires h != ev.guild
    ensures SameGuild(s, Next(s, ev, opens).state, h)
  {
    var t := Next(s, ev, opens).state;
    var g := ev.guild;
    assert t.queues - {g} == s.queues - {g};
    assert t.voice - {g} == s.voice - {g};
    assert h in t.queues <==> h in t.queues - {g};
    assert h in s.queues <==> h in s.queues - {g};
    assert h in t.voice <==> h in t.voice - {g};
    assert h in s.voice <==> h in s.voice - {g};
    if h in s.queues {
      assert (t.queues - {g})[h] == t.queues[h];
    }
    if h in s.voice {
      assert (t.voice - {g})[h] == t.voice[h];
    }
  }

  lemma AdvanceGuildIsLocal(s: State, t: State, g: GuildId, opens: Entry -> bool)
    requires SameGuild(s, t, g)
    ensures SameGuild(AdvanceGuild(s, g, opens).state, AdvanceGuild(t, g, opens).state, g)
    ensures AdvanceGuild(s, g, opens).replies == AdvanceGuild(t, g, opens).replies
  {
  }

  lemma PlayIsLocal(s: State, t: State, g: GuildId, requester: Option<ChannelId>, hits: seq<SearchHit>,
                    opens: Entry -> bool)
    requires SameGuild(s, t, g)
    ensures SameGuild(Play(s, g, requester, hits, opens).state, Play(t, g, requester, hits, opens).state, g)
    ensures Play(s, g, requester, hits, opens).replies == Play(t, g, requester, hits, opens).replies
  {
    if requester.Some? && |hits| > 0 {
      var e := EntryOf(hits[0]);
      var js := Join(s, g, requester.value);
      var jt := Join(t, g, requester.value);
      var qs := js.(queues := Append(js.queues, g, e));
      var qt := jt.(queues := Append(jt.queues, g, e));
      assert SameGuild(qs, qt, g);
      if !Active(qs, g) {
        AdvanceGuildIsLocal(qs, qt, g, opens);
      }
    }
  }

  lemma TrackFinishedIsLocal(s: State, t: State, g: GuildId, error: bool, opens: Entry -> bool)
    requires SameGuild(s, t, g)
    ensures SameGuild(TrackFinished(s, g, error, opens).state, TrackFinished(t, g, error, opens).state, g)
    ensures TrackFinished(s, g, error, opens).replies == TrackFinished(t, g, error, opens).replies
  {
    if g in s.voice && s.voice[g].current.Some? {
      var fs := s.(voice := s.voice[g := FinishTrack(s.voice[g])]);
      var ft := t.(voice := t.voice[g := FinishTrack(t.voice[g])]);
      AdvanceGuildIsLocal(fs, ft, g, opens);
    }
  }

  /** What a step does to its own guild, and what it replies, depends only on
      that guild's queue and client. */
  lemma NextIsLocal(s: State, t: State, ev: Event, opens: Entry -> bool)
    requires SameGuild(s, t, ev.guild)
    ensures SameGuild(Next(s, ev, opens).state, Next(t, ev, opens).state, ev.guild)
    ensures Next(s, ev, opens).replies == Next(t, ev, opens).replies
  {
    match ev
    case PlayCommand(g, requester, hits) => PlayIsLocal(s, t, g, requester, hits, opens);
    case SkipCommand(g) =>
    case PauseCommand(g) =>
    case ResumeCommand(g) =>
    case StopCommand(g) =>
    case TrackEnded(g, error) => TrackFinishedIsLocal(s, t, g, error, opens);
  }

  /** Steps on different guilds commute, and neither changes what the other replies. */
  lemma DifferentGuildsCommute(s: State, e1: Event, e2: Event, opens: Entry -> bool)
    requires e1.guild != e2.guild
    ensures Next(Next(s, e1, opens).state, e2, opens).state == Next(Next(s, e2, opens).state, e1, opens).state
    ensures Next(Next(s, e2, opens).state, e1, opens).replies == Next(s, e1, opens).replies
    ensures Next(Next(s, e1, opens).state, e2, opens).replies == Next(s, e2, opens).replies
  {
    var s1 := Next(s, e1, opens).state;
    var s2 := Next(s, e2, opens).state;
    var s12 := Next(s1, e2, opens).state;
    var s21 := Next(s2, e1, opens).state;
    OtherGuildsUntouched(s, e2, opens, e1.guild);
    NextIsLocal(s, s2, e1, opens);
    OtherGuildsUntouched(s, e1, opens, e2.guild);
    NextIsLocal(s, s1, e2, opens);
    forall k ensures SameGuild(s12, s21, k) {
      OtherGuildsUntouched(s1, e2, opens, e1.guild);
      OtherGuildsUntouched(s2, e1, opens, e2.guild);
      if k != e1.guild && k != e2.guild {
        OtherGuildsUntouched(s, e1, opens, k);
        OtherGuildsUntouched(s1, e2, opens, k);
        OtherGuildsUntouched(s, e2, opens, k);
        OtherGuildsUntouched(s2, e1, opens, k);
      }
    }
    StatesEqualByGuild(s12, s21);
  }
}
