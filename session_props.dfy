/** Properties of the per-guild state machine in Session: play_next's policies, teardown, the queue commands and back. */
module SessionProps {
  import opened Wrappers
  import PyStr
  import Ytdl
  import Autoplay
  import QueueEdits
  import opened Session

  /** Entry q cannot be played at this speed and filter: it is None, or resolving it fails. */
  predicate Fails(env: Env, q: Query, speed: real, filter: Option<string>)
  {
    q.None? || env.resolve(q.value, speed, filter).None?
  }

  /** What every successful play_next leaves behind. */
  predicate StartedFrom(g: Guild, r: Guild, env: Env)
  {
    && r.voice == Some(Playing)
    && r.current.Some? && r.current.value.query.Some?
    && env.resolve(r.current.value.query.value, SpeedOf(g), FilterOf(g)) == Some(r.current.value.source)
    && r.current.value.volume == VolumeOf(g)
    && HistoryOf(r) == HistoryOf(g) + [r.current.value.Title()]
    && r.startTime == Some(env.now)
    && r.speed == g.speed && r.filter == g.filter && r.loop == g.loop
    && r.volume == g.volume && r.autoplay == g.autoplay
  }

  /**
   * When play_next starts a source: the client plays; the current track's
   * source is what the resolver gave for its query at the guild's speed and
   * filter; it plays at the guild's volume; history has grown by exactly its
   * title; and the settings are as they were.
   */
  lemma {:induction false} StartedFacts(g: Guild, ch: Option<Channel>, fb: bool, env: Env, fuel: nat)
    requires PlayNext(g, ch, fb, env, fuel).outcome == Started
    ensures StartedFrom(g, PlayNext(g, ch, fb, env, fuel).guild, env)
    decreases fuel, 2
  {
    var g1 := Requeue(g.(channel := if ch.Some? then ch else g.channel), fb);
    if QueueOf(g1) != [] {
      HeadStartedFacts(g1, ch, env, fuel);
    } else {
      var g2 := g1.(history := Some(HistoryOf(g1)));
      var t := Autoplay.Propose(g1.current.value.Title(), HistoryOf(g1), env.search).value;
      HeadStartedFacts(g2.(queue := Some([Some(t)])), ch, env, fuel);
    }
  }

  lemma {:induction false} HeadStartedFacts(g: Guild, ch: Option<Channel>, env: Env, fuel: nat)
    requires fuel > 0 && QueueOf(g) != []
    requires PlayHead(g, ch, env, fuel).outcome == Started
    ensures StartedFrom(g, PlayHead(g, ch, env, fuel).guild, env)
    decreases fuel, 0
  {
    var q := QueueOf(g)[0];
    var g1 := g.(queue := Some(QueueOf(g)[1..]));
    if Fails(env, q, SpeedOf(g1), FilterOf(g1)) {
      StartedFacts(g1, ch, false, env, fuel - 1);
    }
  }

  /** As written, the call to `from_query` passes a keyword it does not declare, so play_next never starts anything. */
  lemma NoPlaybackAsWritten(g: Guild, ch: Option<Channel>, fb: bool, env: Env, fuel: nat)
    ensures PlayNext(g, ch, fb, AsWritten(env), fuel).outcome != Started
  {
    assert "filter_options" in PlayNextKeywords && "filter_options" !in Ytdl.FromQueryKeywords;
    if PlayNext(g, ch, fb, AsWritten(env), fuel).outcome == Started {
      StartedFacts(g, ch, fb, AsWritten(env), fuel);
    }
  }

  /** Every way play_next leaves the guild keeps only its speed. */
  lemma {:induction false} TornDownFacts(g: Guild, ch: Option<Channel>, fb: bool, env: Env, fuel: nat)
    requires PlayNext(g, ch, fb, env, fuel).outcome == TornDown
    ensures PlayNext(g, ch, fb, env, fuel).guild == Absent.(speed := g.speed)
    ensures AutoplayOf(PlayNext(g, ch, fb, env, fuel).guild)
    decreases fuel, 2
  {
    var g1 := Requeue(g.(channel := if ch.Some? then ch else g.channel), fb);
    if QueueOf(g1) != [] {
      HeadTornDownFacts(g1, ch, env, fuel);
    } else if AutoplayOf(g1) && g1.current.Some? {
      var g2 := g1.(history := Some(HistoryOf(g1)));
      var p := Autoplay.Propose(g1.current.value.Title(), HistoryOf(g1), env.search);
      if p.Some? {
        HeadTornDownFacts(g2.(queue := Some([p])), ch, env, fuel);
      }
    }
  }

  lemma {:induction false} HeadTornDownFacts(g: Guild, ch: Option<Channel>, env: Env, fuel: nat)
    requires fuel > 0 && QueueOf(g) != []
    requires PlayHead(g, ch, env, fuel).outcome == TornDown
    ensures PlayHead(g, ch, env, fuel).guild == Absent.(speed := g.speed)
    decreases fuel, 0
  {
    var q := QueueOf(g)[0];
    var g1 := g.(queue := Some(QueueOf(g)[1..]));
    if Fails(env, q, SpeedOf(g1), FilterOf(g1)) {
      TornDownFacts(g1, ch, false, env, fuel - 1);
    }
  }

  /** Loop "song": the current query is played again and the queue is left as it was. */
  lemma SongLoopReplays(g: Guild, ch: Option<Channel>, env: Env, fuel: nat, src: Ytdl.Source)
    requires fuel > 0 && g.voice.Some? && LoopOf(g) == Some(Song)
    requires g.current.Some? && g.current.value.query.Some?
    requires env.resolve(g.current.value.query.value, SpeedOf(g), FilterOf(g)) == Some(src)
    ensures var r := PlayNext(g, ch, false, env, fuel);
      && r.outcome == Started
      && QueueOf(r.guild) == QueueOf(g)
      && r.guild.current == Some(Player(src, g.current.value.query, VolumeOf(g)))
      && HistoryOf(r.guild) == HistoryOf(g) + [src.title]
  {
    var g1 := Requeue(g.(channel := if ch.Some? then ch else g.channel), false);
    assert QueueOf(g1) == [g.current.value.query] + QueueOf(g);
    assert QueueOf(g1)[1..] == QueueOf(g);
  }

  /** Loop "queue": the current query goes to the back and the head is played, so the queue rotates. */
  lemma QueueLoopRotates(g: Guild, ch: Option<Channel>, env: Env, fuel: nat, src: Ytdl.Source)
    requires fuel > 0 && g.voice.Some? && LoopOf(g) == Some(Queue) && g.current.Some?
    requires var head := (QueueOf(g) + [g.current.value.query])[0];
      head.Some? && env.resolve(head.value, SpeedOf(g), FilterOf(g)) == Some(src)
    ensures var r := PlayNext(g, ch, false, env, fuel);
      && r.outcome == Started && r.guild.current.Some?
      && [r.guild.current.value.query] + QueueOf(r.guild) == QueueOf(g) + [g.current.value.query]
  {
    var rotated := QueueOf(g) + [g.current.value.query];
    assert [rotated[0]] + rotated[1..] == rotated;
  }

  /** With loop off, no current track, or coming from back, the head is popped and played: the queue shrinks by exactly it. */
  lemma PlainPlaysHead(g: Guild, ch: Option<Channel>, fb: bool, env: Env, fuel: nat, q: string, src: Ytdl.Source)
    requires fuel > 0 && g.voice.Some?
    requires LoopOf(g).None? || g.current.None? || fb
    requires QueueOf(g) != [] && QueueOf(g)[0] == Some(q)
    requires env.resolve(q, SpeedOf(g), FilterOf(g)) == Some(src)
    ensures var r := PlayNext(g, ch, fb, env, fuel);
      && r.outcome == Started
      && QueueOf(r.guild) == QueueOf(g)[1..]
      && r.guild.current == Some(Player(src, Some(q), VolumeOf(g)))
      && HistoryOf(r.guild) == HistoryOf(g) + [src.title]
  {
  }

  /** A head that cannot be played is dropped and play_next goes on with the rest, one level deeper. */
  lemma FailedHeadIsSkipped(g: Guild, ch: Option<Channel>, fb: bool, env: Env, fuel: nat)
    requires fuel > 0 && g.voice.Some?
    requires LoopOf(g).None? || g.current.None? || fb
    requires QueueOf(g) != [] && Fails(env, QueueOf(g)[0], SpeedOf(g), FilterOf(g))
    ensures PlayNext(g, ch, fb, env, fuel) ==
              PlayNext(g.(channel := if ch.Some? then ch else g.channel, queue := Some(QueueOf(g)[1..])), ch, false, env, fuel - 1)
  {
  }

  /**
   * With no current track, a queue none of whose entries can be played is
   * drained entry by entry and the bot then leaves, within one level of
   * recursion per entry.
   */
  lemma {:induction false} FailingQueueDrains(g: Guild, ch: Option<Channel>, fb: bool, env: Env, fuel: nat)
    requires g.current.None? && g.voice.Some?
    requires forall i :: 0 <= i < |QueueOf(g)| ==> Fails(env, QueueOf(g)[i], SpeedOf(g), FilterOf(g))
    requires fuel > |QueueOf(g)|
    ensures PlayNext(g, ch, fb, env, fuel) == Step(Absent.(speed := g.speed), TornDown)
    decreases |QueueOf(g)|
  {
    if QueueOf(g) != [] {
      var g' := g.(channel := if ch.Some? then ch else g.channel, queue := Some(QueueOf(g)[1..]));
      FailedHeadIsSkipped(g, ch, fb, env, fuel);
      FailingQueueDrains(g', ch, false, env, fuel - 1);
    }
  }

  /** Loop "song" over a current track that cannot be played never ends: play_next recurses for as long as it is allowed to. */
  lemma {:induction false} SongLoopFailureNeverEnds(g: Guild, ch: Option<Channel>, env: Env, fuel: nat)
    requires g.voice.Some? && LoopOf(g) == Some(Song) && g.current.Some?
    requires Fails(env, g.current.value.query, SpeedOf(g), FilterOf(g))
    ensures PlayNext(g, ch, false, env, fuel).outcome == OutOfFuel
    decreases fuel
  {
    if fuel > 0 {
      var g1 := Requeue(g.(channel := if ch.Some? then ch else g.channel), false);
      assert QueueOf(g1)[0] == g.current.value.query;
      SongLoopFailureNeverEnds(g1.(queue := Some(QueueOf(g1)[1..])), ch, env, fuel - 1);
    }
  }

  /**
   * Loop "queue" over a current track when nothing queued can be played never ends either: each failure
   * pops one entry, but the requeue appends the current query again, so the unplayable entries rotate.
   */
  lemma {:induction false} QueueLoopFailureNeverEnds(g: Guild, ch: Option<Channel>, env: Env, fuel: nat)
    requires g.voice.Some? && LoopOf(g) == Some(Queue) && g.current.Some?
    requires Fails(env, g.current.value.query, SpeedOf(g), FilterOf(g))
    requires forall i :: 0 <= i < |QueueOf(g)| ==> Fails(env, QueueOf(g)[i], SpeedOf(g), FilterOf(g))
    ensures PlayNext(g, ch, false, env, fuel).outcome == OutOfFuel
    decreases fuel
  {
    if fuel > 0 {
      var g1 := Requeue(g.(channel := if ch.Some? then ch else g.channel), false);
      var q1 := QueueOf(g1);
      assert q1 == QueueOf(g) + [g.current.value.query];
      assert Fails(env, q1[0], SpeedOf(g), FilterOf(g));
      var g2 := g1.(queue := Some(q1[1..]));
      assert forall i :: 0 <= i < |QueueOf(g2)| ==> QueueOf(g2)[i] == q1[i + 1];
      QueueLoopFailureNeverEnds(g2, ch, env, fuel - 1);
    }
  }

  /** On an empty queue with autoplay on and a current track, the proposal is queued and played. */
  lemma AutoplayContinues(g: Guild, ch: Option<Channel>, env: Env, fuel: nat, t: string, src: Ytdl.Source)
    requires fuel > 0 && g.voice.Some? && QueueOf(g) == [] && LoopOf(g).None?
    requires AutoplayOf(g) && g.current.Some?
    requires Autoplay.Propose(g.current.value.Title(), HistoryOf(g), env.search) == Some(t)
    requires env.resolve(t, SpeedOf(g), FilterOf(g)) == Some(src)
    ensures var r := PlayNext(g, ch, false, env, fuel);
      && r.outcome == Started && QueueOf(r.guild) == []
      && r.guild.current == Some(Player(src, Some(t), VolumeOf(g)))
      && HistoryOf(r.guild) == HistoryOf(g) + [src.title]
  {
    var g1 := Requeue(g.(channel := if ch.Some? then ch else g.channel), false);
    assert QueueOf(g1) == [] && g1.current == g.current && HistoryOf(g1) == HistoryOf(g);
    assert PlayNext(g, ch, false, env, fuel) == RunDry(g1, ch, env, fuel);
    var g2 := g1.(history := Some(HistoryOf(g1))).(queue := Some([Some(t)]));
    assert RunDry(g1, ch, env, fuel) == PlayHead(g2, ch, env, fuel);
  }

  /** On an empty queue with autoplay off, no current track, or no proposal, play_next leaves and keeps only the speed. */
  lemma EmptyQueueLeaves(g: Guild, ch: Option<Channel>, env: Env, fuel: nat)
    requires fuel > 0 && QueueOf(g) == [] && (LoopOf(g).None? || g.current.None?)
    requires !AutoplayOf(g) || g.current.None? ||
             Autoplay.Propose(g.current.value.Title(), HistoryOf(g), env.search).None?
    ensures PlayNext(g, ch, false, env, fuel) == Step(Absent.(speed := g.speed), TornDown)
  {
  }

  /** Cleanup twice is cleanup once, and it never touches the speed. */
  lemma CleanupIdempotent(g: Guild)
    ensures Cleanup(Cleanup(g)) == Cleanup(g)
    ensures SpeedOf(Cleanup(g)) == SpeedOf(g)
  {
  }

  /** `stop` sets autoplay off, but cleanup then drops that entry, so autoplay reads as on again; the speed survives. */
  lemma StopForgetsAutoplayOff(g: Guild)
    ensures AutoplayOf(Stop(g)) && SpeedOf(Stop(g)) == SpeedOf(g)
    ensures QueueOf(Stop(g)) == [] && Stop(g).current.None? && Stop(g).voice.None?
  {
  }

  /** While a source plays, play and playnext only add the tracks: the current track is not replaced. */
  lemma BusyEnqueueQueues(g: Guild, tracks: seq<string>, atFront: bool, ch: Channel, inVoice: bool, env: Env, fuel: nat)
    requires Busy(g)
    ensures Enqueue(g, tracks, atFront, ch, inVoice, env, fuel) == Step(AddTracks(g, tracks, atFront).(channel := Some(ch)), Queued)
  {
  }

  lemma QueriesAppend(a: seq<string>, b: seq<string>)
    ensures Queries(a + b) == Queries(a) + Queries(b)
  {
  }

  /** Plays add their tracks at the tail in call order. */
  lemma PlaysConcatenate(g: Guild, a: seq<string>, b: seq<string>)
    ensures QueueOf(AddTracks(AddTracks(g, a, false), b, false)) == QueueOf(g) + Queries(a + b)
  {
    QueriesAppend(a, b);
    assert QueueOf(g) + Queries(a) + Queries(b) == QueueOf(g) + (Queries(a) + Queries(b));
  }

  /** Playnexts stack: the later tracks come first, each batch in its own order. */
  lemma PlayNextsStack(g: Guild, a: seq<string>, b: seq<string>)
    ensures QueueOf(AddTracks(AddTracks(g, a, true), b, true)) == Queries(b) + Queries(a) + QueueOf(g)
  {
    assert Queries(b) + (Queries(a) + QueueOf(g)) == Queries(b) + Queries(a) + QueueOf(g);
  }

  /** A play that starts a source leaves the client playing, so a second play queues behind it and keeps the current track. */
  lemma SecondPlayDoesNotRestart(g: Guild, a: seq<string>, b: seq<string>, atFront: bool, ch: Channel, inVoice: bool, env: Env, fuel: nat)
    requires Enqueue(g, a, false, ch, inVoice, env, fuel).outcome == Started
    ensures var g1 := Enqueue(g, a, false, ch, inVoice, env, fuel).guild;
      var r := Enqueue(g1, b, atFront, ch, inVoice, env, fuel);
      r.outcome == Queued && r.guild.current == g1.current
  {
    var g1 := AddTracks(g, a, false);
    var g2 := (if g1.voice.None? then g1.(voice := Some(Idle)) else g1).(channel := Some(ch));
    StartedFacts(g2, Some(ch), false, env, fuel);
  }

  /** Without a voice client and with the user outside voice, play queues the tracks and stops there. */
  lemma PlayWithoutVoiceQueues(g: Guild, a: seq<string>, ch: Channel, env: Env, fuel: nat)
    requires g.voice.None?
    ensures Enqueue(g, a, false, ch, false, env, fuel) == Step(AddTracks(g, a, false), NotJoined)
  {
  }

  /** `back` with fewer than two history entries leaves queue and history as they were. */
  lemma BackNeedsTwo(g: Guild)
    requires |HistoryOf(g)| < 2
    ensures QueueOf(Back(g)) == QueueOf(g) && HistoryOf(Back(g)) == HistoryOf(g)
    ensures Back(g) == g.(history := Some(HistoryOf(g)))
  {
  }

  /**
   * `back` with something playing and two or more history entries: when the
   * last entry is the current title it is dropped together with the entry
   * before it, which goes to the front of the queue; otherwise the last entry
   * alone goes there. The client is stopped and nothing else changes.
   */
  lemma BackMovesOne(g: Guild)
    requires Busy(g) && |HistoryOf(g)| >= 2
    ensures var r, h := Back(g), HistoryOf(g);
      var drop := g.current.Some? && h[|h| - 1] == g.current.value.Title();
      && (drop ==> HistoryOf(r) == h[..|h| - 2] && QueueOf(r) == [h[|h| - 2]] + QueueOf(g))
      && (!drop ==> HistoryOf(r) == h[..|h| - 1] && QueueOf(r) == [h[|h| - 1]] + QueueOf(g))
      && r == g.(history := r.history, queue := r.queue, voice := r.voice)
      && r.history.Some? && r.queue.Some? && r.voice == Some(Idle)
  {
    var h := HistoryOf(g);
    if g.current.Some? && h[|h| - 1] == g.current.value.Title() {
      assert h[..|h| - 1][..|h| - 2] == h[..|h| - 2];
    }
  }

  /**
   * No caller passes from_back: after `back` stops the client, the
   * after-callback runs play_next with it false, so under loop "song" the
   * current query is put first again and it, not the previous title, plays;
   * the previous title waits behind it.
   */
  lemma BackUnderSongLoopReplaysCurrent(g: Guild, env: Env, fuel: nat, src: Ytdl.Source)
    requires fuel > 0 && Busy(g) && |HistoryOf(g)| >= 2
    requires LoopOf(g) == Some(Song) && g.current.Some? && g.current.value.query.Some?
    requires env.resolve(g.current.value.query.value, SpeedOf(g), FilterOf(g)) == Some(src)
    ensures var b := Back(g);
      var r := SafePlayNext(b, env, fuel);
      && r.outcome == Started
      && r.guild.current.Some? && r.guild.current.value.query == g.current.value.query
      && QueueOf(r.guild) == [QueueOf(b)[0]] + QueueOf(g)
  {
    var b := Back(g);
    BackMovesOne(g);
    assert [QueueOf(b)[0]] + QueueOf(g) == QueueOf(b);
    SongLoopReplays(b.(voice := Some(Idle)), b.channel, env, fuel, src);
  }

  /** A seek with loop off replays the current query through the after-callback and leaves the queue as before. */
  lemma SeekReplaysCurrent(g: Guild, position: int, env: Env, fuel: nat, src: Ytdl.Source)
    requires fuel > 0 && Busy(g) && LoopOf(g).None?
    requires g.current.Some? && g.current.value.query.Some?
    requires env.resolve(g.current.value.query.value, SpeedOf(g), FilterOf(g)) == Some(src)
    ensures var r := SafePlayNext(Seek(g, position), env, fuel);
      && r.outcome == Started
      && r.guild.current == Some(Player(src, g.current.value.query, VolumeOf(g)))
      && QueueOf(r.guild) == QueueOf(g)
  {
    var s := Seek(g, position);
    PlainPlaysHead(s.(voice := Some(Idle)), s.channel, false, env, fuel, g.current.value.query.value, src);
  }

  /** Under loop "song" a seek leaves a spare copy of the current query at the front of the queue. */
  lemma SeekUnderSongLoopLeavesCopy(g: Guild, position: int, env: Env, fuel: nat, src: Ytdl.Source)
    requires fuel > 0 && Busy(g) && LoopOf(g) == Some(Song)
    requires g.current.Some? && g.current.value.query.Some?
    requires env.resolve(g.current.value.query.value, SpeedOf(g), FilterOf(g)) == Some(src)
    ensures var r := SafePlayNext(Seek(g, position), env, fuel);
      r.outcome == Started && QueueOf(r.guild) == [g.current.value.query] + QueueOf(g)
  {
    var s := Seek(g, position);
    SongLoopReplays(s.(voice := Some(Idle)), s.channel, env, fuel, src);
  }

  /** After `speed`, the reloaded track is resolved at the new rate. */
  lemma SpeedReloadUsesRate(g: Guild, rate: real, env: Env, fuel: nat)
    requires 0.5 <= rate <= 2.0 && Busy(g) && g.current.Some?
    requires SafePlayNext(SetSpeed(g, rate), env, fuel).outcome == Started
    ensures var r := SafePlayNext(SetSpeed(g, rate), env, fuel).guild;
      && r.current.Some? && r.current.value.query.Some?
      && env.resolve(r.current.value.query.value, rate, FilterOf(g)) == Some(r.current.value.source)
  {
    var s := SetSpeed(g, rate);
    StartedFacts(s.(voice := Some(Idle)), s.channel, false, env, fuel);
  }

  /** After `filter`, the filter is stored whatever the state, and a reloaded track is resolved with it. */
  lemma FilterReloadUsesFilter(g: Guild, name: string, env: Env, fuel: nat)
    requires Busy(g)
    requires SafePlayNext(SetFilter(g, name), env, fuel).outcome == Started
    ensures FilterOf(SetFilter(g, name)) == FilterFor(name)
    ensures var r := SafePlayNext(SetFilter(g, name), env, fuel).guild;
      && r.current.Some? && r.current.value.query.Some?
      && env.resolve(r.current.value.query.value, SpeedOf(g), FilterFor(name)) == Some(r.current.value.source)
  {
    var s := SetFilter(g, name);
    StartedFacts(s.(voice := Some(Idle)), s.channel, false, env, fuel);
  }

  /** The volume is stored clamped and, while a source plays, applied to it; the next track starts at it too. */
  lemma VolumeApplies(g: Guild, level: int)
    ensures VolumeOf(SetVolume(g, level)) == ClampVolume(level)
    ensures Busy(g) && g.current.Some? ==> SetVolume(g, level).current.value.volume == ClampVolume(level)
    ensures !Busy(g) || g.current.None? ==> SetVolume(g, level).current == g.current
  {
  }

  /** The loop command cycles through three states and comes back after three presses. */
  lemma LoopCycles(g: Guild)
    ensures LoopOf(ToggleLoop(ToggleLoop(ToggleLoop(g)))) == LoopOf(g)
    ensures LoopOf(ToggleLoop(g)) != LoopOf(g)
  {
  }

  /** remove, move and swap with a position outside 1..len(q) leave the queue as it was. */
  lemma EditsOutOfRange(g: Guild, i: int, j: int)
    requires !QueueEdits.InRange(QueueOf(g), i)
    ensures QueueOf(Remove(g, i)) == QueueOf(g)
    ensures QueueOf(Move(g, i, j)) == QueueOf(g) && QueueOf(Move(g, j, i)) == QueueOf(g)
    ensures QueueOf(Swap(g, i, j)) == QueueOf(g) && QueueOf(Swap(g, j, i)) == QueueOf(g)
  {
  }

  /**
   * With the loop off and autoplay on, an empty queue whose proposal cannot be
   * played never ends either: after the failure current and history are as
   * they were, so the same title is proposed again.
   */
  lemma {:induction false} AutoplayFailureNeverEnds(g: Guild, ch: Option<Channel>, env: Env, fuel: nat, t: string)
    requires g.voice.Some? && LoopOf(g).None? && QueueOf(g) == []
    requires AutoplayOf(g) && g.current.Some?
    requires Autoplay.Propose(g.current.value.Title(), HistoryOf(g), env.search) == Some(t)
    requires env.resolve(t, SpeedOf(g), FilterOf(g)).None?
    ensures PlayNext(g, ch, false, env, fuel).outcome == OutOfFuel
    decreases fuel
  {
    if fuel > 0 {
      var g1 := Requeue(g.(channel := if ch.Some? then ch else g.channel), false);
      assert QueueOf(g1) == [] && g1.current == g.current && HistoryOf(g1) == HistoryOf(g);
      var g2 := g1.(history := Some(HistoryOf(g1))).(queue := Some([Some(t)]));
      assert RunDry(g1, ch, env, fuel) == PlayHead(g2, ch, env, fuel);
      var g3 := g2.(queue := Some(QueueOf(g2)[1..]));
      assert PlayHead(g2, ch, env, fuel) == PlayNext(g3, ch, false, env, fuel - 1);
      AutoplayFailureNeverEnds(g3, ch, env, fuel - 1, t);
    }
  }

  /** `skip` stops a busy client, and its after-callback then runs play_next with the stored channel; an idle client is left alone. */
  lemma SkipRunsPlayNext(g: Guild, env: Env, fuel: nat)
    ensures Busy(g) ==> SafePlayNext(Skip(g), env, fuel) == PlayNext(g.(voice := Some(Idle)), g.channel, false, env, fuel)
    ensures !Busy(g) ==> Skip(g) == g
    ensures Skip(g).queue == g.queue && Skip(g).current == g.current && Skip(g).history == g.history
  {
  }

  /** The filter name is looked up case-insensitively: a name and its lower-cased form choose the same filter. */
  lemma FilterNameCaseInsensitive(name: string)
    ensures FilterFor(name) == FilterFor(PyStr.Lower(name))
  {
    PyStr.LowerIdempotent(name);
  }
}
