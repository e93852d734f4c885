/**
 * The `Music` cog: its per-guild dicts, the getters and setters over them,
 * and the commands and playback flow that change them. Each dict is a map
 * from guild id; the bot's voice clients are a map from guild id to the
 * client's state. Every method leaves every other guild alone. Each command
 * and each part of play_next is proved to move the guild it is called for from
 * `At(gid)` to what a Session function gives; the getters, setters and small
 * write steps state their field updates directly, and Shuffle promises a
 * permutation of the queue.
 */
module MusicCog {
  import opened Wrappers
  import Ytdl
  import Autoplay
  import QueueEdits
  import opened Session

  type Gid = int

  /** `d.get(gid)` as an optional value. */
  function Get<V>(m: map<Gid, V>, gid: Gid): (r: Option<V>)
    ensures r.Some? <==> gid in m
    ensures r.Some? ==> r.value == m[gid]
  {
    if gid in m then Some(m[gid]) else None
  }

  class Music {
    var queues: map<Gid, seq<Query>>
    var current: map<Gid, Player>
    var history: map<Gid, seq<Title>>
    var loopStates: map<Gid, Option<LoopMode>>
    var volumes: map<Gid, int>
    var speeds: map<Gid, real>
    var filters: map<Gid, Option<string>>
    var startTimes: map<Gid, real>
    var autoplayStates: map<Gid, bool>
    var textChannels: map<Gid, Channel>
    /** The guilds a lock has been created for (`get_lock` uses setdefault). */
    var locks: set<Gid>
    /** The bot's connected voice clients, by guild. */
    var voiceClients: map<Gid, Sink>

    /** Everything the cog and the bot hold for one guild. */
    function At(gid: Gid): Guild
      reads this
    {
      Guild(Get(queues, gid), Get(current, gid), Get(history, gid), Get(loopStates, gid),
            Get(volumes, gid), Get(speeds, gid), Get(filters, gid), Get(startTimes, gid),
            Get(autoplayStates, gid), Get(textChannels, gid), gid in locks, Get(voiceClients, gid))
    }

    /** No guild other than gid has changed. */
    twostate predicate Elsewhere(gid: Gid)
      reads this
    {
      forall g :: g != gid ==> At(g) == old(At(g))
    }

    /** Every dict starts empty and the bot has no voice client. */
    constructor ()
      ensures forall gid :: At(gid) == Absent
    {
      queues, current, history, loopStates, volumes := map[], map[], map[], map[], map[];
      speeds, filters, startTimes, autoplayStates, textChannels := map[], map[], map[], map[], map[];
      locks, voiceClients := {}, map[];
    }

    // Single-entry writes, the building blocks of the methods below.

    method PutQueue(gid: Gid, q: seq<Query>)
      modifies this
      ensures At(gid) == old(At(gid)).(queue := Some(q)) && Elsewhere(gid)
    {
      queues := queues[gid := q];
    }

    method PutCurrent(gid: Gid, p: Player)
      modifies this
      ensures At(gid) == old(At(gid)).(current := Some(p)) && Elsewhere(gid)
    {
      current := current[gid := p];
    }

    /** `self.current.pop(gid, None)`. */
    method PopCurrent(gid: Gid)
      modifies this
      ensures At(gid) == old(At(gid)).(current := None) && Elsewhere(gid)
      ensures speeds == old(speeds) && voiceClients == old(voiceClients)
    {
      current := current - {gid};
    }

    method PopQueue(gid: Gid)
      modifies this
      ensures At(gid) == old(At(gid)).(queue := None) && Elsewhere(gid)
      ensures speeds == old(speeds) && voiceClients == old(voiceClients)
    {
      queues := queues - {gid};
    }

    method PopHistory(gid: Gid)
      modifies this
      ensures At(gid) == old(At(gid)).(history := None) && Elsewhere(gid)
      ensures speeds == old(speeds) && voiceClients == old(voiceClients)
    {
      history := history - {gid};
    }

    method PopLoop(gid: Gid)
      modifies this
      ensures At(gid) == old(At(gid)).(loop := None) && Elsewhere(gid)
      ensures speeds == old(speeds) && voiceClients == old(voiceClients)
    {
      loopStates := loopStates - {gid};
    }

    method PopVolume(gid: Gid)
      modifies this
      ensures At(gid) == old(At(gid)).(volume := None) && Elsewhere(gid)
      ensures speeds == old(speeds) && voiceClients == old(voiceClients)
    {
      volumes := volumes - {gid};
    }

    method PopFilter(gid: Gid)
      modifies this
      ensures At(gid) == old(At(gid)).(filter := None) && Elsewhere(gid)
      ensures speeds == old(speeds) && voiceClients == old(voiceClients)
    {
      filters := filters - {gid};
    }

    method PopAutoplay(gid: Gid)
      modifies this
      ensures At(gid) == old(At(gid)).(autoplay := None) && Elsewhere(gid)
      ensures speeds == old(speeds) && voiceClients == old(voiceClients)
    {
      autoplayStates := autoplayStates - {gid};
    }

    method PopStartTime(gid: Gid)
      modifies this
      ensures At(gid) == old(At(gid)).(startTime := None) && Elsewhere(gid)
      ensures speeds == old(speeds) && voiceClients == old(voiceClients)
    {
      startTimes := startTimes - {gid};
    }

    method PopChannel(gid: Gid)
      modifies this
      ensures At(gid) == old(At(gid)).(channel := None) && Elsewhere(gid)
      ensures speeds == old(speeds) && voiceClients == old(voiceClients)
    {
      textChannels := textChannels - {gid};
    }

    method PopLock(gid: Gid)
      modifies this
      ensures At(gid) == old(At(gid)).(lock := false) && Elsewhere(gid)
      ensures speeds == old(speeds) && voiceClients == old(voiceClients)
    {
      locks := locks - {gid};
    }

    method PutHistory(gid: Gid, h: seq<Title>)
      modifies this
      ensures At(gid) == old(At(gid)).(history := Some(h)) && Elsewhere(gid)
    {
      history := history[gid := h];
    }

    method PutStartTime(gid: Gid, t: real)
      modifies this
      ensures At(gid) == old(At(gid)).(startTime := Some(t)) && Elsewhere(gid)
    {
      startTimes := startTimes[gid := t];
    }

    method PutChannel(gid: Gid, ch: Channel)
      modifies this
      ensures At(gid) == old(At(gid)).(channel := Some(ch)) && Elsewhere(gid)
    {
      textChannels := textChannels[gid := ch];
    }

    /** The voice client changes state (play, pause, resume, stop, or a fresh connection). */
    method PutVoice(gid: Gid, s: Sink)
      modifies this
      ensures At(gid) == old(At(gid)).(voice := Some(s)) && Elsewhere(gid)
    {
      voiceClients := voiceClients[gid := s];
    }

    /** `vc.disconnect()`. */
    method DropVoice(gid: Gid)
      modifies this
      ensures At(gid) == old(At(gid)).(voice := None) && Elsewhere(gid)
    {
      voiceClients := voiceClients - {gid};
    }

    // The getters and setters of the cog.

    /** `get_lock`: the guild's lock, created on first use. */
    method GetLock(gid: Gid)
      modifies this
      ensures At(gid) == old(At(gid)).(lock := true) && Elsewhere(gid)
    {
      locks := locks + {gid};
    }

    /** `get_queue`: the guild's queue, created empty on first use. */
    method GetQueue(gid: Gid) returns (q: seq<Query>)
      modifies this
      ensures q == QueueOf(old(At(gid)))
      ensures At(gid) == old(At(gid)).(queue := Some(q)) && Elsewhere(gid)
    {
      if gid !in queues {
        queues := queues[gid := []];
      }
      q := queues[gid];
    }

    /** `get_history`: the guild's history, created empty on first use. */
    method GetHistory(gid: Gid) returns (h: seq<Title>)
      modifies this
      ensures h == HistoryOf(old(At(gid)))
      ensures At(gid) == old(At(gid)).(history := Some(h)) && Elsewhere(gid)
    {
      if gid !in history {
        history := history[gid := []];
      }
      h := history[gid];
    }

    /** `get_loop`: None (off) unless set. */
    method GetLoop(gid: Gid) returns (m: Option<LoopMode>)
      ensures m == LoopOf(At(gid))
      ensures gid !in loopStates ==> m.None?
    {
      m := if gid in loopStates then loopStates[gid] else None;
    }

    method SetLoop(gid: Gid, m: Option<LoopMode>)
      modifies this
      ensures At(gid) == old(At(gid)).(loop := Some(m)) && Elsewhere(gid)
      ensures LoopOf(At(gid)) == m
    {
      loopStates := loopStates[gid := m];
    }

    /** `get_vol`: 100 percent unless set. */
    method GetVol(gid: Gid) returns (v: int)
      ensures v == VolumeOf(At(gid))
      ensures gid !in volumes ==> v == 100
    {
      v := if gid in volumes then volumes[gid] else 100;
    }

    /** `set_vol`: store the volume and apply it to the source the voice client is playing, if any. */
    method SetVol(gid: Gid, vol: int)
      modifies this
      ensures var g := old(At(gid)).(volume := Some(vol));
        At(gid) == if Busy(g) && g.current.Some? then g.(current := Some(g.current.value.(volume := vol))) else g
      ensures Elsewhere(gid)
    {
      volumes := volumes[gid := vol];
      if gid in voiceClients && voiceClients[gid] != Idle && gid in current {
        current := current[gid := current[gid].(volume := vol)];
      }
    }

    /** `get_speed`: 1.0 unless set. */
    method GetSpeed(gid: Gid) returns (s: real)
      ensures s == SpeedOf(At(gid))
      ensures gid !in speeds ==> s == 1.0
    {
      s := if gid in speeds then speeds[gid] else 1.0;
    }

    method SetSpeed(gid: Gid, s: real)
      modifies this
      ensures At(gid) == old(At(gid)).(speed := Some(s)) && Elsewhere(gid)
    {
      speeds := speeds[gid := s];
    }

    /** `get_filter`: no filter unless set. */
    method GetFilter(gid: Gid) returns (f: Option<string>)
      ensures f == FilterOf(At(gid))
      ensures gid !in filters ==> f.None?
    {
      f := if gid in filters then filters[gid] else None;
    }

    /** `set_filter`: the filter text for the name, looked up lower-cased; an unknown name stores no filter. */
    method SetFilter(gid: Gid, name: string)
      modifies this
      ensures At(gid) == old(At(gid)).(filter := Some(FilterFor(name))) && Elsewhere(gid)
    {
      filters := filters[gid := FilterFor(name)];
    }

    /** `get_autoplay`: on unless set. */
    method GetAutoplay(gid: Gid) returns (b: bool)
      ensures b == AutoplayOf(At(gid))
      ensures gid !in autoplayStates ==> b
    {
      b := if gid in autoplayStates then autoplayStates[gid] else true;
    }

    method SetAutoplay(gid: Gid, b: bool)
      modifies this
      ensures At(gid) == old(At(gid)).(autoplay := Some(b)) && Elsewhere(gid)
    {
      autoplayStates := autoplayStates[gid := b];
    }

    /** `cleanup_guild_data`: pop the guild from every dict but `speeds`. */
    method CleanupGuildData(gid: Gid)
      modifies this
      ensures At(gid) == Cleanup(old(At(gid))) && Elsewhere(gid)
      ensures speeds == old(speeds) && voiceClients == old(voiceClients)
    {
      PopQueue(gid);
      PopCurrent(gid);
      PopHistory(gid);
      PopLoop(gid);
      PopVolume(gid);
      PopFilter(gid);
      PopAutoplay(gid);
      PopStartTime(gid);
      PopChannel(gid);
      PopLock(gid);
    }

    /** play_next's leave path: autoplay off, queue cleared, current dropped, the client stopped and disconnected, cleanup. */
    method Leave(gid: Gid)
      modifies this
      ensures At(gid) == Teardown(old(At(gid))) && Elsewhere(gid)
    {
      SetAutoplay(gid, false);
      PutQueue(gid, []);
      PopCurrent(gid);
      if gid in voiceClients {
        PutVoice(gid, Idle);
        DropVoice(gid);
      }
      CleanupGuildData(gid);
    }

    /**
     * The first half of `play_next`: fetch the queue (created if missing),
     * store the text channel when one is given, and apply the loop requeue.
     */
    method RequeueCurrent(gid: Gid, channel: Option<Channel>, fromBack: bool) returns (queue: seq<Query>)
      modifies this
      ensures At(gid) == Requeue(old(At(gid)).(channel := if channel.Some? then channel else old(At(gid)).channel), fromBack)
      ensures queue == QueueOf(At(gid)) && Elsewhere(gid)
    {
      queue := GetQueue(gid);
      var loopMode := GetLoop(gid);
      if channel.Some? {
        PutChannel(gid, channel.value);
      }
      if loopMode == Some(Song) && gid in current && !fromBack {
        queue := [current[gid].query] + queue;
        PutQueue(gid, queue);
      } else if loopMode == Some(Queue) && gid in current && !fromBack {
        queue := queue + [current[gid].query];
        PutQueue(gid, queue);
      }
    }

    /** `play_next`, with its recursion on a failed resolution bounded by fuel. */
    method PlayNext(gid: Gid, channel: Option<Channel>, fromBack: bool, env: Env, fuel: nat) returns (outcome: Outcome)
      modifies this
      ensures Step(At(gid), outcome) == Session.PlayNext(old(At(gid)), channel, fromBack, env, fuel)
      ensures Elsewhere(gid)
      decreases fuel, 2
    {
      if fuel == 0 {
        return OutOfFuel;
      }
      var queue := RequeueCurrent(gid, channel, fromBack);
      if queue != [] {
        outcome := PlayHead(gid, channel, env, fuel);
      } else {
        outcome := RunDry(gid, channel, env, fuel);
      }
    }

    /** play_next's empty-queue branch: with autoplay on and a current track, queue and play a related song, or leave. */
    method RunDry(gid: Gid, channel: Option<Channel>, env: Env, fuel: nat) returns (outcome: Outcome)
      requires fuel > 0
      modifies this
      ensures Step(At(gid), outcome) == Session.RunDry(old(At(gid)), channel, env, fuel)
      ensures Elsewhere(gid)
      decreases fuel, 1
    {
      var autoplayMode := GetAutoplay(gid);
      if autoplayMode && gid in current {
        var lastTitle := current[gid].Title();
        var hist := GetHistory(gid);
        var next := Autoplay.FindRelatedSong(lastTitle, hist, env.search);
        if next.Some? {
          PutQueue(gid, [next]);
          outcome := PlayHead(gid, channel, env, fuel);
          return;
        }
      }
      Leave(gid);
      outcome := TornDown;
    }

    /** The second half of `play_next`: with a voice client, pop the head and play it, or skip it and recurse. */
    method PlayHead(gid: Gid, channel: Option<Channel>, env: Env, fuel: nat) returns (outcome: Outcome)
      requires fuel > 0 && QueueOf(At(gid)) != []
      modifies this
      ensures Step(At(gid), outcome) == Session.PlayHead(old(At(gid)), channel, env, fuel)
      ensures Elsewhere(gid)
      decreases fuel, 0
    {
      if gid !in voiceClients {
        PopCurrent(gid);
        return NoVoice;
      }
      var query := PopHead(gid);
      var speed := GetSpeed(gid);
      var audioFilter := GetFilter(gid);
      var player := if query.Some? then env.resolve(query.value, speed, audioFilter) else None;
      if player.None? {
        outcome := PlayNext(gid, channel, false, env, fuel - 1);
        return;
      }
      StartPlaying(gid, player.value, query, env.now);
      outcome := Started;
    }

    /** `queue.pop(0)` on a non-empty queue. */
    method PopHead(gid: Gid) returns (query: Query)
      requires QueueOf(At(gid)) != []
      modifies this
      ensures query == QueueOf(old(At(gid)))[0]
      ensures At(gid) == old(At(gid)).(queue := Some(QueueOf(old(At(gid)))[1..])) && Elsewhere(gid)
    {
      var queue := GetQueue(gid);
      query := queue[0];
      PutQueue(gid, queue[1..]);
    }

    /** `vc.play(player)` and the bookkeeping after it: the player at the guild's volume becomes current, its title joins the history, the start time is taken. */
    method StartPlaying(gid: Gid, src: Ytdl.Source, query: Query, now: real)
      modifies this
      ensures var g := old(At(gid));
        At(gid) == g.(current := Some(Player(src, query, VolumeOf(g))), history := Some(HistoryOf(g) + [src.title]),
                      startTime := Some(now), voice := Some(Playing))
      ensures Elsewhere(gid)
    {
      var volume := GetVol(gid);
      PutVoice(gid, Playing);
      PutCurrent(gid, Player(src, query, volume));
      var h := GetHistory(gid);
      PutHistory(gid, h + [src.title]);
      PutStartTime(gid, now);
    }

    /** The voice client's after-callback: when the guild is still connected, play_next with the stored text channel. */
    method SafePlayNext(gid: Gid, env: Env, fuel: nat) returns (outcome: Outcome)
      modifies this
      ensures Step(At(gid), outcome) == Session.SafePlayNext(old(At(gid)), env, fuel) && Elsewhere(gid)
    {
      if gid !in voiceClients {
        return NoVoice;
      }
      PutVoice(gid, Idle);
      outcome := PlayNext(gid, Get(textChannels, gid), false, env, fuel);
    }

    /**
     * `play` (atFront false) and `playnext` (atFront true). The Spotify
     * expansion of a link is a parameter (None when it raised).
     */
    method Enqueue(gid: Gid, query: string, expansion: Option<seq<string>>, atFront: bool,
                   channel: Channel, userInVoice: bool, env: Env, fuel: nat) returns (outcome: Outcome)
      modifies this
      ensures TracksFor(query, expansion).None? ==> outcome == Unchanged && At(gid) == old(At(gid))
      ensures TracksFor(query, expansion).Some? ==>
                Step(At(gid), outcome) == Session.Enqueue(old(At(gid)), TracksFor(query, expansion).value, atFront, channel, userInVoice, env, fuel)
      ensures Elsewhere(gid)
    {
      var tracks := TracksFor(query, expansion);
      if tracks.None? {
        return Unchanged;
      }
      AddTracksAt(gid, tracks.value, atFront);
      if gid !in voiceClients {
        if !userInVoice {
          return NotJoined;
        }
        PutVoice(gid, Idle);
      }
      PutChannel(gid, channel);
      if voiceClients[gid] == Idle {
        outcome := PlayNext(gid, Some(channel), false, env, fuel);
      } else {
        outcome := Queued;
      }
    }

    /** Take the guild's lock and add the tracks to its queue. */
    method AddTracksAt(gid: Gid, tracks: seq<string>, atFront: bool)
      modifies this
      ensures At(gid) == AddTracks(old(At(gid)), tracks, atFront) && Elsewhere(gid)
    {
      GetLock(gid);
      var q := GetQueue(gid);
      var added := Queries(tracks);
      PutQueue(gid, if atFront then added + q else q + added);
    }

    /** The reload of seek, speed and filter: the current query goes to the front of the queue and the client is stopped. */
    method ReloadCurrent(gid: Gid)
      requires gid in voiceClients && gid in current
      modifies this
      ensures At(gid) == Reload(old(At(gid))) && Elsewhere(gid)
    {
      PushFrontAndStop(gid, current[gid].query);
    }

    /** `skip`. */
    method Skip(gid: Gid)
      modifies this
      ensures At(gid) == Session.Skip(old(At(gid))) && Elsewhere(gid)
    {
      if gid in voiceClients && voiceClients[gid] != Idle {
        PutVoice(gid, Idle);
      }
    }

    /** `stop`. */
    method Stop(gid: Gid)
      modifies this
      ensures At(gid) == Session.Stop(old(At(gid))) && Elsewhere(gid)
    {
      SetAutoplay(gid, false);
      if gid in voiceClients {
        PutQueue(gid, []);
        PutVoice(gid, Idle);
        DropVoice(gid);
      }
      CleanupGuildData(gid);
    }

    /** `pause`. */
    method Pause(gid: Gid)
      modifies this
      ensures At(gid) == Session.Pause(old(At(gid))) && Elsewhere(gid)
    {
      if gid in voiceClients {
        if voiceClients[gid] == Playing {
          PutVoice(gid, Paused);
        } else if voiceClients[gid] == Paused {
          PutVoice(gid, Playing);
        }
      }
    }

    /** `back`. */
    method Back(gid: Gid)
      modifies this
      ensures At(gid) == Session.Back(old(At(gid))) && Elsewhere(gid)
    {
      var h := GetHistory(gid);
      if gid !in voiceClients || voiceClients[gid] == Idle {
        return;
      }
      if |h| < 2 {
        return;
      }
      ReturnPrevious(gid);
    }

    /** The history surgery of `back`, once something is playing and history has two entries or more. */
    method ReturnPrevious(gid: Gid)
      requires Busy(At(gid)) && At(gid).history.Some? && |HistoryOf(At(gid))| >= 2
      modifies this
      ensures At(gid) == Session.Back(old(At(gid))) && Elsewhere(gid)
    {
      var h := history[gid];
      if gid in current && h[|h| - 1] == current[gid].Title() {
        h := h[..|h| - 1];
      }
      var prev := h[|h| - 1];
      PutHistory(gid, h[..|h| - 1]);
      PushFrontAndStop(gid, prev);
    }

    /** `get_queue(gid).insert(0, entry)` and `vc.stop()`. */
    method PushFrontAndStop(gid: Gid, entry: Query)
      modifies this
      ensures At(gid) == old(At(gid)).(queue := Some([entry] + QueueOf(old(At(gid)))), voice := Some(Idle))
      ensures Elsewhere(gid)
    {
      var q := GetQueue(gid);
      PutQueue(gid, [entry] + q);
      PutVoice(gid, Idle);
    }

    /** `clear`. */
    method Clear(gid: Gid)
      modifies this
      ensures At(gid) == Session.Clear(old(At(gid))) && Elsewhere(gid)
    {
      PutQueue(gid, []);
    }

    /** `shuffle`: some permutation of the queue; which one `random.shuffle` picks is not modelled. */
    method Shuffle(gid: Gid)
      modifies this
      ensures At(gid) == old(At(gid)).(queue := At(gid).queue) && At(gid).queue.Some?
      ensures multiset(QueueOf(At(gid))) == multiset(QueueOf(old(At(gid))))
      ensures Elsewhere(gid)
    {
      var q := GetQueue(gid);
      var shuffled :| multiset(shuffled) == multiset(q);
      PutQueue(gid, shuffled);
    }

    /** `remove`: the removed entry, or None for a position out of range. */
    method Remove(gid: Gid, idx: int) returns (removed: Option<Query>)
      modifies this
      ensures At(gid) == Session.Remove(old(At(gid)), idx) && Elsewhere(gid)
      ensures removed.None? <==> !QueueEdits.InRange(QueueOf(old(At(gid))), idx)
      ensures removed.Some? ==> removed.value == QueueOf(old(At(gid)))[idx - 1]
    {
      var q := GetQueue(gid);
      var r := QueueEdits.RemoveAt(q, idx);
      if r.Some? {
        PutQueue(gid, r.value.rest);
        removed := Some(r.value.removed);
      } else {
        removed := None;
      }
    }

    /** `move`. */
    method Move(gid: Gid, frm: int, to: int)
      modifies this
      ensures At(gid) == Session.Move(old(At(gid)), frm, to) && Elsewhere(gid)
    {
      var q := GetQueue(gid);
      var r := QueueEdits.Move(q, frm, to);
      if r.Some? {
        PutQueue(gid, r.value);
      }
    }

    /** `swap`. */
    method Swap(gid: Gid, a: int, b: int)
      modifies this
      ensures At(gid) == Session.Swap(old(At(gid)), a, b) && Elsewhere(gid)
    {
      var q := GetQueue(gid);
      var r := QueueEdits.Swap(q, a, b);
      if r.Some? {
        PutQueue(gid, r.value);
      }
    }

    /** `loop`: returns the new mode. */
    method ToggleLoop(gid: Gid) returns (next: Option<LoopMode>)
      modifies this
      ensures At(gid) == Session.ToggleLoop(old(At(gid))) && Elsewhere(gid)
      ensures next == NextLoop(LoopOf(old(At(gid))))
    {
      var cur := GetLoop(gid);
      next := NextLoop(cur);
      SetLoop(gid, next);
    }

    /** `volume`: returns the percentage it set. */
    method Volume(gid: Gid, level: int) returns (capped: int)
      modifies this
      ensures At(gid) == SetVolume(old(At(gid)), level) && Elsewhere(gid)
      ensures capped == ClampVolume(level)
    {
      capped := ClampVolume(level);
      SetVol(gid, capped);
    }

    /** `seek`. */
    method Seek(gid: Gid, position: int)
      modifies this
      ensures At(gid) == Session.Seek(old(At(gid)), position) && Elsewhere(gid)
    {
      if gid !in voiceClients || gid !in current {
        return;
      }
      ReloadCurrent(gid);
    }

    /** `speed`. */
    method Speed(gid: Gid, rate: real)
      requires 0.5 <= rate <= 2.0
      modifies this
      ensures At(gid) == Session.SetSpeed(old(At(gid)), rate) && Elsewhere(gid)
    {
      if gid !in voiceClients || gid !in current {
        return;
      }
      SetSpeed(gid, rate);
      ReloadCurrent(gid);
    }

    /** `filter`. */
    method Filter(gid: Gid, name: string)
      modifies this
      ensures At(gid) == Session.SetFilter(old(At(gid)), name) && Elsewhere(gid)
    {
      SetFilter(gid, name);
      if gid in voiceClients && gid in current {
        ReloadCurrent(gid);
      }
    }

    /** `autoplay`: returns the new state. */
    method ToggleAutoplay(gid: Gid) returns (state: bool)
      modifies this
      ensures At(gid) == Session.ToggleAutoplay(old(At(gid))) && Elsewhere(gid)
      ensures state == !AutoplayOf(old(At(gid)))
    {
      var cur := GetAutoplay(gid);
      state := !cur;
      SetAutoplay(gid, state);
    }

    /** `on_voice_state_update`: `alone` says both looks at the channel found no member who is not a bot. */
    method VoiceStateUpdate(gid: Gid, memberIsBot: bool, alone: bool)
      modifies this
      ensures At(gid) == LeaveEmptyRoom(old(At(gid)), memberIsBot, alone) && Elsewhere(gid)
    {
      if memberIsBot || gid !in voiceClients || !alone {
        return;
      }
      SetAutoplay(gid, false);
      PutQueue(gid, []);
      PutVoice(gid, Idle);
      DropVoice(gid);
      CleanupGuildData(gid);
    }
  }
}
