/**
 * What the `Music` cog keeps for one guild, and what each command and
 * `play_next` do to it, as functions from the old record to the new one.
 * A `Guild` is the entry at one guild id in every per-guild dict (None when
 * the dict has no entry there) together with that guild's voice client.
 * The class in music.dfy changes its dicts step by step and is proved to
 * move between exactly these records.
 */
module Session {
  import opened Wrappers
  import PyStr
  import Ytdl
  import Autoplay
  import QueueEdits

  type Title = Autoplay.Title

  /**
   * A queue entry: what was given to play or playnext, a Spotify track's
   * search text, an autoplay title, or a history title put back by `back`
   * (which may be None).
   */
  type Query = Option<string>

  /** A text channel, known only by identity. */
  type Channel = nat

  /** The two loop modes, "song" and "queue"; a stored None means off. */
  datatype LoopMode = Song | Queue

  /** A playing source with the query it was resolved from and its volume in percent. */
  datatype Player = Player(source: Ytdl.Source, query: Query, volume: int)
  {
    function Title(): Title
    {
      source.title
    }
  }

  /** A connected voice client: idle, playing or paused. */
  datatype Sink = Idle | Playing | Paused

  datatype Guild = Guild(
    queue: Option<seq<Query>>,
    current: Option<Player>,
    history: Option<seq<Title>>,
    loop: Option<Option<LoopMode>>,
    volume: Option<int>,
    speed: Option<real>,
    filter: Option<Option<string>>,
    startTime: Option<real>,
    autoplay: Option<bool>,
    channel: Option<Channel>,
    lock: bool,
    voice: Option<Sink>)

  /** A guild the cog holds nothing for, with no voice client. */
  const Absent: Guild := Guild(None, None, None, None, None, None, None, None, None, None, false, None)

  /**
   * The world outside the cog: the yt-dlp search used by autoplay, the
   * resolution of a queue entry into a playing source (everything inside
   * play_next's `try`: `from_query` and `vc.play`), and the clock.
   */
  datatype Env = Env(
    search: string -> Ytdl.Extraction,
    resolve: (string, real, Option<string>) -> Option<Ytdl.Source>,
    now: real)

  /** The keyword arguments play_next passes to `from_query`. */
  const PlayNextKeywords: set<string> := {"loop", "speed", "filter_options"}

  /** The environment as the code meets it: the call to `from_query` cannot bind its keywords, so every resolution raises. */
  function AsWritten(env: Env): (r: Env)
    ensures Ytdl.AcceptsKeywords(PlayNextKeywords) ==> r == env
    ensures !Ytdl.AcceptsKeywords(PlayNextKeywords) ==> forall q, s, f :: r.resolve(q, s, f).None?
  {
    if Ytdl.AcceptsKeywords(PlayNextKeywords) then env
    else env.(resolve := (q, s, f) => None)
  }

  // The getters, with the defaults the dicts' `get` and `setdefault` supply.

  function QueueOf(g: Guild): seq<Query> { g.queue.GetOr([]) }
  function HistoryOf(g: Guild): seq<Title> { g.history.GetOr([]) }
  function LoopOf(g: Guild): Option<LoopMode> { g.loop.GetOr(None) }
  /** `get_vol`: the default 1.0 is 100 percent. */
  function VolumeOf(g: Guild): int { g.volume.GetOr(100) }
  function SpeedOf(g: Guild): real { g.speed.GetOr(1.0) }
  function FilterOf(g: Guild): Option<string> { g.filter.GetOr(None) }
  function AutoplayOf(g: Guild): bool { g.autoplay.GetOr(true) }

  /** The voice client is playing or paused. */
  predicate Busy(g: Guild)
  {
    g.voice == Some(Playing) || g.voice == Some(Paused)
  }

  /** `cleanup_guild_data`: every per-guild entry is dropped except the speed, and the voice client is not touched. */
  function Cleanup(g: Guild): (r: Guild)
    ensures r == Absent.(speed := g.speed, voice := g.voice)
  {
    g.(queue := None, current := None, history := None, loop := None, volume := None,
       filter := None, autoplay := None, startTime := None, channel := None, lock := false)
  }

  /** `vc.stop()` followed by `vc.disconnect()` when there is a voice client. */
  function Disconnect(g: Guild): Guild
  {
    if g.voice.Some? then g.(voice := Some(Idle)).(voice := None) else g
  }

  /**
   * play_next's two leave paths: autoplay set off, the queue cleared, the
   * current track dropped, the voice client stopped and disconnected, the
   * guild's data cleaned up. Only the speed survives.
   */
  function Teardown(g: Guild): (r: Guild)
    ensures r == Absent.(speed := g.speed)
  {
    Cleanup(Disconnect(g.(autoplay := Some(false), queue := Some([]), current := None)))
  }

  /** The loop requeue: with a current track and not coming from back, "song" puts its query first, "queue" puts it last. */
  function Requeue(g: Guild, fromBack: bool): (r: Guild)
    ensures r == g.(queue := r.queue) && r.queue.Some?
    ensures g.current.None? || fromBack || LoopOf(g).None? ==> QueueOf(r) == QueueOf(g)
    ensures g.current.Some? && !fromBack && LoopOf(g).Some? ==>
              && |QueueOf(r)| == |QueueOf(g)| + 1
              && multiset(QueueOf(r)) == multiset(QueueOf(g)) + multiset{g.current.value.query}
    ensures g.current.Some? && !fromBack && LoopOf(g) == Some(Song) ==> QueueOf(r) == [g.current.value.query] + QueueOf(g)
    ensures g.current.Some? && !fromBack && LoopOf(g) == Some(Queue) ==> QueueOf(r) == QueueOf(g) + [g.current.value.query]
  {
    var q := QueueOf(g);
    if g.current.Some? && !fromBack then
      var c := g.current.value.query;
      match LoopOf(g)
      case Some(Song) => g.(queue := Some([c] + q))
      case Some(Queue) => g.(queue := Some(q + [c]))
      case None => g.(queue := Some(q))
    else g.(queue := Some(q))
  }

  /** How a call ended. */
  datatype Outcome =
    | Started    // a source is playing
    | TornDown   // the queue ran dry and the bot left
    | NoVoice    // there was no voice client, so nothing was played
    | OutOfFuel  // the recursion went deeper than the bound
    | Queued     // the tracks were queued behind a playing source
    | NotJoined  // the user is not in a voice channel, so none was joined
    | Unchanged  // the command answered without touching the state

  datatype Step = Step(guild: Guild, outcome: Outcome)

  /**
   * `play_next(gid, channel, from_back)`. Every failed resolution recurses;
   * fuel bounds the depth of that recursion.
   */
  function PlayNext(g: Guild, channel: Option<Channel>, fromBack: bool, env: Env, fuel: nat): Step
    decreases fuel, 2
  {
    if fuel == 0 then Step(g, OutOfFuel)
    else
      var g1 := Requeue(g.(channel := if channel.Some? then channel else g.channel), fromBack);
      if QueueOf(g1) != [] then PlayHead(g1, channel, env, fuel) else RunDry(g1, channel, env, fuel)
  }

  /** play_next on an empty queue: autoplay queues and plays a proposal, or the bot leaves. */
  function RunDry(g: Guild, channel: Option<Channel>, env: Env, fuel: nat): Step
    requires fuel > 0
    decreases fuel, 1
  {
    if AutoplayOf(g) && g.current.Some? then
      var g1 := g.(history := Some(HistoryOf(g)));
      match Autoplay.Propose(g.current.value.Title(), HistoryOf(g), env.search)
      case Some(t) => PlayHead(g1.(queue := Some([Some(t)])), channel, env, fuel)
      case None => Step(Teardown(g1), TornDown)
    else Step(Teardown(g), TornDown)
  }

  /** The second half of play_next: pop the head and try to play it. */
  function PlayHead(g: Guild, channel: Option<Channel>, env: Env, fuel: nat): Step
    requires fuel > 0 && QueueOf(g) != []
    decreases fuel, 0
  {
    if g.voice.None? then Step(g.(current := None), NoVoice)
    else
      var q := QueueOf(g)[0];
      var g1 := g.(queue := Some(QueueOf(g)[1..]));
      var player := if q.Some? then env.resolve(q.value, SpeedOf(g1), FilterOf(g1)) else None;
      match player
      case None => PlayNext(g1, channel, false, env, fuel - 1)
      case Some(src) =>
        Step(g1.(current := Some(Player(src, q, VolumeOf(g1))),
                 history := Some(HistoryOf(g1) + [src.title]),
                 startTime := Some(env.now),
                 voice := Some(Playing)), Started)
  }

  /** The entries play and playnext put in the queue. */
  function Queries(tracks: seq<string>): (r: seq<Query>)
    ensures |r| == |tracks| && forall i :: 0 <= i < |tracks| ==> r[i] == Some(tracks[i])
  {
    seq(|tracks|, i requires 0 <= i < |tracks| => Some(tracks[i]))
  }

  /**
   * The tracks a play or playnext request adds: the Spotify expansion for a
   * Spotify link (None when it raised or found nothing: the command answers
   * with an error and stops), otherwise the query itself.
   */
  function TracksFor(query: string, expansion: Option<seq<string>>): (r: Option<seq<string>>)
    ensures r.Some? ==> r.value != []
    ensures r.None? ==> PyStr.Contains(query, "open.spotify.com")
    ensures !PyStr.Contains(query, "open.spotify.com") ==> r == Some([query])
    ensures PyStr.Contains(query, "open.spotify.com") && r.Some? ==> r == expansion
  {
    if PyStr.Contains(query, "open.spotify.com") then
      if expansion.Some? && expansion.value != [] then expansion else None
    else Some([query])
  }

  /**
   * The locked part of play (atFront false: the tracks go to the tail) and
   * playnext (atFront true: they go to the front in their own order); a voice
   * channel is joined when the bot has no voice client and the user is in one,
   * and play_next starts only when nothing is playing or paused.
   */
  function Enqueue(g: Guild, tracks: seq<string>, atFront: bool, channel: Channel, userInVoice: bool, env: Env, fuel: nat): Step
  {
    var g1 := AddTracks(g, tracks, atFront);
    if g1.voice.None? && !userInVoice then Step(g1, NotJoined)
    else
      var g2 := (if g1.voice.None? then g1.(voice := Some(Idle)) else g1).(channel := Some(channel));
      if !Busy(g2) then PlayNext(g2, Some(channel), false, env, fuel) else Step(g2, Queued)
  }

  /** The lock is taken and the tracks are added: at the tail for play, at the front in their own order for playnext. */
  function AddTracks(g: Guild, tracks: seq<string>, atFront: bool): Guild
  {
    g.(lock := true, queue := Some(if atFront then Queries(tracks) + QueueOf(g) else QueueOf(g) + Queries(tracks)))
  }

  /** `stop`: autoplay set off, the queue emptied and the voice client left (when there is one), then cleanup. */
  function Stop(g: Guild): (r: Guild)
    ensures r == Absent.(speed := g.speed)
  {
    var g1 := g.(autoplay := Some(false));
    Cleanup(if g1.voice.Some? then Disconnect(g1.(queue := Some([]))) else g1)
  }

  /** `on_voice_state_update` in a guild where no listener is left (after both checks) and the bot has a voice client. */
  function LeaveEmptyRoom(g: Guild, memberIsBot: bool, alone: bool): (r: Guild)
    ensures memberIsBot || !alone || g.voice.None? ==> r == g
    ensures !memberIsBot && alone && g.voice.Some? ==> r == Absent.(speed := g.speed)
  {
    if memberIsBot || g.voice.None? || !alone then g
    else Cleanup(Disconnect(g.(autoplay := Some(false), queue := Some([]))))
  }

  /** `skip`: stopping a playing or paused client (its after-callback then runs play_next). */
  function Skip(g: Guild): Guild
  {
    if Busy(g) then g.(voice := Some(Idle)) else g
  }

  /** `pause`: a toggle between playing and paused. */
  function Pause(g: Guild): (r: Guild)
    ensures g.voice == Some(Playing) <==> r.voice == Some(Paused)
    ensures g.voice == Some(Paused) <==> r.voice == Some(Playing)
    ensures r == g.(voice := r.voice)
    ensures !Busy(g) ==> r == g
  {
    match g.voice
    case Some(Playing) => g.(voice := Some(Paused))
    case Some(Paused) => g.(voice := Some(Playing))
    case _ => g
  }

  /**
   * `back`: with something playing and at least two history entries, drop a
   * last entry equal to the current title, then move the last remaining entry
   * to the front of the queue and stop the client.
   */
  function Back(g: Guild): Guild
  {
    var h := HistoryOf(g);
    var g0 := g.(history := Some(h));
    if !Busy(g) || |h| < 2 then g0
    else
      var h1 := if g.current.Some? && h[|h| - 1] == g.current.value.Title() then h[..|h| - 1] else h;
      var prev := h1[|h1| - 1];
      g0.(history := Some(h1[..|h1| - 1]), queue := Some([prev] + QueueOf(g)), voice := Some(Idle))
  }

  /** seek, speed and filter reload the current track by putting its query at the front of the queue and stopping the client. */
  function Reload(g: Guild): Guild
    requires g.voice.Some? && g.current.Some?
  {
    g.(queue := Some([g.current.value.query] + QueueOf(g)), voice := Some(Idle))
  }

  /** `seek`: the position is not used; the track is reloaded from its start. */
  function Seek(g: Guild, position: int): Guild
  {
    if g.voice.None? || g.current.None? then g else Reload(g)
  }

  /** `speed`: Discord only lets rates from 0.5 to 2.0 through. */
  function SetSpeed(g: Guild, rate: real): Guild
    requires 0.5 <= rate <= 2.0
  {
    if g.voice.None? || g.current.None? then g else Reload(g.(speed := Some(rate)))
  }

  /** `AUDIO_FILTERS`: filter name to FFmpeg filter text, "none" to no filter. */
  const AudioFilters: map<string, Option<string>> := map[
    "none" := None,
    "bassboost" := Some("bass=g=10"),
    "nightcore" := Some("atempo=1.06,asetrate=44100*1.25"),
    "vaporwave" := Some("asetrate=44100*0.8,aresample=44100,atempo=0.8"),
    "8d" := Some("apulsator=hz=0.08"),
    "vibrato" := Some("vibrato=f=6.5"),
    "tremolo" := Some("tremolo"),
    "earrape" := Some("acrusher=1:1:64:0:log")]

  /** `AUDIO_FILTERS.get(name.lower())`. */
  function FilterFor(name: string): (r: Option<string>)
    ensures r.Some? <==> PyStr.Lower(name) in AudioFilters && PyStr.Lower(name) != "none"
    ensures r.Some? ==> r == AudioFilters[PyStr.Lower(name)]
  {
    var key := PyStr.Lower(name);
    if key in AudioFilters then AudioFilters[key] else None
  }

  /** `filter`: the filter is always stored; the track is reloaded only with a voice client and a current track. */
  function SetFilter(g: Guild, name: string): Guild
  {
    var g1 := g.(filter := Some(FilterFor(name)));
    if g1.voice.None? || g1.current.None? then g1 else Reload(g1)
  }

  /** The `loop` command's cycle: off, "song", "queue", off. */
  function NextLoop(m: Option<LoopMode>): (r: Option<LoopMode>)
    ensures r != m
    ensures m.None? <==> r == Some(Song)
    ensures m == Some(Song) <==> r == Some(Queue)
    ensures m == Some(Queue) <==> r.None?
  {
    match m
    case None => Some(Song)
    case Some(Song) => Some(Queue)
    case Some(Queue) => None
  }

  function ToggleLoop(g: Guild): Guild
  {
    g.(loop := Some(NextLoop(LoopOf(g))))
  }

  /** `max(0, min(level, 200))`. */
  function ClampVolume(level: int): (r: int)
    ensures 0 <= r <= 200
    ensures 0 <= level <= 200 ==> r == level
    ensures level < 0 ==> r == 0
    ensures level > 200 ==> r == 200
  {
    if level < 0 then 0 else if level > 200 then 200 else level
  }

  /** `volume`: the clamped level is stored and, while a source plays or is paused, applied to it at once. */
  function SetVolume(g: Guild, level: int): Guild
  {
    var capped := ClampVolume(level);
    var g1 := g.(volume := Some(capped));
    if Busy(g1) && g1.current.Some? then g1.(current := Some(g1.current.value.(volume := capped))) else g1
  }

  function ToggleAutoplay(g: Guild): (r: Guild)
    ensures AutoplayOf(r) == !AutoplayOf(g) && r == g.(autoplay := r.autoplay)
  {
    g.(autoplay := Some(!AutoplayOf(g)))
  }

  /** A queue edit: the queue is created if missing, then replaced when the edit is in range. */
  function EditQueue(g: Guild, edited: Option<seq<Query>>): Guild
  {
    g.(queue := Some(edited.GetOr(QueueOf(g))))
  }

  function Remove(g: Guild, idx: int): Guild
  {
    var r := QueueEdits.RemoveAt(QueueOf(g), idx);
    EditQueue(g, if r.Some? then Some(r.value.rest) else None)
  }

  function Move(g: Guild, frm: int, to: int): Guild
  {
    EditQueue(g, QueueEdits.Move(QueueOf(g), frm, to))
  }

  function Swap(g: Guild, a: int, b: int): Guild
  {
    EditQueue(g, QueueEdits.Swap(QueueOf(g), a, b))
  }

  function Clear(g: Guild): Guild
  {
    g.(queue := Some([]))
  }

  /** The voice client's after-callback: when still connected, play_next with the stored text channel. */
  function SafePlayNext(g: Guild, env: Env, fuel: nat): Step
  {
    if g.voice.None? then Step(g, NoVoice)
    else PlayNext(g.(voice := Some(Idle)), g.channel, false, env, fuel)
  }
}
