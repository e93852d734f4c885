/**
 * `YTDLSource.from_query`: turn a search text or link into a playable source.
 * The extraction itself (yt-dlp) and the FFmpeg process are outside the model:
 * the first is the function `extract`, the second the flag `ffmpegStarted`.
 */
module Ytdl {
  import opened Wrappers

  /**
   * The part of a yt-dlp info dict that the code reads: its string-valued keys
   * and, for a playlist or search result, the list under "entries" (whose items
   * may be None).
   */
  datatype Info = Info(fields: map<string, string>, entries: Option<seq<Option<Info>>>)
  {
    /** `not data` for a dict: it has no keys at all. */
    predicate IsEmpty()
    {
      fields == map[] && entries.None?
    }
  }

  /** What one call to `extract_info` did: it raised, or it returned a dict or None. */
  datatype Extraction = Raised | Returned(data: Option<Info>)

  /** The keyword parameters `from_query` declares besides `query`. */
  const FromQueryKeywords: set<string> := {"loop", "speed"}

  /** Python binds a call's keyword arguments only if the callee declares each of them; otherwise the call raises TypeError. */
  predicate AcceptsKeywords(passed: set<string>)
  {
    passed <= FromQueryKeywords
  }

  /** A link is passed through; anything else becomes a top-1 YouTube search. */
  function SearchQuery(query: string): (r: string)
    ensures "http" <= query <==> r == query
    ensures !("http" <= query) ==> r == "ytsearch:" + query
    ensures "http" <= r || "ytsearch:" <= r
    ensures |query| <= |r| && r[|r| - |query|..] == query
  {
    if "http" <= query then query else "ytsearch:" + query
  }

  /** `data["entries"][0]` when data has entries (an IndexError when they are empty), otherwise data. */
  datatype Selection = IndexError | Selected(data: Option<Info>)

  function Select(data: Info): Selection
  {
    match data.entries
    case None => Selected(Some(data))
    case Some(es) => if es == [] then IndexError else Selected(es[0])
  }

  /** The selected data passes `if not data or "url" not in data`. */
  predicate Playable(d: Option<Info>)
  {
    d.Some? && !d.value.IsEmpty() && "url" in d.value.fields
  }

  /** The info dict a source is built from, or None on every path where `from_query` returns None before building. */
  function Chosen(e: Extraction): (d: Option<Info>)
    ensures e.Raised? || e == Returned(None) ==> d.None?
    ensures d.Some? ==> "url" in d.value.fields
    ensures e.Returned? && e.data.Some? && e.data.value.entries.Some? ==>
              var es := e.data.value.entries.value;
              d == if es != [] && es[0].Some? && "url" in es[0].value.fields then es[0] else None
    ensures e.Returned? && e.data.Some? && e.data.value.entries.None? ==>
              d == if "url" in e.data.value.fields then e.data else None
  {
    match e
    case Raised => None
    case Returned(data) =>
      if data.None? then None
      else
        match Select(data.value)
        case IndexError => None
        case Selected(d) => if Playable(d) then d else None
  }

  /** One piece of an FFmpeg option string: literal text, or the text of a float speed (which is never empty). */
  datatype Piece = Text(text: string) | Tempo(speed: real)

  type OptionText = seq<Piece>

  /** The option string is non-empty, i.e. truthy. */
  predicate Truthy(t: OptionText)
  {
    exists i :: 0 <= i < |t| && (t[i].Tempo? || t[i].text != [])
  }

  /** The module-level `ffmpeg_options`. */
  const FfmpegDefaults: map<string, OptionText> :=
    map["before_options" := [Text("-reconnect 1 -reconnect_streamed 1 -reconnect_delay_max 5")],
        "options" := [Text("-vn")]]

  /** `f"atempo={speed}"`. */
  function Atempo(speed: real): OptionText
  {
    [Text("atempo="), Tempo(speed)]
  }

  /**
   * Copy the defaults and, for a speed other than 1.0, add the atempo audio
   * filter to the copy's "options"; the defaults themselves are a value and
   * cannot change.
   */
  method BuildOptions(defaults: map<string, OptionText>, speed: real) returns (opts: map<string, OptionText>)
    ensures speed == 1.0 ==> opts == defaults
    ensures speed != 1.0 ==> opts.Keys == defaults.Keys + {"options"}
    ensures forall k :: k in defaults && k != "options" ==> k in opts && opts[k] == defaults[k]
    ensures speed != 1.0 && "options" in defaults && Truthy(defaults["options"]) ==>
              opts["options"] == defaults["options"] + [Text(" -af ")] + Atempo(speed)
    ensures speed != 1.0 && !("options" in defaults && Truthy(defaults["options"])) ==>
              opts["options"] == [Text("-af ")] + Atempo(speed)
  {
    opts := defaults;
    if speed != 1.0 {
      var atempo := Atempo(speed);
      if "options" in opts && Truthy(opts["options"]) {
        opts := opts["options" := opts["options"] + [Text(" -af ")] + atempo];
      } else {
        opts := opts["options" := [Text("-af ")] + atempo];
      }
    }
  }

  /** The options a speed other than 1.0 gives: the defaults with the atempo filter added to "options". */
  lemma OptionsWithTempo(opts: map<string, OptionText>, speed: real)
    requires opts.Keys == FfmpegDefaults.Keys + {"options"}
    requires forall k :: k in FfmpegDefaults && k != "options" ==> k in opts && opts[k] == FfmpegDefaults[k]
    requires opts["options"] == FfmpegDefaults["options"] + [Text(" -af ")] + Atempo(speed)
    ensures opts == FfmpegDefaults["options" := [Text("-vn"), Text(" -af "), Text("atempo="), Tempo(speed)]]
  {
    var expected := FfmpegDefaults["options" := [Text("-vn"), Text(" -af "), Text("atempo="), Tempo(speed)]];
    assert opts.Keys == expected.Keys;
    assert opts["before_options"] == expected["before_options"];
    assert opts["options"] == expected["options"];
  }

  /** A resolved, playable stream: its URL, title, FFmpeg options and the info dict it came from. */
  datatype Source = Source(url: string, title: Option<string>, options: map<string, OptionText>, data: Info)

  /**
   * `from_query(query, speed=speed)`: None when extraction raises, returns
   * None, gives an empty playlist, or gives data without a "url", and when
   * FFmpeg cannot be started; otherwise a source for the chosen data.
   */
  method FromQuery(query: string, speed: real, extract: string -> Extraction, ffmpegStarted: bool)
    returns (r: Option<Source>)
    ensures r.Some? <==> Chosen(extract(SearchQuery(query))).Some? && ffmpegStarted
    ensures r.Some? ==>
              var d := Chosen(extract(SearchQuery(query))).value;
              && r.value.data == d
              && r.value.url == d.fields["url"]
              && r.value.title == (if "title" in d.fields then Some(d.fields["title"]) else None)
    ensures r.Some? && speed == 1.0 ==> r.value.options == FfmpegDefaults
    ensures r.Some? && speed != 1.0 ==>
              r.value.options == FfmpegDefaults["options" := [Text("-vn"), Text(" -af "), Text("atempo="), Tempo(speed)]]
  {
    var q := SearchQuery(query);
    var e := extract(q);
    if e.Raised? || e.data.None? {
      return None;
    }
    var selection := Select(e.data.value);
    if selection.IndexError? || !Playable(selection.data) {
      return None;
    }
    assert Truthy(FfmpegDefaults["options"]) by {
      assert FfmpegDefaults["options"][0].text != [];
    }
    var opts := BuildOptions(FfmpegDefaults, speed);
    if speed != 1.0 {
      OptionsWithTempo(opts, speed);
    }
    if !ffmpegStarted {
      return None;
    }
    var d := selection.data.value;
    var title := if "title" in d.fields then Some(d.fields["title"]) else None;
    r := Some(Source(d.fields["url"], title, opts, d));
  }
}
