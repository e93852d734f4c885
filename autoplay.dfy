/**
 * `_find_related_song`: propose a continuation when the queue runs dry.
 * Two search stages, each over up to five results: a targeted one
 * ("<artist> official audio", or "<title> official audio" when no artist is
 * detected) and a fallback ("related to <title>"). A result is taken when it
 * has a non-empty title that neither contains nor is contained in any of the
 * last ten history titles, compared lower-cased. Every exception the body can
 * raise (a search that fails, a title that is None) ends in "no proposal".
 * The searches are the function `search` from query text to extraction.
 */
module Autoplay {
  import opened Wrappers
  import PyStr
  import Ytdl

  /** A track title as the bot stores it: `data.get("title")`, so possibly None. */
  type Title = Option<string>

  /** The separators tried in order; the second is an em dash as the source spells it (its UTF-8 bytes read as cp1252). */
  const Separators: seq<string> := ["-", "\U{E2}\U{20AC}\U{201D}", "by", "ft.", "feat."]

  predicate NonEmptyAll(seps: seq<string>)
  {
    forall i :: 0 <= i < |seps| ==> seps[i] != []
  }

  /**
   * The artist part of a title: for the first separator that occurs with a
   * space on each side in the lower-cased title, the stripped text before the
   * first occurrence of the bare separator in the original title; "" when no
   * separator occurs.
   */
  function ArtistFrom(title: string, seps: seq<string>): (artist: string)
    requires NonEmptyAll(seps)
    ensures artist != [] ==> exists i :: 0 <= i < |seps| && PyStr.Contains(PyStr.Lower(title), " " + seps[i] + " ")
    ensures PyStr.Contains(title, artist)
  {
    if seps == [] then PyStr.EmptyIsContained(title); ""
    else if PyStr.Contains(PyStr.Lower(title), " " + seps[0] + " ") then
      var head := PyStr.SplitHead(title, seps[0]);
      var artist := PyStr.Strip(head);
      PyStr.ContainsInPrefix(title, head, artist);
      artist
    else ArtistFrom(title, seps[1..])
  }

  /** The separator scan of lines 169-175, a loop that stops at the first separator found. */
  method DetectArtist(title: string) returns (artist: string)
    ensures artist == ArtistFrom(title, Separators)
  {
    artist := "";
    var lowerTitle := PyStr.Lower(title);
    var i := 0;
    while i < |Separators|
      invariant 0 <= i <= |Separators|
      invariant ArtistFrom(title, Separators) == ArtistFrom(title, Separators[i..])
      invariant artist == ""
    {
      var sep := Separators[i];
      if PyStr.Contains(lowerTitle, " " + sep + " ") {
        artist := PyStr.Strip(PyStr.SplitHead(title, sep));
        break;
      }
      assert Separators[i..][1..] == Separators[i + 1..];
      i := i + 1;
    }
  }

  /** The text of the targeted search. */
  function SearchTerm(title: string): string
  {
    var artist := ArtistFrom(title, Separators);
    (if artist != [] then artist else title) + " official audio"
  }

  function TargetedQuery(title: string): string
  {
    "ytsearch5:" + SearchTerm(title)
  }

  function FallbackQuery(title: string): string
  {
    "ytsearch5:related to " + title
  }

  /** `history[-10:]`. */
  function LastTen(history: seq<Title>): (r: seq<Title>)
    ensures |r| == if |history| < 10 then |history| else 10
    ensures forall i :: 0 <= i < |r| ==> r[i] == history[|history| - |r| + i]
  {
    if |history| <= 10 then history else history[|history| - 10..]
  }

  /** The titles lower-cased, or None when one is None (`.lower()` on None raises). */
  function LowerAll(titles: seq<Title>): (r: Option<seq<string>>)
    ensures r.Some? <==> forall i :: 0 <= i < |titles| ==> titles[i].Some?
    ensures r.Some? ==> |r.value| == |titles|
    ensures r.Some? ==> forall i :: 0 <= i < |titles| ==> r.value[i] == PyStr.Lower(titles[i].value)
  {
    if titles == [] then Some([])
    else if titles[0].None? then None
    else
      match LowerAll(titles[1..])
      case None => None
      case Some(rest) => Some([PyStr.Lower(titles[0].value)] + rest)
  }

  /** `[h.lower() for h in history[-10:]]`. */
  function Recent(history: seq<Title>): Option<seq<string>>
  {
    LowerAll(LastTen(history))
  }

  /** The dedup filter of lines 187-191 and 207-210. */
  predicate Accepts(recent: seq<string>, title: string)
  {
    && title != []
    && forall past :: past in recent ==>
         !PyStr.Contains(past, PyStr.Lower(title)) && !PyStr.Contains(PyStr.Lower(title), past)
  }

  /** `entry.get("title")`. */
  function TitleOf(entry: Ytdl.Info): Option<string>
  {
    if "title" in entry.fields then Some(entry.fields["title"]) else None
  }

  /** The entry is a dict whose title the filter does not take (so the scan goes on past it). */
  predicate Passed(entry: Option<Ytdl.Info>, recent: seq<string>)
  {
    entry.Some? && !(TitleOf(entry.value).Some? && Accepts(recent, TitleOf(entry.value).value))
  }

  /** How a scan over a stage's entries ends. */
  datatype Scan = Accepted(title: string) | Exhausted | Crashed

  /** The entries in order: the first accepted title, or the end of the list, or an entry that is None (`None.get` raises). */
  function FirstAccepted(entries: seq<Option<Ytdl.Info>>, recent: seq<string>): Scan
  {
    if entries == [] then Exhausted
    else if entries[0].None? then Crashed
    else
      var t := TitleOf(entries[0].value);
      if t.Some? && Accepts(recent, t.value) then Accepted(t.value)
      else FirstAccepted(entries[1..], recent)
  }

  /** The `for entry in data["entries"]` loop, which returns the first title the filter takes. */
  method ScanEntries(entries: seq<Option<Ytdl.Info>>, recent: seq<string>) returns (s: Scan)
    ensures s == FirstAccepted(entries, recent)
  {
    var i := 0;
    while i < |entries|
      invariant 0 <= i <= |entries|
      invariant FirstAccepted(entries, recent) == FirstAccepted(entries[i..], recent)
    {
      if entries[i].None? {
        return Crashed;
      }
      var t := TitleOf(entries[i].value);
      if t.Some? && Accepts(recent, t.value) {
        return Accepted(t.value);
      }
      assert entries[i..][1..] == entries[i + 1..];
      i := i + 1;
    }
    return Exhausted;
  }

  /** `data and "entries" in data and data["entries"]`. */
  predicate HasEntries(e: Ytdl.Extraction)
  {
    e.Returned? && e.data.Some? && e.data.value.entries.Some? && e.data.value.entries.value != []
  }

  /** One stage's scan: the recent titles are computed first, and a None among them raises. */
  function Stage(e: Ytdl.Extraction, history: seq<Title>): Scan
    requires HasEntries(e)
  {
    match Recent(history)
    case None => Crashed
    case Some(recent) => FirstAccepted(e.data.value.entries.value, recent)
  }

  /** What `_find_related_song(title, history)` returns. */
  function Propose(title: Title, history: seq<Title>, search: string -> Ytdl.Extraction): Option<string>
  {
    if title.None? then None
    else
      var t := title.value;
      var first := search(TargetedQuery(t));
      if first.Raised? then None
      else
        var stage1 := if HasEntries(first) then Stage(first, history) else Exhausted;
        match stage1
        case Accepted(x) => Some(x)
        case Crashed => None
        case Exhausted =>
          var second := search(FallbackQuery(t));
          if !HasEntries(second) then None
          else
            match Stage(second, history)
            case Accepted(x) => Some(x)
            case _ => None
  }

  /** `_find_related_song` step by step: the separator scan, the targeted stage, then the fallback. */
  method FindRelatedSong(title: Title, history: seq<Title>, search: string -> Ytdl.Extraction)
    returns (r: Option<string>)
    ensures r == Propose(title, history, search)
  {
    if title.None? {
      return None;
    }
    var t := title.value;
    var artist := DetectArtist(t);
    var term := if artist != [] then artist + " official audio" else t + " official audio";
    var data := search("ytsearch5:" + term);
    if data.Raised? {
      return None;
    }
    if HasEntries(data) {
      var recent := Recent(history);
      if recent.None? {
        return None;
      }
      var found := ScanEntries(data.data.value.entries.value, recent.value);
      if found.Accepted? {
        return Some(found.title);
      }
      if found.Crashed? {
        return None;
      }
    }
    var fallback := search(FallbackQuery(t));
    if !HasEntries(fallback) {
      return None;
    }
    var recent := Recent(history);
    if recent.None? {
      return None;
    }
    var found := ScanEntries(fallback.data.value.entries.value, recent.value);
    r := if found.Accepted? then Some(found.title) else None;
  }

  /** Entry i is where the scan takes x: its title x passes the filter and every entry before it is a dict the filter passes over. */
  predicate HitAt(entries: seq<Option<Ytdl.Info>>, recent: seq<string>, x: string, i: int)
  {
    && 0 <= i < |entries|
    && entries[i].Some? && TitleOf(entries[i].value) == Some(x) && Accepts(recent, x)
    && forall j :: 0 <= j < i ==> Passed(entries[j], recent)
  }

  /** The scan takes x exactly when x is the title at the first entry the filter takes, with no None entry before it. */
  lemma {:induction false} FirstAcceptedIff(entries: seq<Option<Ytdl.Info>>, recent: seq<string>, x: string)
    ensures FirstAccepted(entries, recent) == Accepted(x) <==> exists i :: HitAt(entries, recent, x, i)
    decreases |entries|
  {
    if entries == [] {
    } else if entries[0].None? {
      forall i | 0 < i < |entries|
        ensures !HitAt(entries, recent, x, i)
      {
        assert !Passed(entries[0], recent);
      }
    } else {
      var t := TitleOf(entries[0].value);
      if t.Some? && Accepts(recent, t.value) {
        if FirstAccepted(entries, recent) == Accepted(x) {
          assert HitAt(entries, recent, x, 0);
        }
        if exists i :: HitAt(entries, recent, x, i) {
          var i :| HitAt(entries, recent, x, i);
          assert i == 0 || Passed(entries[0], recent);
        }
      } else {
        FirstAcceptedIff(entries[1..], recent, x);
        if FirstAccepted(entries, recent) == Accepted(x) {
          var i :| HitAt(entries[1..], recent, x, i);
          assert HitAt(entries, recent, x, i + 1);
        }
        if exists i :: HitAt(entries, recent, x, i) {
          var i :| HitAt(entries, recent, x, i);
          assert i != 0;
          assert HitAt(entries[1..], recent, x, i - 1);
        }
      }
    }
  }

  /** x is the title of one of the entries of e. */
  predicate AmongResults(x: string, e: Ytdl.Extraction)
  {
    HasEntries(e) &&
    exists i :: 0 <= i < |e.data.value.entries.value| &&
      e.data.value.entries.value[i].Some? && TitleOf(e.data.value.entries.value[i].value) == Some(x)
  }

  lemma StageAccepts(e: Ytdl.Extraction, history: seq<Title>, x: string)
    requires HasEntries(e) && Stage(e, history) == Accepted(x)
    ensures AmongResults(x, e) && Recent(history).Some? && Accepts(Recent(history).value, x)
  {
    FirstAcceptedIff(e.data.value.entries.value, Recent(history).value, x);
  }

  /**
   * A proposal is a non-empty title one of the two searches returned, and it
   * neither contains nor is contained in any of the last ten history titles
   * (all of which are then titled), compared lower-cased.
   */
  lemma ProposalIsFresh(title: Title, history: seq<Title>, search: string -> Ytdl.Extraction, x: string)
    requires Propose(title, history, search) == Some(x)
    ensures title.Some? && x != []
    ensures AmongResults(x, search(TargetedQuery(title.value))) || AmongResults(x, search(FallbackQuery(title.value)))
    ensures forall i :: 0 <= i < |LastTen(history)| ==>
              && LastTen(history)[i].Some?
              && !PyStr.Contains(PyStr.Lower(LastTen(history)[i].value), PyStr.Lower(x))
              && !PyStr.Contains(PyStr.Lower(x), PyStr.Lower(LastTen(history)[i].value))
  {
    var t := title.value;
    var first := search(TargetedQuery(t));
    if HasEntries(first) && Stage(first, history) == Accepted(x) {
      StageAccepts(first, history, x);
    } else {
      StageAccepts(search(FallbackQuery(t)), history, x);
    }
    var recent := Recent(history).value;
    forall i | 0 <= i < |LastTen(history)|
      ensures LastTen(history)[i].Some?
      ensures !PyStr.Contains(PyStr.Lower(LastTen(history)[i].value), PyStr.Lower(x))
      ensures !PyStr.Contains(PyStr.Lower(x), PyStr.Lower(LastTen(history)[i].value))
    {
      assert recent[i] in recent;
    }
  }

  /** When the targeted search yields an accepted title, that title is the proposal and the fallback search plays no part. */
  lemma TargetedStageFirst(t: string, history: seq<Title>, search1: string -> Ytdl.Extraction, search2: string -> Ytdl.Extraction, x: string)
    requires search1(TargetedQuery(t)) == search2(TargetedQuery(t))
    requires HasEntries(search1(TargetedQuery(t))) && Stage(search1(TargetedQuery(t)), history) == Accepted(x)
    ensures Propose(Some(t), history, search1) == Some(x)
    ensures Propose(Some(t), history, search2) == Some(x)
  {
  }

  /** A None title among the last ten history entries makes every proposal fail: the comprehension raises. */
  lemma UntitledRecentHistoryStops(title: Title, history: seq<Title>, search: string -> Ytdl.Extraction)
    requires exists i :: 0 <= i < |LastTen(history)| && LastTen(history)[i].None?
    ensures Propose(title, history, search) == None
  {
    assert Recent(history).None?;
  }

  /**
   * With no history the filter takes the first entry with a non-empty title,
   * provided every entry before it is a dict (an untitled one or one titled "").
   */
  lemma EmptyHistoryTakesFirstTitle(t: string, search: string -> Ytdl.Extraction, x: string, k: nat)
    requires HasEntries(search(TargetedQuery(t)))
    requires var es := search(TargetedQuery(t)).data.value.entries.value;
      && k < |es| && es[k].Some? && TitleOf(es[k].value) == Some(x) && x != []
      && forall j :: 0 <= j < k ==> es[j].Some? && (TitleOf(es[j].value).None? || TitleOf(es[j].value) == Some([]))
    ensures Propose(Some(t), [], search) == Some(x)
  {
    var es := search(TargetedQuery(t)).data.value.entries.value;
    assert Recent([]) == Some([]);
    assert HitAt(es, [], x, k);
    FirstAcceptedIff(es, [], x);
  }

  /** The dedup filter is by substring: after "Song A Remix", "Song A Remix (Official Video)" is refused. */
  lemma RemixIsRefused()
    ensures !Accepts(Recent([Some("Song A Remix")]).value, "Song A Remix (Official Video)")
  {
    var past := PyStr.Lower("Song A Remix");
    var cand := PyStr.Lower("Song A Remix (Official Video)");
    assert past == "song a remix";
    assert cand[..12] == "song a remix";
    assert past <= cand;
    assert PyStr.Contains(cand, past);
    assert Recent([Some("Song A Remix")]).value == [past];
    assert past in Recent([Some("Song A Remix")]).value;
  }

  /** A separator that does not occur spaced in the lower-cased title is passed over. */
  lemma ArtistFromSkips(title: string, seps: seq<string>)
    requires NonEmptyAll(seps) && seps != []
    requires !PyStr.Contains(PyStr.Lower(title), " " + seps[0] + " ")
    ensures ArtistFrom(title, seps) == ArtistFrom(title, seps[1..])
  {
  }

  /** The first separator that occurs spaced decides the artist. */
  lemma ArtistFromTakes(title: string, seps: seq<string>)
    requires NonEmptyAll(seps) && seps != []
    requires PyStr.Contains(PyStr.Lower(title), " " + seps[0] + " ")
    ensures ArtistFrom(title, seps) == PyStr.Strip(PyStr.SplitHead(title, seps[0]))
  {
  }

  lemma HobStripped(a: string)
    requires a == "Hob"
    ensures PyStr.Strip(a) == a
  {
    assert PyStr.StripLeft(a) == a;
    assert PyStr.StripRight(a) == a;
  }

  lemma HobbyLower(t: string)
    requires t == "Hobby by Me"
    ensures PyStr.Lower(t) == "hobby by me"
  {
  }

  lemma HobbyHasNoDash(t: string)
    requires t == "Hobby by Me"
    ensures !PyStr.Contains(PyStr.Lower(t), " " + Separators[0] + " ")
  {
    HobbyLower(t);
    assert " " + Separators[0] + " " == " - ";
    assert '-' !in "hobby by me";
    PyStr.MissingCharNotContained("hobby by me", " - ", '-');
  }

  lemma HobbyHasNoEmDash(t: string)
    requires t == "Hobby by Me"
    ensures !PyStr.Contains(PyStr.Lower(t), " " + Separators[1] + " ")
  {
    HobbyLower(t);
    assert '\U{E2}' in " " + Separators[1] + " ";
    assert '\U{E2}' !in "hobby by me";
    PyStr.MissingCharNotContained("hobby by me", " " + Separators[1] + " ", '\U{E2}');
  }

  lemma HobbyHasSpacedBy(t: string)
    requires t == "Hobby by Me"
    ensures PyStr.Contains(PyStr.Lower(t), " " + Separators[2] + " ")
  {
    HobbyLower(t);
    var lower := "hobby by me";
    assert " " + Separators[2] + " " == " by ";
    assert lower[5..][..4] == " by ";
    PyStr.ContainsIff(lower, " by ");
    assert " by " <= lower[5..];
  }

  lemma HobbySplit(t: string)
    requires t == "Hobby by Me"
    ensures PyStr.SplitHead(t, "by") == "Hob"
  {
    assert t[0] == 'H' && t[1] == 'o' && t[2] == 'b' && t[3] == 'b' && t[4] == 'y';
    assert t[1..][0] == 'o' && t[2..][0] == 'b' && t[2..][1] == 'b';
    assert t[3..][..2] == "by";
  }

  /** The artist is cut at the first occurrence of the bare separator, so it can end inside a word: "Hobby by Me" gives "Hob". */
  lemma ArtistCanEndInsideWord(t: string)
    requires t == "Hobby by Me"
    ensures ArtistFrom(t, Separators) == "Hob"
  {
    var s1, s2 := Separators[1..], Separators[2..];
    assert s1[0] == Separators[1] && s1[1..] == s2 && s2[0] == "by";
    HobbyHasNoDash(t);
    ArtistFromSkips(t, Separators);
    HobbyHasNoEmDash(t);
    ArtistFromSkips(t, s1);
    HobbyHasSpacedBy(t);
    ArtistFromTakes(t, s2);
    HobbySplit(t);
    HobStripped(PyStr.SplitHead(t, "by"));
  }
}
