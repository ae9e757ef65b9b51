/**
 * The match loop of `transfer_playlist_generator` (app.py): one Spotify
 * search per titled YouTube Music track, collecting the first hit's id;
 * untitled tracks and failed or empty searches are skipped with a warning.
 */
module Matching {
  import opened Wrappers
  import opened PyStr
  import opened Events

  /** What `sp_client.search(q=title, type='track', limit=1)` gives the loop. */
  datatype SearchOutcome =
    | Found(id: string, name: string)  // first item of a non-empty result
    | NotFound                          // the result's item list is empty
    | Failed(message: string)           // the search call, or reading its result, raised

  /** `not title`: a track whose title is missing or empty. */
  predicate Untitled(title: Option<string>) {
    title.None? || title.value == ""
  }

  const CrossMark := "\U{274C}"
  const CheckMark := "\U{2705}"
  const NoMatchReason := "No matching track found on Spotify."

  function UntitledMessage(i: nat, total: nat): string {
    CrossMark + " Skipped track " + NatToString(i + 1) + "/" + NatToString(total) + ": No title found for an entry."
  }

  function SearchingMessage(title: string): string {
    "Searching Spotify for '" + title + "'..."
  }

  function FoundMessage(name: string, title: string): string {
    CheckMark + " Found match: '" + name + "' (YouTube: '" + title + "')"
  }

  function SkippedMessage(title: string, reason: string): string {
    CrossMark + " Skipped: '" + title + "' (" + reason + ")"
  }

  /** The reason a search gave no match; the empty result is raised as an exception with a fixed text. */
  function Reason(r: SearchOutcome): string
    requires !r.Found?
  {
    if r.NotFound? then NoMatchReason else r.message
  }

  /** What the loop yields for the track at 0-based position `i` of `total`. */
  function TrackEvents(i: nat, total: nat, title: Option<string>, search: string -> SearchOutcome): seq<Event> {
    if Untitled(title) then [Warning(UntitledMessage(i, total))]
    else
      var r := search(title.value);
      [Info(SearchingMessage(title.value))] +
      if r.Found? then [Success(FoundMessage(r.name, title.value))]
      else [Warning(SkippedMessage(title.value, Reason(r)))]
  }

  /** The titles searched for, in track order. */
  function Queries(tracks: seq<Option<string>>): seq<string> {
    if tracks == [] then []
    else
      var last := tracks[|tracks| - 1];
      Queries(tracks[..|tracks| - 1]) + if Untitled(last) then [] else [last.value]
  }

  /** The ids of the first search hits, in track order. */
  function MatchedIds(tracks: seq<Option<string>>, search: string -> SearchOutcome): seq<string> {
    if tracks == [] then []
    else
      var last := tracks[|tracks| - 1];
      MatchedIds(tracks[..|tracks| - 1], search) +
      if !Untitled(last) && search(last.value).Found? then [search(last.value).id] else []
  }

  /** The number of tracks skipped: untitled, or without a search hit. */
  function SkipCount(tracks: seq<Option<string>>, search: string -> SearchOutcome): nat {
    if tracks == [] then 0
    else
      var last := tracks[|tracks| - 1];
      SkipCount(tracks[..|tracks| - 1], search) +
      if Untitled(last) || !search(last.value).Found? then 1 else 0
  }

  /** The events of the loop over `tracks`, the first `|tracks|` of `total`. */
  function MatchEvents(tracks: seq<Option<string>>, search: string -> SearchOutcome, total: nat): seq<Event> {
    if tracks == [] then []
    else
      MatchEvents(tracks[..|tracks| - 1], search, total) +
      TrackEvents(|tracks| - 1, total, tracks[|tracks| - 1], search)
  }

  /**
   * The match loop (app.py:145-168): every track is either matched, adding
   * one id to `toAdd`, or skipped, adding one to `skipped`; a failed search
   * never ends the loop.
   */
  method MatchTracks(tracks: seq<Option<string>>, search: string -> SearchOutcome)
    returns (toAdd: seq<string>, skipped: nat, queries: seq<string>, events: seq<Event>)
    ensures toAdd == MatchedIds(tracks, search)
    ensures skipped == SkipCount(tracks, search)
    ensures |toAdd| + skipped == |tracks|
    ensures queries == Queries(tracks)
    ensures events == MatchEvents(tracks, search, |tracks|)
  {
    var total := |tracks|;
    toAdd, skipped, queries, events := [], 0, [], [];
    for i := 0 to total
      invariant toAdd == MatchedIds(tracks[..i], search)
      invariant skipped == SkipCount(tracks[..i], search)
      invariant |toAdd| + skipped == i
      invariant queries == Queries(tracks[..i])
      invariant events == MatchEvents(tracks[..i], search, total)
    {
      assert tracks[..i + 1][..i] == tracks[..i];
      var title := tracks[i];
      if Untitled(title) {
        events := events + [Warning(UntitledMessage(i, total))];
        skipped := skipped + 1;
      } else {
        events := events + [Info(SearchingMessage(title.value))];
        queries := queries + [title.value];
        var result := search(title.value);
        if result.Found? {
          toAdd := toAdd + [result.id];
          events := events + [Success(FoundMessage(result.name, title.value))];
        } else {
          events := events + [Warning(SkippedMessage(title.value, Reason(result)))];
          skipped := skipped + 1;
        }
      }
    }
    assert tracks[..total] == tracks;
  }
  /** Every track is matched or skipped, never both and never neither. */
  lemma {:induction false} MatchedPlusSkipped(tracks: seq<Option<string>>, search: string -> SearchOutcome)
    ensures |MatchedIds(tracks, search)| + SkipCount(tracks, search) == |tracks|
    ensures |MatchedIds(tracks, search)| <= |Queries(tracks)| <= |tracks|
    decreases |tracks|
  {
    if tracks != [] {
      MatchedPlusSkipped(tracks[..|tracks| - 1], search);
    }
  }

  /**
   * The loop keeps source order: the ids and the queries of a list of tracks
   * are those of its first part followed by those of the rest.
   */
  lemma {:induction false} MatchInOrder(a: seq<Option<string>>, b: seq<Option<string>>, search: string -> SearchOutcome)
    ensures MatchedIds(a + b, search) == MatchedIds(a, search) + MatchedIds(b, search)
    ensures Queries(a + b) == Queries(a) + Queries(b)
    ensures SkipCount(a + b, search) == SkipCount(a, search) + SkipCount(b, search)
    decreases |b|
  {
    if b == [] {
      assert a + b == a;
    } else {
      assert (a + b)[..|a + b| - 1] == a + b[..|b| - 1];
      MatchInOrder(a, b[..|b| - 1], search);
    }
  }

  /** One track on its own: searched iff titled, matched iff the search found something. */
  lemma OneTrack(t: Option<string>, search: string -> SearchOutcome)
    ensures Queries([t]) == if Untitled(t) then [] else [t.value]
    ensures MatchedIds([t], search) ==
      if !Untitled(t) && search(t.value).Found? then [search(t.value).id] else []
    ensures SkipCount([t], search) == if Untitled(t) || !search(t.value).Found? then 1 else 0
  {
    assert [t][..0] == [];
  }

  /** The queries are exactly the titles of the titled tracks: untitled tracks are never searched. */
  lemma {:induction false} QueriesAreTitles(tracks: seq<Option<string>>, q: string)
    ensures q in Queries(tracks) <==> q != "" && Some(q) in tracks
    decreases |tracks|
  {
    if tracks != [] {
      var init := tracks[..|tracks| - 1];
      QueriesAreTitles(init, q);
      assert tracks == init + [tracks[|tracks| - 1]];
    }
  }

  /** Each matched id is the first hit of a search for some titled track, and each such hit is added. */
  lemma {:induction false} MatchedIdsAreHits(tracks: seq<Option<string>>, search: string -> SearchOutcome, id: string)
    ensures id in MatchedIds(tracks, search) <==>
      exists t :: t in tracks && !Untitled(t) && search(t.value).Found? && search(t.value).id == id
    decreases |tracks|
  {
    if tracks != [] {
      var init := tracks[..|tracks| - 1];
      var last := tracks[|tracks| - 1];
      MatchedIdsAreHits(init, search, id);
      assert tracks == init + [last];
      if exists t :: t in tracks && !Untitled(t) && search(t.value).Found? && search(t.value).id == id {
        var t :| t in tracks && !Untitled(t) && search(t.value).Found? && search(t.value).id == id;
        if t != last {
          assert t in init;
        }
      }
    }
  }

  /** The events of one track, counted by kind. */
  lemma TrackEventCounts(i: nat, total: nat, t: Option<string>, search: string -> SearchOutcome)
    ensures var te := TrackEvents(i, total, t, search);
      var found := !Untitled(t) && search(t.value).Found?;
      |te| == (if Untitled(t) then 1 else 2) &&
      CountKind(te, InfoKind) == (if Untitled(t) then 0 else 1) &&
      CountKind(te, SuccessKind) == (if found then 1 else 0) &&
      CountKind(te, WarningKind) == (if found then 0 else 1) &&
      CountKind(te, ErrorKind) == 0 && CountKind(te, CompleteKind) == 0 &&
      (Untitled(t) ==> te[0].Warning?) &&
      (!Untitled(t) ==>
        te[0] == Info(SearchingMessage(t.value)) && Kind(te[1]) == (if found then SuccessKind else WarningKind))
  {
    var te := TrackEvents(i, total, t, search);
    forall kind: EventKind
      ensures CountKind(te, kind) ==
        if |te| == 1 then (if Kind(te[0]) == kind then 1 else 0)
        else (if Kind(te[0]) == kind then 1 else 0) + (if Kind(te[1]) == kind then 1 else 0)
    {
      if |te| == 1 {
        CountKindOne(te[0], kind);
      } else {
        assert te == [te[0], te[1]];
        CountKindTwo(te[0], te[1], kind);
      }
    }
  }

  /**
   * The loop's events: one per untitled track, two per titled one; a success
   * per match, a warning per skip, and never an error or a completion.
   */
  lemma {:induction false} MatchEventCounts(tracks: seq<Option<string>>, search: string -> SearchOutcome, total: nat)
    ensures var events := MatchEvents(tracks, search, total);
      |events| == |tracks| + |Queries(tracks)| &&
      CountKind(events, SuccessKind) == |MatchedIds(tracks, search)| &&
      CountKind(events, WarningKind) == SkipCount(tracks, search) &&
      CountKind(events, ErrorKind) == 0 && CountKind(events, CompleteKind) == 0 &&
      CountKind(events, InfoKind) == |Queries(tracks)|
    decreases |tracks|
  {
    if tracks != [] {
      var init := tracks[..|tracks| - 1];
      var last := tracks[|tracks| - 1];
      MatchEventCounts(init, search, total);
      var before := MatchEvents(init, search, total);
      var te := TrackEvents(|tracks| - 1, total, last, search);
      TrackEventCounts(|tracks| - 1, total, last, search);
      CountKindAppend(before, te, InfoKind);
      CountKindAppend(before, te, SuccessKind);
      CountKindAppend(before, te, WarningKind);
      CountKindAppend(before, te, ErrorKind);
      CountKindAppend(before, te, CompleteKind);
    }
  }
}
