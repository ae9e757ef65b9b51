/**
 * `transfer_playlist_generator` (app.py): connect to YouTube Music, read the
 * source playlist, match each track on Spotify, write the matches in batches
 * and report every step as a `kind:payload` event, in order.
 */
module Transfer {
  import opened Wrappers
  import opened PyStr
  import opened Events
  import opened PlaylistUrl
  import opened Matching
  import opened Batching

  /** What `ytmusic.get_playlist(id, limit=100)` gives the generator. */
  datatype FetchOutcome =
    | Fetched(tracks: Option<seq<Option<string>>>)  // None: no data, or no 'tracks' entry
    | FetchRaised(valueError: bool, message: string)

  /** The answers of the remote services during one run. */
  datatype Remote = Remote(
    initError: Option<string>,          // what `YTMusic()` raises, if anything
    fetch: string -> FetchOutcome,
    search: string -> SearchOutcome,
    writeFailure: Option<WriteFailure>)

  /** The remote calls one run makes: the fetched playlist id, the searches, the write batches. */
  datatype Calls = Calls(fetched: Option<string>, queries: seq<string>, writes: seq<seq<string>>)

  const ConnectingMessage := "Connecting to YouTube Music API..."
  const FetchingMessage := "Fetching YouTube Music playlist data..."
  const EmptyPlaylistMessage := "No tracks found in the YouTube Music playlist or playlist is empty."
  const NothingToTransfer := "No tracks to transfer."

  function InitErrorMessage(m: string): string {
    "YouTube Music API Initialization Error: " + m
  }

  function ExtractErrorMessage(m: string): string {
    "Error extracting playlist ID: " + m
  }

  function FetchErrorMessage(m: string): string {
    "Error fetching playlist data: " + m
  }

  function AttemptMessage(n: nat): string {
    "Attempting to transfer " + NatToString(n) + " tracks from YouTube Music to Spotify..."
  }

  function ConcludedMessage(added: nat, skipped: nat): string {
    "Transfer process concluded. Added: " + NatToString(added) + ", Skipped: " + NatToString(skipped) + "."
  }

  /** The source tracks of a fetch that did not raise; no data counts as no tracks. */
  function Tracks(data: FetchOutcome): seq<Option<string>>
    requires data.Fetched?
  {
    if data.tracks.None? then [] else data.tracks.value
  }

  /** What a whole run gives: the events in order, the remote calls, the final counters. */
  datatype Run = Run(events: seq<Event>, calls: Calls, added: nat, skipped: nat)

  /** A run that stops with an error before any search. */
  function Stopped(events: seq<Event>, fetched: Option<string>): Run {
    Run(events, Calls(fetched, [], []), 0, 0)
  }

  /** The run after the announcement: the match loop, the write phase, the summary, the completion. */
  function Transfers(tracks: seq<Option<string>>, search: string -> SearchOutcome, failure: Option<WriteFailure>): Run {
    var w := Write(MatchedIds(tracks, search), failure);
    var skipped := SkipCount(tracks, search);
    Run(MatchEvents(tracks, search, |tracks|) + w.events + [Info(ConcludedMessage(w.added, skipped)), Complete("")],
        Calls(None, Queries(tracks), w.writes), w.added, skipped)
  }

  /**
   * The run, stage by stage as the generator takes them, given what the two
   * URLs read as: connect, check the YouTube Music id, fetch, only then check
   * the Spotify id, then transfer. A ValueError raised by the fetch lands in
   * the extraction handler.
   */
  function Stages(yt: Extraction, sp: Extraction, remote: Remote): Run
    requires !yt.NoPlatform? && !sp.NoPlatform?
  {
    var connecting := Info(ConnectingMessage);
    if remote.initError.Some? then
      Stopped([connecting, Error(InitErrorMessage(remote.initError.value))], None)
    else if yt.ValueError? then
      Stopped([connecting, Error(ExtractErrorMessage(yt.message))], None)
    else
      var fetching := Info(FetchingMessage);
      var data := remote.fetch(yt.id);
      if data.FetchRaised? then
        var message := if data.valueError then ExtractErrorMessage(data.message) else FetchErrorMessage(data.message);
        Stopped([connecting, fetching, Error(message)], Some(yt.id))
      else if sp.ValueError? then
        Stopped([connecting, fetching, Error(ExtractErrorMessage(sp.message))], Some(yt.id))
      else if Tracks(data) == [] then
        Run([connecting, fetching, Info(EmptyPlaylistMessage), Complete(NothingToTransfer)],
            Calls(Some(yt.id), [], []), 0, 0)
      else
        var tracks := Tracks(data);
        var r := Transfers(tracks, remote.search, remote.writeFailure);
        r.(events := [connecting, fetching, Info(AttemptMessage(|tracks|))] + r.events,
           calls := r.calls.(fetched := Some(yt.id)))
  }

  /** The whole run from the two URLs. */
  function TransferRun(ytmusicUrl: string, spotifyUrl: string, remote: Remote): Run {
    Stages(ExtractPlaylistId(ytmusicUrl, "ytmusic"), ExtractPlaylistId(spotifyUrl, "spotify"), remote)
  }

  /**
   * The run ends with an error before any search: the client cannot start,
   * the YouTube Music id is bad, the fetch raises, or the Spotify id is bad.
   */
  predicate Aborts(yt: Extraction, sp: Extraction, remote: Remote) {
    remote.initError.Some? || !yt.PlaylistId? || remote.fetch(yt.id).FetchRaised? || !sp.PlaylistId?
  }

  /** The source tracks of a run that gets past the fetch. */
  function RunTracks(yt: Extraction, remote: Remote): seq<Option<string>>
    requires yt.PlaylistId? && remote.fetch(yt.id).Fetched?
  {
    Tracks(remote.fetch(yt.id))
  }

  /**
   * The generator, run to the end (app.py:106-188): the events it yields in
   * order, the remote calls it makes, and its final `added_count` and
   * `skipped_count`, as `TransferRun` describes them.
   */
  method TransferPlaylist(ytmusicUrl: string, spotifyUrl: string, remote: Remote)
    returns (events: seq<Event>, calls: Calls, added: nat, skipped: nat)
    ensures Run(events, calls, added, skipped) == TransferRun(ytmusicUrl, spotifyUrl, remote)
  {
    var connecting := Info(ConnectingMessage);
    calls, added, skipped := Calls(None, [], []), 0, 0;
    if remote.initError.Some? {
      events := [connecting, Error(InitErrorMessage(remote.initError.value))];
      return;
    }
    var yt := ExtractPlaylistId(ytmusicUrl, "ytmusic");
    if !yt.PlaylistId? {
      events := [connecting, Error(ExtractErrorMessage(yt.message))];
      return;
    }
    var fetching := Info(FetchingMessage);
    calls := calls.(fetched := Some(yt.id));
    var data := remote.fetch(yt.id);
    if data.FetchRaised? {
      var message := if data.valueError then ExtractErrorMessage(data.message) else FetchErrorMessage(data.message);
      events := [connecting, fetching, Error(message)];
      return;
    }
    var sp := ExtractPlaylistId(spotifyUrl, "spotify");
    if !sp.PlaylistId? {
      events := [connecting, fetching, Error(ExtractErrorMessage(sp.message))];
      return;
    }
    var tracks := Tracks(data);
    if tracks == [] {
      events := [connecting, fetching, Info(EmptyPlaylistMessage), Complete(NothingToTransfer)];
      return;
    }
    var rest, queries, writes;
    rest, queries, writes, added, skipped := TransferTracks(tracks, remote.search, remote.writeFailure);
    events := [connecting, fetching, Info(AttemptMessage(|tracks|))] + rest;
    calls := Calls(Some(yt.id), queries, writes);
  }

  method TransferTracks(tracks: seq<Option<string>>, search: string -> SearchOutcome, failure: Option<WriteFailure>)
    returns (events: seq<Event>, queries: seq<string>, writes: seq<seq<string>>, added: nat, skipped: nat)
    ensures Run(events, Calls(None, queries, writes), added, skipped) == Transfers(tracks, search, failure)
  {
    var toAdd, matchEvents;
    toAdd, skipped, queries, matchEvents := MatchTracks(tracks, search);
    var writeEvents;
    added, writes, writeEvents := AddInBatches(toAdd, failure);
    events := matchEvents + writeEvents + [Info(ConcludedMessage(added, skipped)), Complete("")];
  }

  /** Every run opens with the connection notice and yields at least one more event. */
  lemma RunOpens(yt: Extraction, sp: Extraction, remote: Remote)
    requires !yt.NoPlatform? && !sp.NoPlatform?
    ensures var r := Stages(yt, sp, remote);
      |r.events| >= 2 && r.events[0] == Info(ConnectingMessage)
  {
  }

  /** A run that aborts ends in its only error, never completes, and makes no search and no write. */
  lemma AbortedRunEnds(yt: Extraction, sp: Extraction, remote: Remote)
    requires !yt.NoPlatform? && !sp.NoPlatform?
    requires Aborts(yt, sp, remote)
    ensures var r := Stages(yt, sp, remote);
      Last(r.events).Error? && CountKind(r.events, ErrorKind) == 1 && CountKind(r.events, CompleteKind) == 0 &&
      r.calls.queries == [] && r.calls.writes == [] && r.added == 0 && r.skipped == 0
  {
    var r := Stages(yt, sp, remote);
    var n := |r.events| - 1;
    assert r.events == r.events[..n] + [Error(r.events[n].payload)];
    EndsInError(r.events[..n], r.events[n].payload);
  }

  /** A run that does not abort ends in its only completion. */
  lemma CompletedRunEnds(yt: Extraction, sp: Extraction, remote: Remote)
    requires !yt.NoPlatform? && !sp.NoPlatform?
    requires !Aborts(yt, sp, remote)
    ensures var r := Stages(yt, sp, remote);
      Last(r.events).Complete? && CountKind(r.events, CompleteKind) == 1
  {
    if RunTracks(yt, remote) == [] {
      var r := Stages(yt, sp, remote);
      assert r.events == r.events[..3] + [Complete(NothingToTransfer)];
      EndsInComplete(r.events[..3], NothingToTransfer);
    } else {
      TransferEnds(yt, sp, remote);
      var r := Stages(yt, sp, remote);
      assert Last(r.events) == r.events[|r.events| - 2..][1];
    }
  }

  /** Before the fetch: a client that cannot start or a bad YouTube Music id stops the run, nothing fetched. */
  lemma NoFetchWithoutPlaylistId(yt: Extraction, sp: Extraction, remote: Remote)
    requires !yt.NoPlatform? && !sp.NoPlatform?
    ensures var r := Stages(yt, sp, remote);
      r.calls.fetched.None? <==> remote.initError.Some? || yt.ValueError?
    ensures var r := Stages(yt, sp, remote);
      r.calls.fetched.Some? ==> yt.PlaylistId? && r.calls.fetched.value == yt.id
    ensures var r := Stages(yt, sp, remote);
      remote.initError.None? && yt.ValueError? ==> Last(r.events) == Error(ExtractErrorMessage(yt.message))
  {
  }

  /**
   * The Spotify id is checked only after the fetch: a bad one still costs a
   * fetch, and is not reported at all when the fetch raises. A ValueError
   * from the fetch is reported as an extraction error.
   */
  lemma SpotifyUrlCheckedAfterFetch(yt: Extraction, sp: Extraction, remote: Remote)
    requires yt.PlaylistId? && !sp.NoPlatform? && remote.initError.None?
    ensures var r := Stages(yt, sp, remote);
      var f := remote.fetch(yt.id);
      r.calls.fetched == Some(yt.id) && r.events[1] == Info(FetchingMessage) &&
      (f.FetchRaised? ==>
        Last(r.events) == Error(if f.valueError then ExtractErrorMessage(f.message) else FetchErrorMessage(f.message))) &&
      (f.Fetched? && sp.ValueError? ==> Last(r.events) == Error(ExtractErrorMessage(sp.message)))
  {
  }

  /** A playlist with no tracks, or no data at all, ends the run with "No tracks to transfer." and no search. */
  lemma EmptyPlaylistRun(yt: Extraction, sp: Extraction, remote: Remote)
    requires !yt.NoPlatform? && !sp.NoPlatform?
    requires !Aborts(yt, sp, remote) && RunTracks(yt, remote) == []
    ensures var r := Stages(yt, sp, remote);
      r.events[2..] == [Info(EmptyPlaylistMessage), Complete(NothingToTransfer)] &&
      r.calls.queries == [] && r.calls.writes == [] && r.added == 0 && r.skipped == 0
  {
  }

  /**
   * A run that gets to the transfer: it announces the track count, searches
   * every titled track, skips the rest, and adds every match unless a batch
   * write fails, in which case it adds exactly the batches before it.
   */
  lemma TransferCounts(yt: Extraction, sp: Extraction, remote: Remote)
    requires !yt.NoPlatform? && !sp.NoPlatform?
    requires !Aborts(yt, sp, remote) && RunTracks(yt, remote) != []
    ensures var r := Stages(yt, sp, remote);
      var tracks := RunTracks(yt, remote);
      var ids := MatchedIds(tracks, remote.search);
      r.events[2] == Info(AttemptMessage(|tracks|)) &&
      r.calls.fetched == Some(yt.id) && r.calls.queries == Queries(tracks) &&
      r.skipped == SkipCount(tracks, remote.search) && |ids| + r.skipped == |tracks| &&
      r.added <= |ids| && (r.added == |ids| <==> !FailsAt(ids, remote.writeFailure)) &&
      (!FailsAt(ids, remote.writeFailure) ==> Flatten(r.calls.writes) == ids)
  {
    var tracks := RunTracks(yt, remote);
    MatchedPlusSkipped(tracks, remote.search);
    WriteAccounts(MatchedIds(tracks, remote.search), remote.writeFailure);
    TransferStage(yt, sp, remote);
  }

  /**
   * A run that gets to the transfer ends with the summary and one completion;
   * it holds an error exactly when a batch write failed.
   */
  lemma TransferEnds(yt: Extraction, sp: Extraction, remote: Remote)
    requires !yt.NoPlatform? && !sp.NoPlatform?
    requires !Aborts(yt, sp, remote) && RunTracks(yt, remote) != []
    ensures var r := Stages(yt, sp, remote);
      var ids := MatchedIds(RunTracks(yt, remote), remote.search);
      CountKind(r.events, ErrorKind) == (if FailsAt(ids, remote.writeFailure) then 1 else 0) &&
      CountKind(r.events, CompleteKind) == 1 &&
      r.events[|r.events| - 2..] == [Info(ConcludedMessage(r.added, r.skipped)), Complete("")]
  {
    var tracks := RunTracks(yt, remote);
    TransfersCounts(tracks, remote.search, remote.writeFailure);
    var t := Transfers(tracks, remote.search, remote.writeFailure);
    OpenedCounts([Info(ConnectingMessage), Info(FetchingMessage), Info(AttemptMessage(|tracks|))], t.events);
    TransferStage(yt, sp, remote);
  }

  /** A run that reaches the transfer is the announcement followed by `Transfers`. */
  lemma TransferStage(yt: Extraction, sp: Extraction, remote: Remote)
    requires !yt.NoPlatform? && !sp.NoPlatform?
    requires !Aborts(yt, sp, remote) && RunTracks(yt, remote) != []
    ensures var tracks := RunTracks(yt, remote);
      var t := Transfers(tracks, remote.search, remote.writeFailure);
      Stages(yt, sp, remote) ==
        Run([Info(ConnectingMessage), Info(FetchingMessage), Info(AttemptMessage(|tracks|))] + t.events,
            Calls(Some(yt.id), t.calls.queries, t.calls.writes), t.added, t.skipped)
  {
  }

  /** The events after the announcement: errors from the write phase only, one completion at the end. */
  lemma TransfersCounts(tracks: seq<Option<string>>, search: string -> SearchOutcome, failure: Option<WriteFailure>)
    ensures var t := Transfers(tracks, search, failure);
      CountKind(t.events, ErrorKind) == (if FailsAt(MatchedIds(tracks, search), failure) then 1 else 0) &&
      CountKind(t.events, CompleteKind) == 1
  {
    var w := Write(MatchedIds(tracks, search), failure);
    MatchEventCounts(tracks, search, |tracks|);
    WriteEventCounts(MatchedIds(tracks, search), failure);
    ClosedCounts(MatchEvents(tracks, search, |tracks|), w.events, ConcludedMessage(w.added, SkipCount(tracks, search)));
  }

  /** Loop events and write events followed by the summary and the completion, counted. */
  lemma ClosedCounts(loop: seq<Event>, writes: seq<Event>, summary: string)
    requires CountKind(loop, ErrorKind) == 0 && CountKind(loop, CompleteKind) == 0
    requires CountKind(writes, CompleteKind) == 0
    ensures CountKind(loop + writes + [Info(summary), Complete("")], ErrorKind) == CountKind(writes, ErrorKind)
    ensures CountKind(loop + writes + [Info(summary), Complete("")], CompleteKind) == 1
  {
    var closing := [Info(summary), Complete("")];
    CountKindTwo(closing[0], closing[1], ErrorKind);
    CountKindTwo(closing[0], closing[1], CompleteKind);
    CountKindThree(loop, writes, closing, ErrorKind);
    CountKindThree(loop, writes, closing, CompleteKind);
  }

  /** Three notices in front of a stream change neither its errors nor its completions. */
  lemma OpenedCounts(opening: seq<Event>, rest: seq<Event>)
    requires |opening| == 3 && opening[0].Info? && opening[1].Info? && opening[2].Info?
    ensures CountKind(opening + rest, ErrorKind) == CountKind(rest, ErrorKind)
    ensures CountKind(opening + rest, CompleteKind) == CountKind(rest, CompleteKind)
  {
    OpeningCounts(opening);
    CountKindAppend(opening, rest, ErrorKind);
    CountKindAppend(opening, rest, CompleteKind);
  }

  /** Notices only: no error, no completion. */
  lemma OpeningCounts(infos: seq<Event>)
    requires forall k :: 0 <= k < |infos| ==> infos[k].Info?
    ensures CountKind(infos, ErrorKind) == 0 && CountKind(infos, CompleteKind) == 0
  {
    CountKindZero(infos, ErrorKind);
    CountKindZero(infos, CompleteKind);
  }

  /** Notices, then a single error: the shape of a run that aborts. */
  lemma EndsInError(infos: seq<Event>, message: string)
    requires forall k :: 0 <= k < |infos| ==> infos[k].Info?
    ensures CountKind(infos + [Error(message)], ErrorKind) == 1
    ensures CountKind(infos + [Error(message)], CompleteKind) == 0
  {
    OpeningCounts(infos);
    CountKindAppend(infos, [Error(message)], ErrorKind);
    CountKindAppend(infos, [Error(message)], CompleteKind);
    CountKindOne(Error(message), ErrorKind);
    CountKindOne(Error(message), CompleteKind);
  }

  /** Notices, then a single completion: the shape of a run over an empty playlist. */
  lemma EndsInComplete(infos: seq<Event>, message: string)
    requires forall k :: 0 <= k < |infos| ==> infos[k].Info?
    ensures CountKind(infos + [Complete(message)], CompleteKind) == 1
  {
    OpeningCounts(infos);
    CountKindAppend(infos, [Complete(message)], CompleteKind);
    CountKindOne(Complete(message), CompleteKind);
  }
}
