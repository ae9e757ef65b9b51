# Playlist transfer core, in Dafny

This project models the core of a small web service that copies a YouTube
Music playlist into a Spotify playlist. It models two parts of `app.py`:

- `extract_playlist_id` reads the playlist identifier out of a Spotify or
  YouTube Music URL by plain string splitting. It is modelled as the pure
  function `PlaylistUrl.ExtractPlaylistId`. The Python `str` operations it
  uses (`split`, `in`, `[-1]`, `[0]`) are modelled in module `PyStr`.
- `transfer_playlist_generator` is the generator that runs one transfer and
  yields progress messages of the form `kind:payload`. It is modelled as the
  method `Transfer.TransferPlaylist`, which returns:
  - the events in order
  - the remote calls it makes: the fetched playlist id, the search queries
    and the batches attempted (when a write raises, the last of them is the
    batch that failed)
  - the final `added_count` and `skipped_count`

  Its two loops are methods too:
  - `Matching.MatchTracks` is the search loop.
  - `Batching.AddInBatches` with `Batching.WriteLoop` is the batched write.

  Each method is proved equal to a specification function (`Transfer.TransferRun`
  and `Transfer.Stages`, `Matching.MatchedIds` and its companions,
  `Batching.Write`). The properties are proved as lemmas about those
  functions.

The remote services are parameters of type `Transfer.Remote`:
- whether the YouTube Music client fails to start, and with what message
- what fetching a playlist id gives: the list of track titles (`None` for a
  missing title), no data, or a raised exception, and whether it was a
  `ValueError`
- what a Spotify search for a title gives: the first hit, no hit, or a raised
  exception
- which write batch, if any, raises, and whether that exception is a
  `SpotifyException`

Modules:

| file | module | models |
|---|---|---|
| `wrappers.dfy` | `Wrappers` | `Option` |
| `pystr.dfy` | `PyStr` | `str.split`, `in` on strings and on lists, `[-1]`, decimal formatting of counts |
| `events.dfy` | `Events` | the `kind:payload` messages, and a reader of the model's own (`ParseLine`) that shows the format loses nothing |
| `playlist_url.dfy` | `PlaylistUrl` | `extract_playlist_id` |
| `matching.dfy` | `Matching` | the search loop of the generator |
| `batching.dfy` | `Batching` | the batched write of the matched ids |
| `transfer.dfy` | `Transfer` | the generator as a whole |

Behaviour worth knowing, as the code has it and the model keeps it:
- An accepted URL can give an empty id (`.../playlist/`, `...list=&x`).
- An empty playlist yields, after the connection and fetch notices, the
  empty-playlist notice and a completion whose payload is "No tracks to
  transfer.". There is no summary line and no empty completion (app.py:133-136).
- When no track matched, the write phase yields the notice "No tracks were
  found or matched for transfer." and neither a success nor an error (app.py:184-185).

## Model

| member | source | states |
|---|---|---|
| PlaylistUrl.ExtractPlaylistId | app.py:89-104 | Only "spotify" and "ytmusic" are known platforms; any other gives `None`. A rejection carries the platform's fixed message. A YouTube Music URL is accepted exactly when it contains `list=`. |
| PlaylistUrl.SpotifyAccepted | app.py:93-98 | A Spotify URL is accepted exactly when one of its `/`-separated fields equals `playlist`. |
| PlaylistUrl.SpotifyIdIsLastField | app.py:96 | An accepted Spotify URL gives a prefix of its last `/`-field that stops at the first `?` or at the end. The id holds neither `/` nor `?`. |
| PlaylistUrl.SpotifyRoundTrip | app.py:93-96 | `prefix + "/playlist/" + id`, with or without `"?" + query`, gives back `id` when `id` holds no `/` or `?` and the query holds no `/`. |
| PlaylistUrl.SpotifyRejectsPlural | app.py:95-98 | Example: the URL `x/playlists/y` is rejected with the Spotify message, because `playlists` is not the field `playlist`. The general rule is `SpotifyAccepted`. |
| PlaylistUrl.SpotifyRejectsQueryOnField | app.py:95-98 | Example: the URL `x/playlist?y` is rejected with the Spotify message, because the query is not stripped before the membership test. |
| PlaylistUrl.YtMusicIdAfterLastMarker | app.py:100-101 | The YouTube Music id is taken after the last occurrence of `list=`. It contains no `&` and stops at the first `&` or at the end. |
| PlaylistUrl.YtMusicRoundTrip | app.py:99-101 | `prefix + "list=" + id`, with or without `"&" + tail`, gives back `id` when `id` holds no `&` and neither `id` nor `tail` holds `list=`. |
| PyStr.FindLeftmost | app.py:94-101 | The occurrence search underneath `split` (lines 94, 96 and 101) finds the leftmost occurrence, and finds nothing exactly when the separator does not occur. |
| PyStr.JoinSplit | app.py:94 | Joining the parts of a split with the separator gives back the original string. |
| PyStr.SplitFields | app.py:95 | `x in s.split(c)` holds exactly when `x` occurs in `s` bounded on each side by `c` or by an end of `s`. |
| PyStr.SplitLast | app.py:101 | The last part of a split is the whole string when the separator is absent. Otherwise it is what follows an occurrence of the separator, and it contains no further occurrence. |
| PyStr.SplitFirstChar | app.py:96 | The first part of a split on a character is the prefix up to the first occurrence of that character, or the whole string. |
| PyStr.NatToString | app.py:148 | A count is written as a non-empty string of decimal digits with no leading zero. |
| PyStr.NatToStringValue | app.py:187 | The digits written for a count, read left to right in base ten, stand for that count, as `str(n)` does in the f-strings at lines 148, 171, 178, 179 and 187. |
| Events.ParseLineOfLine | app.py:111-188 | Reading a message back at its first `:` gives the event it was written from, whatever its payload holds. |
| Events.LineOfParseLine | app.py:111-188 | A line that reads as an event is exactly that event's message. |
| Events.CountKindAppend | app.py:111-188 | The events of a kind in a stream made of two parts add up part by part. |
| Events.CountKindZero | app.py:111-188 | A stream holds no event of a kind exactly when its count of that kind is zero. |
| Matching.MatchTracks | app.py:145-168 | The loop adds the first hit of every titled track whose search finds one, in order. It skips every other track. Matched plus skipped equals the number of tracks. It searches exactly the titled tracks, in order, and yields the events `MatchEvents` describes. |
| Matching.MatchedPlusSkipped | app.py:145-168 | Every track is matched or skipped, never both. There are no more matches than searches and no more searches than tracks. |
| Matching.MatchInOrder | app.py:145 | The matches, searches and skips of two consecutive runs of tracks are those of the first run followed by those of the second. |
| Matching.OneTrack | app.py:146-168 | A single track is searched iff it has a non-empty title. It is matched iff that search finds a hit, and skipped otherwise. This only unfolds the per-track step of `Queries`, `MatchedIds` and `SkipCount`. Together with `MatchInOrder` it gives the behaviour over any list, track by track. |
| Matching.QueriesAreTitles | app.py:146-154 | A string is searched for exactly when it is the non-empty title of some track. |
| Matching.MatchedIdsAreHits | app.py:154-163 | An id is added exactly when it is the first hit of the search for some titled track. |
| Matching.TrackEventCounts | app.py:147-167 | An untitled track yields one warning. A titled track yields the search notice for its title first, then a success if matched or a warning if not. The counts of each kind follow. |
| Matching.MatchEventCounts | app.py:145-168 | The loop yields one event per track plus one per search, a success per match and a warning per skip. It never yields an error or a completion. |
| Batching.FlattenChunks | app.py:174-175 | The batches, in order and concatenated, are exactly the matched ids. |
| Batching.FlattenPrefix | app.py:174-177 | The first k batches are the first `min(100k, n)` ids. |
| Batching.ChunkAt | app.py:173-175 | There are ceil(n/100) batches. Batch k is the clamped slice starting at `100k`, and it is non-empty and at most 100 long. |
| Batching.NextChunk | app.py:174-175 | Each loop step takes the next slice, and the loop goes on exactly while ids remain. |
| Batching.WriteAccounts | app.py:170-183 | Without a failure, the batches written are the ids in order and all of them are counted as added. When batch k raises, batches 0..k are attempted, and `added` counts exactly the ids of the k batches before it, fewer than the ids matched. |
| Batching.WriteEventCounts | app.py:170-185 | The write phase yields one error exactly when a write raises, and never a completion. |
| Batching.WriteLoop | app.py:174-183 | The loop fails exactly when the failing batch exists. Otherwise it writes every batch and counts all ids. On failure it has attempted batches 0..k, counted 100k ids and announced k batches. |
| Batching.AddInBatches | app.py:170-185 | The write phase's added count, batches written and events are those that `Write` gives for the matched ids and the failure. |
| Transfer.TransferTracks | app.py:138-188 | The part of the run after the fetch is the search loop followed by the write phase, the summary and the completion. |
| Transfer.TransferPlaylist | app.py:106-188 | A run's events, remote calls and final counters are those `TransferRun` gives for the two URLs and the remote answers. |
| Transfer.RunOpens | app.py:111 | Every run starts with the connection notice and yields at least one more event. |
| Transfer.AbortedRunEnds | app.py:112-131 | A run stops when the client cannot start, a URL is rejected or the fetch raises. It then ends in its only error, yields no completion, makes no search and no write, and both counters stay 0. |
| Transfer.CompletedRunEnds | app.py:133-188 | A run that does not stop ends in its only completion event. |
| Transfer.NoFetchWithoutPlaylistId | app.py:112-128 | The playlist is fetched exactly when the client starts and the YouTube Music URL is accepted, and the fetch uses the extracted id. A rejected YouTube Music URL ends the run with the extraction error. |
| Transfer.SpotifyUrlCheckedAfterFetch | app.py:121-131 | The Spotify URL is checked only after the fetch, so a bad Spotify URL still costs a fetch. A raised `ValueError` from the fetch is reported as an extraction error, any other exception as a fetch error. |
| Transfer.EmptyPlaylistRun | app.py:133-136 | A playlist with no data or no tracks ends with the empty-playlist notice and "No tracks to transfer.", with no search and no write. |
| Transfer.TransferCounts | app.py:138-185 | A run that reaches the transfer announces the track count and searches exactly the titled tracks. Matched plus skipped equals the number of tracks. Every match is added exactly when no write fails, and then the batches written are the matches in order. |
| Transfer.TransferEnds | app.py:170-188 | A run that reaches the transfer ends with the summary and an empty completion. It holds exactly one completion, and one error exactly when a write raised. |

## Left out

- The Flask routes, the OAuth flow, the session handling, `main.py` and the browser client are not part of this model. Only the two functions above are modelled.
- The YouTube Music client, the Spotify client and their network calls are parameters (`Transfer.Remote`). A fetch gives the titles of the playlist's entries. A search depends only on the query. Which write raises is given up front by the batch index.
- Exception texts from the remote services are opaque strings inside the messages. Python's `str()` of an exception is not modelled.
- The `limit=100` of the playlist fetch is not modelled: the fetched entries are whatever the oracle gives.
- The Spotify playlist id is extracted and checked, but the target it is passed to on each write is not recorded in `Transfer.Calls`. Only the batches are.
- Transfer.Stages: `extract_playlist_id` is called with the literal platforms "spotify" and "ytmusic", so its `None` result cannot reach the generator. `Stages` therefore requires that neither extraction is `NoPlatform`.
- PlaylistUrl.ExtractPlaylistId: an accepted URL can yield an empty id (`https://open.spotify.com/playlist/` or `...list=&x`). The model, like the code, returns it as an id.
- PlaylistUrl.YtMusicRoundTrip: requires that the id hold no `list=` of its own. The code takes the text after the last `list=`, so an id containing one is not given back whole.
- Transfer.TransferPlaylist: a generator the consumer stops early is not modelled. The method returns the whole stream of one run to its end.
