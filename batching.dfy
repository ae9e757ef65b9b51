/**
 * The write phase of `transfer_playlist_generator` (app.py): the matched ids
 * go to `playlist_add_items` in consecutive batches of at most 100, and the
 * first failing call ends the phase.
 */
module Batching {
  import opened Wrappers
  import opened PyStr
  import opened Events

  /** Spotify accepts up to 100 tracks per `playlist_add_items` request. */
  const BatchSize: nat := 100

  /** The `playlist_add_items` call that raises (0-based), and what it raises. */
  datatype WriteFailure = WriteFailure(batch: nat, spotifyError: bool, message: string)

  function Min(a: int, b: int): int {
    if a <= b then a else b
  }

  /** The ids cut into consecutive batches of `BatchSize`, the last one possibly shorter. */
  function Chunks(ids: seq<string>): seq<seq<string>>
    decreases |ids|
  {
    if ids == [] then []
    else if |ids| <= BatchSize then [ids]
    else [ids[..BatchSize]] + Chunks(ids[BatchSize..])
  }

  function Flatten(batches: seq<seq<string>>): seq<string> {
    if batches == [] then [] else batches[0] + Flatten(batches[1..])
  }

  /** The batches put back together are the ids, in order. */
  lemma {:induction false} FlattenChunks(ids: seq<string>)
    ensures Flatten(Chunks(ids)) == ids
    decreases |ids|
  {
    if |ids| > BatchSize {
      FlattenChunks(ids[BatchSize..]);
      assert Chunks(ids)[1..] == Chunks(ids[BatchSize..]);
      assert ids == ids[..BatchSize] + ids[BatchSize..];
    }
  }

  /** The first k batches put back together are the first 100 * k ids (all of them once k reaches the end). */
  lemma {:induction false} FlattenPrefix(ids: seq<string>, k: nat)
    requires k <= |Chunks(ids)|
    ensures Flatten(Chunks(ids)[..k]) == ids[..Min(BatchSize * k, |ids|)]
    decreases |ids|
  {
    if k > 0 {
      var head := Chunks(ids)[..k];
      if |ids| <= BatchSize {
        assert head == [ids];
        assert Flatten(head[1..]) == [];
      } else {
        var rest := ids[BatchSize..];
        FlattenPrefix(rest, k - 1);
        assert head[1..] == Chunks(rest)[..k - 1];
        assert ids[..Min(BatchSize * k, |ids|)] == ids[..BatchSize] + rest[..Min(BatchSize * (k - 1), |rest|)];
      }
    }
  }

  /**
   * There are ceil(n / 100) batches; batch k is the slice `ids[100k : 100k + 100]`
   * (Python clamps the end), never empty and never over 100 ids.
   */
  lemma {:induction false} ChunkAt(ids: seq<string>, k: nat)
    ensures |Chunks(ids)| == (|ids| + BatchSize - 1) / BatchSize
    ensures k < |Chunks(ids)| ==>
      BatchSize * k < |ids| &&
      Chunks(ids)[k] == ids[BatchSize * k..Min(BatchSize * k + BatchSize, |ids|)] &&
      0 < |Chunks(ids)[k]| <= BatchSize
    decreases |ids|
  {
    if |ids| > BatchSize {
      var rest := ids[BatchSize..];
      ChunkAt(rest, if k > 0 then k - 1 else 0);
      if k > 0 && k < |Chunks(ids)| {
        assert Chunks(ids)[k] == Chunks(rest)[k - 1];
        var lo := BatchSize * (k - 1);
        assert lo + BatchSize == BatchSize * k;
        var hi := Min(lo + BatchSize, |rest|);
        assert hi + BatchSize == Min(BatchSize * k + BatchSize, |ids|);
        assert rest[lo..hi] == ids[lo + BatchSize..hi + BatchSize];
      }
    }
  }

  /** The write of batch `failure.batch` raises, and that batch exists. */
  predicate FailsAt(ids: seq<string>, failure: Option<WriteFailure>) {
    failure.Some? && failure.value.batch < |Chunks(ids)|
  }

  const NothingMatchedMessage := "No tracks were found or matched for transfer."

  function AddingMessage(n: nat): string {
    "Adding " + NatToString(n) + " matched tracks to Spotify playlist in batches..."
  }

  function BatchMessage(n: nat): string {
    "Added batch of " + NatToString(n) + " tracks."
  }

  function AddedMessage(n: nat): string {
    "Successfully added " + NatToString(n) + " tracks to Spotify playlist."
  }

  /** `except SpotifyException` and `except Exception` word the failure differently. */
  function WriteErrorMessage(f: WriteFailure): string {
    if f.spotifyError then
      "Error adding tracks to Spotify playlist: " + f.message + ". Check playlist ID and permissions."
    else
      "An unexpected error occurred while adding tracks: " + f.message
  }

  /** One `info` event per batch written. */
  function BatchEvents(batches: seq<seq<string>>): seq<Event> {
    seq(|batches|, k requires 0 <= k < |batches| => Info(BatchMessage(|batches[k]|)))
  }

  /** The batch events are all `info`: no error, no completion. */
  lemma BatchEventKinds(batches: seq<seq<string>>)
    ensures CountKind(BatchEvents(batches), ErrorKind) == 0
    ensures CountKind(BatchEvents(batches), CompleteKind) == 0
  {
    var events := BatchEvents(batches);
    CountKindZero(events, ErrorKind);
    CountKindZero(events, CompleteKind);
  }

  lemma BatchEventsSnoc(batches: seq<seq<string>>, batch: seq<string>)
    ensures BatchEvents(batches + [batch]) == BatchEvents(batches) + [Info(BatchMessage(|batch|))]
  {
  }

  /** Taking one more batch of the ids: the slice the loop cuts at `i = 100 * b`. */
  lemma NextChunk(ids: seq<string>, b: nat)
    requires b < |Chunks(ids)|
    ensures BatchSize * b < |ids|
    ensures Chunks(ids)[..b + 1] == Chunks(ids)[..b] + [ids[BatchSize * b..Min(BatchSize * b + BatchSize, |ids|)]]
    ensures b + 1 < |Chunks(ids)| <==> BatchSize * (b + 1) < |ids|
    ensures b + 1 < |Chunks(ids)| ==> Min(BatchSize * b + BatchSize, |ids|) == BatchSize * (b + 1)
  {
    ChunkAt(ids, b);
  }

  /** What the write phase gives back: the tracks counted as added, the batches sent, the events. */
  datatype WritePhase = WritePhase(added: nat, writes: seq<seq<string>>, events: seq<Event>)

  /**
   * The write phase by case. Nothing matched: a notice and no call. Otherwise
   * every batch is sent in order until one raises; `added` grows by the size
   * of each batch written, and the stream ends in a success or in the error.
   */
  function Write(ids: seq<string>, failure: Option<WriteFailure>): WritePhase {
    if ids == [] then WritePhase(0, [], [Info(NothingMatchedMessage)])
    else if FailsAt(ids, failure) then
      var k := failure.value.batch;
      WritePhase(BatchSize * k, Chunks(ids)[..k + 1],
        [Info(AddingMessage(|ids|))] + BatchEvents(Chunks(ids)[..k]) + [Error(WriteErrorMessage(failure.value))])
    else
      WritePhase(|ids|, Chunks(ids),
        [Info(AddingMessage(|ids|))] + BatchEvents(Chunks(ids)) + [Success(AddedMessage(|ids|))])
  }

  /**
   * What the write phase accounts for: without a failure the batches sent are
   * the ids in order and all are counted; when batch k raises, batches 0..k
   * are sent, and `added` counts exactly the ids of the k batches before it.
   */
  lemma WriteAccounts(ids: seq<string>, failure: Option<WriteFailure>)
    ensures var w := Write(ids, failure);
      !FailsAt(ids, failure) ==> Flatten(w.writes) == ids && w.added == |ids|
    ensures var w := Write(ids, failure);
      FailsAt(ids, failure) ==>
      var k := failure.value.batch;
      w.writes == Chunks(ids)[..k + 1] && |w.writes| == k + 1 && Flatten(w.writes[..k]) <= ids && |Flatten(w.writes[..k])| == w.added < |ids|
  {
    if ids == [] {
    } else if FailsAt(ids, failure) {
      var k := failure.value.batch;
      FlattenPrefix(ids, k);
      ChunkAt(ids, k);
      assert Write(ids, failure).writes[..k] == Chunks(ids)[..k];
    } else {
      FlattenChunks(ids);
    }
  }

  /** The write phase yields one error exactly when a write raises, and never a completion. */
  lemma WriteEventCounts(ids: seq<string>, failure: Option<WriteFailure>)
    ensures CountKind(Write(ids, failure).events, ErrorKind) == if FailsAt(ids, failure) then 1 else 0
    ensures CountKind(Write(ids, failure).events, CompleteKind) == 0
  {
    if ids == [] {
      CountKindOne(Info(NothingMatchedMessage), ErrorKind);
      CountKindOne(Info(NothingMatchedMessage), CompleteKind);
    } else if FailsAt(ids, failure) {
      WritePhaseCounts(Info(AddingMessage(|ids|)), Chunks(ids)[..failure.value.batch], Error(WriteErrorMessage(failure.value)));
    } else {
      WritePhaseCounts(Info(AddingMessage(|ids|)), Chunks(ids), Success(AddedMessage(|ids|)));
    }
  }

  /** An opening notice, the batch notices and a closing event: errors and completions come from the closing one. */
  lemma WritePhaseCounts(head: Event, batches: seq<seq<string>>, tail: Event)
    requires head.Info?
    ensures CountKind([head] + BatchEvents(batches) + [tail], ErrorKind) == if tail.Error? then 1 else 0
    ensures CountKind([head] + BatchEvents(batches) + [tail], CompleteKind) == if tail.Complete? then 1 else 0
  {
    BatchEventKinds(batches);
    CountKindThree([head], BatchEvents(batches), [tail], ErrorKind);
    CountKindThree([head], BatchEvents(batches), [tail], CompleteKind);
    CountKindOne(head, ErrorKind);
    CountKindOne(head, CompleteKind);
    CountKindOne(tail, ErrorKind);
    CountKindOne(tail, CompleteKind);
  }

  /**
   * The write phase (app.py:170-185). Without a failure every batch is
   * written and `added` is the number of ids; when batch k fails, batches
   * 0..k are attempted, nothing after, and `added` is 100 * k.
   */
  method AddInBatches(ids: seq<string>, failure: Option<WriteFailure>)
    returns (added: nat, writes: seq<seq<string>>, events: seq<Event>)
    ensures WritePhase(added, writes, events) == Write(ids, failure)
  {
    if ids == [] {
      return 0, [], [Info(NothingMatchedMessage)];
    }
    var batchEvents, failed;
    added, writes, batchEvents, failed := WriteLoop(ids, failure);
    if failed {
      events := [Info(AddingMessage(|ids|))] + batchEvents + [Error(WriteErrorMessage(failure.value))];
    } else {
      events := [Info(AddingMessage(|ids|))] + batchEvents + [Success(AddedMessage(added))];
    }
  }

  /**
   * The batch loop (app.py:173-177): batch b is `ids[100b : 100b + 100]`; it
   * stops after the batch whose write raises, or after the last batch.
   */
  method WriteLoop(ids: seq<string>, failure: Option<WriteFailure>)
    returns (added: nat, writes: seq<seq<string>>, batchEvents: seq<Event>, failed: bool)
    ensures failed <==> FailsAt(ids, failure)
    ensures !failed ==> writes == Chunks(ids) && added == |ids| && batchEvents == BatchEvents(Chunks(ids))
    ensures failed ==>
      var k := failure.value.batch;
      writes == Chunks(ids)[..k + 1] && added == BatchSize * k && batchEvents == BatchEvents(Chunks(ids)[..k])
  {
    added, writes, batchEvents, failed := 0, [], [], false;
    ChunkAt(ids, 0);
    var i := 0;
    while i < |ids|
      invariant |writes| <= |Chunks(ids)| && writes == Chunks(ids)[..|writes|]
      invariant i == BatchSize * |writes| && (i < |ids| <==> |writes| < |Chunks(ids)|)
      invariant added == Min(i, |ids|)
      invariant !(failure.Some? && failure.value.batch < |writes|)
      invariant batchEvents == BatchEvents(writes)
    {
      var b := |writes|;
      NextChunk(ids, b);
      var batch := ids[i..Min(i + BatchSize, |ids|)];
      if failure.Some? && failure.value.batch == b {
        return added, writes + [batch], batchEvents, true;
      }
      BatchEventsSnoc(writes, batch);
      writes := writes + [batch];
      added := added + |batch|;
      batchEvents := batchEvents + [Info(BatchMessage(|batch|))];
      i := i + BatchSize;
    }
    assert writes == Chunks(ids);
  }
}
