/** `MoveTrackRequestHandler.Handle`: removes a track from its source playlist as a best effort,
    adds it to the target playlist, and optionally skips to the next track. */
module MoveTrack {

  import opened Wrappers
  import opened Errors
  import opened Remote
  import opened Tracks
  import opened Playlists

  datatype MoveTrackRequest = MoveTrackRequest(track: Track, source: Playlist, target: Playlist, skip: bool)

  /** The calls issued: the removal (whatever its outcome), the add, and the skip when it was
      asked for and the add returned normally. */
  function MoveTrackCalls(req: MoveTrackRequest, addOk: bool): seq<Call>
  {
    [RemoveItems(req.source.id, [req.track.uri]), AddItems(req.target.id, [req.track.uri])]
      + (if req.skip && addOk then [SkipNext] else [])
  }

  /** The playlists afterwards: the source without the track if the removal went through, then
      the target with the track appended if the add went through. */
  function MoveTrackPlaylists(before: map<string, seq<string>>, req: MoveTrackRequest, removeOk: bool, addOk: bool)
    : map<string, seq<string>>
  {
    var src, dst, uri := req.source.id, req.target.id, req.track.uri;
    var removed := if removeOk then before[src := Without(ItemsOf(before, src), [uri])] else before;
    if addOk then removed[dst := ItemsOf(removed, dst) + [uri]] else removed
  }

  /** A throwing add comes first in the outcome; a throwing skip fails the request too. */
  function MoveTrackOutcome(req: MoveTrackRequest, addOk: bool, skipOk: bool): Outcome<Error>
  {
    if !addOk then Fail(AddItemsFailed) else if req.skip && !skipOk then Fail(SkipFailed) else Pass
  }

  /** Remove comes first and is always issued; the add follows it and is issued whether or not
      the removal failed; a skip, last, is issued if and only if it was asked for and the add
      returned normally, and nothing else is issued; each request carries exactly the track's
      URI; nothing but the source and the target playlists is edited. */
  lemma MoveTrackCallsSpec(req: MoveTrackRequest, addOk: bool)
    ensures var calls := MoveTrackCalls(req, addOk);
      && |calls| == 2 + (if req.skip && addOk then 1 else 0)
      && calls[0] == RemoveItems(req.source.id, [req.track.uri])
      && calls[1] == AddItems(req.target.id, [req.track.uri])
      && (req.skip && addOk ==> calls[2] == SkipNext)
      && (SkipNext in calls <==> req.skip && addOk)
      && (forall c :: c in calls && Edits(c).Some? ==> Edits(c).value in {req.source.id, req.target.id})
  {
    var calls := MoveTrackCalls(req, addOk);
    if !(req.skip && addOk) {
      assert calls == [calls[0], calls[1]];
    }
  }

  /** A successful removal leaves the source without any occurrence of the track and keeps its
      other items; a failed one leaves the source as it was. A successful add then appends
      exactly the track's URI to the target as the removal left it, even when the removal
      failed; a failed add leaves the target as the removal left it. No other playlist changes,
      and no playlist appears other than the two edited ones. */
  lemma MoveTrackPlaylistsSpec(before: map<string, seq<string>>, req: MoveTrackRequest, removeOk: bool, addOk: bool)
    ensures var after := MoveTrackPlaylists(before, req, removeOk, addOk);
      var src, dst, uri := req.source.id, req.target.id, req.track.uri;
      var source := if removeOk then Without(ItemsOf(before, src), [uri]) else ItemsOf(before, src);
      var target := if src == dst then source else ItemsOf(before, dst);
      && (addOk ==> dst in after && after[dst] == target + [uri])
      && (!addOk || src != dst ==> ItemsOf(after, src) == source)
      && (!addOk ==> ItemsOf(after, dst) == target)
      && (removeOk && !(addOk && src == dst) ==> uri !in ItemsOf(after, src))
      && (forall p :: p in before && p != src && p != dst ==> p in after && after[p] == before[p])
      && (!removeOk && !addOk ==> after == before)
    ensures MoveTrackPlaylists(before, req, removeOk, addOk).Keys
      == before.Keys + (if removeOk then {req.source.id} else {}) + (if addOk then {req.target.id} else {})
  {
  }

  /** The request succeeds exactly when the add and any requested skip succeed; a failing skip
      is only reported when a skip was issued. */
  lemma MoveTrackOutcomeSpec(req: MoveTrackRequest, addOk: bool, skipOk: bool)
    ensures MoveTrackOutcome(req, addOk, skipOk) == Pass <==> addOk && (req.skip ==> skipOk)
    ensures MoveTrackOutcome(req, addOk, skipOk) == Fail(SkipFailed) ==> SkipNext in MoveTrackCalls(req, addOk)
    ensures !addOk ==> MoveTrackOutcome(req, addOk, skipOk) == Fail(AddItemsFailed)
  {
  }

  /** `Handle`: a throwing removal is caught and logged; a throwing add is not caught, so it
      propagates and no skip follows; a throwing skip propagates as well. */
  method Handle(store: Store, req: MoveTrackRequest, removeOk: bool, addOk: bool, skipOk: bool)
    returns (outcome: Outcome<Error>)
    modifies store
    ensures store.calls == old(store.calls) + MoveTrackCalls(req, addOk)
    ensures store.playlists == MoveTrackPlaylists(old(store.playlists), req, removeOk, addOk)
    ensures store.playing == old(store.playing)
    ensures outcome == MoveTrackOutcome(req, addOk, skipOk)
  {
    var _ := store.RemoveItems(req.source.id, [req.track.uri], removeOk);
    // A failed removal (another user's playlist, for one) is only logged.
    var added := store.AddItems(req.target.id, [req.track.uri], addOk);
    if !added {
      return Fail(AddItemsFailed);
    }
    if req.skip {
      var skipped := store.SkipNext(skipOk);
      if !skipped {
        return Fail(SkipFailed);
      }
    }
    outcome := Pass;
  }
}
