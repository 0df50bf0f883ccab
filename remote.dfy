/** The part of the music-service client the core uses, replaced by an in-memory store: the
    playable items and currently-playing record it returns, and the mutating calls it accepts. */
module Remote {

  import opened Wrappers

  /** A playable item as the client returns it: a full track (with its external ids, such as
      "isrc"), a full episode, or anything else (including a missing item). */
  datatype PlayableItem =
    | FullTrack(id: string, uri: string, name: string, externalIds: map<string, string>)
    | FullEpisode(uri: string, name: string)
    | OtherItem

  /** The currently-playing record: the URI of its context (None when the record has no context)
      and the item. */
  datatype CurrentlyPlaying = CurrentlyPlaying(contextUri: Option<string>, item: PlayableItem)

  /** A mutating call issued to the client, in the order issued. */
  datatype Call =
    | Create(ownerId: string, name: string)
    | RemoveItems(playlistId: string, uris: seq<string>)
    | AddItems(playlistId: string, uris: seq<string>)
    | ReplaceItems(playlistId: string, uris: seq<string>)
    | SkipNext

  /** The playlist a call edits, if any. */
  function Edits(c: Call): Option<string>
  {
    match c
    case RemoveItems(id, _) => Some(id)
    case AddItems(id, _) => Some(id)
    case ReplaceItems(id, _) => Some(id)
    case _ => None
  }

  /** One `AddItems` call per batch, in batch order. */
  function AddCalls(id: string, batches: seq<seq<string>>): (cs: seq<Call>)
    ensures |cs| == |batches|
    ensures forall i :: 0 <= i < |batches| ==> cs[i] == AddItems(id, batches[i])
  {
    seq(|batches|, i requires 0 <= i < |batches| => AddItems(id, batches[i]))
  }

  /** Removing items by URI removes every occurrence of each URI. */
  function Without(items: seq<string>, uris: seq<string>): (r: seq<string>)
    ensures forall u :: u in r <==> u in items && u !in uris
    ensures |r| <= |items|
  {
    if items == [] then []
    else if items[0] in uris then Without(items[1..], uris)
      else [items[0]] + Without(items[1..], uris)
  }

  /** Every item whose URI is not removed is kept as often as it occurs. */
  lemma {:induction false} WithoutCounts(items: seq<string>, uris: seq<string>, u: string)
    requires u !in uris
    ensures multiset(Without(items, uris))[u] == multiset(items)[u]
  {
    if items != [] {
      assert items == [items[0]] + items[1..];
      WithoutCounts(items[1..], uris, u);
    }
  }

  /** The kept items stay in their order: removing from two parts is removing from each. */
  lemma {:induction false} WithoutConcat(a: seq<string>, b: seq<string>, uris: seq<string>)
    ensures Without(a + b, uris) == Without(a, uris) + Without(b, uris)
    ensures |b| == 1 ==> Without(b, uris) == if b[0] in uris then [] else b
  {
    if a == [] {
      assert a + b == b;
    } else {
      var ab := a + b;
      assert ab[0] == a[0] && ab[1..] == a[1..] + b;
      WithoutConcat(a[1..], b, uris);
    }
    if |b| == 1 {
      assert b[1..] == [];
    }
  }

  /** The contents of a playlist in a map of playlists, empty when the map has no such id. */
  function ItemsOf(playlists: map<string, seq<string>>, id: string): seq<string>
  {
    if id in playlists then playlists[id] else []
  }

  class Store {
    /** The contents (track URIs) of every playlist, by playlist id. */
    var playlists: map<string, seq<string>>
    /** What a currently-playing request answers (None: nothing is playing). */
    var playing: Option<CurrentlyPlaying>
    /** Every mutating call issued so far. */
    var calls: seq<Call>

    function Items(id: string): seq<string>
      reads this
    {
      ItemsOf(playlists, id)
    }

    constructor (playlists: map<string, seq<string>>, playing: Option<CurrentlyPlaying>)
      ensures this.playlists == playlists && this.playing == playing && calls == []
    {
      this.playlists := playlists;
      this.playing := playing;
      calls := [];
    }

    /** Creates an empty playlist; `assignedId` is the fresh id the service gives it. */
    method Create(ownerId: string, name: string, assignedId: string)
      requires assignedId !in playlists
      modifies this
      ensures calls == old(calls) + [Call.Create(ownerId, name)]
      ensures playlists == old(playlists)[assignedId := []]
      ensures playing == old(playing)
    {
      calls := calls + [Call.Create(ownerId, name)];
      playlists := playlists[assignedId := []];
    }

    /** The call is issued either way; `accept` says whether the service carries it out
        (false: the call throws, for instance on another user's playlist). */
    method RemoveItems(id: string, uris: seq<string>, accept: bool) returns (ok: bool)
      modifies this
      ensures ok == accept
      ensures calls == old(calls) + [Call.RemoveItems(id, uris)]
      ensures playlists == if accept then old(playlists)[id := Without(old(Items(id)), uris)] else old(playlists)
      ensures playing == old(playing)
    {
      calls := calls + [Call.RemoveItems(id, uris)];
      if accept {
        playlists := playlists[id := Without(Items(id), uris)];
      }
      ok := accept;
    }

    method AddItems(id: string, uris: seq<string>, accept: bool) returns (ok: bool)
      modifies this
      ensures ok == accept
      ensures calls == old(calls) + [Call.AddItems(id, uris)]
      ensures playlists == if accept then old(playlists)[id := old(Items(id)) + uris] else old(playlists)
      ensures playing == old(playing)
    {
      calls := calls + [Call.AddItems(id, uris)];
      if accept {
        playlists := playlists[id := Items(id) + uris];
      }
      ok := accept;
    }

    method ReplaceItems(id: string, uris: seq<string>, accept: bool) returns (ok: bool)
      modifies this
      ensures ok == accept
      ensures calls == old(calls) + [Call.ReplaceItems(id, uris)]
      ensures playlists == if accept then old(playlists)[id := uris] else old(playlists)
      ensures playing == old(playing)
    {
      calls := calls + [Call.ReplaceItems(id, uris)];
      if accept {
        playlists := playlists[id := uris];
      }
      ok := accept;
    }

    /** Skipping is recorded; `accept` says whether the player carries it out (false: the call
        throws, for instance with no active device). What plays next is not modelled. */
    method SkipNext(accept: bool) returns (ok: bool)
      modifies this
      ensures ok == accept
      ensures calls == old(calls) + [Call.SkipNext]
      ensures playlists == old(playlists) && playing == old(playing)
    {
      calls := calls + [Call.SkipNext];
      ok := accept;
    }
  }
}
