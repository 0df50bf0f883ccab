/** A track or episode as the core sees it: an identity `id`, the playable `uri` and a display
    `name`. Two tracks are the same track exactly when their ids are equal. */
module Tracks {

  import opened Wrappers
  import opened Errors
  import opened Remote

  datatype Track = Track(id: string, uri: string, name: string)

  /** Lower-cases ASCII letters and leaves every other character alone. */
  function LowerChar(c: char): (l: char)
  {
    if 'A' <= c <= 'Z' then (c as int - 'A' as int + 'a' as int) as char else c
  }

  function ToLower(s: string): (r: string)
    ensures |r| == |s|
    ensures forall i :: 0 <= i < |s| ==> r[i] == LowerChar(s[i])
  {
    seq(|s|, i requires 0 <= i < |s| => LowerChar(s[i]))
  }

  /** Equal up to the case of ASCII letters. */
  predicate EqualIgnoringCase(a: string, b: string)
  {
    |a| == |b| && forall i :: 0 <= i < |a| ==> LowerChar(a[i]) == LowerChar(b[i])
  }

  lemma ToLowerEqual(a: string, b: string)
    ensures ToLower(a) == ToLower(b) <==> EqualIgnoringCase(a, b)
  {
    if EqualIgnoringCase(a, b) {
      assert forall i :: 0 <= i < |a| ==> ToLower(a)[i] == ToLower(b)[i];
    }
    if ToLower(a) == ToLower(b) {
      assert forall i :: 0 <= i < |a| ==> ToLower(a)[i] == ToLower(b)[i];
    }
  }

  /** A full track is identified by its lower-cased ISRC when it has one, by its own id otherwise. */
  function GetTrack(id: string, uri: string, name: string, externalIds: map<string, string>): (t: Track)
    ensures t.uri == uri && t.name == name
    ensures "isrc" in externalIds ==> t.id == ToLower(externalIds["isrc"])
    ensures "isrc" !in externalIds ==> t.id == id
  {
    if "isrc" in externalIds then Track(ToLower(externalIds["isrc"]), uri, name) else Track(id, uri, name)
  }

  /** Builds the core's track from a playable item; any item that is neither a track nor an
      episode is not matched by the switch and fails. */
  function New(item: PlayableItem): (r: Result<Track, Error>)
    ensures r.Success? <==> !item.OtherItem?
    ensures item.FullEpisode? ==> r == Success(Track(item.uri, item.uri, item.name))
    ensures item.FullTrack? ==> r == Success(GetTrack(item.id, item.uri, item.name, item.externalIds))
  {
    match item
    case FullTrack(id, uri, name, externalIds) => Success(GetTrack(id, uri, name, externalIds))
    case FullEpisode(uri, name) => Success(Track(uri, uri, name))
    case OtherItem => Failure(UnsupportedItem)
  }

  /** Track equality: false for null, otherwise compares the ids. */
  predicate Equals(t: Track, other: Option<Track>)
  {
    match other
    case None => false
    case Some(o) => t.id == o.id
  }

  /** `GetHashCode`: the hash of the id under the runtime's string hash (randomised per process
      in .NET, hence a parameter). */
  function HashCode(t: Track, stringHash: string -> int): int
  {
    stringHash(t.id)
  }

  /** `ToString`: the name in double quotes followed by the URI in parentheses. */
  function ToString(t: Track): (s: string)
    ensures |s| == |t.name| + |t.uri| + 5
    ensures s[0] == '"' && s[1..|t.name| + 1] == t.name
    ensures s[|t.name| + 1..|t.name| + 4] == "\" ("
    ensures s[|t.name| + 4..|s| - 1] == t.uri && s[|s| - 1] == ')'
  {
    "\"" + t.name + "\" (" + t.uri + ")"
  }

  /** Equality looks at the ids only: the URI and the name play no part. */
  lemma EqualsIffSameId(a: Track, b: Track)
    ensures Equals(a, Some(b)) <==> a.id == b.id
    ensures Equals(a, Some(b)) <==> Equals(a, Some(Track(b.id, a.uri, a.name)))
    ensures !Equals(a, None)
  {
  }

  lemma EqualsIsEquivalence(a: Track, b: Track, c: Track)
    ensures Equals(a, Some(a))
    ensures Equals(a, Some(b)) <==> Equals(b, Some(a))
    ensures Equals(a, Some(b)) && Equals(b, Some(c)) ==> Equals(a, Some(c))
  {
  }

  /** Equal tracks hash equally, whatever the string hash. */
  lemma HashAgreesWithEquals(a: Track, b: Track, stringHash: string -> int)
    requires Equals(a, Some(b))
    ensures HashCode(a, stringHash) == HashCode(b, stringHash)
  {
  }

  /** Two full tracks whose ISRCs differ only in letter case are the same track, whatever their
      URIs and own ids; and two tracks that both carry an ISRC are the same track only then. */
  lemma IsrcCaseInsensitive(a: PlayableItem, b: PlayableItem)
    requires a.FullTrack? && b.FullTrack?
    requires "isrc" in a.externalIds && "isrc" in b.externalIds
    ensures New(a).Success? && New(b).Success?
    ensures Equals(New(a).value, Some(New(b).value)) <==> EqualIgnoringCase(a.externalIds["isrc"], b.externalIds["isrc"])
  {
    ToLowerEqual(a.externalIds["isrc"], b.externalIds["isrc"]);
  }

  /** An episode is identified by its URI. */
  lemma EpisodeIdIsUri(item: PlayableItem)
    requires item.FullEpisode?
    ensures New(item).Success? && New(item).value.id == New(item).value.uri == item.uri
  {
  }
}

/** A playlist as fetched: its id, its name and its tracks in order. */
module Playlists {

  import opened Tracks

  datatype Playlist = Playlist(id: string, name: string, tracks: seq<Track>)

  /** The URIs of the tracks, in order. */
  function Uris(ts: seq<Track>): (us: seq<string>)
    ensures |us| == |ts|
    ensures forall i :: 0 <= i < |ts| ==> us[i] == ts[i].uri
  {
    seq(|ts|, i requires 0 <= i < |ts| => ts[i].uri)
  }
}
