/** `Current`: the track being played and the playlist it is played from, built from the
    client's currently-playing record. */
module Currents {

  import opened Wrappers
  import opened Errors
  import opened Remote
  import opened Tracks

  /** `pat` occurs in `s` at position `i`. */
  predicate OccursAt(s: string, pat: string, i: nat)
  {
    i + |pat| <= |s| && s[i..i + |pat|] == pat
  }

  /** The first position at or after `i` where `pat` occurs. */
  function FindFrom(s: string, pat: string, i: nat): (r: Option<nat>)
    ensures r.Some? ==> i <= r.value && OccursAt(s, pat, r.value)
    ensures r.Some? ==> forall j :: i <= j < r.value ==> !OccursAt(s, pat, j)
    ensures r.None? ==> forall j :: i <= j ==> !OccursAt(s, pat, j)
    decreases |s| - i
  {
    if i + |pat| > |s| then None
    else if OccursAt(s, pat, i) then Some(i)
    else FindFrom(s, pat, i + 1)
  }

  /** The longest prefix without a line feed: what `.*` matches, since `.` does not match '\n'. */
  function Line(s: string): (r: string)
    ensures '\n' !in r
    ensures |r| <= |s| && r == s[..|r|]
    ensures |r| < |s| ==> s[|r|] == '\n'
  {
    if s == [] || s[0] == '\n' then [] else [s[0]] + Line(s[1..])
  }

  const Marker: string := "playlist:"

  /** The regular-expression extraction: the leftmost match starts at the first "playlist:";
      the captured id runs from just after it to the end of that line; a failed match gives the
      empty string. */
  function ExtractPlaylistId(uri: string): (id: string)
    ensures FindFrom(uri, Marker, 0).None? ==> id == ""
    ensures FindFrom(uri, Marker, 0).Some? ==>
      var i := FindFrom(uri, Marker, 0).value; id == Line(uri[i + |Marker|..])
  {
    match FindFrom(uri, Marker, 0)
    case None => ""
    case Some(i) => Line(uri[i + |Marker|..])
  }

  /** For a playlist context URI, the id is what follows the "spotify:playlist:" prefix. */
  lemma ExtractFromPlaylistUri(id: string)
    requires '\n' !in id
    ensures ExtractPlaylistId("spotify:playlist:" + id) == id
  {
    var u := "spotify:playlist:" + id;
    assert u[..17] == "spotify:playlist:";
    forall j | 0 <= j < 8 ensures !OccursAt(u, Marker, j) {
      if j == 1 {
        assert u[j + 1] == 'o' != Marker[1];
        assert u[j..j + 9][1] == u[j + 1];
      } else {
        assert u[j] != 'p';
        assert u[j..j + 9][0] == u[j];
      }
    }
    assert OccursAt(u, Marker, 8) by {
      assert u[8..17] == "spotify:playlist:"[8..17];
    }
    assert FindFrom(u, Marker, 0) == Some(8) by {
      FindFromSkips(u, Marker, 0, 8);
    }
    assert u[17..] == id;
    LineWithoutFeed(id);
  }

  lemma {:induction false} FindFromSkips(s: string, pat: string, i: nat, k: nat)
    requires i <= k && OccursAt(s, pat, k)
    requires forall j :: i <= j < k ==> !OccursAt(s, pat, j)
    ensures FindFrom(s, pat, i) == Some(k)
    decreases k - i
  {
    if i < k {
      FindFromSkips(s, pat, i + 1, k);
    }
  }

  lemma {:induction false} LineWithoutFeed(s: string)
    requires '\n' !in s
    ensures Line(s) == s
  {
    if s != [] {
      LineWithoutFeed(s[1..]);
    }
  }

  /** A URI without "playlist:" has the empty string as its id. */
  lemma ExtractWithoutMarker(uri: string)
    requires forall j :: 0 <= j ==> !OccursAt(uri, Marker, j)
    ensures ExtractPlaylistId(uri) == ""
  {
  }

  /** Which playlist constructor builds the playlist: `Playlist.New` (the tracks are loaded) or
      `Playlist.Empty` (no tracks). Only whether the fetch of `Playlist.New` succeeds is
      modelled. */
  datatype PlaylistLoad = Loaded(id: string) | Unloaded(id: string)

  datatype Current = Current(track: Track, playlist: PlaylistLoad)

  /** The query, in the order of its steps: fails when the currently-playing request throws
      (`requestOk` false; `playing` is its answer otherwise), when nothing is playing, when the
      record has no context (a null dereference), when loading the playlist's tracks fails
      (`fetchOk`, read only when `loadTracks`) and when the item is neither a track nor an
      episode. */
  function NewCurrent(requestOk: bool, playing: Option<CurrentlyPlaying>, loadTracks: bool, fetchOk: bool)
    : (r: Result<Current, Error>)
    ensures !requestOk ==> r == Failure(PlayingRequestFailed)
    ensures requestOk && playing.None? ==> r == Failure(NotPlaying)
    ensures requestOk && playing.Some? && playing.value.contextUri.None? ==> r == Failure(NoContext)
    ensures requestOk && playing.Some? && playing.value.contextUri.Some? && loadTracks && !fetchOk ==>
      r == Failure(PlaylistFetchFailed)
    ensures r.Success? <==>
      && requestOk && playing.Some? && playing.value.contextUri.Some? && (loadTracks ==> fetchOk)
      && !playing.value.item.OtherItem?
    ensures r.Success? ==> r.value.track == New(playing.value.item).value
    ensures r.Success? ==> r.value.playlist.id == ExtractPlaylistId(playing.value.contextUri.value)
    ensures r.Success? ==> (r.value.playlist.Loaded? <==> loadTracks)
  {
    if !requestOk then Failure(PlayingRequestFailed)
    else
      match playing
      case None => Failure(NotPlaying)
      case Some(current) =>
        match current.contextUri
        case None => Failure(NoContext)
        case Some(uri) =>
          var id := ExtractPlaylistId(uri);
          if loadTracks && !fetchOk then Failure(PlaylistFetchFailed)
          else
            var load := if loadTracks then Loaded(id) else Unloaded(id);
            match New(current.item)
            case Failure(e) => Failure(e)
            case Success(track) => Success(Current(track, load))
  }

  /** `New(client)`: with the playlist's tracks, whose fetch succeeds when `fetchOk`. */
  function CurrentWithTracks(requestOk: bool, playing: Option<CurrentlyPlaying>, fetchOk: bool): Result<Current, Error>
  {
    NewCurrent(requestOk, playing, true, fetchOk)
  }

  /** `Empty(client)`: without them, so no fetch is involved. */
  function CurrentWithoutTracks(requestOk: bool, playing: Option<CurrentlyPlaying>): Result<Current, Error>
  {
    NewCurrent(requestOk, playing, false, true)
  }

  /** A failed currently-playing request fails both entry points alike. When the fetch succeeds,
      the two fail alike and agree on the track and the playlist id, differing only in which
      playlist constructor they select; when it fails, `New` fails wherever a context exists,
      even where `Empty` succeeds. */
  lemma WithAndWithoutTracks(requestOk: bool, playing: Option<CurrentlyPlaying>, fetchOk: bool)
    ensures !requestOk ==>
      CurrentWithTracks(requestOk, playing, fetchOk) == CurrentWithoutTracks(requestOk, playing)
        == Failure(PlayingRequestFailed)
    ensures fetchOk ==>
      (CurrentWithTracks(requestOk, playing, fetchOk).Success? <==> CurrentWithoutTracks(requestOk, playing).Success?)
    ensures fetchOk && CurrentWithTracks(requestOk, playing, fetchOk).Failure? ==>
      CurrentWithTracks(requestOk, playing, fetchOk) == CurrentWithoutTracks(requestOk, playing)
    ensures CurrentWithTracks(requestOk, playing, fetchOk).Success? ==>
      && CurrentWithoutTracks(requestOk, playing).Success?
      && var a, b := CurrentWithTracks(requestOk, playing, fetchOk).value, CurrentWithoutTracks(requestOk, playing).value;
         a.track == b.track && a.playlist == Loaded(b.playlist.id) && b.playlist.Unloaded?
    ensures requestOk && !fetchOk && playing.Some? && playing.value.contextUri.Some? ==>
      CurrentWithTracks(requestOk, playing, fetchOk) == Failure(PlaylistFetchFailed)
  {
  }
}
