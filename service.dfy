/** `TssService`: login state (a pending login flow and the client), and moving the current track
    to the good or not-good playlist its source playlist maps to. */
module Service {

  import opened Wrappers
  import opened Errors
  import opened Remote
  import opened Mappings
  import opened Currents
  import Config

  /** `CALLBACK_URL`, the constant the service builds its login flow with. */
  const CallbackUrl: string := "http://localhost:8123/callback"

  /** The prefix `Current()` strips from a context URI. */
  const ContextPrefix: string := "spotify:playlist:"

  /** The PKCE verifier, opaque to the core: it is generated and used by the client library. */
  datatype Verifier = Verifier(value: string)

  /** The token record, opaque to the core (serialised to the credentials file as is). */
  datatype Token = Token(value: string)

  /** A started login flow: the client id, the callback URL and the verifier made at start. */
  datatype LoginFlow = LoginFlow(clientId: string, callbackUrl: string, verifier: Verifier)

  /** A client, authenticated with a token. */
  datatype Client = Client(token: Token)

  datatype LoginState = NoFlow | AwaitingCode | Authenticated

  datatype TryLoginResult = TryLoginResult(success: bool, loginUrl: Option<string>)

  /** Which target of a mapping a move selects: the good or the not-good playlist. */
  datatype Side = Good | NotGood

  function Select(m: Mapping, side: Side): string
  {
    match side
    case Good => m.good
    case NotGood => m.notGood
  }

  /** The login state the two fields encode. */
  function StateOf(loginFlow: Option<LoginFlow>, client: Option<Client>): LoginState
  {
    if client.Some? then Authenticated else if loginFlow.Some? then AwaitingCode else NoFlow
  }

  /** `GetTargetPlaylistId`: the selected target of the entry for the current playlist, or of the
      default when there is no current playlist or no entry for it. */
  function GetTargetPlaylistId(mappings: TssMappings, currentPlaylistId: Option<string>, side: Side): string
  {
    match currentPlaylistId
    case None => Select(mappings.default, side)
    case Some(id) => Select(if id in mappings.mappings then mappings.mappings[id] else mappings.default, side)
  }

  /** Resolution never fails: the result is always the selected target of some configured pair,
      the entry's when there is one for the playlist and the default's otherwise (a missing
      playlist and an unknown one resolve alike). */
  lemma TargetIsConfigured(mappings: TssMappings, currentPlaylistId: Option<string>, side: Side)
    ensures var r := GetTargetPlaylistId(mappings, currentPlaylistId, side);
      (exists m :: m in mappings.mappings.Values && r == Select(m, side)) || r == Select(mappings.default, side)
    ensures currentPlaylistId.Some? && currentPlaylistId.value in mappings.mappings ==>
      GetTargetPlaylistId(mappings, currentPlaylistId, side) == Select(mappings.mappings[currentPlaylistId.value], side)
    ensures currentPlaylistId.None? || currentPlaylistId.value !in mappings.mappings ==>
      GetTargetPlaylistId(mappings, currentPlaylistId, side) == GetTargetPlaylistId(mappings, None, side)
    ensures GetTargetPlaylistId(mappings, None, side) == Select(mappings.default, side)
    ensures currentPlaylistId.Some? && currentPlaylistId.value !in mappings.mappings ==>
      GetTargetPlaylistId(mappings, currentPlaylistId, side) == Select(mappings.default, side)
  {
    if currentPlaylistId.Some? && currentPlaylistId.value in mappings.mappings {
      var m := mappings.mappings[currentPlaylistId.value];
      assert m in mappings.mappings.Values;
    }
  }

  /** Replacing `pat` by the empty string: removes the occurrences of `pat` found scanning left to right, without
      rescanning what the removal joins together. */
  function RemoveAll(s: string, pat: string): (r: string)
    requires |pat| > 0
    ensures |r| <= |s|
    decreases |s|
  {
    if |s| < |pat| then s
    else if s[..|pat|] == pat then RemoveAll(s[|pat|..], pat)
    else [s[0]] + RemoveAll(s[1..], pat)
  }

  lemma OccursShift(s: string, pat: string, j: nat)
    requires |s| >= 1
    ensures OccursAt(s[1..], pat, j) <==> OccursAt(s, pat, j + 1)
  {
    if j + 1 + |pat| <= |s| {
      assert s[1..][j..j + |pat|] == s[j + 1..j + 1 + |pat|];
    }
  }

  lemma {:induction false} RemoveAllShorter(s: string, pat: string, j: nat)
    requires |pat| > 0 && OccursAt(s, pat, j)
    ensures |RemoveAll(s, pat)| < |s|
    decreases |s|
  {
    if s[..|pat|] != pat {
      assert j > 0;
      OccursShift(s, pat, j - 1);
      RemoveAllShorter(s[1..], pat, j - 1);
    }
  }

  lemma {:induction false} RemoveAllUnchanged(s: string, pat: string)
    requires |pat| > 0
    requires forall j :: 0 <= j ==> !OccursAt(s, pat, j)
    ensures RemoveAll(s, pat) == s
    decreases |s|
  {
    if |s| >= |pat| {
      assert !OccursAt(s, pat, 0);
      forall j | 0 <= j ensures !OccursAt(s[1..], pat, j) {
        OccursShift(s, pat, j);
      }
      RemoveAllUnchanged(s[1..], pat);
    }
  }

  /** The replacement changes the text exactly when the pattern occurs in it. */
  lemma RemoveAllIdentity(s: string, pat: string)
    requires |pat| > 0
    ensures RemoveAll(s, pat) == s <==> forall j :: 0 <= j ==> !OccursAt(s, pat, j)
  {
    if forall j :: 0 <= j ==> !OccursAt(s, pat, j) {
      RemoveAllUnchanged(s, pat);
    } else {
      var j :| 0 <= j && OccursAt(s, pat, j);
      RemoveAllShorter(s, pat, j);
    }
  }

  /** For a playlist context URI, both ways the program extracts the playlist id (the string
      replacement in `Current()` and the regular expression of `Current.New`) give the id. */
  lemma PlaylistIdFromContext(id: string)
    requires forall j :: 0 <= j ==> !OccursAt(id, ContextPrefix, j)
    ensures RemoveAll(ContextPrefix + id, ContextPrefix) == id
    ensures '\n' !in id ==> ExtractPlaylistId(ContextPrefix + id) == id
  {
    var u := ContextPrefix + id;
    assert u[..|ContextPrefix|] == ContextPrefix && u[|ContextPrefix|..] == id;
    RemoveAllUnchanged(id, ContextPrefix);
    if '\n' !in id {
      ExtractFromPlaylistUri(id);
    }
  }

  /** The name and URI of the item being played. */
  datatype TrackRef = TrackRef(name: string, uri: string)

  /** What `Current()` returns: the item (if a track or an episode) and the playlist id. */
  datatype NowPlaying = NowPlaying(track: Option<TrackRef>, playlistId: Option<string>)

  /** `Current()`: nothing playing gives (null, null); a record without a context fails (the
      context is dereferenced before the item is looked at); an item that is neither a track nor
      an episode gives (null, null); otherwise the item and the context URI without
      "spotify:playlist:". */
  function CurrentOf(playing: Option<CurrentlyPlaying>): (r: Result<NowPlaying, Error>)
    ensures r.Failure? <==> playing.Some? && playing.value.contextUri.None?
    ensures r.Success? && r.value.track.None? ==> r.value.playlistId.None?
    ensures r.Success? && r.value.track.Some? ==>
      && playing.Some? && !playing.value.item.OtherItem?
      && r.value.track.value == TrackRef(playing.value.item.name, playing.value.item.uri)
      && r.value.playlistId == Some(RemoveAll(playing.value.contextUri.value, ContextPrefix))
    ensures r.Success? && playing.Some? && !playing.value.item.OtherItem? ==> r.value.track.Some?
  {
    match playing
    case None => Success(NowPlaying(None, None))
    case Some(current) =>
      match current.contextUri
      case None => Failure(NoContext)
      case Some(uri) =>
        var playlistId := RemoveAll(uri, ContextPrefix);
        match current.item
        case FullTrack(_, trackUri, name, _) => Success(NowPlaying(Some(TrackRef(name, trackUri)), Some(playlistId)))
        case FullEpisode(episodeUri, name) => Success(NowPlaying(Some(TrackRef(name, episodeUri)), Some(playlistId)))
        case OtherItem => Success(NowPlaying(None, None))
  }

  /** `TryRemoveFromPlaylist`'s call: none for a missing or empty playlist id. */
  function RemoveCalls(playlistId: Option<string>, uri: string): seq<Call>
  {
    if playlistId.None? || playlistId.value == "" then [] else [RemoveItems(playlistId.value, [uri])]
  }

  /** The calls of `MoveCurrentTo` once `Current()` has answered: nothing without a track;
      otherwise the removal attempt, the add to the resolved target and, when the add returns
      normally, the skip (the `skip` argument is never read). */
  function MoveCalls(mappings: TssMappings, now: NowPlaying, side: Side, addOk: bool): seq<Call>
  {
    match now.track
    case None => []
    case Some(t) =>
      RemoveCalls(now.playlistId, t.uri)
        + [AddItems(GetTargetPlaylistId(mappings, now.playlistId, side), [t.uri])]
        + (if addOk then [SkipNext] else [])
  }

  function MovePlaylists(before: map<string, seq<string>>, mappings: TssMappings, now: NowPlaying, side: Side,
                         removeOk: bool, addOk: bool): map<string, seq<string>>
  {
    match now.track
    case None => before
    case Some(t) =>
      var removed :=
        if RemoveCalls(now.playlistId, t.uri) != [] && removeOk then
          var src := now.playlistId.value;
          before[src := Without(ItemsOf(before, src), [t.uri])]
        else before;
      var dst := GetTargetPlaylistId(mappings, now.playlistId, side);
      if addOk then removed[dst := ItemsOf(removed, dst) + [t.uri]] else removed
  }

  /** Nothing to move succeeds; otherwise a throwing add, then a throwing skip, fails the move. */
  function MoveOutcome(now: NowPlaying, addOk: bool, skipOk: bool): Outcome<Error>
  {
    if now.track.None? then Pass
    else if !addOk then Fail(AddItemsFailed)
    else if !skipOk then Fail(SkipFailed)
    else Pass
  }

  /** Without a current track no call is issued. With one: the removal attempt comes first and
      only for a non-empty playlist id, then the add of exactly the track's URI to the resolved
      target, then a skip if and only if the add returned normally, whichever side is moved to. */
  lemma MoveCallsSpec(mappings: TssMappings, now: NowPlaying, side: Side, addOk: bool)
    ensures var calls := MoveCalls(mappings, now, side, addOk);
      && (now.track.None? ==> calls == [])
      && (now.track.Some? ==>
            var uri := now.track.value.uri;
            var target := GetTargetPlaylistId(mappings, now.playlistId, side);
            var r := if now.playlistId.Some? && now.playlistId.value != "" then 1 else 0;
            && |calls| == r + 1 + (if addOk then 1 else 0)
            && (r == 1 ==> calls[0] == RemoveItems(now.playlistId.value, [uri]))
            && calls[r] == AddItems(target, [uri])
            && (SkipNext in calls <==> addOk)
            && (addOk ==> calls[|calls| - 1] == SkipNext))
  {
  }

  /** Without a current track nothing changes. With one: a removal that is issued and succeeds
      leaves the source without the track and keeps its other items, otherwise the source is as
      it was; a successful add then appends exactly the track's URI to the target as the removal
      left it, whether or not the removal went through, and leaves a different source as the
      removal left it; a failed add leaves the target as the removal left it; no other playlist
      changes. */
  lemma MovePlaylistsSpec(before: map<string, seq<string>>, mappings: TssMappings, now: NowPlaying, side: Side,
                          removeOk: bool, addOk: bool)
    ensures var after := MovePlaylists(before, mappings, now, side, removeOk, addOk);
      && (now.track.None? ==> after == before)
      && (now.track.Some? ==>
            var uri := now.track.value.uri;
            var dst := GetTargetPlaylistId(mappings, now.playlistId, side);
            var removes := RemoveCalls(now.playlistId, uri) != [] && removeOk;
            var mid := if removes then before[now.playlistId.value := Without(ItemsOf(before, now.playlistId.value), [uri])]
                       else before;
            && (addOk ==> dst in after && after[dst] == ItemsOf(mid, dst) + [uri])
            && (!addOk ==> after == mid)
            && (removes && (!addOk || dst != now.playlistId.value) ==>
                  ItemsOf(after, now.playlistId.value) == Without(ItemsOf(before, now.playlistId.value), [uri])
                  && uri !in ItemsOf(after, now.playlistId.value))
            && (now.playlistId.Some? && now.playlistId.value != dst ==>
                  ItemsOf(after, now.playlistId.value) == ItemsOf(mid, now.playlistId.value)))
      && (forall p :: p in before && Some(p) != now.playlistId && p != GetTargetPlaylistId(mappings, now.playlistId, side)
            ==> p in after && after[p] == before[p])
      && (!removeOk && !addOk ==> after == before)
    ensures var after := MovePlaylists(before, mappings, now, side, removeOk, addOk);
      now.track.Some? ==>
        after.Keys == before.Keys
          + (if RemoveCalls(now.playlistId, now.track.value.uri) != [] && removeOk then {now.playlistId.value} else {})
          + (if addOk then {GetTargetPlaylistId(mappings, now.playlistId, side)} else {})
  {
  }

  /** A move with a track succeeds exactly when the add and the skip do; a failing skip is only
      reported after the skip was issued. */
  lemma MoveOutcomeSpec(mappings: TssMappings, now: NowPlaying, side: Side, addOk: bool, skipOk: bool)
    ensures MoveOutcome(now, addOk, skipOk) == Pass <==> now.track.None? || (addOk && skipOk)
    ensures MoveOutcome(now, addOk, skipOk) == Fail(SkipFailed) ==> SkipNext in MoveCalls(mappings, now, side, addOk)
    ensures now.track.Some? && !addOk ==> MoveOutcome(now, addOk, skipOk) == Fail(AddItemsFailed)
  {
  }

  /** Moving to the good side skips exactly as moving to the not-good side does. */
  lemma GoodSkipsToo(mappings: TssMappings, now: NowPlaying, addOk: bool)
    requires now.track.Some?
    ensures SkipNext in MoveCalls(mappings, now, Good, addOk) <==> SkipNext in MoveCalls(mappings, now, NotGood, addOk)
    ensures addOk ==> SkipNext in MoveCalls(mappings, now, Good, addOk)
  {
    MoveCallsSpec(mappings, now, Good, addOk);
    MoveCallsSpec(mappings, now, NotGood, addOk);
  }

  /** The service's callback constant is the configuration's default callback URL. */
  lemma CallbackConstantIsDefault()
    ensures CallbackUrl == Config.CallbackUrlFor(Config.DefaultCallbackPort)
  {
    Config.DefaultCallbackUrl();
  }

  class TssService {
    const clientId: string
    const credentialsPath: string
    /** The mappings as last (re)loaded from the mappings file. */
    var mappings: TssMappings
    /** The credentials file at `credentialsPath` (None: the file does not exist). */
    var credentialsFile: Option<Token>
    var loginFlow: Option<LoginFlow>
    var client: Option<Client>

    /** A client exists only after its token has been written to the credentials file. */
    ghost predicate Valid()
      reads this
    {
      client.Some? ==> credentialsFile == Some(client.value.token)
    }

    function State(): LoginState
      reads this
    {
      StateOf(loginFlow, client)
    }

    constructor (clientId: string, credentialsPath: string, mappings: TssMappings, credentialsFile: Option<Token>)
      ensures Valid() && State() == NoFlow
      ensures this.clientId == clientId && this.credentialsPath == credentialsPath
      ensures this.mappings == mappings && this.credentialsFile == credentialsFile
    {
      this.clientId := clientId;
      this.credentialsPath := credentialsPath;
      this.mappings := mappings;
      this.credentialsFile := credentialsFile;
      loginFlow := None;
      client := None;
    }

    /** The options monitor delivering a changed mappings file. */
    method ReloadMappings(m: TssMappings)
      modifies this
      ensures mappings == m
      ensures credentialsFile == old(credentialsFile) && loginFlow == old(loginFlow) && client == old(client)
    {
      mappings := m;
    }

    /** `CreateClient`: saves the token (`saveOk` says whether the write succeeds) and only then
        assigns the client, so a failed save leaves the client as it was. */
    method CreateClient(token: Token, saveOk: bool) returns (outcome: Outcome<Error>)
      requires Valid()
      modifies this
      ensures Valid()
      ensures outcome == if saveOk then Pass else Fail(SaveTokenFailed)
      ensures saveOk ==> credentialsFile == Some(token) && client == Some(Client(token)) && State() == Authenticated
      ensures !saveOk ==> credentialsFile == old(credentialsFile) && client == old(client)
      ensures loginFlow == old(loginFlow) && mappings == old(mappings)
    {
      if !saveOk {
        return Fail(SaveTokenFailed);
      }
      credentialsFile := Some(token);
      client := Some(Client(token));
      outcome := Pass;
    }

    /** `TryLogin`: with a credentials file, loads its token and creates the client, leaving the
        login flow alone; without one, starts a fresh flow with the given verifier and returns
        the login URL the library builds for it (`loginUrl`). */
    method TryLogin(verifier: Verifier, loginUrl: LoginFlow -> string, saveOk: bool) returns (r: Result<TryLoginResult, Error>)
      requires Valid()
      modifies this
      ensures Valid()
      ensures loginFlow == if old(credentialsFile).Some? then old(loginFlow) else Some(LoginFlow(clientId, CallbackUrl, verifier))
      ensures old(credentialsFile).Some? ==>
        if saveOk then r == Success(TryLoginResult(true, None)) && client == Some(Client(old(credentialsFile).value))
        else r == Failure(SaveTokenFailed) && client == old(client)
      ensures old(credentialsFile).None? ==>
        r == Success(TryLoginResult(false, Some(loginUrl(LoginFlow(clientId, CallbackUrl, verifier)))))
        && client == old(client) && client.None? && State() == AwaitingCode
      ensures credentialsFile == old(credentialsFile) && mappings == old(mappings)
    {
      if credentialsFile.Some? {
        var token := credentialsFile.value;
        var created := CreateClient(token, saveOk);
        if created.Fail? {
          return Failure(created.error);
        }
        return Success(TryLoginResult(true, None));
      }
      var flow := LoginFlow(clientId, CallbackUrl, verifier);
      loginFlow := Some(flow);
      r := Success(TryLoginResult(false, Some(loginUrl(flow))));
    }

    /** `CompleteLogin`: exchanges the code with the verifier of the most recent flow
        (`exchange` is the token endpoint) and creates the client from the token; fails when no
        flow was started. The flow is kept. */
    method CompleteLogin(code: string, exchange: (LoginFlow, string) -> Option<Token>, saveOk: bool)
      returns (outcome: Outcome<Error>)
      requires Valid()
      modifies this
      ensures Valid()
      ensures old(loginFlow).None? ==> outcome == Fail(NoLoginFlow) && client == old(client)
      ensures old(loginFlow).Some? && exchange(old(loginFlow).value, code).None? ==>
        outcome == Fail(TokenExchangeFailed) && client == old(client)
      ensures old(loginFlow).Some? && exchange(old(loginFlow).value, code).Some? ==>
        var token := exchange(old(loginFlow).value, code).value;
        if saveOk then outcome == Pass && client == Some(Client(token)) && credentialsFile == Some(token)
        else outcome == Fail(SaveTokenFailed) && client == old(client)
      ensures !(old(loginFlow).Some? && exchange(old(loginFlow).value, code).Some? && saveOk) ==>
        credentialsFile == old(credentialsFile)
      ensures loginFlow == old(loginFlow) && mappings == old(mappings)
    {
      if loginFlow.None? {
        return Fail(NoLoginFlow);
      }
      var token := exchange(loginFlow.value, code);
      if token.None? {
        return Fail(TokenExchangeFailed);
      }
      outcome := CreateClient(token.value, saveOk);
    }

    /** `MoveCurrentTo`: asks what is playing, resolves the target, and unless no track is
        playing tries the removal (its failure swallowed), adds the track to the target and
        skips; `skip` is accepted and ignored, as in the C# program. */
    method MoveCurrentTo(store: Store, side: Side, skip: bool, removeOk: bool, addOk: bool, skipOk: bool)
      returns (outcome: Outcome<Error>)
      modifies store
      ensures client.None? ==>
        outcome == Fail(NotAuthenticated) && store.calls == old(store.calls) && store.playlists == old(store.playlists)
      ensures client.Some? && CurrentOf(old(store.playing)).Failure? ==>
        && outcome == Fail(CurrentOf(old(store.playing)).error)
        && store.calls == old(store.calls) && store.playlists == old(store.playlists)
      ensures client.Some? && CurrentOf(old(store.playing)).Success? ==>
        var now := CurrentOf(old(store.playing)).value;
        && store.calls == old(store.calls) + MoveCalls(mappings, now, side, addOk)
        && store.playlists == MovePlaylists(old(store.playlists), mappings, now, side, removeOk, addOk)
        && outcome == MoveOutcome(now, addOk, skipOk)
      ensures store.playing == old(store.playing)
    {
      if client.None? {
        return Fail(NotAuthenticated);
      }
      var current := CurrentOf(store.playing);
      if current.Failure? {
        return Fail(current.error);
      }
      var now := current.value;
      var targetPlaylistId := GetTargetPlaylistId(mappings, now.playlistId, side);
      if now.track.None? {
        return Pass;
      }
      var trackUri := now.track.value.uri;
      TryRemoveFromPlaylist(store, now.playlistId, trackUri, removeOk);
      var added := store.AddItems(targetPlaylistId, [trackUri], addOk);
      if !added {
        return Fail(AddItemsFailed);
      }
      var skipped := store.SkipNext(skipOk);
      if !skipped {
        return Fail(SkipFailed);
      }
      outcome := Pass;
    }

    /** `MoveCurrentToGood`: passes `skip = false`, which has no effect. */
    method MoveCurrentToGood(store: Store, removeOk: bool, addOk: bool, skipOk: bool) returns (outcome: Outcome<Error>)
      modifies store
      ensures client.None? ==>
        outcome == Fail(NotAuthenticated) && store.calls == old(store.calls) && store.playlists == old(store.playlists)
      ensures client.Some? && CurrentOf(old(store.playing)).Failure? ==>
        && outcome == Fail(CurrentOf(old(store.playing)).error)
        && store.calls == old(store.calls) && store.playlists == old(store.playlists)
      ensures client.Some? && CurrentOf(old(store.playing)).Success? ==>
        var now := CurrentOf(old(store.playing)).value;
        && store.calls == old(store.calls) + MoveCalls(mappings, now, Good, addOk)
        && store.playlists == MovePlaylists(old(store.playlists), mappings, now, Good, removeOk, addOk)
        && outcome == MoveOutcome(now, addOk, skipOk)
      ensures store.playing == old(store.playing)
    {
      outcome := MoveCurrentTo(store, Good, false, removeOk, addOk, skipOk);
    }

    /** `MoveCurrentToNotGood`: relies on the default `skip = true`. */
    method MoveCurrentToNotGood(store: Store, removeOk: bool, addOk: bool, skipOk: bool) returns (outcome: Outcome<Error>)
      modifies store
      ensures client.None? ==>
        outcome == Fail(NotAuthenticated) && store.calls == old(store.calls) && store.playlists == old(store.playlists)
      ensures client.Some? && CurrentOf(old(store.playing)).Failure? ==>
        && outcome == Fail(CurrentOf(old(store.playing)).error)
        && store.calls == old(store.calls) && store.playlists == old(store.playlists)
      ensures client.Some? && CurrentOf(old(store.playing)).Success? ==>
        var now := CurrentOf(old(store.playing)).value;
        && store.calls == old(store.calls) + MoveCalls(mappings, now, NotGood, addOk)
        && store.playlists == MovePlaylists(old(store.playlists), mappings, now, NotGood, removeOk, addOk)
        && outcome == MoveOutcome(now, addOk, skipOk)
      ensures store.playing == old(store.playing)
    {
      outcome := MoveCurrentTo(store, NotGood, true, removeOk, addOk, skipOk);
    }

    /** `TryRemoveFromPlaylist`: no call for a missing or empty id; a failing removal is swallowed. */
    method TryRemoveFromPlaylist(store: Store, playlistId: Option<string>, trackUri: string, removeOk: bool)
      modifies store
      ensures store.calls == old(store.calls) + RemoveCalls(playlistId, trackUri)
      ensures store.playlists ==
        if RemoveCalls(playlistId, trackUri) != [] && removeOk
        then old(store.playlists)[playlistId.value := Without(old(store.Items(playlistId.value)), [trackUri])]
        else old(store.playlists)
      ensures store.playing == old(store.playing)
    {
      if playlistId.None? || playlistId.value == "" {
        return;
      }
      var _ := store.RemoveItems(playlistId.value, [trackUri], removeOk);
    }
  }
}
