# Tss core in Dafny

Tss moves the track being played on a music-streaming account from
its playlist into a "good" or a "not good" playlist. It chooses the targets from a mapping
keyed by the source playlist. It can also clean a playlist of the tracks already sorted, and
duplicate a playlist into a timestamped backup. This project models the deterministic core of
`Tss.Core` and proves properties of it:

- track identity, by lower-cased ISRC, track id or episode URI (`Models/Track.cs`);
- the cleanup handler: `Current − Good − NotGood` under `Enumerable.Except`, the
  `SequenceEqual` short-circuit, the clear, the re-add in batches of 99 and the removed count
  (`Requests/CleanupPlaylist.cs`);
- the duplicate handler: the backup name, one creation, then awaited adds of 99-URI batches
  (`Requests/DuplicatePlaylist.cs`);
- the move-track handler: best-effort remove, add, optional skip (`Requests/MoveTrack.cs`);
- the currently-playing record (`Models/Current.cs`): the null-playback check, the regular
  expression that extracts the playlist id, and the `loadTracks` switch;
- the service (`TssService.cs`): mapping resolution, `Current()`, `MoveCurrentTo` and its two
  callers, `TryRemoveFromPlaylist`, and the login state kept in the fields `_loginFlow` and
  `_client` (`TryLogin`, `CompleteLogin`, `CreateClient`);
- the configuration (`TssConfig.cs`, `TssMappings.cs`): the default port and the computed
  callback URL.

The streaming API is replaced by the class `Remote.Store`. It holds the playlists (id to URI
sequence), what is currently playing, and the trace of calls issued. Whether a
`RemoveItems`, `AddItems`, `ReplaceItems` or `SkipNext` call succeeds is an input: a `bool`
per call, or `addOk: nat -> bool` per batch. So is whether the currently-playing request
and the loading of a playlist's tracks succeed in `Current.New`, and whether saving the token, or exchanging the login code for a
token, works. A throw from one of those calls, a null dereference of the client, the login flow
or the playback context, and an unmatched playable item become the `Failure`/`Fail` arm of a
`Result`/`Outcome` value, with two exceptions that follow the code. A throwing `RemoveItems` is
caught and ignored (`MoveTrack.cs:36-40`, `TssService.cs:245-248`), so the move goes on. A
failing cleanup `AddItems` is never observed because its task is not awaited
(`CleanupPlaylist.cs:47`), so the cleanup still reports `Removed`. The other client calls are taken to succeed; "## Left out" names
them. Each handler is a module-level method that takes the `Store` as an argument and changes
it. It is specified by pure functions of its inputs: the calls it issues, the playlists
afterwards and its outcome. The properties are lemmas about those functions.

Files: `wrappers.dfy` (Option, Result, Outcome, the error kinds), `decimal.dfy` (decimal
formatting of integers), `batching.dfy` (MoreLinq `Batch`), `remote.dfy` (the store),
`track.dfy`, `cleanup.dfy`, `duplicate.dfy`, `move_track.dfy`, `current.dfy`, `config.dfy`,
`service.dfy`.

Behaviour of the code worth knowing, which the model keeps as it is:

- The duplicate handler creates a backup even for an empty playlist.
- Tracks are equal by `Id`, which is an ISRC, a track id or an episode URI. The track URI is not compared.
- `MoveCurrentTo` never reads its `skip` argument, so `MoveCurrentToGood`, which passes
  `false`, still skips.
- In the cleanup handler the add tasks are not awaited (`CleanupPlaylist.cs:47`). A failing add
  therefore does not stop the later batches, and the handler still reports the removed count.

## Model

| member | source | states |
|---|---|---|
| Tracks.ToLower | src/Tss.Core/Models/Track.cs:17 | same length; each character is lower-cased (ASCII letters) and every other character is kept |
| Tracks.ToLowerEqual | src/Tss.Core/Models/Track.cs:17 | two strings lower-case to the same string if and only if they are equal ignoring case |
| Tracks.GetTrack | src/Tss.Core/Models/Track.cs:13-20 | the Id is the lower-cased "isrc" external id when present, else the track's own id; Uri and Name are the track's |
| Tracks.New | src/Tss.Core/Models/Track.cs:7-11 | succeeds exactly for tracks and episodes; a full track gives GetTrack's track (the ISRC rule); an episode gives (Uri, Uri, Name); any other item fails (unmatched switch) |
| Tracks.ToString | src/Tss.Core/Models/Track.cs:22-25 | the text is a quote, the name, a quote, " (", the URI and ")" |
| Tracks.EqualsIffSameId | src/Tss.Core/Models/Track.cs:27-32 | Tracks.Equals holds if and only if the Ids are equal; Uri and Name do not matter; nothing equals null |
| Tracks.EqualsIsEquivalence | src/Tss.Core/Models/Track.cs:29-31 | equality is reflexive, symmetric and transitive |
| Tracks.HashAgreesWithEquals | src/Tss.Core/Models/Track.cs:34-37 | Tracks.HashCode, the hash of the Id, is equal for equal tracks, for any string hash |
| Tracks.IsrcCaseInsensitive | src/Tss.Core/Models/Track.cs:15-17 | two full tracks with ISRCs are equal if and only if the ISRCs agree ignoring case, whatever their URIs |
| Tracks.EpisodeIdIsUri | src/Tss.Core/Models/Track.cs:10 | an episode's Id and Uri are both the episode URI |
| Playlists.Uris | src/Tss.Core/Requests/CleanupPlaylist.cs:45 | the URIs of the tracks, in order, one per track |
| Batching.BatchConcat | src/Tss.Core/Requests/CleanupPlaylist.cs:44 | the batches of Batching.Batch concatenate back to the input |
| Batching.BatchSizes | src/Tss.Core/Requests/CleanupPlaylist.cs:44 | every batch of Batching.Batch is non-empty and at most the size; all but the last have exactly the size |
| Batching.BatchCount | src/Tss.Core/Requests/DuplicatePlaylist.cs:63 | the number of batches is the length divided by the size, rounded up |
| Batching.ConcatAppend | src/Tss.Core/Requests/DuplicatePlaylist.cs:65-71 | concatenation distributes over appending batch lists |
| Batching.ConcatPrefixStep | src/Tss.Core/Requests/DuplicatePlaylist.cs:65-71 | adding one more batch appends it to what the earlier batches gave |
| Remote.AddCalls | src/Tss.Core/Requests/CleanupPlaylist.cs:45-47 | one add call per batch, in order, each into the given playlist with that batch |
| Remote.Without | src/Tss.Core/Requests/MoveTrack.cs:30-33 | a URI occurs in the result if and only if it occurs in the input and is not removed; never longer than the input |
| Remote.WithoutCounts | src/Tss.Core/Requests/MoveTrack.cs:30-33 | an item that is not removed is kept as often as it occurs |
| Remote.WithoutConcat | src/Tss.Core/Requests/MoveTrack.cs:30-33 | removal works item by item, in order: it distributes over concatenation, and a single item is kept or dropped |
| Remote.Store.constructor | src/Tss.Core/TssService.cs:259 | the store starts with the given playlists and playback and an empty trace |
| Remote.Store.Create | src/Tss.Core/Requests/DuplicatePlaylist.cs:61 | records the creation and adds an empty playlist under the assigned id |
| Remote.Store.RemoveItems | src/Tss.Core/TssService.cs:240-243 | records the call; on success the playlist loses the given URIs; nothing else changes |
| Remote.Store.AddItems | src/Tss.Core/TssService.cs:251-254 | records the call; on success the URIs are appended to the playlist |
| Remote.Store.ReplaceItems | src/Tss.Core/Requests/CleanupPlaylist.cs:41 | records the call; on success the playlist becomes the given URIs |
| Remote.Store.SkipNext | src/Tss.Core/TssService.cs:218 | records the skip and changes no playlist; reports whether the player carried it out |
| Cleanup.FirstIndex | src/Tss.Core/Requests/CleanupPlaylist.cs:30 | the position of the first track with the given Id |
| Cleanup.ExceptFromSpec | src/Tss.Core/Requests/CleanupPlaylist.cs:30-32 | the result of Except is a subsequence of the input in the input's order, with no excluded Id, with no Id twice, holding every non-excluded Id of the input, each as that Id's first track in the input, and in the order of those first occurrences |
| Cleanup.ExceptCompose | src/Tss.Core/Requests/CleanupPlaylist.cs:30-31 | two Excepts in a row are one Except of the union |
| Cleanup.CleanTracksIsOneExcept | src/Tss.Core/Requests/CleanupPlaylist.cs:30-32 | the clean list is Current minus the union of the Good and NotGood Ids |
| Cleanup.CleanTracksSpec | src/Tss.Core/Requests/CleanupPlaylist.cs:30-32 | every track of Cleanup.CleanTracks occurs in Current and equals no track of Good or NotGood; no two are equal; each is the first track of Current with its Id, and they follow the order of those first occurrences in Current; never longer than Current |
| Cleanup.ShortCircuitIff | src/Tss.Core/Requests/CleanupPlaylist.cs:34 | Cleanup.SequenceEqual (by Id) holds exactly when the clean list is Current, i.e. when it is as long |
| Cleanup.CleanupIdempotent | src/Tss.Core/Requests/CleanupPlaylist.cs:30-38 | cleaning the cleaned playlist again gives the same list and takes the short-circuit |
| Cleanup.AcceptedAll | src/Tss.Core/Requests/CleanupPlaylist.cs:43-48 | when each add succeeds, the playlist holds the concatenated batches |
| Cleanup.CleanupCallsSpec | src/Tss.Core/Requests/CleanupPlaylist.cs:34-48 | no calls if and only if nothing is to be removed; otherwise one clear of Current first, and nothing after it when it fails; after a successful clear, adds of at most 99 URIs (all but the last exactly 99), ceil(n/99) of them, concatenating to the clean URIs; only Current is edited |
| Cleanup.CleanupOutcomeSpec | src/Tss.Core/Requests/CleanupPlaylist.cs:34-50 | nothing-to-remove exactly when the clean list is Current; a failed clear is reported; the removed count is the difference of the lengths and at least one |
| Cleanup.CleanupResultSpec | src/Tss.Core/Requests/CleanupPlaylist.cs:41-48 | when all calls succeed, Current holds exactly the clean URIs in order and every other playlist is unchanged |
| Cleanup.CleanupExample | src/Tss.Core/Requests/CleanupPlaylist.cs:30-50 | three distinct tracks [a, b, c] with Good [b] and NotGood [] clean to [a, c]: one clear, one add of [a, c], one removed |
| Cleanup.RepeatedTrackKeepsFirstPlace | src/Tss.Core/Requests/CleanupPlaylist.cs:30-32 | a track listed twice, [b, a, b] with nothing excluded, cleans to [b, a]: the duplicate collapses onto its first place |
| Cleanup.Handle | src/Tss.Core/Requests/CleanupPlaylist.cs:26-54 | the store's new trace, playlists and the outcome are those of the specification functions above |
| Decimal.FromNat | src/Tss.Core/TssConfig.cs:13 | at least one digit, no leading zero, and "0" exactly for zero |
| Decimal.ValueOfFromNat | src/Tss.Core/TssConfig.cs:13 | reading back the digits gives the number |
| Decimal.FromNatLength | src/Tss.Core/Requests/DuplicatePlaylist.cs:59 | a number below 10^w has at most w digits |
| Decimal.Padded | src/Tss.Core/Requests/DuplicatePlaylist.cs:59 | zero-padding yields digits only |
| Decimal.PaddedExact | src/Tss.Core/Requests/DuplicatePlaylist.cs:59 | a number below 10^w pads to exactly w digits, which read back as the number |
| Decimal.FromInt | src/Tss.Core/TssConfig.cs:13 | the text of an int (with a minus sign when negative) is non-empty |
| Decimal.IntRoundTrip | src/Tss.Core/TssConfig.cs:13 | parsing the text of an int gives the int back |
| Decimal.FromIntInjective | src/Tss.Core/TssConfig.cs:13 | different ints give different texts, which makes different ports give different callback URLs |
| Duplicate.Stamp | src/Tss.Core/Requests/DuplicatePlaylist.cs:59 | yyyyMMdd-HHmmss is 15 characters, digits around a '-' at index 8 |
| Duplicate.StampRoundTrip | src/Tss.Core/Requests/DuplicatePlaylist.cs:59 | the time can be parsed back from the stamp |
| Duplicate.BackupName | src/Tss.Core/Requests/DuplicatePlaylist.cs:59 | the name, " (", the stamp and ")" |
| Duplicate.BackupNameRecovers | src/Tss.Core/Requests/DuplicatePlaylist.cs:59 | the original name and the time can both be recovered from the backup name |
| Duplicate.FirstFailure | src/Tss.Core/Requests/DuplicatePlaylist.cs:65-71 | the first failing batch: every earlier add succeeds and this one fails, or none fails |
| Duplicate.IssuedAdds | src/Tss.Core/Requests/DuplicatePlaylist.cs:65-71 | never more adds than batches |
| Duplicate.DuplicateCallsShape | src/Tss.Core/Requests/DuplicatePlaylist.cs:55-71 | one creation under the user's id and the backup name, first, even for an empty playlist; every later call adds into the backup; the original is never edited |
| Duplicate.DuplicateAllSucceed | src/Tss.Core/Requests/DuplicatePlaylist.cs:63-71 | with every add succeeding: ceil(n/99) adds of at most 99 URIs, all but the last 99, concatenating to the original's URIs with duplicates kept; the backup holds exactly them |
| Duplicate.DuplicateStopsAtFailure | src/Tss.Core/Requests/DuplicatePlaylist.cs:65-71 | when batch k is the first to fail, exactly batches 0 to k are added, in order, and no later one; the backup holds the first k batches and the failure propagates |
| Duplicate.TwoHundredFiftyTracks | src/Tss.Core/Requests/DuplicatePlaylist.cs:63 | 250 tracks give batches of 99, 99 and 52 |
| Duplicate.Handle | src/Tss.Core/Requests/DuplicatePlaylist.cs:52-74 | the store's new trace, playlists and the outcome are those of the specification functions above |
| Duplicate.AddBatches | src/Tss.Core/Requests/DuplicatePlaylist.cs:65-71 | awaited adds up to and including the first failure; the backup holds the batches before it |
| MoveTrack.MoveTrackCallsSpec | src/Tss.Core/Requests/MoveTrack.cs:28-46 | removal first and always issued, then the add, whatever the removal gave; a skip, last, if and only if requested and the add returned, and no other call; each request is exactly the track's URI; only source and target are edited |
| MoveTrack.MoveTrackPlaylistsSpec | src/Tss.Core/Requests/MoveTrack.cs:28-42 | a successful removal leaves the source without the URI, a failed one leaves it as it was; a successful add makes the target exactly its contents after the removal step plus the URI, even after a failed removal; a failed add leaves it as the removal left it; other playlists are unchanged and no playlist is added except the two edited ones |
| MoveTrack.MoveTrackOutcomeSpec | src/Tss.Core/Requests/MoveTrack.cs:42-46 | the request succeeds if and only if the add succeeds and, when a skip is requested, the skip does; a failed add is what is reported first |
| MoveTrack.Handle | src/Tss.Core/Requests/MoveTrack.cs:24-49 | the store's new trace and playlists and the outcome are those of the functions above; a failed add or skip is the outcome, a failed removal is not |
| Currents.FindFrom | src/Tss.Core/Models/Current.cs:30 | the first match position at or after i, or none when no position matches |
| Currents.Line | src/Tss.Core/Models/Current.cs:30 | the longest prefix without a line feed (what `.*` can match) |
| Currents.ExtractPlaylistId | src/Tss.Core/Models/Current.cs:29-30 | the text after the first "playlist:" up to the first line feed; empty when there is no "playlist:" |
| Currents.ExtractFromPlaylistUri | src/Tss.Core/Models/Current.cs:30 | "spotify:playlist:" + id gives id for an id without line feeds |
| Currents.ExtractWithoutMarker | src/Tss.Core/Models/Current.cs:30 | a URI without "playlist:" gives the empty id |
| Currents.NewCurrent | src/Tss.Core/Models/Current.cs:10-31 | fails when the currently-playing request fails, when nothing plays, when the context is missing, when loading the playlist fails (only when loadTracks) and for items that are neither tracks nor episodes; otherwise the track is Track.New's, the playlist id the extracted one, and the playlist loaded exactly when loadTracks |
| Currents.WithAndWithoutTracks | src/Tss.Core/Models/Current.cs:14-34 | Currents.CurrentWithTracks (New) and Currents.CurrentWithoutTracks (Empty): a failed currently-playing request fails both with the same error; when the fetch succeeds they succeed and fail together and differ only in whether the playlist is loaded; when it fails, New fails wherever a context exists |
| Config.CallbackUrlFor | src/Tss.Core/TssConfig.cs:13 | "http://localhost:", the decimal port and "/callback" |
| Config.CallbackUrlRoundTrip | src/Tss.Core/TssConfig.cs:13 | the port can be read back from the callback URL |
| Config.CallbackUrlInjective | src/Tss.Core/TssConfig.cs:13 | two ports give the same URL if and only if they are equal |
| Config.DefaultCallbackUrl | src/Tss.Core/TssConfig.cs:10-13 | the default port gives "http://localhost:8123/callback" |
| Config.TssConfig.constructor | src/Tss.Core/TssConfig.cs:5-14 | the port defaults to 8123, so the URL is "http://localhost:8123/callback" |
| Config.TssConfig.CallbackUrl | src/Tss.Core/TssConfig.cs:13 | the callback URL of the current port, from which the port reads back |
| Config.TssConfig.SetCallbackPort | src/Tss.Core/TssConfig.cs:10-13 | the URL follows the port: a different port gives a different URL; other settings are unchanged |
| Service.TargetIsConfigured | src/Tss.Core/TssService.cs:222-232 | Service.GetTargetPlaylistId: null gives the default's target; a known id gives its entry's; an unknown id gives the default's, as null does; the result is always a configured target |
| Service.RemoveAll | src/Tss.Core/TssService.cs:260 | removing never lengthens the text |
| Service.RemoveAllIdentity | src/Tss.Core/TssService.cs:260 | the text is unchanged if and only if the pattern does not occur in it |
| Service.PlaylistIdFromContext | src/Tss.Core/TssService.cs:260 | for "spotify:playlist:" + id, both the replacement here and the regular expression of Current.cs give id |
| Service.CurrentOf | src/Tss.Core/TssService.cs:257-268 | nothing playing gives (null, null); a missing context fails; a track or an episode gives its name and URI with the context URI stripped of "spotify:playlist:"; other items give (null, null) |
| Service.MoveCallsSpec | src/Tss.Core/TssService.cs:209-236 | no calls without a track; otherwise a removal only for a non-empty id, then the add of exactly the URI to the resolved target, then a skip if and only if the add returned |
| Service.MovePlaylistsSpec | src/Tss.Core/TssService.cs:211-216 | no track changes nothing; an issued and successful removal leaves the source without the URI; a successful add makes the target exactly its contents after the removal step plus the URI and leaves a different source as the removal left it, unchanged when the removal failed or was not issued; a failed add leaves the playlists as the removal left them; other playlists are unchanged; no playlist is added except the source the removal edited and the target the add edited |
| Service.MoveOutcomeSpec | src/Tss.Core/TssService.cs:211-218 | a move succeeds if and only if there is no track, or the add and the skip both succeed; a failed add with a track is reported as such; a failed skip is reported only after the skip was issued |
| Service.GoodSkipsToo | src/Tss.Core/TssService.cs:193-203 | moving to good skips exactly as moving to not-good does |
| Service.CallbackConstantIsDefault | src/Tss.Core/TssService.cs:122 | the service's constant is the configuration's default URL |
| Service.TssService.constructor | src/Tss.Core/TssService.cs:131-137 | starts with no flow and no client |
| Service.TssService.ReloadMappings | src/Tss.Core/TssService.cs:224 | later resolutions use the new mappings; the login state is unchanged |
| Service.TssService.CreateClient | src/Tss.Core/TssService.cs:159-169 | the token is saved before the client is assigned; a failed save leaves the client as it was |
| Service.TssService.TryLogin | src/Tss.Core/TssService.cs:139-151 | with a credentials file: (true, null), the client from the stored token, the flow untouched; otherwise a fresh flow, no client, the state awaiting the code, and (false, its login URL) |
| Service.TssService.CompleteLogin | src/Tss.Core/TssService.cs:153-157 | fails without a flow or when the exchange fails; otherwise the client is created from the most recent flow's token; the flow is kept |
| Service.TssService.MoveCurrentTo | src/Tss.Core/TssService.cs:203-219 | not authenticated or a failing Current() issue nothing; otherwise the trace, playlists and outcome (a failed add or skip) are those of the functions above, with skip unused |
| Service.TssService.MoveCurrentToGood | src/Tss.Core/TssService.cs:193-196 | as MoveCurrentTo on the good side: the calls (including the skip), the playlists and the outcome |
| Service.TssService.MoveCurrentToNotGood | src/Tss.Core/TssService.cs:198-201 | as MoveCurrentTo on the not-good side: the calls, the playlists and the outcome |
| Service.TssService.TryRemoveFromPlaylist | src/Tss.Core/TssService.cs:234-249 | no call for a null or empty id; a failed removal is swallowed |

## Left out

- PKCE: the verifier and challenge generation, the authorization URL and the token exchange happen inside the client library. The verifier is an opaque value; the URL and the exchange are function parameters.
- Token persistence: the JSON file I/O behind `LoadToken`, `SaveToken` and `EnsureDirectoryExist`. The credentials file is a field holding the token; a malformed file is not modelled.
- The token-refresh subscription made in `CreateClient`: the library fires it.
- `TssLoginFlow.cs`, `Requests/TryLogin.cs` and `Requests/CreateClient.cs`: the same decisions as the service methods, plus library calls.
- `StandaloneTssService` (embedded HTTP server, browser launch, async hand-off) and the hosting projects: I/O and concurrency.
- Logging: every log call is a no-op.
- The async and MediatR adapters in `TaskExtensions.cs` and `MediatorExtensions.cs`.
- `Playlist.New`: fetching and pagination are library I/O. Playlists are input data; in `Current.New` only whether the fetch succeeds is modelled.
- `TssService.Previous`: it always throws `NotImplementedException`.
- The clock: the timestamp is a parameter; only its formatting is modelled.
- Cleanup.Handle: issues the batches in order and keeps every batch whose add succeeds. The completion order of the unawaited add tasks is not modelled, and a failed add is unobserved, as in the code.
- Tracks.ToLower: lower-cases ASCII letters only; culture-specific casing is not modelled.
- Tracks.HashCode: the .NET string hash is a parameter.
- Remote.Store.SkipNext: what plays next is not modelled.
- Remote.Store.Create: the created id is a parameter and the creation always succeeds. The id is required to be fresh, as an id the service assigns is, and `Duplicate.Handle` requires the same of its `backupId`.
- Remote.Store.RemoveItems, Remote.Store.AddItems, Remote.Store.ReplaceItems: an accepted call on an id that is not in the store's playlists acts on an empty playlist under that id. The service would reject such a call; the model leaves that to the `accept` input.
- Duplicate.Handle: the profile request for the user id (`DuplicatePlaylist.cs:55`) and the creation of the backup are taken to succeed, so the creation is always issued.
- Service.TssService.MoveCurrentTo: the currently-playing request (`TssService.cs:259`) is taken to succeed; its answer is the store's `playing` field.
- Currents.NewCurrent: `Playlist.Empty` is taken to succeed; it is not part of this model.
- Null strings, a null `Mappings` table, a null `Default` mapping and a null entry in the table (`TssMappings.cs`) are not modelled, so `GetTargetPlaylistId` is total; only a null context and null playback are.
- The types declared twice: `TssService.cs:16-34` and `DuplicatePlaylist.cs:16-39` repeat definitions from their own files, and the standalone versions are the ones modelled. `Playlist.Empty` is not part of this model; the `Unloaded` arm of `Currents.PlaylistLoad` stands for it.
