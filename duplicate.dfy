/** `DuplicatePlaylistRequestHandler.Handle`: creates a backup playlist named after the original
    and the time, and copies the original's tracks into it in batches of 99, one batch at a time. */
module Duplicate {

  import opened Wrappers
  import opened Errors
  import opened Remote
  import opened Tracks
  import opened Playlists
  import opened Batching
  import opened Decimal

  /** The clock reading the name is built from (`DateTime.Now`, passed in). */
  datatype Timestamp = Timestamp(year: nat, month: nat, day: nat, hour: nat, minute: nat, second: nat)

  /** The ranges a `DateTime` keeps its fields in. */
  predicate ValidTimestamp(t: Timestamp)
  {
    1 <= t.year <= 9999 && 1 <= t.month <= 12 && 1 <= t.day <= 31
    && t.hour < 24 && t.minute < 60 && t.second < 60
  }

  /** The custom format `yyyyMMdd-HHmmss`. */
  function Stamp(t: Timestamp): (s: string)
    requires ValidTimestamp(t)
    ensures |s| == 15 && s[8] == '-'
    ensures AllDigits(s[..8]) && AllDigits(s[9..])
  {
    assert Pow10(2) == 100 && Pow10(4) == 10000;
    PaddedExact(t.year, 4);
    PaddedExact(t.month, 2);
    PaddedExact(t.day, 2);
    PaddedExact(t.hour, 2);
    PaddedExact(t.minute, 2);
    PaddedExact(t.second, 2);
    var date := Padded(t.year, 4) + Padded(t.month, 2) + Padded(t.day, 2);
    var time := Padded(t.hour, 2) + Padded(t.minute, 2) + Padded(t.second, 2);
    assert AllDigits(date) && AllDigits(time);
    var s := date + "-" + time;
    assert s[..8] == date && s[9..] == time;
    s
  }

  /** Reads the fields back from a stamp. */
  function ParseStamp(s: string): Option<Timestamp>
  {
    if |s| == 15 && s[8] == '-' && AllDigits(s[..8]) && AllDigits(s[9..]) then
      assert AllDigits(s[0..4]) && AllDigits(s[4..6]) && AllDigits(s[6..8]);
      assert AllDigits(s[9..11]) && AllDigits(s[11..13]) && AllDigits(s[13..15]);
      Some(Timestamp(Value(s[0..4]), Value(s[4..6]), Value(s[6..8]),
                     Value(s[9..11]), Value(s[11..13]), Value(s[13..15])))
    else None
  }

  /** The stamp determines the time it was made from. */
  lemma StampRoundTrip(t: Timestamp)
    requires ValidTimestamp(t)
    ensures ParseStamp(Stamp(t)) == Some(t)
  {
    assert Pow10(2) == 100 && Pow10(4) == 10000;
    PaddedExact(t.year, 4);
    PaddedExact(t.month, 2);
    PaddedExact(t.day, 2);
    PaddedExact(t.hour, 2);
    PaddedExact(t.minute, 2);
    PaddedExact(t.second, 2);
    var s := Stamp(t);
    assert s[0..4] == Padded(t.year, 4);
    assert s[4..6] == Padded(t.month, 2);
    assert s[6..8] == Padded(t.day, 2);
    assert s[9..11] == Padded(t.hour, 2);
    assert s[11..13] == Padded(t.minute, 2);
    assert s[13..15] == Padded(t.second, 2);
  }

  /** The backup's name: the original name, then the stamp of the time in parentheses. */
  function BackupName(name: string, t: Timestamp): (r: string)
    requires ValidTimestamp(t)
    ensures |r| == |name| + 18
    ensures r[..|name|] == name && r[|name|..|name| + 2] == " (" && r[|r| - 1] == ')'
    ensures r[|name| + 2..|r| - 1] == Stamp(t)
  {
    name + " (" + Stamp(t) + ")"
  }

  /** The backup name gives back both the original name and the time. */
  lemma BackupNameRecovers(name: string, t: Timestamp)
    requires ValidTimestamp(t)
    ensures var r := BackupName(name, t);
      r[..|name|] == name && ParseStamp(r[|name| + 2..|r| - 1]) == Some(t)
  {
    StampRoundTrip(t);
  }

  /** The index of the first batch whose add fails, from batch `i` on (`n` when none fails). */
  function FirstFailure(addOk: nat -> bool, i: nat, n: nat): (k: nat)
    requires i <= n
    ensures i <= k <= n
    ensures forall j :: i <= j < k ==> addOk(j)
    ensures k < n ==> !addOk(k)
    decreases n - i
  {
    if i == n then n else if !addOk(i) then i else FirstFailure(addOk, i + 1, n)
  }

  function CopyBatches(playlist: Playlist): seq<seq<string>>
  {
    Batch(Uris(playlist.tracks), BatchSize)
  }

  /** How many adds are issued: up to and including the first failing one. */
  function IssuedAdds(playlist: Playlist, addOk: nat -> bool): (m: nat)
    ensures m <= |CopyBatches(playlist)|
  {
    var n := |CopyBatches(playlist)|;
    var k := FirstFailure(addOk, 0, n);
    if k < n then k + 1 else n
  }

  /** The calls: the creation of the backup, then one add per batch into the backup, in order,
      stopping after the first add that fails. */
  function DuplicateCalls(userId: string, playlist: Playlist, t: Timestamp, addOk: nat -> bool, backupId: string): seq<Call>
    requires ValidTimestamp(t)
  {
    [Call.Create(userId, BackupName(playlist.name, t))]
      + AddCalls(backupId, CopyBatches(playlist)[..IssuedAdds(playlist, addOk)])
  }

  function DuplicatePlaylists(before: map<string, seq<string>>, playlist: Playlist, addOk: nat -> bool, backupId: string)
    : map<string, seq<string>>
  {
    var batches := CopyBatches(playlist);
    before[backupId := Concat(batches[..FirstFailure(addOk, 0, |batches|)])]
  }

  function DuplicateOutcome(playlist: Playlist, addOk: nat -> bool): Outcome<Error>
  {
    var n := |CopyBatches(playlist)|;
    if FirstFailure(addOk, 0, n) == n then Pass else Fail(AddItemsFailed)
  }

  /** One creation, first, under the current user's id and the backup name, even for an empty
      playlist; every other call is an add into the backup (so the original receives none). */
  lemma DuplicateCallsShape(userId: string, playlist: Playlist, t: Timestamp, addOk: nat -> bool, backupId: string)
    requires ValidTimestamp(t)
    ensures var calls := DuplicateCalls(userId, playlist, t, addOk, backupId);
      && calls[0] == Call.Create(userId, BackupName(playlist.name, t))
      && (forall i :: 0 < i < |calls| ==> calls[i].AddItems? && calls[i].playlistId == backupId)
      && (backupId != playlist.id ==> forall i :: 0 <= i < |calls| ==> Edits(calls[i]) != Some(playlist.id))
      && (playlist.tracks == [] ==> calls == [Call.Create(userId, BackupName(playlist.name, t))])
  {
  }

  /** When every add succeeds there are ceil(n / 99) of them, each of at most 99 URIs and all but
      the last of exactly 99, and they concatenate to the original's URIs in order, duplicates
      kept; the backup then holds exactly those URIs and no other playlist changes. */
  lemma DuplicateAllSucceed(before: map<string, seq<string>>, userId: string, playlist: Playlist, t: Timestamp,
                            addOk: nat -> bool, backupId: string)
    requires ValidTimestamp(t)
    requires forall i :: 0 <= i < |CopyBatches(playlist)| ==> addOk(i)
    ensures var calls := DuplicateCalls(userId, playlist, t, addOk, backupId);
      var batches := CopyBatches(playlist);
      && calls[1..] == AddCalls(backupId, batches)
      && |calls| - 1 == (|playlist.tracks| + BatchSize - 1) / BatchSize
      && (forall i :: 0 <= i < |batches| ==> 0 < |batches[i]| <= BatchSize)
      && (forall i :: 0 <= i < |batches| - 1 ==> |batches[i]| == BatchSize)
      && Concat(batches) == Uris(playlist.tracks)
      && DuplicatePlaylists(before, playlist, addOk, backupId) == before[backupId := Uris(playlist.tracks)]
      && DuplicateOutcome(playlist, addOk) == Pass
  {
    var batches := CopyBatches(playlist);
    var n := |batches|;
    assert batches[..n] == batches;
    BatchConcat(Uris(playlist.tracks), BatchSize);
    BatchSizes(Uris(playlist.tracks), BatchSize);
    BatchCount(Uris(playlist.tracks), BatchSize);
  }

  /** When batch k is the first add to fail, exactly k + 1 adds are issued, batches 0 to k in
      order and no later one, the backup keeps the
      first k batches, and the failure surfaces. */
  lemma DuplicateStopsAtFailure(before: map<string, seq<string>>, userId: string, playlist: Playlist, t: Timestamp,
                                addOk: nat -> bool, backupId: string, k: nat)
    requires ValidTimestamp(t)
    requires k < |CopyBatches(playlist)| && !addOk(k)
    requires forall j :: 0 <= j < k ==> addOk(j)
    ensures |DuplicateCalls(userId, playlist, t, addOk, backupId)| == k + 2
    ensures DuplicateCalls(userId, playlist, t, addOk, backupId)[1..] == AddCalls(backupId, CopyBatches(playlist)[..k + 1])
    ensures DuplicatePlaylists(before, playlist, addOk, backupId) == before[backupId := Concat(CopyBatches(playlist)[..k])]
    ensures DuplicateOutcome(playlist, addOk) == Fail(AddItemsFailed)
  {
    var n := |CopyBatches(playlist)|;
    var f := FirstFailure(addOk, 0, n);
    assert f == k;
  }

  /** 250 tracks are copied in three batches, of 99, 99 and 52. */
  lemma TwoHundredFiftyTracks(playlist: Playlist)
    requires |playlist.tracks| == 250
    ensures var batches := CopyBatches(playlist);
      |batches| == 3 && |batches[0]| == 99 && |batches[1]| == 99 && |batches[2]| == 52
  {
    var s := Uris(playlist.tracks);
    assert Batch(s, 99) == [s[..99]] + Batch(s[99..], 99);
    assert Batch(s[99..], 99) == [s[99..][..99]] + Batch(s[99..][99..], 99);
    assert Batch(s[99..][99..], 99) == [s[99..][99..]];
  }

  /** `Handle`: creates the backup, then adds the batches one after another, awaiting each;
      a failing add propagates and no later batch is issued. */
  method Handle(store: Store, userId: string, playlist: Playlist, t: Timestamp, addOk: nat -> bool, backupId: string)
    returns (outcome: Outcome<Error>)
    requires ValidTimestamp(t)
    requires backupId !in store.playlists
    modifies store
    ensures store.calls == old(store.calls) + DuplicateCalls(userId, playlist, t, addOk, backupId)
    ensures store.playlists == DuplicatePlaylists(old(store.playlists), playlist, addOk, backupId)
    ensures store.playing == old(store.playing)
    ensures outcome == DuplicateOutcome(playlist, addOk)
  {
    var name := BackupName(playlist.name, t);
    store.Create(userId, name, backupId);
    var batches := Batch(Uris(playlist.tracks), BatchSize);
    outcome := AddBatches(store, backupId, batches, addOk);
    assert [Call.Create(userId, name)] + AddCalls(backupId, batches[..IssuedAdds(playlist, addOk)])
      == DuplicateCalls(userId, playlist, t, addOk, backupId);
  }

  /** The `SelectAwait` loop: one awaited add per batch, stopping at the first failure. */
  method AddBatches(store: Store, backupId: string, batches: seq<seq<string>>, addOk: nat -> bool)
    returns (outcome: Outcome<Error>)
    requires backupId in store.playlists && store.playlists[backupId] == []
    modifies store
    ensures var k := FirstFailure(addOk, 0, |batches|);
      && store.calls == old(store.calls) + AddCalls(backupId, batches[..if k < |batches| then k + 1 else k])
      && store.playlists == old(store.playlists)[backupId := Concat(batches[..k])]
      && outcome == (if k == |batches| then Pass else Fail(AddItemsFailed))
    ensures store.playing == old(store.playing)
  {
    ghost var k := FirstFailure(addOk, 0, |batches|);
    var i := 0;
    while i < |batches|
      invariant 0 <= i <= k
      invariant store.calls == old(store.calls) + AddCalls(backupId, batches[..i])
      invariant store.playlists == old(store.playlists)[backupId := Concat(batches[..i])]
      invariant store.playing == old(store.playing)
    {
      var ok := store.AddItems(backupId, batches[i], addOk(i));
      assert AddCalls(backupId, batches[..i + 1]) == AddCalls(backupId, batches[..i]) + [AddItems(backupId, batches[i])];
      if !ok {
        assert i == k;
        return Fail(AddItemsFailed);
      }
      ConcatPrefixStep(batches, i);
      i := i + 1;
    }
    assert batches[..i] == batches;
    outcome := Pass;
  }
}
