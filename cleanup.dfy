/** `CleanupPlaylistRequestHandler.Handle`: drops from the current playlist every track that is
    already in the good or the not-good playlist, by clearing it and re-adding what is left. */
module Cleanup {

  import opened Wrappers
  import opened Errors
  import opened Remote
  import opened Tracks
  import opened Playlists
  import opened Batching

  /** The ids of the tracks (what the `Except` hash set holds). */
  function Ids(ts: seq<Track>): set<string>
  {
    if ts == [] then {} else {ts[0].id} + Ids(ts[1..])
  }

  /** `Enumerable.Except` as .NET runs it: `seen` starts as the ids of the second sequence, and
      an element of the first is yielded exactly when adding its id to `seen` succeeds. */
  function ExceptFrom(xs: seq<Track>, seen: set<string>): seq<Track>
    decreases |xs|
  {
    if xs == [] then []
    else if xs[0].id in seen then ExceptFrom(xs[1..], seen)
    else [xs[0]] + ExceptFrom(xs[1..], seen + {xs[0].id})
  }

  function Except(first: seq<Track>, second: seq<Track>): seq<Track>
  {
    ExceptFrom(first, Ids(second))
  }

  /** The current playlist's tracks less the good ones, then less the not-good ones. */
  function CleanTracks(current: Playlist, good: Playlist, notGood: Playlist): seq<Track>
  {
    Except(Except(current.tracks, good.tracks), notGood.tracks)
  }

  /** `a` can be obtained from `b` by deleting elements. */
  predicate IsSubseq<T(==)>(a: seq<T>, b: seq<T>)
    decreases |b|
  {
    a == [] || (b != [] && ((a[0] == b[0] && IsSubseq(a[1..], b[1..])) || IsSubseq(a, b[1..])))
  }

  /** `SequenceEqual` under the tracks' own equality, that is by id. */
  predicate SequenceEqual(a: seq<Track>, b: seq<Track>)
  {
    |a| == |b| && forall i :: 0 <= i < |a| ==> Equals(a[i], Some(b[i]))
  }

  /** The position of the first track with the given id. */
  function FirstIndex(xs: seq<Track>, id: string): (k: nat)
    requires id in Ids(xs)
    ensures k < |xs| && xs[k].id == id
    ensures forall j :: 0 <= j < k ==> xs[j].id != id
  {
    if xs[0].id == id then 0 else 1 + FirstIndex(xs[1..], id)
  }

  lemma {:induction false} IdsMember(ts: seq<Track>, i: nat)
    requires i < |ts|
    ensures ts[i].id in Ids(ts)
  {
    if i > 0 {
      IdsMember(ts[1..], i - 1);
    }
  }

  lemma {:induction false} SubseqMember<T>(a: seq<T>, b: seq<T>, x: T)
    requires IsSubseq(a, b) && x in a
    ensures x in b
    decreases |b|
  {
    assert b != [];
    if a[0] == b[0] && IsSubseq(a[1..], b[1..]) {
      if x != a[0] {
        SubseqMember(a[1..], b[1..], x);
      }
    } else {
      SubseqMember(a, b[1..], x);
    }
  }

  lemma {:induction false} SubseqLength<T>(a: seq<T>, b: seq<T>)
    requires IsSubseq(a, b)
    ensures |a| <= |b|
    ensures |a| == |b| ==> a == b
    decreases |b|
  {
    if a != [] {
      if a[0] == b[0] && IsSubseq(a[1..], b[1..]) {
        SubseqLength(a[1..], b[1..]);
        if |a| == |b| {
          assert a == [a[0]] + a[1..] && b == [b[0]] + b[1..];
        }
      } else {
        SubseqLength(a, b[1..]);
      }
    }
  }

  /** What `Except` yields: a subsequence of `xs` (so in `xs`' order) whose ids avoid `seen` and
      are pairwise different, which holds every id of `xs` outside `seen` exactly once, each time
      as the first track of `xs` that has it. */
  lemma {:induction false} ExceptFromSpec(xs: seq<Track>, seen: set<string>)
    ensures var r := ExceptFrom(xs, seen);
      && IsSubseq(r, xs)
      && (forall i :: 0 <= i < |r| ==> r[i].id !in seen)
      && (forall i, j :: 0 <= i < j < |r| ==> r[i].id != r[j].id)
      && Ids(r) == Ids(xs) - seen
      && (forall i :: 0 <= i < |r| ==> r[i].id in Ids(xs) && xs[FirstIndex(xs, r[i].id)] == r[i])
      && (forall i, j :: 0 <= i < j < |r| ==> FirstIndex(xs, r[i].id) < FirstIndex(xs, r[j].id))
    decreases |xs|
  {
    if xs != [] {
      var x, rest := xs[0], xs[1..];
      if x.id in seen {
        var r := ExceptFrom(rest, seen);
        ExceptFromSpec(rest, seen);
        assert ExceptFrom(xs, seen) == r;
        forall i | 0 <= i < |r| ensures r[i].id in Ids(xs) && xs[FirstIndex(xs, r[i].id)] == r[i] {
          assert r[i].id != x.id;
        }
        forall i, j | 0 <= i < j < |r| ensures FirstIndex(xs, r[i].id) < FirstIndex(xs, r[j].id) {
          FirstIndexTail(xs, r[i].id);
          FirstIndexTail(xs, r[j].id);
        }
      } else {
        var r' := ExceptFrom(rest, seen + {x.id});
        ExceptFromSpec(rest, seen + {x.id});
        var r := [x] + r';
        assert ExceptFrom(xs, seen) == r;
        assert r[1..] == r';
        assert Ids(r) == {x.id} + Ids(r');
        forall i | 0 <= i < |r| ensures r[i].id in Ids(xs) && xs[FirstIndex(xs, r[i].id)] == r[i] {
          if i > 0 {
            assert r[i] == r'[i - 1];
          }
        }
        forall i, j | 0 <= i < j < |r| ensures FirstIndex(xs, r[i].id) < FirstIndex(xs, r[j].id) {
          assert r[j] == r'[j - 1];
          FirstIndexTail(xs, r[j].id);
          if i > 0 {
            assert r[i] == r'[i - 1];
            FirstIndexTail(xs, r[i].id);
          }
        }
      }
    }
  }

  /** Past a first track with another id, the first position of an id is one further on than
      in the rest. */
  lemma FirstIndexTail(xs: seq<Track>, id: string)
    requires xs != [] && xs[0].id != id && id in Ids(xs[1..])
    ensures id in Ids(xs) && FirstIndex(xs, id) == 1 + FirstIndex(xs[1..], id)
  {
  }

  /** Two `Except`s in a row are one `Except` against both id sets. */
  lemma {:induction false} ExceptCompose(xs: seq<Track>, a: set<string>, b: set<string>)
    ensures ExceptFrom(ExceptFrom(xs, a), b) == ExceptFrom(xs, a + b)
    decreases |xs|
  {
    if xs != [] {
      var x := xs[0];
      if x.id in a {
        ExceptCompose(xs[1..], a, b);
      } else if x.id in b {
        ExceptCompose(xs[1..], a + {x.id}, b);
        assert a + {x.id} + b == a + b;
      } else {
        var inner := ExceptFrom(xs[1..], a + {x.id});
        assert ExceptFrom(xs, a) == [x] + inner;
        assert ([x] + inner)[1..] == inner;
        ExceptCompose(xs[1..], a + {x.id}, b + {x.id});
        assert a + {x.id} + (b + {x.id}) == a + b + {x.id};
      }
    }
  }

  lemma CleanTracksIsOneExcept(current: Playlist, good: Playlist, notGood: Playlist)
    ensures CleanTracks(current, good, notGood) == ExceptFrom(current.tracks, Ids(good.tracks) + Ids(notGood.tracks))
  {
    ExceptCompose(current.tracks, Ids(good.tracks), Ids(notGood.tracks));
  }

  /** Every clean track is a track of the current playlist, equals no track of the good or the
      not-good playlist, and equals no other clean track; the clean list keeps the current
      playlist's order and the first occurrence of each track, and loses no track that is in
      neither target playlist. */
  lemma CleanTracksSpec(current: Playlist, good: Playlist, notGood: Playlist)
    ensures var clean := CleanTracks(current, good, notGood);
      && IsSubseq(clean, current.tracks)
      && (forall i :: 0 <= i < |clean| ==> clean[i] in current.tracks)
      && (forall i, t :: 0 <= i < |clean| && t in good.tracks ==> !Equals(clean[i], Some(t)))
      && (forall i, t :: 0 <= i < |clean| && t in notGood.tracks ==> !Equals(clean[i], Some(t)))
      && (forall i, j :: 0 <= i < j < |clean| ==> !Equals(clean[i], Some(clean[j])))
      && (forall i :: 0 <= i < |clean| ==>
            (clean[i].id in Ids(current.tracks) && current.tracks[FirstIndex(current.tracks, clean[i].id)] == clean[i]))
      && (forall i, j :: 0 <= i < j < |clean| ==>
            FirstIndex(current.tracks, clean[i].id) < FirstIndex(current.tracks, clean[j].id))
      && Ids(clean) == Ids(current.tracks) - Ids(good.tracks) - Ids(notGood.tracks)
      && |clean| <= |current.tracks|
  {
    var g, n := Ids(good.tracks), Ids(notGood.tracks);
    CleanTracksIsOneExcept(current, good, notGood);
    var clean := CleanTracks(current, good, notGood);
    ExceptFromSpec(current.tracks, g + n);
    SubseqLength(clean, current.tracks);
    forall i | 0 <= i < |clean| ensures clean[i] in current.tracks {
      SubseqMember(clean, current.tracks, clean[i]);
    }
    forall i, t | 0 <= i < |clean| && t in good.tracks ensures !Equals(clean[i], Some(t)) {
      var k :| 0 <= k < |good.tracks| && good.tracks[k] == t;
      IdsMember(good.tracks, k);
    }
    forall i, t | 0 <= i < |clean| && t in notGood.tracks ensures !Equals(clean[i], Some(t)) {
      var k :| 0 <= k < |notGood.tracks| && notGood.tracks[k] == t;
      IdsMember(notGood.tracks, k);
    }
  }

  /** The clean list is the current playlist exactly when it is as long, so `SequenceEqual`
      is the same test as "nothing to remove". */
  lemma ShortCircuitIff(current: Playlist, good: Playlist, notGood: Playlist)
    ensures var clean := CleanTracks(current, good, notGood);
      && (SequenceEqual(clean, current.tracks) <==> clean == current.tracks)
      && (clean == current.tracks <==> |clean| == |current.tracks|)
  {
    var clean := CleanTracks(current, good, notGood);
    CleanTracksSpec(current, good, notGood);
    SubseqLength(clean, current.tracks);
  }

  /** Cleaning a playlist that is already clean changes nothing, so a second run takes the
      short-circuit. */
  lemma CleanupIdempotent(current: Playlist, good: Playlist, notGood: Playlist)
    ensures var clean := CleanTracks(current, good, notGood);
      var again := Playlist(current.id, current.name, clean);
      CleanTracks(again, good, notGood) == clean && SequenceEqual(CleanTracks(again, good, notGood), again.tracks)
  {
    var s := Ids(good.tracks) + Ids(notGood.tracks);
    var clean := CleanTracks(current, good, notGood);
    var again := Playlist(current.id, current.name, clean);
    CleanTracksIsOneExcept(current, good, notGood);
    CleanTracksIsOneExcept(again, good, notGood);
    ExceptCompose(current.tracks, s, s);
    assert s + s == s;
  }

  /** The handler's outcome: the short-circuit ("nothing to remove"), the count it logs, or the
      exception of a failing clear. */
  datatype CleanupOutcome = NothingToRemove | Removed(count: int) | Failed(error: Error)

  /** The contents of the current playlist after the first `k` adds, of which those with
      `addOk(i)` were carried out. */
  function Accepted(batches: seq<seq<string>>, addOk: nat -> bool, k: nat): seq<string>
    requires k <= |batches|
  {
    if k == 0 then [] else Accepted(batches, addOk, k - 1) + (if addOk(k - 1) then batches[k - 1] else [])
  }

  lemma {:induction false} AcceptedAll(batches: seq<seq<string>>, addOk: nat -> bool, k: nat)
    requires k <= |batches|
    requires forall i :: 0 <= i < k ==> addOk(i)
    ensures Accepted(batches, addOk, k) == Concat(batches[..k])
  {
    if k > 0 {
      AcceptedAll(batches, addOk, k - 1);
      ConcatPrefixStep(batches, k - 1);
    }
  }

  /** The batches of URIs re-added after the clear. */
  function CleanBatches(current: Playlist, good: Playlist, notGood: Playlist): seq<seq<string>>
  {
    Batch(Uris(CleanTracks(current, good, notGood)), BatchSize)
  }

  /** The calls the handler issues: none when nothing is to be removed; otherwise one clear and,
      when the clear succeeds, one add per batch, all of them issued whether or not earlier adds
      fail (their tasks are not awaited). */
  function CleanupCalls(current: Playlist, good: Playlist, notGood: Playlist, replaceOk: bool): seq<Call>
  {
    if SequenceEqual(CleanTracks(current, good, notGood), current.tracks) then []
    else
      [ReplaceItems(current.id, [])] + (if replaceOk then AddCalls(current.id, CleanBatches(current, good, notGood)) else [])
  }

  function CleanupPlaylists(before: map<string, seq<string>>, current: Playlist, good: Playlist, notGood: Playlist,
                            replaceOk: bool, addOk: nat -> bool): map<string, seq<string>>
  {
    var batches := CleanBatches(current, good, notGood);
    if SequenceEqual(CleanTracks(current, good, notGood), current.tracks) || !replaceOk then before
    else before[current.id := Accepted(batches, addOk, |batches|)]
  }

  function CleanupOutcomeOf(current: Playlist, good: Playlist, notGood: Playlist, replaceOk: bool): CleanupOutcome
  {
    var clean := CleanTracks(current, good, notGood);
    if SequenceEqual(clean, current.tracks) then NothingToRemove
    else if !replaceOk then Failed(ReplaceItemsFailed)
    else Removed(|current.tracks| - |clean|)
  }

  /** The calls: nothing when nothing is to be removed; otherwise exactly one clear of the current
      playlist, first; nothing after a failed clear; after a successful one, adds of at most 99
      URIs each (all but the last exactly 99) that concatenate to the clean tracks' URIs in
      order; no call edits any playlist other than the current one. */
  lemma CleanupCallsSpec(current: Playlist, good: Playlist, notGood: Playlist, replaceOk: bool)
    ensures var calls := CleanupCalls(current, good, notGood, replaceOk);
      var clean := CleanTracks(current, good, notGood);
      var batches := CleanBatches(current, good, notGood);
      && (SequenceEqual(clean, current.tracks) <==> calls == [])
      && (calls != [] ==> calls[0] == ReplaceItems(current.id, []))
      && (calls != [] && !replaceOk ==> calls == [ReplaceItems(current.id, [])])
      && (forall i :: 0 < i < |calls| ==> calls[i].AddItems?)
      && (forall i :: 0 <= i < |calls| ==> Edits(calls[i]) == Some(current.id))
      && (calls != [] && replaceOk ==> calls[1..] == AddCalls(current.id, batches) && Concat(batches) == Uris(clean))
      && (forall i :: 0 <= i < |batches| ==> 0 < |batches[i]| <= BatchSize)
      && (forall i :: 0 <= i < |batches| - 1 ==> |batches[i]| == BatchSize)
      && |batches| == (|clean| + BatchSize - 1) / BatchSize
  {
    var clean := CleanTracks(current, good, notGood);
    BatchConcat(Uris(clean), BatchSize);
    BatchSizes(Uris(clean), BatchSize);
    BatchCount(Uris(clean), BatchSize);
  }

  /** The outcome is the short-circuit exactly when nothing is to be removed; a reported count is
      the number of tracks dropped and is at least one. */
  lemma CleanupOutcomeSpec(current: Playlist, good: Playlist, notGood: Playlist, replaceOk: bool)
    ensures var outcome := CleanupOutcomeOf(current, good, notGood, replaceOk);
      var clean := CleanTracks(current, good, notGood);
      && (outcome == NothingToRemove <==> clean == current.tracks)
      && (outcome.Removed? ==> outcome.count == |current.tracks| - |clean| >= 1)
      && (outcome.Failed? <==> clean != current.tracks && !replaceOk)
  {
    ShortCircuitIff(current, good, notGood);
    CleanTracksSpec(current, good, notGood);
  }

  /** When every call succeeds, the current playlist ends up holding exactly the clean tracks'
      URIs, in order, and every other playlist is as it was. */
  lemma CleanupResultSpec(before: map<string, seq<string>>, current: Playlist, good: Playlist, notGood: Playlist,
                          addOk: nat -> bool)
    requires forall i :: 0 <= i < |CleanBatches(current, good, notGood)| ==> addOk(i)
    requires !SequenceEqual(CleanTracks(current, good, notGood), current.tracks)
    ensures var after := CleanupPlaylists(before, current, good, notGood, true, addOk);
      && current.id in after && after[current.id] == Uris(CleanTracks(current, good, notGood))
      && (forall p :: p in before && p != current.id ==> p in after && after[p] == before[p])
      && after.Keys == before.Keys + {current.id}
  {
    var batches := CleanBatches(current, good, notGood);
    AcceptedAll(batches, addOk, |batches|);
    assert batches[..|batches|] == batches;
    BatchConcat(Uris(CleanTracks(current, good, notGood)), BatchSize);
  }

  /** Example: [A, B, C] with good [B] and not-good [] cleans to [A, C], removing one. */
  lemma CleanupExample(a: Track, b: Track, c: Track)
    requires a.id != b.id && b.id != c.id && a.id != c.id
    ensures var current := Playlist("p", "P", [a, b, c]);
      var good := Playlist("g", "G", [b]);
      var notGood := Playlist("n", "N", []);
      && CleanTracks(current, good, notGood) == [a, c]
      && CleanupOutcomeOf(current, good, notGood, true) == Removed(1)
      && CleanupCalls(current, good, notGood, true) == [ReplaceItems("p", []), AddItems("p", [a.uri, c.uri])]
  {
    var current := Playlist("p", "P", [a, b, c]);
    var good := Playlist("g", "G", [b]);
    var notGood := Playlist("n", "N", []);
    assert Ids([b]) == {b.id};
    assert Ids([]) == {};
    assert [a, b, c][1..] == [b, c];
    assert [b, c][1..] == [c];
    assert [c][1..] == [];
    assert ExceptFrom([c], {b.id, a.id}) == [c] + ExceptFrom([], {b.id, a.id, c.id});
    assert ExceptFrom([b, c], {b.id, a.id}) == [c];
    assert ExceptFrom([a, b, c], {b.id}) == [a] + ExceptFrom([b, c], {b.id} + {a.id});
    assert {b.id} + {a.id} == {b.id, a.id};
    assert ExceptFrom([a, b, c], {b.id}) == [a, c];
    assert ([a, c])[1..] == [c];
    assert ExceptFrom([c], {a.id}) == [c] + ExceptFrom([], {a.id, c.id});
    assert ExceptFrom([a, c], {}) == [a] + ExceptFrom([c], {} + {a.id});
    assert {} + {a.id} == {a.id};
    assert ExceptFrom([a, c], {}) == [a, c];
    assert Uris([a, c]) == [a.uri, c.uri];
    assert !SequenceEqual([a, c], [a, b, c]);
  }

  /** A track that occurs twice keeps its first place: [b, a, b] with nothing excluded cleans
      to [b, a], not [a, b]. */
  lemma RepeatedTrackKeepsFirstPlace(a: Track, b: Track)
    requires a.id != b.id
    ensures var current := Playlist("p", "P", [b, a, b]);
      var none := Playlist("n", "N", []);
      CleanTracks(current, none, none) == [b, a]
  {
    var none := Playlist("n", "N", []);
    assert Ids([]) == {};
    assert [b, a, b][1..] == [a, b];
    assert [a, b][1..] == [b];
    assert [b][1..] == [];
    assert ExceptFrom([b], {b.id, a.id}) == [];
    assert ExceptFrom([a, b], {b.id}) == [a] + ExceptFrom([b], {b.id} + {a.id});
    assert {b.id} + {a.id} == {b.id, a.id};
    assert ExceptFrom([b, a, b], {}) == [b] + ExceptFrom([a, b], {} + {b.id});
    assert {} + {b.id} == {b.id};
    assert ExceptFrom([b, a, b], {}) == [b, a];
    assert [b, a][1..] == [a];
    assert ExceptFrom([a], {b.id}) == [a] + ExceptFrom([], {b.id, a.id});
    assert ExceptFrom([b, a], {}) == [b] + ExceptFrom([a], {} + {b.id});
  }

  /** `Handle`: computes the clean list; returns at once when it equals the current tracks;
      otherwise clears the current playlist and re-adds the clean list in batches of 99. */
  method Handle(store: Store, current: Playlist, good: Playlist, notGood: Playlist,
                replaceOk: bool, addOk: nat -> bool) returns (outcome: CleanupOutcome)
    modifies store
    ensures store.calls == old(store.calls) + CleanupCalls(current, good, notGood, replaceOk)
    ensures store.playlists == CleanupPlaylists(old(store.playlists), current, good, notGood, replaceOk, addOk)
    ensures store.playing == old(store.playing)
    ensures outcome == CleanupOutcomeOf(current, good, notGood, replaceOk)
  {
    var clean := CleanTracks(current, good, notGood);
    if SequenceEqual(clean, current.tracks) {
      return NothingToRemove;
    }
    var ok := store.ReplaceItems(current.id, [], replaceOk);
    if !ok {
      return Failed(ReplaceItemsFailed);
    }
    var batches := Batch(Uris(clean), BatchSize);
    var i := 0;
    while i < |batches|
      invariant 0 <= i <= |batches|
      invariant store.calls == old(store.calls) + [ReplaceItems(current.id, [])] + AddCalls(current.id, batches[..i])
      invariant store.playlists == old(store.playlists)[current.id := Accepted(batches, addOk, i)]
      invariant store.playing == old(store.playing)
    {
      // The task of each add is returned unawaited, so a failing add does not stop the next one.
      var _ := store.AddItems(current.id, batches[i], addOk(i));
      if !addOk(i) {
        assert Accepted(batches, addOk, i) + [] == Accepted(batches, addOk, i);
      }
      assert AddCalls(current.id, batches[..i + 1]) == AddCalls(current.id, batches[..i]) + [AddItems(current.id, batches[i])];
      i := i + 1;
    }
    assert batches[..i] == batches;
    outcome := Removed(|current.tracks| - |clean|);
  }
}
