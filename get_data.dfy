/**
 * The fetch side of the library snapshot (src/get_data.py): paginated
 * listing, batched audio-feature lookups, the owner filter and the join of
 * tracks with their features. The streaming service is represented by the
 * pages and responses it would return.
 */
module GetData {
  import opened Wrappers

  /** One page of a paginated listing; `next` is the URL of the following page. */
  datatype Page<T> = Page(items: seq<T>, next: Option<string>)

  datatype Owner = Owner(id: string)
  datatype PlaylistRef = PlaylistRef(id: string, name: string, owner: Owner)

  datatype Artist = Artist(name: string)
  datatype Album = Album(name: string)
  /** A track object; `id` is absent for local files. */
  datatype SpotifyTrack = SpotifyTrack(id: Option<string>, name: string, artists: seq<Artist>, album: Album)
  /** An entry of a playlist's track listing; `track` is absent for removed tracks. */
  datatype PlaylistItem = PlaylistItem(track: Option<SpotifyTrack>)

  /** The audio features of one track, by name. */
  type AudioFeatures = map<string, real>

  /** The records written to the snapshot. */
  datatype TrackInfo = TrackInfo(id: Option<string>, name: string, artists: seq<string>, album: string,
                                 audioFeatures: AudioFeatures)
  datatype PlaylistInfo = PlaylistInfo(id: string, name: string, tracks: seq<TrackInfo>)

  /** The number of ids sent to the audio-features endpoint at once. */
  const BATCH_SIZE: nat := 100

  // ---------------------------------------------------------------------
  // Pagination

  /** `results["next"]` is truthy: present and not the empty string. */
  predicate HasNext<T>(p: Page<T>)
  {
    p.next.Some? && p.next.value != ""
  }

  /** Some page ends the chain; otherwise the `while` loop never stops. */
  predicate Terminates<T>(pages: seq<Page<T>>)
  {
    exists k :: 0 <= k < |pages| && !HasNext(pages[k])
  }

  /** The index of the first page that has no successor, searching from `from`. */
  function FirstStop<T>(pages: seq<Page<T>>, from: nat): (k: nat)
    requires from <= |pages|
    requires exists k :: from <= k < |pages| && !HasNext(pages[k])
    ensures from <= k < |pages| && !HasNext(pages[k])
    ensures forall j :: from <= j < k ==> HasNext(pages[j])
    decreases |pages| - from
  {
    if !HasNext(pages[from]) then from else FirstStop(pages, from + 1)
  }

  /** The items of the given pages, in page order. */
  function ItemsOf<T>(pages: seq<Page<T>>): seq<T>
  {
    if pages == [] then [] else ItemsOf(pages[..|pages| - 1]) + pages[|pages| - 1].items
  }

  /** What a paginated listing yields: the items of every page up to the first without `next`. */
  function Fetched<T>(pages: seq<Page<T>>): seq<T>
    requires Terminates(pages)
  {
    ItemsOf(pages[..FirstStop(pages, 0) + 1])
  }

  lemma {:induction false} ItemsOfConcat<T>(a: seq<Page<T>>, b: seq<Page<T>>)
    ensures ItemsOf(a + b) == ItemsOf(a) + ItemsOf(b)
    decreases |b|
  {
    if b == [] {
      assert a + b == a;
    } else {
      var front := b[..|b| - 1];
      assert (a + b)[..|a + b| - 1] == a + front;
      ItemsOfConcat(a, front);
    }
  }

  /** The first page's items come first, followed by those of the later pages. */
  lemma ItemsOfCons<T>(p: Page<T>, rest: seq<Page<T>>)
    ensures ItemsOf([p] + rest) == p.items + ItemsOf(rest)
  {
    ItemsOfConcat([p], rest);
    assert ItemsOf([p]) == ItemsOf([p][..0]) + p.items;
  }

  /**
   * The loop shared by `get_all_playlists` and `get_playlist_tracks`:
   * `pages[0]` is the first response, and `pages[k + 1]` is what `sp.next`
   * returns for `pages[k]`.
   */
  method Paginate<T>(pages: seq<Page<T>>) returns (items: seq<T>)
    requires Terminates(pages)
    ensures items == Fetched(pages)
  {
    var stop := FirstStop(pages, 0);
    var k := 0;
    var results := pages[0];
    items := results.items;
    assert pages[..1] == [pages[0]];
    assert ItemsOf(pages[..1]) == ItemsOf(pages[..0]) + pages[0].items;
    while HasNext(results)
      invariant 0 <= k <= stop
      invariant results == pages[k]
      invariant items == ItemsOf(pages[..k + 1])
      decreases stop - k
    {
      k := k + 1;
      results := pages[k];
      items := items + results.items;
      assert pages[..k + 1][..k] == pages[..k];
    }
  }

  /** `get_all_playlists`. */
  method GetAllPlaylists(pages: seq<Page<PlaylistRef>>) returns (playlists: seq<PlaylistRef>)
    requires Terminates(pages)
    ensures playlists == Fetched(pages)
  {
    playlists := Paginate(pages);
  }

  /** `get_playlist_tracks`, given the pages of one playlist's listing. */
  method GetPlaylistTracks(pages: seq<Page<PlaylistItem>>) returns (tracks: seq<PlaylistItem>)
    requires Terminates(pages)
    ensures tracks == Fetched(pages)
  {
    tracks := Paginate(pages);
  }

  // ---------------------------------------------------------------------
  // Batched audio-feature lookups

  /** `[t for t in track_ids if t is not None]`. */
  function ValidIds(ids: seq<Option<string>>): (v: seq<string>)
    ensures |v| <= |ids|
    ensures forall k :: 0 <= k < |v| ==> Some(v[k]) in ids
  {
    if ids == [] then []
    else (if ids[0].Some? then [ids[0].value] else []) + ValidIds(ids[1..])
  }

  lemma {:induction false} ValidIdsConcat(a: seq<Option<string>>, b: seq<Option<string>>)
    ensures ValidIds(a + b) == ValidIds(a) + ValidIds(b)
  {
    if a != [] {
      assert (a + b)[1..] == a[1..] + b;
      ValidIdsConcat(a[1..], b);
    } else {
      assert a + b == b;
    }
  }

  lemma {:induction false} ValidIdsMembership(ids: seq<Option<string>>, x: string)
    ensures x in ValidIds(ids) <==> Some(x) in ids
  {
    if ids != [] {
      ValidIdsMembership(ids[1..], x);
      assert ids == [ids[0]] + ids[1..];
    }
  }

  /** With no `None` among the ids, nothing is dropped. */
  lemma {:induction false} ValidIdsAllPresent(ids: seq<Option<string>>)
    requires forall k :: 0 <= k < |ids| ==> ids[k].Some?
    ensures |ValidIds(ids)| == |ids|
    ensures forall k :: 0 <= k < |ids| ==> ValidIds(ids)[k] == ids[k].value
  {
    if ids != [] {
      ValidIdsAllPresent(ids[1..]);
    }
  }

  /** `valid_track_ids[i : i + 100]` for `i` in `range(0, n, 100)`. */
  function Batches(v: seq<string>): (bs: seq<seq<string>>)
    ensures forall k :: 0 <= k < |bs| ==> 0 < |bs[k]| <= BATCH_SIZE
    decreases |v|
  {
    if v == [] then []
    else if |v| <= BATCH_SIZE then [v]
    else [v[..BATCH_SIZE]] + Batches(v[BATCH_SIZE..])
  }

  function Concat(bs: seq<seq<string>>): seq<string>
  {
    if bs == [] then [] else bs[0] + Concat(bs[1..])
  }

  /** The batches together give back the ids in order, and there are `ceil(n/100)` of them. */
  lemma {:induction false} BatchesPartition(v: seq<string>)
    ensures Concat(Batches(v)) == v
    ensures |Batches(v)| == (|v| + BATCH_SIZE - 1) / BATCH_SIZE
    decreases |v|
  {
    if v == [] {
    } else if |v| <= BATCH_SIZE {
      assert Concat([v]) == v + Concat([]);
    } else {
      var rest := v[BATCH_SIZE..];
      BatchesPartition(rest);
      var bs := [v[..BATCH_SIZE]] + Batches(rest);
      assert bs[1..] == Batches(rest);
      assert v == v[..BATCH_SIZE] + rest;
    }
  }

  /** The service responses for the batches, concatenated in batch order. */
  function Responses<F>(bs: seq<seq<string>>, audioFeatures: seq<string> -> seq<F>): seq<F>
  {
    if bs == [] then [] else audioFeatures(bs[0]) + Responses(bs[1..], audioFeatures)
  }

  /** One response entry per id sent gives one entry per id overall. */
  lemma {:induction false} ResponsesLength<F>(bs: seq<seq<string>>, audioFeatures: seq<string> -> seq<F>)
    requires forall b :: b in bs ==> |audioFeatures(b)| == |b|
    ensures |Responses(bs, audioFeatures)| == |Concat(bs)|
  {
    if bs != [] {
      assert forall b :: b in bs[1..] ==> b in bs;
      ResponsesLength(bs[1..], audioFeatures);
    }
  }

  /** What `get_audio_features` returns for `track_ids`. */
  function FeaturesFor<F>(trackIds: seq<Option<string>>, audioFeatures: seq<string> -> seq<F>): seq<F>
  {
    Responses(Batches(ValidIds(trackIds)), audioFeatures)
  }

  /** With one entry per id in every response, there is one feature per non-`None` id. */
  lemma FeaturesForLength<F>(trackIds: seq<Option<string>>, audioFeatures: seq<string> -> seq<F>)
    requires forall b :: |audioFeatures(b)| == |b|
    ensures |FeaturesFor(trackIds, audioFeatures)| == |ValidIds(trackIds)|
  {
    var v := ValidIds(trackIds);
    BatchesPartition(v);
    ResponsesLength(Batches(v), audioFeatures);
  }

  /** `v[i:]`, which Python clamps to the empty list past the end. */
  function Drop(v: seq<string>, i: nat): seq<string>
  {
    if i < |v| then v[i..] else []
  }

  /** The batches from `i` on: the slice `v[i:i+100]`, then the batches from `i + 100`. */
  lemma BatchesFrom(v: seq<string>, i: nat)
    requires i < |v|
    ensures Batches(Drop(v, i))
         == [v[i..if i + BATCH_SIZE < |v| then i + BATCH_SIZE else |v|]] + Batches(Drop(v, i + BATCH_SIZE))
  {
    var w := v[i..];
    if i + BATCH_SIZE < |v| {
      assert |w| > BATCH_SIZE && w != [];
      assert Batches(w) == [w[..BATCH_SIZE]] + Batches(w[BATCH_SIZE..]);
      assert w[..BATCH_SIZE] == v[i..i + BATCH_SIZE];
      assert w[BATCH_SIZE..] == v[i + BATCH_SIZE..];
    } else {
      assert w == v[i..|v|] && w != [];
      assert Batches(w) == [w];
      assert Drop(v, i + BATCH_SIZE) == [];
    }
  }

  /** `get_audio_features`: one call per batch of non-`None` ids, responses concatenated. */
  method GetAudioFeatures<F>(trackIds: seq<Option<string>>, audioFeatures: seq<string> -> seq<F>)
    returns (result: seq<F>)
    ensures result == FeaturesFor(trackIds, audioFeatures)
  {
    result := [];
    var valid := ValidIds(trackIds);
    var i := 0;
    assert Drop(valid, 0) == valid;
    while i < |valid|
      invariant 0 <= i
      invariant result + Responses(Batches(Drop(valid, i)), audioFeatures) == Responses(Batches(valid), audioFeatures)
      decreases |valid| - i
    {
      var batch := valid[i..if i + BATCH_SIZE < |valid| then i + BATCH_SIZE else |valid|];
      BatchesFrom(valid, i);
      var features := audioFeatures(batch);
      result := result + features;
      i := i + BATCH_SIZE;
    }
  }

  // ---------------------------------------------------------------------
  // Owner filter

  /** `[playlist for playlist in all_playlists if playlist["owner"]["id"] == user_id]`. */
  function UserPlaylists(all: seq<PlaylistRef>, userId: string): (r: seq<PlaylistRef>)
    ensures |r| <= |all|
    ensures forall p :: p in r <==> p in all && p.owner.id == userId
  {
    if all == [] then []
    else
      assert all == [all[0]] + all[1..];
      (if all[0].owner.id == userId then [all[0]] else []) + UserPlaylists(all[1..], userId)
  }

  /** The filter keeps original order: it distributes over concatenation. */
  lemma {:induction false} UserPlaylistsConcat(a: seq<PlaylistRef>, b: seq<PlaylistRef>, userId: string)
    ensures UserPlaylists(a + b, userId) == UserPlaylists(a, userId) + UserPlaylists(b, userId)
  {
    if a == [] {
      assert a + b == b;
    } else {
      assert (a + b)[1..] == a[1..] + b;
      UserPlaylistsConcat(a[1..], b, userId);
    }
  }

  // ---------------------------------------------------------------------
  // Join of tracks and features

  /** `track["track"]["id"] if track["track"] else None` for each item. */
  function TrackIds(items: seq<PlaylistItem>): (ids: seq<Option<string>>)
    ensures |ids| == |items|
    ensures forall k :: 0 <= k < |items| ==>
      ids[k] == if items[k].track.Some? then items[k].track.value.id else None
  {
    seq(|items|, k requires 0 <= k < |items| =>
      if items[k].track.Some? then items[k].track.value.id else None)
  }

  /** The features are truthy: present and not an empty dict. */
  predicate Present(f: Option<AudioFeatures>)
  {
    f.Some? && |f.value| > 0
  }

  /** A zipped pair is written when both the track and its features are truthy. */
  predicate Kept(item: PlaylistItem, f: Option<AudioFeatures>)
  {
    item.track.Some? && Present(f)
  }

  function ArtistNames(artists: seq<Artist>): (names: seq<string>)
    ensures |names| == |artists|
    ensures forall k :: 0 <= k < |artists| ==> names[k] == artists[k].name
  {
    seq(|artists|, k requires 0 <= k < |artists| => artists[k].name)
  }

  /** The `track_info` record of a kept pair. */
  function MakeTrackInfo(item: PlaylistItem, f: Option<AudioFeatures>): (info: TrackInfo)
    requires Kept(item, f)
    ensures info.id == item.track.value.id && info.name == item.track.value.name
    ensures info.artists == ArtistNames(item.track.value.artists)
    ensures info.album == item.track.value.album.name
    ensures info.audioFeatures == f.value && |info.audioFeatures| > 0
  {
    var t := item.track.value;
    TrackInfo(t.id, t.name, ArtistNames(t.artists), t.album.name, f.value)
  }

  function Min(a: nat, b: nat): nat
  {
    if a <= b then a else b
  }

  /** The records of the kept pairs among the first `n` zipped pairs. */
  function JoinPrefix(items: seq<PlaylistItem>, feats: seq<Option<AudioFeatures>>, n: nat): seq<TrackInfo>
    requires n <= |items| && n <= |feats|
  {
    if n == 0 then []
    else
      JoinPrefix(items, feats, n - 1)
      + (if Kept(items[n - 1], feats[n - 1]) then [MakeTrackInfo(items[n - 1], feats[n - 1])] else [])
  }

  /** The loop over `zip(playlist_tracks, playlist_audio_features)`; `zip` stops at the shorter. */
  function Join(items: seq<PlaylistItem>, feats: seq<Option<AudioFeatures>>): seq<TrackInfo>
  {
    JoinPrefix(items, feats, Min(|items|, |feats|))
  }

  /**
   * The join keeps exactly the zipped pairs whose track and features are
   * both truthy, in input order: `idx` lists their positions.
   */
  lemma {:induction false} JoinPositions(items: seq<PlaylistItem>, feats: seq<Option<AudioFeatures>>, n: nat)
    returns (idx: seq<nat>)
    requires n <= |items| && n <= |feats|
    ensures |idx| == |JoinPrefix(items, feats, n)| <= n
    ensures forall m, m' :: 0 <= m < m' < |idx| ==> idx[m] < idx[m']
    ensures forall m :: 0 <= m < |idx| ==>
      idx[m] < n && Kept(items[idx[m]], feats[idx[m]])
      && JoinPrefix(items, feats, n)[m] == MakeTrackInfo(items[idx[m]], feats[idx[m]])
    ensures forall k :: 0 <= k < n && Kept(items[k], feats[k]) ==> k in idx
  {
    if n == 0 {
      idx := [];
    } else {
      var prev := JoinPositions(items, feats, n - 1);
      var out := JoinPrefix(items, feats, n - 1);
      if Kept(items[n - 1], feats[n - 1]) {
        var info := MakeTrackInfo(items[n - 1], feats[n - 1]);
        idx := prev + [n - 1];
        assert JoinPrefix(items, feats, n) == out + [info];
        forall m | 0 <= m < |idx|
          ensures JoinPrefix(items, feats, n)[m] == MakeTrackInfo(items[idx[m]], feats[idx[m]])
        {
          if m < |prev| {
            assert idx[m] == prev[m];
          }
        }
      } else {
        idx := prev;
        assert JoinPrefix(items, feats, n) == out;
      }
    }
  }

  /** The output is never longer than the shorter input. */
  lemma JoinBound(items: seq<PlaylistItem>, feats: seq<Option<AudioFeatures>>)
    ensures |Join(items, feats)| <= |items| && |Join(items, feats)| <= |feats|
  {
    var idx := JoinPositions(items, feats, Min(|items|, |feats|));
  }

  /** The `for track, features in zip(...)` loop of `main`. */
  method JoinTracks(items: seq<PlaylistItem>, feats: seq<Option<AudioFeatures>>) returns (out: seq<TrackInfo>)
    ensures out == Join(items, feats)
  {
    out := [];
    var n := Min(|items|, |feats|);
    for k := 0 to n
      invariant out == JoinPrefix(items, feats, k)
    {
      var track, features := items[k], feats[k];
      if Kept(track, features) {
        out := out + [MakeTrackInfo(track, features)];
      }
    }
  }

  // ---------------------------------------------------------------------
  // Alignment of the zipped lists

  /** A features endpoint that answers every id on its own, in request order. */
  ghost predicate PerId<F>(audioFeatures: seq<string> -> seq<F>, lookup: string -> F)
  {
    forall b :: audioFeatures(b) == MapLookup(b, lookup)
  }

  function MapLookup<F>(v: seq<string>, lookup: string -> F): (r: seq<F>)
    ensures |r| == |v|
  {
    seq(|v|, i requires 0 <= i < |v| => lookup(v[i]))
  }

  lemma {:induction false} ResponsesPerId<F>(bs: seq<seq<string>>, audioFeatures: seq<string> -> seq<F>,
                                              lookup: string -> F)
    requires PerId(audioFeatures, lookup)
    ensures Responses(bs, audioFeatures) == MapLookup(Concat(bs), lookup)
  {
    if bs != [] {
      ResponsesPerId(bs[1..], audioFeatures, lookup);
      assert MapLookup(bs[0] + Concat(bs[1..]), lookup)
          == MapLookup(bs[0], lookup) + MapLookup(Concat(bs[1..]), lookup);
    }
  }

  /** With a per-id endpoint, the features list answers the non-`None` ids in order. */
  lemma FeaturesPerId<F>(trackIds: seq<Option<string>>, audioFeatures: seq<string> -> seq<F>,
                         lookup: string -> F)
    requires PerId(audioFeatures, lookup)
    ensures FeaturesFor(trackIds, audioFeatures) == MapLookup(ValidIds(trackIds), lookup)
  {
    BatchesPartition(ValidIds(trackIds));
    ResponsesPerId(Batches(ValidIds(trackIds)), audioFeatures, lookup);
  }

  predicate HasId(item: PlaylistItem)
  {
    item.track.Some? && item.track.value.id.Some?
  }

  function IdOf(item: PlaylistItem): string
    requires HasId(item)
  {
    item.track.value.id.value
  }

  /**
   * When every item has a track with an id, position `k` of the features
   * list belongs to item `k`, so the zip pairs each track with its own features.
   */
  lemma FeaturesAligned<F>(items: seq<PlaylistItem>, audioFeatures: seq<string> -> seq<F>, lookup: string -> F)
    requires PerId(audioFeatures, lookup)
    requires forall k :: 0 <= k < |items| ==> HasId(items[k])
    ensures |FeaturesFor(TrackIds(items), audioFeatures)| == |items|
    ensures forall k :: 0 <= k < |items| ==>
      FeaturesFor(TrackIds(items), audioFeatures)[k] == lookup(IdOf(items[k]))
  {
    FeaturesPerId(TrackIds(items), audioFeatures, lookup);
    ValidIdsAllPresent(TrackIds(items));
  }

  /**
   * An item without an id (a removed track or a local file) is dropped from
   * the ids but not from the zipped track list. The tracks before it keep
   * their own features; every later track is paired with the features of
   * the track after it (item `|pre| + 1 + k` meets the features of
   * `rest[k + 1]`), and the last track is paired with nothing.
   */
  lemma MissingTrackShifts<F>(pre: seq<PlaylistItem>, x0: PlaylistItem, rest: seq<PlaylistItem>,
                              audioFeatures: seq<string> -> seq<F>, lookup: string -> F)
    requires PerId(audioFeatures, lookup)
    requires forall k :: 0 <= k < |pre| ==> HasId(pre[k])
    requires !HasId(x0)
    requires forall k :: 0 <= k < |rest| ==> HasId(rest[k])
    ensures var items := pre + [x0] + rest;
      var feats := FeaturesFor(TrackIds(items), audioFeatures);
      && |feats| == |items| - 1
      && (forall k :: 0 <= k < |pre| ==> feats[k] == lookup(IdOf(pre[k])))
      && (forall k :: 0 <= k < |rest| ==> feats[|pre| + k] == lookup(IdOf(rest[k])))
  {
    var items := pre + [x0] + rest;
    assert TrackIds(items) == TrackIds(pre) + [None] + TrackIds(rest);
    ValidIdsConcat(TrackIds(pre) + [None], TrackIds(rest));
    ValidIdsConcat(TrackIds(pre), [None]);
    assert ValidIds([None]) == [];
    FeaturesPerId(TrackIds(items), audioFeatures, lookup);
    ValidIdsAllPresent(TrackIds(pre));
    ValidIdsAllPresent(TrackIds(rest));
  }

  /** A playlist of a removed track followed by one real track yields no record at all. */
  lemma MissingTrackDropsLast(x: PlaylistItem, audioFeatures: seq<string> -> seq<Option<AudioFeatures>>,
                              lookup: string -> Option<AudioFeatures>)
    requires PerId(audioFeatures, lookup)
    requires HasId(x)
    ensures var items := [PlaylistItem(None), x];
      Join(items, FeaturesFor(TrackIds(items), audioFeatures)) == []
  {
    var items := [PlaylistItem(None), x];
    MissingTrackShifts([], PlaylistItem(None), [x], audioFeatures, lookup);
    assert items == [] + [PlaylistItem(None)] + [x];
    var feats := FeaturesFor(TrackIds(items), audioFeatures);
    assert Min(|items|, |feats|) == 1;
    assert !Kept(items[0], feats[0]);
    assert JoinPrefix(items, feats, 1) == JoinPrefix(items, feats, 0) + [];
    assert Join(items, feats) == JoinPrefix(items, feats, 1);
  }

  /**
   * A local file (a track without an id) followed by one real track yields
   * one record: the local file's, carrying the real track's features, or
   * none when those features are falsy.
   */
  lemma LocalFileTakesNext(x0: PlaylistItem, x: PlaylistItem, audioFeatures: seq<string> -> seq<Option<AudioFeatures>>,
                           lookup: string -> Option<AudioFeatures>)
    requires PerId(audioFeatures, lookup)
    requires x0.track.Some? && x0.track.value.id.None?
    requires HasId(x)
    ensures var items := [x0, x];
      var out := Join(items, FeaturesFor(TrackIds(items), audioFeatures));
      && (Present(lookup(IdOf(x))) ==>
            |out| == 1 && out[0].id.None? && out[0].name == x0.track.value.name
            && out[0].audioFeatures == lookup(IdOf(x)).value)
      && (!Present(lookup(IdOf(x))) ==> out == [])
  {
    var items := [x0, x];
    MissingTrackShifts([], x0, [x], audioFeatures, lookup);
    assert items == [] + [x0] + [x];
    var feats := FeaturesFor(TrackIds(items), audioFeatures);
    assert Min(|items|, |feats|) == 1;
    assert feats[0] == lookup(IdOf(x));
    assert Join(items, feats) == JoinPrefix(items, feats, 1);
    assert JoinPrefix(items, feats, 0) == [];
  }

  // ---------------------------------------------------------------------
  // The snapshot built by `main`

  /** The snapshot entry of one owned playlist. */
  function PlaylistSnapshot(p: PlaylistRef, trackPages: string -> seq<Page<PlaylistItem>>,
                            audioFeatures: seq<string> -> seq<Option<AudioFeatures>>): (info: PlaylistInfo)
    requires Terminates(trackPages(p.id))
    ensures info.id == p.id && info.name == p.name
  {
    var items := Fetched(trackPages(p.id));
    PlaylistInfo(p.id, p.name, Join(items, FeaturesFor(TrackIds(items), audioFeatures)))
  }

  /** One pass of the loop in `main`: fetch the listing, look up the features, join. */
  method FetchPlaylist(playlist: PlaylistRef, trackPages: string -> seq<Page<PlaylistItem>>,
                       audioFeatures: seq<string> -> seq<Option<AudioFeatures>>)
    returns (playlistInfo: PlaylistInfo)
    requires Terminates(trackPages(playlist.id))
    ensures playlistInfo == PlaylistSnapshot(playlist, trackPages, audioFeatures)
  {
    var playlistTracks := GetPlaylistTracks(trackPages(playlist.id));
    var playlistTrackIds := TrackIds(playlistTracks);
    var playlistAudioFeatures := GetAudioFeatures(playlistTrackIds, audioFeatures);
    var tracksWithFeatures := JoinTracks(playlistTracks, playlistAudioFeatures);
    playlistInfo := PlaylistInfo(playlist.id, playlist.name, tracksWithFeatures);
  }

  /** The loop in `main`: one snapshot per playlist, in order. */
  method FetchPlaylists(playlists: seq<PlaylistRef>, trackPages: string -> seq<Page<PlaylistItem>>,
                        audioFeatures: seq<string> -> seq<Option<AudioFeatures>>)
    returns (library: seq<PlaylistInfo>)
    requires forall m :: 0 <= m < |playlists| ==> Terminates(trackPages(playlists[m].id))
    ensures |library| == |playlists|
    ensures forall m :: 0 <= m < |playlists| ==> library[m] == PlaylistSnapshot(playlists[m], trackPages, audioFeatures)
  {
    library := [];
    for k := 0 to |playlists|
      invariant |library| == k
      invariant forall m :: 0 <= m < k ==> library[m] == PlaylistSnapshot(playlists[m], trackPages, audioFeatures)
    {
      var playlistInfo := FetchPlaylist(playlists[k], trackPages, audioFeatures);
      library := library + [playlistInfo];
    }
  }

  /**
   * `main` without the client, the sleep and the file output: the playlists
   * owned by `userId`, each with its joined tracks. `trackPages(id)` is the
   * listing of playlist `id`, `audioFeatures` the features endpoint.
   */
  method CollectLibrary(userId: string, playlistPages: seq<Page<PlaylistRef>>,
                        trackPages: string -> seq<Page<PlaylistItem>>,
                        audioFeatures: seq<string> -> seq<Option<AudioFeatures>>)
    returns (library: seq<PlaylistInfo>)
    requires Terminates(playlistPages)
    requires forall p :: p in UserPlaylists(Fetched(playlistPages), userId) ==> Terminates(trackPages(p.id))
    ensures var owned := UserPlaylists(Fetched(playlistPages), userId);
      && |library| == |owned|
      && forall k :: 0 <= k < |owned| ==>
           library[k].id == owned[k].id && library[k].name == owned[k].name
           && library[k] == PlaylistSnapshot(owned[k], trackPages, audioFeatures)
  {
    var allPlaylists := GetAllPlaylists(playlistPages);
    var userPlaylists := UserPlaylists(allPlaylists, userId);
    forall m | 0 <= m < |userPlaylists|
      ensures Terminates(trackPages(userPlaylists[m].id))
    {
      assert userPlaylists[m] in userPlaylists;
    }
    library := FetchPlaylists(userPlaylists, trackPages, audioFeatures);
  }
}
