/**
 * The training dataset built from a library snapshot (src/dataset.py):
 * playlists are flattened into per-track sequences, the genres of all tracks
 * form a sorted vocabulary, and every track gets a 0/1 row over it.
 */
module Dataset {
  import opened Wrappers
  import opened Ordering

  /** A track of the snapshot: its genres and its audio features by name. */
  datatype Track = Track(genres: seq<string>, audioFeatures: map<string, real>)

  datatype Playlist = Playlist(name: string, tracks: seq<Track>)

  /** Raised by `__getitem__` for an index outside the track list. */
  datatype IndexError = IndexError

  /** The audio features read from every track, in column order. */
  const FEATURE_KEYS: seq<string> := [
    "danceability", "energy", "loudness", "mode", "speechiness",
    "acousticness", "instrumentalness", "liveness", "valence", "tempo"
  ]

  // ---------------------------------------------------------------------
  // Flattening: what the nested loop of the constructor produces

  function Front<T>(s: seq<T>): seq<T>
    requires s != []
  {
    s[..|s| - 1]
  }

  /** Sum of the playlists' track counts. */
  function TotalTracks(ps: seq<Playlist>): nat
  {
    if ps == [] then 0 else TotalTracks(Front(ps)) + |ps[|ps| - 1].tracks|
  }

  /** The tracks of all playlists, playlist after playlist. */
  function FlatTracks(ps: seq<Playlist>): seq<Track>
  {
    if ps == [] then [] else FlatTracks(Front(ps)) + ps[|ps| - 1].tracks
  }

  /** For each track, the position of its playlist. */
  function FlatIds(ps: seq<Playlist>): seq<nat>
  {
    if ps == [] then []
    else FlatIds(Front(ps)) + seq(|ps[|ps| - 1].tracks|, _ => |ps| - 1)
  }

  /** For each track, the name of its playlist. */
  function FlatNames(ps: seq<Playlist>): seq<string>
  {
    if ps == [] then []
    else FlatNames(Front(ps)) + seq(|ps[|ps| - 1].tracks|, _ => ps[|ps| - 1].name)
  }

  /** The genre list of each track. */
  function GenresOf(ts: seq<Track>): (gs: seq<seq<string>>)
    ensures |gs| == |ts|
    ensures forall i :: 0 <= i < |ts| ==> gs[i] == ts[i].genres
  {
    seq(|ts|, i requires 0 <= i < |ts| => ts[i].genres)
  }

  lemma {:induction false} FlatLengths(ps: seq<Playlist>)
    ensures |FlatTracks(ps)| == TotalTracks(ps)
    ensures |FlatIds(ps)| == TotalTracks(ps)
    ensures |FlatNames(ps)| == TotalTracks(ps)
  {
    if ps != [] {
      FlatLengths(Front(ps));
    }
  }

  /** Playlist indices are in range and never decrease along the tracks. */
  lemma {:induction false} FlatIdsOrdered(ps: seq<Playlist>)
    ensures forall i :: 0 <= i < |FlatIds(ps)| ==> FlatIds(ps)[i] < |ps|
    ensures forall i, j :: 0 <= i <= j < |FlatIds(ps)| ==> FlatIds(ps)[i] <= FlatIds(ps)[j]
  {
    if ps != [] {
      FlatIdsOrdered(Front(ps));
    }
  }

  /**
   * Track `i` of the flattened view is track `i - TotalTracks(ps[..p])` of
   * playlist `p`, where `p` is its recorded playlist index, and it carries
   * that playlist's name.
   */
  lemma {:induction false} FlatOrigin(ps: seq<Playlist>, i: nat)
    requires i < TotalTracks(ps)
    ensures |FlatTracks(ps)| == |FlatIds(ps)| == |FlatNames(ps)| == TotalTracks(ps)
    ensures FlatIds(ps)[i] < |ps|
    ensures var p := FlatIds(ps)[i];
      var offset := TotalTracks(ps[..p]);
      && offset <= i < offset + |ps[p].tracks|
      && FlatTracks(ps)[i] == ps[p].tracks[i - offset]
      && FlatNames(ps)[i] == ps[p].name
  {
    FlatLengths(ps);
    FlatIdsOrdered(ps);
    var front := Front(ps);
    FlatLengths(front);
    if i < TotalTracks(front) {
      FlatOrigin(front, i);
      var p := FlatIds(front)[i];
      assert FlatIds(ps)[i] == p;
      assert ps[..p] == front[..p];
    } else {
      assert FlatIds(ps)[i] == |ps| - 1;
      assert ps[..|ps| - 1] == front;
    }
  }

  lemma {:induction false} FlatTracksFrom(ps: seq<Playlist>, t: Track)
    requires t in FlatTracks(ps)
    ensures exists p :: p in ps && t in p.tracks
  {
    var front := Front(ps);
    if t in FlatTracks(front) {
      FlatTracksFrom(front, t);
      var p :| p in front && t in p.tracks;
      assert p in ps;
    } else {
      assert ps[|ps| - 1] in ps;
    }
  }

  /** A name is recorded for some track iff a playlist with a track has it. */
  lemma {:induction false} FlatNamesOfNonEmpty(ps: seq<Playlist>, n: string)
    ensures n in FlatNames(ps) <==> exists k :: 0 <= k < |ps| && ps[k].name == n && |ps[k].tracks| > 0
  {
    if ps != [] {
      var front := Front(ps);
      FlatNamesOfNonEmpty(front, n);
      var last := ps[|ps| - 1];
      var tail := seq(|last.tracks|, _ => last.name);
      assert n in FlatNames(ps) <==> n in FlatNames(front) || n in tail;
      assert n in tail <==> n == last.name && |last.tracks| > 0 by {
        if |last.tracks| > 0 {
          assert tail[0] == last.name;
        }
      }
      if exists k :: 0 <= k < |ps| && ps[k].name == n && |ps[k].tracks| > 0 {
        var k :| 0 <= k < |ps| && ps[k].name == n && |ps[k].tracks| > 0;
        if k < |front| {
          assert front[k] == ps[k];
        }
      }
      if exists k :: 0 <= k < |front| && front[k].name == n && |front[k].tracks| > 0 {
        var k :| 0 <= k < |front| && front[k].name == n && |front[k].tracks| > 0;
        assert ps[k] == front[k];
      }
    }
  }

  // ---------------------------------------------------------------------
  // Genre vocabulary and one-hot encoding

  /** The union of the genre lists. */
  function AllGenres(gs: seq<seq<string>>): set<string>
  {
    if gs == [] then {} else AllGenres(Front(gs)) + Elements(gs[|gs| - 1])
  }

  function Elements(s: seq<string>): (r: set<string>)
    ensures forall x :: x in r <==> x in s
  {
    set k | 0 <= k < |s| :: s[k]
  }

  /** A genre is in the union iff some track lists it. */
  lemma {:induction false} AllGenresMembership(gs: seq<seq<string>>, g: string)
    ensures g in AllGenres(gs) <==> exists i :: 0 <= i < |gs| && g in gs[i]
  {
    if gs != [] {
      var front := Front(gs);
      AllGenresMembership(front, g);
      if exists i :: 0 <= i < |gs| && g in gs[i] {
        var i :| 0 <= i < |gs| && g in gs[i];
        if i < |front| {
          assert front[i] == gs[i];
        }
      }
      if exists i :: 0 <= i < |front| && g in front[i] {
        var i :| 0 <= i < |front| && g in front[i];
        assert gs[i] == front[i];
      }
    }
  }

  /** The `all_genres.update(genre_list)` loop. */
  method CollectGenres(gs: seq<seq<string>>) returns (all: set<string>)
    ensures all == AllGenres(gs)
  {
    all := {};
    for i := 0 to |gs|
      invariant all == AllGenres(gs[..i])
    {
      all := all + Elements(gs[i]);
      assert Front(gs[..i + 1]) == gs[..i];
    }
    assert gs[..|gs|] == gs;
  }

  /** `list.index`: the first position of `x`, or `None` where Python raises `ValueError`. */
  method IndexOf(s: seq<string>, x: string) returns (r: Option<nat>)
    ensures r.Some? <==> x in s
    ensures r.Some? ==> r.value < |s| && s[r.value] == x && x !in s[..r.value]
  {
    for k := 0 to |s|
      invariant x !in s[..k]
    {
      if s[k] == x {
        return Some(k);
      }
      assert s[..k + 1] == s[..k] + [s[k]];
    }
    assert s[..|s|] == s;
    return None;
  }

  /** The rule the one-hot matrix obeys: entry `(i, j)` is 1 iff track `i` lists genre `j`. */
  ghost predicate OneHot(m: array2<int>, gs: seq<seq<string>>, vocab: seq<string>)
    reads m
  {
    && m.Length0 == |gs| && m.Length1 == |vocab|
    && forall i, j :: 0 <= i < m.Length0 && 0 <= j < m.Length1 ==>
         m[i, j] == if vocab[j] in gs[i] then 1 else 0
  }

  /** Every entry is 0 or 1, and a track without genres has an all-zero row. */
  lemma OneHotEntries(m: array2<int>, gs: seq<seq<string>>, vocab: seq<string>)
    requires OneHot(m, gs, vocab)
    ensures forall i, j :: 0 <= i < m.Length0 && 0 <= j < m.Length1 ==> m[i, j] == 0 || m[i, j] == 1
    ensures forall i, j :: 0 <= i < m.Length0 && 0 <= j < m.Length1 && gs[i] == [] ==> m[i, j] == 0
  {
  }

  /** Sets `m[i, vocab.index(g)] := 1` for every genre `g` of track `i`, in a zeroed matrix. */
  method FillOneHot(m: array2<int>, gs: seq<seq<string>>, vocab: seq<string>)
    requires m.Length0 == |gs| && m.Length1 == |vocab|
    requires Distinct(vocab)
    requires forall i, k :: 0 <= i < |gs| && 0 <= k < |gs[i]| ==> gs[i][k] in vocab
    requires forall i, j :: 0 <= i < m.Length0 && 0 <= j < m.Length1 ==> m[i, j] == 0
    modifies m
    ensures OneHot(m, gs, vocab)
  {
    for i := 0 to |gs|
      invariant forall r, j :: 0 <= r < i && 0 <= j < m.Length1 ==>
        m[r, j] == if vocab[j] in gs[r] then 1 else 0
      invariant forall r, j :: i <= r < m.Length0 && 0 <= j < m.Length1 ==> m[r, j] == 0
    {
      for k := 0 to |gs[i]|
        invariant forall r, j :: 0 <= r < i && 0 <= j < m.Length1 ==>
          m[r, j] == if vocab[j] in gs[r] then 1 else 0
        invariant forall j :: 0 <= j < m.Length1 ==>
          m[i, j] == if vocab[j] in gs[i][..k] then 1 else 0
        invariant forall r, j :: i < r < m.Length0 && 0 <= j < m.Length1 ==> m[r, j] == 0
      {
        var found := IndexOf(vocab, gs[i][k]);
        assert found.Some?;
        var j := found.value;
        m[i, j] := 1;
        assert gs[i][..k + 1] == gs[i][..k] + [gs[i][k]];
      }
      assert gs[i][..|gs[i]|] == gs[i];
    }
  }

  /**
   * The genre part of `__init__`: the sorted union of the genre lists, and a
   * zeroed matrix with one row per track and one column per genre, filled
   * with the one-hot rule.
   */
  method EncodeGenres(gs: seq<seq<string>>) returns (vocab: seq<string>, m: array2<int>)
    ensures fresh(m)
    ensures StrictlyAscending(vocab)
    ensures forall g :: g in vocab <==> g in AllGenres(gs)
    ensures OneHot(m, gs, vocab)
  {
    var allGenres := CollectGenres(gs);
    vocab := SortedList(allGenres);
    m := new int[|gs|, |vocab|]((_, _) => 0);
    AscendingIsDistinct(vocab);
    forall i, k | 0 <= i < |gs| && 0 <= k < |gs[i]|
      ensures gs[i][k] in vocab
    {
      AllGenresMembership(gs, gs[i][k]);
    }
    FillOneHot(m, gs, vocab);
  }

  // ---------------------------------------------------------------------
  // Audio feature rows (before scaling)

  predicate HasFeatureKeys(t: Track)
  {
    forall k :: 0 <= k < |FEATURE_KEYS| ==> FEATURE_KEYS[k] in t.audioFeatures
  }

  /** `[[track["audio_features"][key] for key in feature_keys] for track in tracks]`. */
  function FeatureRows(ts: seq<Track>): (rows: seq<seq<real>>)
    requires forall i :: 0 <= i < |ts| ==> HasFeatureKeys(ts[i])
    ensures |rows| == |ts|
    ensures forall i :: 0 <= i < |ts| ==> |rows[i]| == |FEATURE_KEYS| && rows[i] == FeatureRow(ts[i])
  {
    seq(|ts|, i requires 0 <= i < |ts| => FeatureRow(ts[i]))
  }

  /** `[track["audio_features"][key] for key in feature_keys]`. */
  function FeatureRow(t: Track): (row: seq<real>)
    requires HasFeatureKeys(t)
    ensures |row| == |FEATURE_KEYS|
    ensures forall k :: 0 <= k < |FEATURE_KEYS| ==> row[k] == t.audioFeatures[FEATURE_KEYS[k]]
  {
    seq(|FEATURE_KEYS|, k requires 0 <= k < |FEATURE_KEYS| => t.audioFeatures[FEATURE_KEYS[k]])
  }

  /**
   * `np.hstack((rows, m))`: row `i` is `rows[i]` followed by row `i` of `m`,
   * whose integers become floats.
   */
  function HStack(rows: seq<seq<real>>, m: array2<int>): (r: seq<seq<real>>)
    reads m
    requires |rows| == m.Length0
    ensures |r| == |rows|
    ensures forall i :: 0 <= i < |rows| ==>
      && |r[i]| == |rows[i]| + m.Length1
      && r[i][..|rows[i]|] == rows[i]
      && forall j :: 0 <= j < m.Length1 ==> r[i][|rows[i]| + j] == m[i, j] as real
  {
    seq(|rows|, i requires 0 <= i < |rows| reads m =>
      rows[i] + seq(m.Length1, j requires 0 <= j < m.Length1 reads m => m[i, j] as real))
  }

  // ---------------------------------------------------------------------
  // The dataset object

  class SpotifyPlaylistDataset {
    const playlists: seq<Playlist>
    var tracks: seq<Track>
    var playlistIds: seq<nat>
    var playlistNames: seq<string>
    var genres: seq<seq<string>>
    /** The audio feature matrix before standard scaling. */
    var features: seq<seq<real>>
    var genreList: seq<string>
    var genreFeatures: array2<int>
    /** `combined_features`: the feature rows (here unscaled) beside the genre columns. */
    var combined: seq<seq<real>>

    ghost predicate Valid()
      reads this, genreFeatures
    {
      && tracks == FlatTracks(playlists)
      && |playlistIds| == |playlistNames| == |tracks|
      && playlistIds == FlatIds(playlists)
      && playlistNames == FlatNames(playlists)
      && genres == GenresOf(tracks)
      && (forall i :: 0 <= i < |tracks| ==> HasFeatureKeys(tracks[i]))
      && features == FeatureRows(tracks)
      && StrictlyAscending(genreList)
      && (forall g :: g in genreList <==> g in AllGenres(genres))
      && OneHot(genreFeatures, genres, genreList)
      && combined == HStack(features, genreFeatures)
    }

    /**
     * `__init__` on the parsed snapshot. Every track must carry the ten
     * audio features (a missing one raises `KeyError`), and there must be a
     * track at all (the scaler rejects an empty feature array).
     */
    constructor (ps: seq<Playlist>)
      requires forall p, t :: p in ps && t in p.tracks ==> HasFeatureKeys(t)
      requires TotalTracks(ps) > 0
      ensures Valid()
      ensures playlists == ps
    {
      playlists := ps;
      tracks, playlistIds, playlistNames, genres := [], [], [], [];
      features, genreList := [], [];
      genreFeatures := new int[0, 0];
      combined := [];
      new;
      Flatten();
      FlatLengths(playlists);

      forall i | 0 <= i < |tracks|
        ensures HasFeatureKeys(tracks[i])
      {
        FlatTracksFrom(playlists, tracks[i]);
      }
      features := FeatureRows(tracks);

      genreList, genreFeatures := EncodeGenres(genres);
      combined := HStack(features, genreFeatures);
    }

    /** The nested loop of `__init__` that appends one entry per track to the four lists. */
    method Flatten()
      requires tracks == [] && playlistIds == [] && playlistNames == [] && genres == []
      modifies this`tracks, this`playlistIds, this`playlistNames, this`genres
      ensures tracks == FlatTracks(playlists)
      ensures playlistIds == FlatIds(playlists)
      ensures playlistNames == FlatNames(playlists)
      ensures genres == GenresOf(tracks)
    {
      for idx := 0 to |playlists|
        invariant tracks == FlatTracks(playlists[..idx])
        invariant playlistIds == FlatIds(playlists[..idx])
        invariant playlistNames == FlatNames(playlists[..idx])
        invariant genres == GenresOf(tracks)
      {
        var playlist := playlists[idx];
        assert Front(playlists[..idx + 1]) == playlists[..idx];
        for k := 0 to |playlist.tracks|
          invariant tracks == FlatTracks(playlists[..idx]) + playlist.tracks[..k]
          invariant playlistIds == FlatIds(playlists[..idx]) + seq(k, _ => idx)
          invariant playlistNames == FlatNames(playlists[..idx]) + seq(k, _ => playlist.name)
          invariant genres == GenresOf(tracks)
        {
          var track := playlist.tracks[k];
          tracks := tracks + [track];
          playlistIds := playlistIds + [idx];
          playlistNames := playlistNames + [playlist.name];
          genres := genres + [track.genres];
          assert playlist.tracks[..k + 1] == playlist.tracks[..k] + [track];
        }
        assert playlist.tracks[..|playlist.tracks|] == playlist.tracks;
      }
      assert playlists[..|playlists|] == playlists;
    }

    /**
     * `combined_features` has a row per track and `10 + len(genre_list)`
     * columns; after the ten feature columns come the one-hot genre entries.
     */
    lemma CombinedShape()
      requires Valid()
      ensures |combined| == |tracks|
      ensures forall i :: 0 <= i < |tracks| ==> |combined[i]| == |FEATURE_KEYS| + |genreList|
      ensures forall i, j :: 0 <= i < |tracks| && 0 <= j < |genreList| ==>
        combined[i][|FEATURE_KEYS| + j] == if genreList[j] in genres[i] then 1.0 else 0.0
    {
      forall i, j | 0 <= i < |tracks| && 0 <= j < |genreList|
        ensures combined[i][|FEATURE_KEYS| + j] == if genreList[j] in genres[i] then 1.0 else 0.0
      {
        assert |features[i]| == |FEATURE_KEYS|;
        assert combined[i][|features[i]| + j] == genreFeatures[i, j] as real;
      }
    }

    /** `__len__`: the number of tracks over all playlists. */
    function Length(): (n: nat)
      reads this, genreFeatures
      requires Valid()
      ensures n == TotalTracks(playlists)
      ensures n == |playlistIds| == |playlistNames| == |genres| == |combined|
    {
      FlatLengths(playlists);
      |tracks|
    }

    /**
     * The label part of `__getitem__`: the playlist index of track `idx`,
     * counting from the end for a negative `idx` as Python does.
     */
    function GetLabel(idx: int): (r: Result<nat, IndexError>)
      reads this, genreFeatures
      requires Valid()
      ensures r.Success? <==> -|tracks| <= idx < |tracks|
      ensures r.Success? ==>
        var k := if idx < 0 then idx + |tracks| else idx;
        && r.value == playlistIds[k]
        && r.value < |playlists|
        && tracks[k] in playlists[r.value].tracks
        && playlistNames[k] == playlists[r.value].name
    {
      FlatLengths(playlists);
      if -|tracks| <= idx < |tracks| then
        var k := if idx < 0 then idx + |tracks| else idx;
        FlatOrigin(playlists, k);
        FlatIdsOrdered(playlists);
        Success(playlistIds[k])
      else
        Failure(IndexError)
    }

    /** `get_genre_list`. */
    function GetGenreList(): (r: seq<string>)
      reads this, genreFeatures
      requires Valid()
      ensures StrictlyAscending(r)
      ensures forall g :: g in r <==> exists i :: 0 <= i < |tracks| && g in tracks[i].genres
    {
      forall g ensures g in genreList <==> exists i :: 0 <= i < |tracks| && g in tracks[i].genres {
        AllGenresMembership(genres, g);
      }
      genreList
    }

    /**
     * `get_playlist_names`: each name of a playlist that has a track, once.
     * Python leaves the order to the set; this picks first-appearance order.
     */
    function GetPlaylistNames(): (r: seq<string>)
      reads this, genreFeatures
      requires Valid()
      ensures Distinct(r)
      ensures forall n :: n in r <==>
        exists k :: 0 <= k < |playlists| && playlists[k].name == n && |playlists[k].tracks| > 0
    {
      forall n ensures n in playlistNames <==>
        exists k :: 0 <= k < |playlists| && playlists[k].name == n && |playlists[k].tracks| > 0
      {
        FlatNamesOfNonEmpty(playlists, n);
      }
      Dedup(playlistNames)
    }
  }

  /** The distinct elements of `s`, each at its first appearance. */
  function Dedup(s: seq<string>): (r: seq<string>)
    ensures Distinct(r)
    ensures forall x :: x in r <==> x in s
  {
    if s == [] then []
    else
      var rest := Dedup(Front(s));
      var last := s[|s| - 1];
      assert forall x :: x in s <==> x in Front(s) || x == last by {
        assert s == Front(s) + [last];
      }
      if last in rest then rest else rest + [last]
  }
}
