# Spotify playlist dataset: verified model of its indexing and fetch logic

The repository downloads a user's playlists from Spotify and turns them into a
PyTorch dataset. This project models the two pieces of discrete logic under
that plumbing, and proves their properties in Dafny:

* **The dataset** (`src/dataset.py`, class `SpotifyPlaylistDataset`). The
  constructor flattens the playlists into per-track lists: tracks, playlist
  index, playlist name and genre list. It builds the sorted genre vocabulary
  from the union of all genre lists. It fills a zeroed 0/1 matrix with one row
  per track and one column per genre. The class `Dataset.SpotifyPlaylistDataset`
  keeps these lists as `seq` fields and the genre matrix as an `array2<int>`
  filled in place. `Valid()` ties every field to a specification function of
  the playlists. The readers (`__len__`, the label part of `__getitem__`,
  `get_playlist_names`, `get_genre_list`) are functions over that state.
* **The fetch side** (`src/get_data.py`, module `GetData`). It covers
  pagination, batched lookups of audio features, the owner filter and the join
  of tracks with their features in `main`. The streaming service is not
  called. A listing is a sequence of pages (`pages[k + 1]` is what `sp.next`
  returns for `pages[k]`). A playlist's listing is a function from playlist id
  to pages. The features endpoint is a function from a batch of ids to a list
  of responses.
* **Python's string order** (module `Ordering`). This is the order that
  `sorted` uses for the vocabulary: code points compared left to right, and a
  proper prefix is smaller. It is proved to be a strict total order.
  `SortedList` models `sorted(list(s))` for a set of strings.

The join is modelled as written. Features are fetched only for the tracks
that have an id, but they are zipped against the full track list. So one
removed track or local file moves every later track onto the features of the
track after it. `GetData.MissingTrackShifts` states this effect for both
kinds of item, at any position: the tracks before it keep their own
features, and the tracks after it are shifted by one. `GetData.MissingTrackDropsLast` shows that a removed track
followed by one real track gives no record at all.
`GetData.LocalFileTakesNext` shows that a local file followed by one real
track gives one record: the local file's, with the real track's features. `GetData.FeaturesAligned`
shows that the pairing is right when every track has an id.

The two core files do not agree on one record field: `src/get_data.py`
writes track records without a `genres` field, but `src/dataset.py` reads
`track["genres"]`. The model gives each side its own track type
(`GetData.TrackInfo`, `Dataset.Track`). It does not connect them.

## Model

| member | source | states |
|---|---|---|
| `Ordering.Less` | src/dataset.py:53 | the character-by-character comparison holds exactly when Python's definition does: `a` is a proper prefix of `b`, or `a` has the smaller code point at the first difference |
| `Ordering.LexLessTail` | src/dataset.py:53 | removing a shared first character from both strings does not change whether Python's definition holds |
| `Ordering.LessIrreflexive` | src/dataset.py:53 | no string is smaller than itself under Python's order |
| `Ordering.LessTransitive` | src/dataset.py:53 | Python's string order is transitive |
| `Ordering.LessTotal` | src/dataset.py:53 | of two different strings, one is smaller |
| `Ordering.LessAsymmetric` | src/dataset.py:53 | if a < b, then not b < a |
| `Ordering.AscendingIsDistinct` | src/dataset.py:53 | a strictly ascending list has no duplicates |
| `Ordering.Insert` | src/dataset.py:53 | inserting a new string into a strictly ascending list keeps it strictly ascending; the list grows by one; its elements are the old ones plus the new one |
| `Ordering.SortedList` | src/dataset.py:53 | `sorted(list(s))`: strictly ascending, exactly the elements of `s`, length `|s|` |
| `Ordering.AscendingUnique` | src/dataset.py:53 | two strictly ascending lists with the same elements are equal, so the vocabulary is determined by the genre set |
| `Ordering.SameElementsBothEmpty` | src/dataset.py:53 | of two lists with the same elements, one is empty iff the other is |
| `Dataset.FlatLengths` | src/dataset.py:19-24 | the flattened tracks, playlist indices and names all have length equal to the sum of the playlists' track counts |
| `Dataset.FlatIdsOrdered` | src/dataset.py:19-22 | every playlist index is below the number of playlists; the indices never decrease along the tracks |
| `Dataset.FlatOrigin` | src/dataset.py:19-24 | flattened track `i` is track `i - offset` of playlist `playlist_ids[i]`, where `offset` is the number of tracks before that playlist; it carries that playlist's name |
| `Dataset.FlatTracksFrom` | src/dataset.py:19-21 | every flattened track is a track of one of the playlists |
| `Dataset.FlatNamesOfNonEmpty` | src/dataset.py:19-23 | a name is recorded iff some playlist with at least one track has it |
| `Dataset.GenresOf` | src/dataset.py:24 | one genre list per track, taken from that track |
| `Dataset.AllGenresMembership` | src/dataset.py:50-52 | a genre is in the union iff some track's genre list contains it |
| `Dataset.CollectGenres` | src/dataset.py:50-52 | the `all_genres.update` loop yields the union of all genre lists |
| `Dataset.IndexOf` | src/dataset.py:59 | `list.index`: finds `x` iff it is present; returns its first position; the `ValueError` case is `None` |
| `Dataset.OneHotEntries` | src/dataset.py:56-59 | every matrix entry is 0 or 1; a track with no genres has an all-zero row |
| `Dataset.FillOneHot` | src/dataset.py:56-59 | the fill loop over a zeroed matrix ends with entry `(i, j)` equal to 1 iff genre `j` is in track `i`'s list, and 0 otherwise |
| `Dataset.EncodeGenres` | src/dataset.py:50-59 | the vocabulary is strictly ascending and is exactly the union of the genres; the fresh matrix has `len(genres)` rows, one column per genre and obeys the one-hot rule |
| `Dataset.FeatureRows` | src/dataset.py:39-44 | the unscaled feature matrix has one row per track, and row `i` is the feature row of track `i` |
| `Dataset.FeatureRow` | src/dataset.py:27-41 | one value per feature key: entry `k` is the track's value for the `k`-th of the ten keys |
| `Dataset.HStack` | src/dataset.py:62 | `np.hstack`: one row per input row; row `i` is `rows[i]` followed by row `i` of the matrix, converted to floats |
| `Dataset.Dedup` | src/dataset.py:80 | holds no duplicates; holds exactly the elements of its input |
| `Dataset.SpotifyPlaylistDataset.constructor` | src/dataset.py:9-64 | afterwards every field matches its specification: flattened lists, an ascending vocabulary equal to the genre union, the one-hot matrix, and `combined_features` as the feature rows beside the genre matrix |
| `Dataset.SpotifyPlaylistDataset.Flatten` | src/dataset.py:19-24 | the nested loop leaves the four lists equal to the in-order flattening of the playlists |
| `Dataset.SpotifyPlaylistDataset.CombinedShape` | src/dataset.py:56-62 | `combined_features` has one row per track and `10 + len(genre_list)` columns; column `10 + j` of row `i` is 1.0 iff track `i` lists genre `j` and 0.0 otherwise |
| `Dataset.SpotifyPlaylistDataset.Length` | src/dataset.py:66-67 | `__len__` is the sum of the playlists' track counts, and equals the length of the other per-track lists and the number of combined rows |
| `Dataset.SpotifyPlaylistDataset.GetLabel` | src/dataset.py:69-77 | succeeds iff `-len <= idx < len`; the label is `playlist_ids[idx]`, the index of the playlist that holds track `idx` (counted from the end when negative) and whose name it carries; otherwise `IndexError` |
| `Dataset.SpotifyPlaylistDataset.GetGenreList` | src/dataset.py:89-90 | the returned list is strictly ascending; a genre is in it iff some track lists it |
| `Dataset.SpotifyPlaylistDataset.GetPlaylistNames` | src/dataset.py:79-80 | every name of a playlist with at least one track appears exactly once; no other name appears |
| `GetData.HasNext` | src/get_data.py:38 | `results["next"]` is truthy iff it is present and not the empty string (the same test is at line 47) |
| `GetData.FirstStop` | src/get_data.py:37-40 | the first page without a truthy `next` |
| `GetData.ItemsOfConcat` | src/get_data.py:36-40 | the items of two runs of pages are the items of the first run followed by those of the second |
| `GetData.ItemsOfCons` | src/get_data.py:36-40 | the first page's items come first, then the items of the later pages |
| `GetData.Paginate` | src/get_data.py:35-50 | the result is the items of pages 0 up to the first page whose `next` is null or empty, in page order |
| `GetData.GetAllPlaylists` | src/get_data.py:35-41 | the listing of all playlists, paginated |
| `GetData.GetPlaylistTracks` | src/get_data.py:44-50 | the listing of one playlist's tracks, paginated |
| `GetData.ValidIds` | src/get_data.py:55 | no longer than the input; every surviving id occurs in the input as a non-`None` entry |
| `GetData.ValidIdsConcat` | src/get_data.py:55 | dropping `None` ids distributes over concatenation, so the surviving ids keep their relative order |
| `GetData.ValidIdsMembership` | src/get_data.py:55 | an id survives iff it occurs as a non-`None` entry |
| `GetData.ValidIdsAllPresent` | src/get_data.py:55 | with no `None` entry, every id is kept in place |
| `GetData.Batches` | src/get_data.py:56-57 | every batch holds 1 to 100 ids |
| `GetData.BatchesPartition` | src/get_data.py:56-57 | the batches concatenated give back the ids; there are `ceil(n/100)` batches |
| `GetData.BatchesFrom` | src/get_data.py:56-57 | the batches from position `i` are the slice `[i:i+100]` followed by the batches from `i + 100` |
| `GetData.ResponsesLength` | src/get_data.py:58-59 | one response entry per requested id gives one entry per id overall |
| `GetData.FeaturesForLength` | src/get_data.py:53-60 | if the endpoint answers each id, the features list is as long as the list of non-`None` ids |
| `GetData.GetAudioFeatures` | src/get_data.py:53-60 | the result is the endpoint's responses for the batches of non-`None` ids, concatenated in batch order |
| `GetData.UserPlaylists` | src/get_data.py:72-74 | a playlist is kept iff it is in the input and its owner id equals the user id; the result is no longer than the input |
| `GetData.UserPlaylistsConcat` | src/get_data.py:72-74 | the filter distributes over concatenation, so the original order is kept |
| `GetData.TrackIds` | src/get_data.py:81-84 | one entry per playlist item: the track's id when the item has a track, and `None` otherwise |
| `GetData.Present` | src/get_data.py:89 | a features object is truthy iff it is not `None` and not an empty dict |
| `GetData.Kept` | src/get_data.py:89 | a zipped pair is kept iff its track is not `None` and its features are truthy |
| `GetData.ArtistNames` | src/get_data.py:93 | one name per artist, in order: entry `k` is artist `k`'s name |
| `GetData.MakeTrackInfo` | src/get_data.py:90-96 | the record holds the track's id, name, artist names, album name and its non-empty features object |
| `GetData.JoinPositions` | src/get_data.py:88-97 | the join emits one record per zipped pair whose track and features are both truthy, at strictly increasing positions; every such pair is emitted; each record is built from its pair |
| `GetData.JoinBound` | src/get_data.py:88 | the join is no longer than either input |
| `GetData.JoinTracks` | src/get_data.py:87-101 | the zip loop computes the join of the tracks and the features |
| `GetData.ResponsesPerId` | src/get_data.py:58-59 | with a per-id endpoint, the concatenated responses answer the concatenated batches in order |
| `GetData.FeaturesPerId` | src/get_data.py:53-60 | with a per-id endpoint, the features list answers the non-`None` ids in order |
| `GetData.FeaturesAligned` | src/get_data.py:81-88 | when every track has an id, features entry `k` belongs to track `k` |
| `GetData.MissingTrackShifts` | src/get_data.py:81-88 | for an item without an id (a removed track or a local file) anywhere in a listing whose other tracks have ids: each earlier track is zipped with its own features, each later track with the features of the next track, and the list of features is one shorter |
| `GetData.MissingTrackDropsLast` | src/get_data.py:81-97 | a removed track followed by one real track yields no records, although the features of the real track were fetched |
| `GetData.LocalFileTakesNext` | src/get_data.py:81-97 | a local file followed by one real track yields exactly one record, with id `None`, the local file's name and the real track's features; it yields none when those features are falsy |
| `GetData.PlaylistSnapshot` | src/get_data.py:103-107 | a snapshot entry carries the playlist's id and name |
| `GetData.FetchPlaylist` | src/get_data.py:80-108 | one pass of the playlist loop builds the snapshot entry: id, name and the join of the fetched tracks with their batched features |
| `GetData.FetchPlaylists` | src/get_data.py:76-108 | the loop over the owned playlists yields exactly one snapshot per playlist, in the same order |
| `GetData.CollectLibrary` | src/get_data.py:63-108 | one entry per owned playlist, in order; each entry has that playlist's id and name and the join of its paginated tracks with their batched features |

## Left out

- Loading the JSON file (`src/dataset.py:10-11`): the parsed playlists are the constructor's input.
- `StandardScaler.fit_transform` (`src/dataset.py:46-47`): floating-point numerics in a library outside this model. The model keeps the unscaled feature rows, so the first ten columns of `combined` hold unscaled values. The scaler keeps the shape and does not touch the genre columns.
- `get_playlist_features` (`src/dataset.py:82-87`): it takes a floating-point mean with numpy.
- `torch.tensor` and the optional `transform` in `__getitem__` (`src/dataset.py:71-75`): foreign library calls. Only the label part is modelled. Slice indices are not modelled.
- `Dataset.SpotifyPlaylistDataset.constructor`: requires every track to carry the ten feature keys, because the source raises `KeyError` otherwise. It also requires at least one track, because the scaler rejects the one-dimensional empty array that `np.array([])` gives. The model's `Track` always has a `genres` field, so the `KeyError` that `src/dataset.py:24` raises for a track without `genres` is not modelled either. A snapshot written by `src/get_data.py` raises it on its first track, because the records of `src/get_data.py:90-96` have no `genres` key. These crash paths are not modelled.
- `Dataset.SpotifyPlaylistDataset.GetGenreList`: returns the vocabulary as a value. In Python, `get_genre_list` returns the dataset's own list object, so a caller that mutates the result changes `genre_list`. This aliasing is not modelled.
- `Dataset.SpotifyPlaylistDataset.GetPlaylistNames`: Python's set order is unspecified. The model returns the names in first-appearance order, and the contract fixes no order.
- The Spotify client, OAuth, `.env` loading, `time.sleep`, the `print` calls and the JSON output (`src/get_data.py:5-21, 111, 114-122`): network and I/O. `sp.me()["id"]` is the `userId` parameter.
- `GetData.Paginate`: requires that some page ends the chain. Without one, the source loops forever.
- Audio features are `map<string, real>`. The real features object also holds string fields (`id`, `uri`, `type` and others), which this type cannot hold. The model uses only whether the object is empty and the ten numeric keys.
- Truthiness: a track object counts as present when it is not `None`. A features object counts as present when it is not `None` and not an empty dict. Spotify sends no other falsy values here.
- The genre matrix holds numpy floats `0.0` and `1.0`; the model uses the integers 0 and 1.
- `setup.py` (environment setup, `subprocess`) and `src/data_utils.py` (prints track counts) are not part of this model.
