# Playlist view-model of VLC for Android, in Dafny

This project models the state kept by `PlaylistModel`, the view-model that
mirrors the playback service's play queue for the playlist screen of VLC
for Android. The model keeps three fields:

- the displayed `dataset`;
- the optional `originalDataset`, a snapshot of the dataset taken when
  filtering begins;
- the `filtering` flag.

It covers the operations that change these fields and the lookup that maps
a position back into the unfiltered playlist.

`Viewmodels.PlaylistModel` is a class with those three fields. Its methods
assign them in place, as the Kotlin code does. Each method's `ensures` ties
the new state to a pure transition function (`Filtered`, `Updated`) on the
value type `ModelState`. The properties the code promises are proved about
those functions:

- a snapshot is held exactly while filtering (`Inv`);
- entering filtering snapshots the dataset, and leaving drops the snapshot;
- a call that keeps the mode changes nothing;
- the snapshot is never retaken mid-filter, and it equals the dataset as
  it was just before filtering began, whatever happens afterwards.

`GetPlaylistPosition` is the source's loop with an early return. It is
proved to compute `Position`:

- the given position, if that slot still holds the media;
- otherwise the first index holding the media;
- otherwise -1.

The playback service is a set of plain inputs:

- its media list is the argument of `Update` and `Setup`;
- its current index is the argument of `Selection`;
- the insert, remove and move calls return a `ServiceRequest` value
  carrying their arguments unchanged, and provably leave the view-model
  untouched.

A nullable Kotlin value is an `Option` (`None` for `null`). A filter query
is an `Option<string>`: only whether it is null matters to this state. The
code at line 69 tests only `query != null`, so an empty, non-null query
also enters filtering mode.

## Model

| member | source | states |
|---|---|---|
| Viewmodels.Inv | vlc-android/src/org/videolan/vlc/viewmodels/PlaylistModel.kt:39-42 | the coupled invariant of the two fields: `filtering` is true exactly when a snapshot `originalDataset` is held |
| Viewmodels.Initial | vlc-android/src/org/videolan/vlc/viewmodels/PlaylistModel.kt:38-42 | a fresh view-model is not filtering, has an empty dataset and satisfies the snapshot invariant |
| Viewmodels.PlaylistModel.constructor | vlc-android/src/org/videolan/vlc/viewmodels/PlaylistModel.kt:38-42 | the fields start as the initial state: empty dataset, no snapshot, not filtering |
| Viewmodels.Filtered | vlc-android/src/org/videolan/vlc/viewmodels/PlaylistModel.kt:68-73 | afterwards filtering equals "query is non-null"; entering snapshots the pre-call dataset; leaving drops the snapshot; a call matching the current mode changes nothing; the dataset is not touched; the invariant is preserved |
| Viewmodels.PlaylistModel.Filter | vlc-android/src/org/videolan/vlc/viewmodels/PlaylistModel.kt:68-75 | the new fields are `Filtered` of the old ones, the invariant is kept, and afterwards the selection is -1 for a non-null query and the service's index for a null one |
| Viewmodels.Updated | vlc-android/src/org/videolan/vlc/viewmodels/PlaylistModel.kt:58-60 | the dataset becomes the service's media list; filtering and the snapshot are unchanged; the invariant holds afterwards exactly when it held before |
| Viewmodels.PlaylistModel.Update | vlc-android/src/org/videolan/vlc/viewmodels/PlaylistModel.kt:58-60 | only the dataset field is written, and the new state is `Updated` of the old one |
| Viewmodels.PlaylistModel.Setup | vlc-android/src/org/videolan/vlc/viewmodels/PlaylistModel.kt:53-56 | the initial synchronisation has the effect of `update` |
| Viewmodels.PlaylistModel.Selection | vlc-android/src/org/videolan/vlc/viewmodels/PlaylistModel.kt:40-41 | -1 while filtering, the service's current index otherwise; under the invariant, a valid index is selected exactly when no snapshot is held |
| Viewmodels.ActiveList | vlc-android/src/org/videolan/vlc/viewmodels/PlaylistModel.kt:83 | under the invariant, the list searched is the snapshot while filtering and the live dataset otherwise |
| Viewmodels.FirstIndexOf | vlc-android/src/org/videolan/vlc/viewmodels/PlaylistModel.kt:86-90 | the result is -1 exactly when the media is absent; otherwise it is an in-range index holding the media with no earlier index holding it |
| Viewmodels.Position | vlc-android/src/org/videolan/vlc/viewmodels/PlaylistModel.kt:82-91 | for a valid position: returns it when its item equals the media; the result is -1 exactly when the media is absent from the list; any non-negative result holds the media; on the fallback path it is the smallest such index |
| Viewmodels.PlaylistModel.GetPlaylistPosition | vlc-android/src/org/videolan/vlc/viewmodels/PlaylistModel.kt:82-91 | for a valid position in the snapshot, or in the dataset when there is none, the fast path and the scan together return `Position` of that list |
| Viewmodels.PlaylistModel.InsertMedia | vlc-android/src/org/videolan/vlc/viewmodels/PlaylistModel.kt:62 | forwards an insert of exactly its arguments and changes no field of the view-model |
| Viewmodels.PlaylistModel.Remove | vlc-android/src/org/videolan/vlc/viewmodels/PlaylistModel.kt:64 | forwards a removal of exactly its position and changes no field of the view-model |
| Viewmodels.PlaylistModel.Move | vlc-android/src/org/videolan/vlc/viewmodels/PlaylistModel.kt:66 | forwards a move of exactly its two positions and changes no field of the view-model |
| Viewmodels.RunKeepsInv | vlc-android/src/org/videolan/vlc/viewmodels/PlaylistModel.kt:58-73 | any sequence of update, filter and forwarded calls preserves "filtering exactly when a snapshot is held" |
| Viewmodels.ReachableInv | vlc-android/src/org/videolan/vlc/viewmodels/PlaylistModel.kt:39-42 | every state reachable from a fresh view-model satisfies the snapshot invariant |
| Viewmodels.SnapshotKeptWhileFiltering | vlc-android/src/org/videolan/vlc/viewmodels/PlaylistModel.kt:70-72 | while filtering, no call other than `filter(null)` changes the mode or the snapshot, so it is never retaken mid-filter |
| Viewmodels.SnapshotIsPreFilterDataset | vlc-android/src/org/videolan/vlc/viewmodels/PlaylistModel.kt:69-72 | after entering filtering, and until `filter(null)`, the snapshot equals the dataset as it was just before the entering call |
| Viewmodels.FilterRoundTrip | vlc-android/src/org/videolan/vlc/viewmodels/PlaylistModel.kt:68-73 | `filter(q)` followed by `filter(null)` from a non-filtering state restores that state exactly |
| Viewmodels.PositionFallbackExample | vlc-android/src/org/videolan/vlc/viewmodels/PlaylistModel.kt:82-91 | on [A, B, C] with A different from B, looking up B at position 0 takes the scan and yields 1 |

## Left out

- The asynchronous filter pass (`launch { filter.filter(query) }`, line 74) runs in `PlaylistFilterDelegate`, which is not part of this model. `Filter` therefore leaves the dataset unchanged, and overlapping filter calls are not modelled.
- The progress observable (lines 43-49) and `PlaybackProgress` (lines 105-109) are Android LiveData wiring. Their text fields come from the foreign `Tools.millisToString`.
- Listener registration: the `addCallback` half of `setup` (line 54) and `onCleared` (lines 77-80) are listener calls on the external service. The service's own callbacks that trigger `update` are represented by `UpdateOp` in the operation sequences.
- What the service does with insert, remove and move (lines 62-66) is not modelled. The model only records the request and proves the view-model's fields unchanged.
- The `companion object` and `Factory` (lines 93-102) are Android framework wiring.
- `LiveDataset` is not part of this model. Its value is a plain sequence field, and its initial value is taken to be the empty list.
- The copies made by `toMutableList()` (lines 59 and 72) are implicit: Dafny sequences are values, so a snapshot cannot alias the dataset.
- Out-of-range positions in `getPlaylistPosition` throw in Kotlin. The model does not model that fault; it requires a valid position instead.
