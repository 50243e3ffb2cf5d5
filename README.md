# Random Media Source — a verified model of the plugin core

The plugin adds a "Random Media Source" to OBS. It keeps a folder, scans it
for media files, and on each trigger spawns one or more randomly chosen files
as `ffmpeg_source` items in the current scene. Optionally it places and
scales them at random, and removes them again when their media ends. It
checks a cap on active spawned items once per trigger, before the batch;
one batch can end up to `max(1, spawn_count) - 1` items over that cap.

This project models the plugin's own bookkeeping and decisions in
`src/plugin-main.cpp`, as Dafny modules:

- `MediaExt`: `has_media_ext`. It takes the suffix from the last `.`,
  lower-cases it in ASCII and looks it up among the ten accepted extensions.
- `FileCatalog`: what `update_file_list` leaves in the media list. It is a
  filter over the directory enumeration, kept in enumeration order.
- `ActiveItems`: the erase-remove that `on_media_ended` applies to the
  active-item list.
- `Transform`: how `apply_random_transform` resolves its ranges. Position
  bounds default to 0 or to the canvas, min/max pairs are swapped into order,
  and scale is given in percent. The aspect lock and the rotation switch are
  applied. Every random draw is an arbitrary value inside its interval.
- `Spawn`: what the host answers, one spawn attempt, the generated source
  names `RandomMedia_<n>`, the early-exit gates of `do_spawn` and the batch
  size.
- `RandomMedia`: the source object (`random_media_data`) as a class. Its
  methods change its fields step by step:
  - `SourceUpdate`, `UpdateFileList`, `OnMediaEnded`, `SpawnOne` and
    `DoSpawn`;
  - the constructor, for `source_create`;
  - `UidCounter`, for the process-wide `s_uid`.

  Each method is proved against the specification functions of the other
  modules.

The OBS host is a function parameter `Host` from a source name and a file to
an outcome: creation fails, scene add fails, or an item is added. The
directory is a `Listing` input: it either cannot be opened or gives a
sequence of entries. Whether a current scene exists and the canvas size are
also inputs.

With `disable_rot` set, `apply_random_transform` never calls the rotation
setter (src/plugin-main.cpp:180-185): the item's rotation is left as it was,
not set to 0. The model's `Placement.rotation` is therefore `None` in that
case.

## Model

| member | source | states |
|---|---|---|
| Settings.StructDefaults | src/plugin-main.cpp:42-63 | the field initialisers of `random_media_data` (the `Config` record holds those fields): transform and hide-on-end off, aspect lock on, rotation enabled, ordered scale and rotation ranges, position bounds unset, one spawn per trigger, a cap of five |
| MediaExt.AsciiLower | src/plugin-main.cpp:91 | `::tolower` in the C locale: only `A` to `Z` change, and the result is never an upper-case ASCII letter |
| MediaExt.Lower | src/plugin-main.cpp:91 | the lower-cased copy has the same length, and each character is `AsciiLower` of the original |
| MediaExt.IsMediaExt | src/plugin-main.cpp:82-92 | membership in the ten accepted extensions; every accepted extension is a dot followed by three or four characters |
| MediaExt.HasMediaExt | src/plugin-main.cpp:87-93 | `has_media_ext` itself; an accepted path contains a dot and has at least four characters; `HasMediaExtIffEndsWith` characterises it completely |
| MediaExt.LastIndexOf | src/plugin-main.cpp:88-89 | `find_last_of('.')`: none exactly when the character is absent; otherwise the position holds the character and no later position does |
| MediaExt.HasMediaExtAt | src/plugin-main.cpp:87-93 | once the last dot is known, the verdict is whether the lower-cased suffix from it is an accepted extension |
| MediaExt.NoDotRejected | src/plugin-main.cpp:88-89 | a path with no `.` is rejected |
| MediaExt.HasMediaExtIffEndsWith | src/plugin-main.cpp:82-93 | the filter accepts a path if and only if the path ends, ignoring ASCII case, with one of the ten extensions |
| MediaExt.UpperCaseExtAccepted | src/plugin-main.cpp:90-92 | `x.MP4` is accepted |
| MediaExt.InnerExtRejected | src/plugin-main.cpp:88-92 | `x.mp4.txt` is rejected: only the suffix from the last dot counts |
| MediaExt.JoinedPathExt | src/plugin-main.cpp:110-111 | the test on `folder + "/" + name` gives the same verdict as the test on `name`, so dots in the folder never make a file eligible |
| FileCatalog.MediaPaths | src/plugin-main.cpp:108-113 | the scan keeps at most one path per entry |
| FileCatalog.JoinPathParts | src/plugin-main.cpp:110 | `JoinPath` gives `folder + "/"` followed by exactly the entry name |
| FileCatalog.KeptByName | src/plugin-main.cpp:109-111 | `Kept`: an entry is kept exactly when it is not a directory and its own name passes the filter, whatever the folder |
| FileCatalog.FileListFor | src/plugin-main.cpp:98-117 | the list is empty for an empty folder or an unopenable one; every kept path passes the filter and starts with `folder + "/"` |
| FileCatalog.MediaPathsAreMedia | src/plugin-main.cpp:108-113 | every kept path passes the filter and lies under the folder |
| FileCatalog.MediaPathsAppend | src/plugin-main.cpp:108-113 | scanning two runs of entries gives the first run's paths followed by the second's, so enumeration order is kept |
| FileCatalog.MediaPathsSound | src/plugin-main.cpp:108-113 | every kept path comes from a non-directory entry whose joined path passes the filter |
| FileCatalog.MediaPathsComplete | src/plugin-main.cpp:108-113 | every non-directory entry whose joined path passes the filter is kept |
| FileCatalog.MediaPathsMembers | src/plugin-main.cpp:108-113 | a path is kept if and only if it is the joined path of such an entry |
| FileCatalog.ScenarioVerdicts | src/plugin-main.cpp:110-111 | in folder `clips`, `a.mp4` and `c.png` pass the filter and `b.txt` does not |
| FileCatalog.TxtRejected | src/plugin-main.cpp:110-111 | `b.txt` fails the filter in any folder |
| FileCatalog.KeptDroppedKept | src/plugin-main.cpp:108-113 | scanning a kept, a dropped and a kept entry gives the two kept paths, in enumeration order |
| FileCatalog.CatalogScenario | src/plugin-main.cpp:98-117 | folder `clips` listing `a.mp4`, `b.txt`, `c.png` gives exactly `clips/a.mp4`, `clips/c.png`, in that order |
| ActiveItems.Without | src/plugin-main.cpp:135 | `std::remove` followed by `erase`: no occurrence of the item survives and the list never grows; the lemmas below characterise it completely |
| ActiveItems.WithoutSnoc | src/plugin-main.cpp:135 | removal over one more handle at the end keeps that handle exactly when it is not the item |
| ActiveItems.WithoutMultiset | src/plugin-main.cpp:135 | erase-remove drops every occurrence of the item and keeps every other handle with its multiplicity |
| ActiveItems.WithoutAppend | src/plugin-main.cpp:135 | removal distributes over concatenation, so the other handles keep their relative order |
| ActiveItems.WithoutAbsent | src/plugin-main.cpp:135 | removing an item that is not in the list changes nothing |
| ActiveItems.WithoutIdempotent | src/plugin-main.cpp:135 | removing the same item twice leaves the list as removing it once |
| ActiveItems.WithoutLength | src/plugin-main.cpp:135 | the list shrinks by exactly the number of occurrences of the item |
| Transform.MinEdge | src/plugin-main.cpp:157-158 | a minimum position bound is never negative, and it is 0 exactly when the configured value is not positive |
| Transform.MaxEdge | src/plugin-main.cpp:159-160 | a maximum position bound is never negative, and it is the canvas extent when the configured value is not positive |
| Transform.Ordered | src/plugin-main.cpp:161-162 | the swap gives an ordered pair with the same two endpoints |
| Transform.ResolveRanges | src/plugin-main.cpp:157-166 | the position and scale ranges are ordered; their endpoints are the defaulted bounds and `scale / 100`; both position minima are non-negative |
| Transform.Fits | src/plugin-main.cpp:168-185 | the placements the transform can produce; every such position is non-negative on both axes |
| Transform.RandomTransform | src/plugin-main.cpp:168-185 | position and scale draws lie in the resolved ranges; with aspect lock `sy == sx`; with rotation disabled no rotation is set, otherwise it lies in the ordered rotation range |
| Transform.SwappedBoundsUsed | src/plugin-main.cpp:157-162 | bounds 500 and 100 on x resolve to the interval 100 to 500 |
| Transform.UnsetBoundsSpanCanvas | src/plugin-main.cpp:157-160 | with all position bounds unset, each axis spans 0 to the canvas extent |
| Spawn.Follows | src/plugin-main.cpp:227-235 | the follow-up of one attempt; an attempt whose item was not added gets neither a transform nor an end callback |
| Spawn.Decimal | src/plugin-main.cpp:198 | `std::to_string` of a number has at least one digit, and exactly one for numbers below 10 |
| Spawn.DecimalInjective | src/plugin-main.cpp:198 | different numbers print differently |
| Spawn.SourceName | src/plugin-main.cpp:198 | the created source is named `RandomMedia_` followed by the decimal uid |
| Spawn.SourceNamesDistinct | src/plugin-main.cpp:198 | different uids give different source names |
| Spawn.SpawnGate | src/plugin-main.cpp:246-266 | `do_spawn` proceeds exactly when the list is non-empty, fewer than `max_active` items are active and a scene exists; an empty list is reported as such |
| Spawn.BatchSize | src/plugin-main.cpp:275 | the batch size is `max(1, spawn_count)`: at least 1, at least `spawn_count`, and one of the two |
| Spawn.ItemOf | src/plugin-main.cpp:209-225 | one attempt appends at most one item |
| Spawn.AddedItems | src/plugin-main.cpp:276-277 | a batch appends at most one item per attempt |
| Spawn.AddedItemsSnoc | src/plugin-main.cpp:276-277 | one more attempt appends its item, if any, after the batch's earlier items |
| Spawn.AddedItemsAllAdded | src/plugin-main.cpp:214-225 | when the host adds every item, each attempt appends one |
| Spawn.BatchSnoc | src/plugin-main.cpp:276-277 | a batch extended by the attempt with the next uid is still a batch |
| Spawn.BatchOvershootBound | src/plugin-main.cpp:252-277 | since the cap is checked once per batch, the active count ends at most `max(1, spawn_count) - 1` over `max_active` |
| Spawn.BatchOvershootReached | src/plugin-main.cpp:252-277 | that bound is reached: one below the cap with every host call succeeding, the batch ends exactly `max(1, spawn_count) - 1` over |
| RandomMedia.UidCounter.constructor | src/plugin-main.cpp:191 | the uid counter starts at 0 |
| RandomMedia.RandomMediaSource.constructor | src/plugin-main.cpp:327-333 | a new source takes the settings and holds the folder's scanned list with no active items; the list invariant holds |
| RandomMedia.RandomMediaSource.SourceUpdate | src/plugin-main.cpp:341-365 | all settings are taken; the list is rescanned exactly when the folder string changed and is untouched otherwise; the list invariant is kept |
| RandomMedia.RandomMediaSource.UpdateFileList | src/plugin-main.cpp:98-117 | the loop leaves exactly `FileListFor(folder, listing)` in the list, so every entry passes the filter |
| RandomMedia.RandomMediaSource.OnMediaEnded | src/plugin-main.cpp:132-136 | the loop leaves exactly `Without(old list, item)` in the active list |
| RandomMedia.RandomMediaSource.SpawnOne | src/plugin-main.cpp:193-240 | the uid is bumped before the host is asked under the new uid's name; the item is appended at the end only when it was added; a transform and an end callback follow only then and as configured |
| RandomMedia.RandomMediaSource.DoSpawn | src/plugin-main.cpp:245-280 | on a failed gate there are no attempts and no change; otherwise there are exactly `max(1, spawn_count)` attempts with consecutive uids, each on a file of the list; the active list grows by exactly the items they added, which is at most the batch size |

## Left out

- OBS host calls are not modelled one by one: `obs_source_create`, `obs_scene_add`, the `obs_sceneitem_set_*` setters, `obs_sceneitem_remove`, reference counting, `signal_handler_connect`, `obs_frontend_get_current_scene` and `obs_get_video_info`. The host is the `Host` parameter, the scene is a boolean, and the canvas is an input.
- `std::random_device`, `std::mt19937` and the uniform distributions are not modelled. Each draw is an arbitrary value of its interval, so nothing is said about distributions.
- RandomTransform: the draws lie in closed intervals. `uniform_real_distribution` draws from a half-open one, so the model admits the upper end, which the source does not draw.
- Float arithmetic in scale and rotation is modelled with `real`. No IEEE rounding is claimed.
- Integers are unbounded. The `static_cast<int>` truncation of the settings and a wrap-around of the `s_uid` counter are not modelled.
- `std::mutex` and `std::atomic` are not modelled, and neither is `media_ended` arriving on another thread. The operations are sequential.
- `os_opendir` and `os_readdir` are directory I/O and are not modelled. The `Listing` input stands for them.
- OnMediaEnded: only the list removal is modelled. Removing the item from the scene and releasing the source are host calls.
- `src/obs-websocket-api.h` is not part of this model. It is registration plumbing with no logic of its own.
- The vendor callbacks and `source_activate` are glue and are not modelled: `vendor_spawn_cb` and `source_activate` call `DoSpawn`, and `vendor_reload_cb` calls `UpdateFileList`.
- Paths are sequences of characters, not bytes, and `::tolower` is modelled by its C-locale mapping, which changes only `A` to `Z`. The extensions are ASCII, so the verdict on a UTF-8 path is the same either way.
- Also glue and not modelled: the `g_data` and `g_vendor` globals, `source_properties` and `source_defaults`, module load, and `blog` logging.
