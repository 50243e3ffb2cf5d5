/** The Random Media Source itself: the settings and lists it keeps, and the
    operations that change them step by step. */
module RandomMedia {
  import opened Wrappers
  import opened Settings
  import opened MediaExt
  import opened FileCatalog
  import opened ActiveItems
  import opened Transform
  import opened Spawn

  /** The process-wide `s_uid` counter shared by every source: the last uid handed out. */
  class UidCounter {
    var last: nat

    constructor ()
      ensures last == 0
    {
      last := 0;
    }
  }

  /** `random_media_data`: the folder, the other settings, the media list and
      the items counted against the cap. */
  class RandomMediaSource {
    var folder: string
    var cfg: Config
    var fileList: seq<string>
    var activeItems: seq<SceneItem>

    /** The media list always belongs to the current folder: every entry
        passes the extension filter and lies under the folder. */
    ghost predicate Valid()
      reads this`fileList, this`folder
    {
      forall f :: f in fileList ==> HasMediaExt(f) && folder + "/" <= f
    }

    /** `source_create`: fresh fields, then a first `source_update`. */
    constructor (settings: SourceSettings, listing: Listing)
      ensures Valid()
      ensures folder == settings.folder && cfg == settings.config
      ensures fileList == FileListFor(settings.folder, listing)
      ensures activeItems == []
    {
      folder := "";
      cfg := StructDefaults();
      fileList := [];
      activeItems := [];
      new;
      SourceUpdate(settings, listing);
    }

    /** `source_update`: take the new settings; rescan only when the folder
        string changed. `listing` is what opening the new folder would give. */
    method SourceUpdate(settings: SourceSettings, listing: Listing)
      requires Valid()
      modifies this`folder, this`cfg, this`fileList
      ensures Valid()
      ensures folder == settings.folder && cfg == settings.config
      ensures settings.folder != old(folder) ==> fileList == FileListFor(settings.folder, listing)
      ensures settings.folder == old(folder) ==> fileList == old(fileList)
    {
      var folderChanged := settings.folder != folder;
      folder := settings.folder;
      cfg := settings.config;
      if folderChanged {
        UpdateFileList(listing);
      }
    }

    /** `update_file_list`: clear the list, then append, in enumeration order,
        each file entry whose joined path has a media extension. */
    method UpdateFileList(listing: Listing)
      modifies this`fileList
      ensures Valid()
      ensures fileList == FileListFor(folder, listing)
    {
      fileList := [];
      if folder == "" {
        return;
      }
      if listing.CannotOpen? {
        return;
      }
      var entries := listing.entries;
      var i := 0;
      while i < |entries|
        invariant 0 <= i <= |entries|
        invariant fileList == MediaPaths(folder, entries[..i])
      {
        var ent := entries[i];
        assert entries[..i + 1] == entries[..i] + [ent];
        if !ent.isDirectory {
          var f := folder + "/" + ent.name;
          if HasMediaExt(f) {
            fileList := fileList + [f];
          }
        }
        i := i + 1;
      }
      assert entries[..i] == entries;
      MediaPathsAreMedia(folder, entries);
    }

    /** The list removal of `on_media_ended`: erase every occurrence of `item`. */
    method OnMediaEnded(item: SceneItem)
      modifies this`activeItems
      ensures activeItems == Without(old(activeItems), item)
    {
      var items := activeItems;
      var kept := [];
      var i := 0;
      while i < |items|
        invariant 0 <= i <= |items|
        invariant kept == Without(items[..i], item)
      {
        var next := if items[i] != item then kept + [items[i]] else kept;
        assert next == Without(items[..i + 1], item) by {
          assert items[..i + 1] == items[..i] + [items[i]];
          WithoutSnoc(items[..i], items[i], item);
        }
        kept := next;
        i := i + 1;
      }
      assert items[..i] == items;
      activeItems := kept;
    }

    /** `spawn_one`: take the next uid, ask the host to create and add the
        media source; only an added item is appended, then transformed and
        watched as configured. */
    method SpawnOne(uids: UidCounter, file: string, canvas: Canvas, host: Host) returns (a: Attempt)
      modifies this`activeItems, uids
      ensures uids.last == old(uids.last) + 1
      ensures a.uid == uids.last && a.file == file
      ensures a.outcome == host(SourceName(a.uid), file)
      ensures Follows(a, cfg, canvas)
      ensures activeItems == old(activeItems) + ItemOf(a)
    {
      uids.last := uids.last + 1;
      var uid := uids.last;
      var outcome := host(SourceName(uid), file);
      match outcome
      case CreateFailed =>
        a := Attempt(uid, file, outcome, None, false);
      case AddFailed =>
        a := Attempt(uid, file, outcome, None, false);
      case Added(item) =>
        activeItems := activeItems + [item];
        var placement := None;
        if cfg.randomTransform {
          var p := RandomTransform(cfg, canvas);
          placement := Some(p);
        }
        a := Attempt(uid, file, outcome, placement, cfg.hideOnEnd);
    }

    /** `do_spawn`: stop on an empty list, a reached cap or no current scene;
        otherwise make `max(1, spawn_count)` attempts, each on a file drawn
        from the list. */
    method DoSpawn(uids: UidCounter, sceneAvailable: bool, canvas: Canvas, host: Host)
      returns (gate: Gate, attempts: seq<Attempt>)
      modifies this`activeItems, uids
      ensures gate == SpawnGate(|fileList|, |old(activeItems)|, cfg.maxActive, sceneAvailable)
      ensures gate != Proceed ==> attempts == [] && activeItems == old(activeItems)
      ensures gate == Proceed ==> |attempts| == BatchSize(cfg.spawnCount)
      ensures uids.last == old(uids.last) + |attempts|
      ensures Batch(attempts, old(uids.last), fileList, cfg, canvas, host)
      ensures activeItems == old(activeItems) + AddedItems(attempts)
      ensures |activeItems| <= |old(activeItems)| + BatchSize(cfg.spawnCount)
      ensures gate == Proceed ==> |activeItems| <= cfg.maxActive - 1 + BatchSize(cfg.spawnCount)
    {
      attempts := [];
      gate := SpawnGate(|fileList|, |activeItems|, cfg.maxActive, sceneAvailable);
      if gate != Proceed {
        return;
      }
      var count := BatchSize(cfg.spawnCount);
      var i := 0;
      while i < count
        invariant 0 <= i <= count
        invariant |attempts| == i
        invariant uids.last == old(uids.last) + i
        invariant Batch(attempts, old(uids.last), fileList, cfg, canvas, host)
        invariant activeItems == old(activeItems) + AddedItems(attempts)
      {
        var pick :| 0 <= pick < |fileList|;
        var a := SpawnOne(uids, fileList[pick], canvas, host);
        BatchSnoc(attempts, a, old(uids.last), fileList, cfg, canvas, host);
        AddedItemsSnoc(attempts, a);
        attempts := attempts + [a];
        i := i + 1;
      }
    }
  }
}
