/** The media list rebuilt from a folder: a filter over the directory
    enumeration, kept in enumeration order. */
module FileCatalog {
  import opened MediaExt

  /** One result of `os_readdir`. */
  datatype DirEntry = DirEntry(name: string, isDirectory: bool)

  /** The outcome of opening the folder: it fails, or it enumerates entries. */
  datatype Listing = CannotOpen | Entries(entries: seq<DirEntry>)

  /** The path stored for an entry: `folder + "/" + name`. */
  function JoinPath(folder: string, name: string): string {
    folder + "/" + name
  }

  /** The stored path starts with the folder and a separator, and the rest is the name. */
  lemma JoinPathParts(folder: string, name: string)
    ensures folder + "/" <= JoinPath(folder, name)
    ensures JoinPath(folder, name)[|folder| + 1..] == name
  {
  }

  /** Whether an enumerated entry is kept: a file whose joined path passes the filter. */
  predicate Kept(folder: string, e: DirEntry) {
    !e.isDirectory && HasMediaExt(JoinPath(folder, e.name))
  }

  /** Whether an entry is kept depends on its own name only: a file is kept
      exactly when its name passes the filter, whatever the folder. */
  lemma KeptByName(folder: string, e: DirEntry)
    ensures Kept(folder, e) <==> !e.isDirectory && HasMediaExt(e.name)
  {
    JoinedPathExt(folder, e.name);
  }

  /** The paths kept from `entries`, in enumeration order (a fold over the
      enumeration, one entry at a time). */
  function MediaPaths(folder: string, entries: seq<DirEntry>): (paths: seq<string>)
    ensures |paths| <= |entries|
  {
    if entries == [] then []
    else
      var last := entries[|entries| - 1];
      MediaPaths(folder, entries[..|entries| - 1])
        + (if Kept(folder, last) then [JoinPath(folder, last.name)] else [])
  }

  /** What `update_file_list` leaves in the list for a folder and its listing. */
  function FileListFor(folder: string, listing: Listing): (files: seq<string>)
    ensures folder == "" ==> files == []
    ensures listing.CannotOpen? ==> files == []
    ensures forall p :: p in files ==> HasMediaExt(p) && folder + "/" <= p
  {
    if folder == "" then []
    else
      match listing
      case CannotOpen => []
      case Entries(entries) =>
        MediaPathsAreMedia(folder, entries);
        MediaPaths(folder, entries)
  }

  /** Every listed path passes the filter and lies under `folder`. */
  lemma {:induction false} MediaPathsAreMedia(folder: string, entries: seq<DirEntry>)
    ensures forall p :: p in MediaPaths(folder, entries) ==> HasMediaExt(p) && folder + "/" <= p
    decreases |entries|
  {
    if entries != [] {
      MediaPathsAreMedia(folder, entries[..|entries| - 1]);
    }
  }

  /** Enumeration order is kept: the list of a concatenated enumeration is the
      concatenation of the lists. */
  lemma {:induction false} MediaPathsAppend(folder: string, a: seq<DirEntry>, b: seq<DirEntry>)
    ensures MediaPaths(folder, a + b) == MediaPaths(folder, a) + MediaPaths(folder, b)
    decreases |b|
  {
    if b == [] {
      assert a + b == a;
    } else {
      var b' := b[..|b| - 1];
      assert (a + b)[..|a + b| - 1] == a + b';
      assert (a + b)[|a + b| - 1] == b[|b| - 1];
      MediaPathsAppend(folder, a, b');
    }
  }

  /** Entry `i` of `entries` is a media file whose stored path is `p`. */
  ghost predicate ListedAt(folder: string, entries: seq<DirEntry>, i: int, p: string) {
    0 <= i < |entries| && !entries[i].isDirectory
    && HasMediaExt(entries[i].name) && p == JoinPath(folder, entries[i].name)
  }

  /** Every listed path comes from some media entry of the enumeration. */
  lemma {:induction false} MediaPathsSound(folder: string, entries: seq<DirEntry>, p: string)
    requires p in MediaPaths(folder, entries)
    ensures exists i :: ListedAt(folder, entries, i, p)
    decreases |entries|
  {
    var n := |entries| - 1;
    var init := entries[..n];
    var last := entries[n];
    if p in MediaPaths(folder, init) {
      MediaPathsSound(folder, init, p);
      var i :| ListedAt(folder, init, i, p);
      assert init[i] == entries[i];
      assert ListedAt(folder, entries, i, p);
    } else {
      assert Kept(folder, last) && p == JoinPath(folder, last.name);
      JoinedPathExt(folder, last.name);
      assert ListedAt(folder, entries, n, p);
    }
  }

  /** Every media entry of the enumeration is listed. */
  lemma {:induction false} MediaPathsComplete(folder: string, entries: seq<DirEntry>, i: int, p: string)
    requires ListedAt(folder, entries, i, p)
    ensures p in MediaPaths(folder, entries)
    decreases |entries|
  {
    var n := |entries| - 1;
    var init := entries[..n];
    if i < n {
      assert init[i] == entries[i];
      assert ListedAt(folder, init, i, p);
      MediaPathsComplete(folder, init, i, p);
    } else {
      JoinedPathExt(folder, entries[n].name);
      assert Kept(folder, entries[n]);
    }
  }

  /** Exactly the non-directory entries whose name carries a media extension
      appear, each as `folder + "/" + name`. */
  lemma MediaPathsMembers(folder: string, entries: seq<DirEntry>, p: string)
    ensures p in MediaPaths(folder, entries) <==> exists i :: ListedAt(folder, entries, i, p)
  {
    if p in MediaPaths(folder, entries) {
      MediaPathsSound(folder, entries, p);
    }
    if i :| ListedAt(folder, entries, i, p) {
      MediaPathsComplete(folder, entries, i, p);
    }
  }

  /** The folder {a.mp4, b.txt, c.png} yields exactly its two media files
      (b.txt is dropped for its unknown extension). The names are parameters
      fixed by the requires so that the solver reasons about them rather than
      unfolding the literals. */
  lemma CatalogScenario(folder: string, a: string, b: string, c: string)
    requires folder == "clips" && a == "a.mp4" && b == "b.txt" && c == "c.png"
    ensures FileListFor(folder, Entries([DirEntry(a, false), DirEntry(b, false), DirEntry(c, false)]))
      == [JoinPath(folder, a), JoinPath(folder, c)]
  {
    ScenarioVerdicts(folder, a, b, c);
    KeptDroppedKept(folder, DirEntry(a, false), DirEntry(b, false), DirEntry(c, false));
  }

  /** The extension filter's verdicts on the three entries of `CatalogScenario`. */
  lemma ScenarioVerdicts(folder: string, a: string, b: string, c: string)
    requires folder == "clips" && a == "a.mp4" && b == "b.txt" && c == "c.png"
    ensures HasMediaExt(JoinPath(folder, a))
    ensures !HasMediaExt(JoinPath(folder, b))
    ensures HasMediaExt(JoinPath(folder, c))
  {
    ExtVerdict(folder, a, ".mp4");
    TxtRejected(folder, b);
    ExtVerdict(folder, c, ".png");
  }

  /** `b.txt` fails the filter in any folder. */
  lemma TxtRejected(folder: string, b: string)
    requires b == "b.txt"
    ensures !HasMediaExt(JoinPath(folder, b))
  {
    ExtVerdict(folder, b, ".txt");
  }

  /** Scanning a kept, a dropped and a kept entry gives the two kept paths in order. */
  lemma KeptDroppedKept(folder: string, x: DirEntry, y: DirEntry, z: DirEntry)
    requires Kept(folder, x) && !Kept(folder, y) && Kept(folder, z)
    ensures MediaPaths(folder, [x, y, z]) == [JoinPath(folder, x.name), JoinPath(folder, z.name)]
  {
    var px, py := JoinPath(folder, x.name), JoinPath(folder, z.name);
    assert MediaPaths(folder, [x]) == [px] by {
      assert [x][..0] == [];
    }
    assert MediaPaths(folder, [x, y]) == [px] by {
      assert [x, y][..1] == [x];
    }
    assert [x, y, z][..2] == [x, y];
  }

  /** The verdict on `folder + "/" + name` for a one-letter name followed by
      a dot-free extension `ext`, given in lower case. */
  lemma ExtVerdict(folder: string, name: string, ext: string)
    requires |name| >= 2 && name[1..] == ext && ext[0] == '.' && '.' !in ext[1..]
    requires Lower(ext) == ext
    ensures HasMediaExt(JoinPath(folder, name)) <==> IsMediaExt(ext)
  {
    forall j | 1 < j < |name|
      ensures name[j] != '.'
    {
      assert name[j] == ext[1..][j - 2];
    }
    HasMediaExtAt(name, 1);
    JoinedPathExt(folder, name);
  }
}
