/** The eligibility test every enumerated file goes through: the suffix from the
    last '.', lower-cased, must be one of ten media extensions. */
module MediaExt {
  import opened Wrappers

  /** The accepted extensions, dot included, in lower case. */
  const MediaExts: seq<string> :=
    [".mp4", ".mkv", ".avi", ".mov", ".webm", ".flv", ".jpg", ".jpeg", ".png", ".gif"]

  /** `::tolower` in the C locale: only 'A'..'Z' change. */
  function AsciiLower(c: char): (r: char)
    ensures !('A' <= r <= 'Z')
    ensures r != c ==> 'A' <= c <= 'Z'
  {
    if 'A' <= c <= 'Z' then (c as int + 32) as char else c
  }

  /** The `std::transform(..., ::tolower)` applied to a copy of the suffix. */
  function Lower(s: string): (r: string)
    ensures |r| == |s|
    ensures forall i :: 0 <= i < |s| ==> r[i] == AsciiLower(s[i])
  {
    seq(|s|, i requires 0 <= i < |s| => AsciiLower(s[i]))
  }

  /** The last position below `n` holding `c`, scanning down from `n`. */
  function LastIndexBelow(s: string, c: char, n: nat): (r: Option<nat>)
    requires n <= |s|
    ensures r.None? ==> forall j :: 0 <= j < n ==> s[j] != c
    ensures r.Some? ==> r.value < n && s[r.value] == c
    ensures r.Some? ==> forall j :: r.value < j < n ==> s[j] != c
  {
    if n == 0 then None
    else if s[n - 1] == c then Some(n - 1)
    else LastIndexBelow(s, c, n - 1)
  }

  /** `find_last_of`: the position of the last occurrence of `c`, if any. */
  function LastIndexOf(s: string, c: char): (r: Option<nat>)
    ensures r.None? <==> c !in s
    ensures r.Some? ==> r.value < |s| && s[r.value] == c
    ensures r.Some? ==> forall j :: r.value < j < |s| ==> s[j] != c
  {
    LastIndexBelow(s, c, |s|)
  }

  /** Membership in the list of accepted extensions. */
  predicate IsMediaExt(ext: string)
    ensures IsMediaExt(ext) ==> 4 <= |ext| <= 5 && ext[0] == '.'
  {
    ext in MediaExts
  }

  /** `has_media_ext`. */
  predicate HasMediaExt(path: string)
    ensures HasMediaExt(path) ==> '.' in path && |path| >= 4
  {
    match LastIndexOf(path, '.')
    case None => false
    case Some(dot) => IsMediaExt(Lower(path[dot..]))
  }

  /** The verdict once the last dot is known. */
  lemma HasMediaExtAt(path: string, dot: nat)
    requires dot < |path| && path[dot] == '.'
    requires forall j :: dot < j < |path| ==> path[j] != '.'
    ensures HasMediaExt(path) == IsMediaExt(Lower(path[dot..]))
  {
    LastIndexOfIs(path, '.', dot);
  }

  /** `path` ends with `ext` when compared after ASCII lower-casing. */
  ghost predicate EndsWithIgnoringCase(path: string, ext: string) {
    |ext| <= |path| && Lower(path[|path| - |ext|..]) == ext
  }

  /** Every accepted extension is a dot followed by dot-free characters. */
  ghost predicate ExtShape(e: string) {
    |e| >= 2 && e[0] == '.' && '.' !in e[1..]
  }

  lemma ExtsHaveShape()
    ensures forall e :: IsMediaExt(e) ==> ExtShape(e)
  {
  }

  lemma ExtsSlashFree()
    ensures forall e :: IsMediaExt(e) ==> '/' !in e
  {
  }

  /** A position holding `c` with no `c` after it is what `find_last_of` returns. */
  lemma LastIndexOfIs(s: string, c: char, q: nat)
    requires q < |s| && s[q] == c
    requires forall j :: q < j < |s| ==> s[j] != c
    ensures LastIndexOf(s, c) == Some(q)
  {
    assert c in s;
  }

  /** A string holding a '/' lower-cases to no accepted extension. */
  lemma SlashNotExt(s: string, k: nat)
    requires k < |s| && s[k] == '/'
    ensures !IsMediaExt(Lower(s))
  {
    var low := Lower(s);
    assert low[k] == '/';
    assert '/' in low;
    ExtsSlashFree();
  }

  /** A path with no '.' at all is rejected. */
  lemma NoDotRejected(path: string)
    requires '.' !in path
    ensures !HasMediaExt(path)
  {
  }

  /** Reference definition: the filter accepts exactly the paths that end,
      case-insensitively, with one of the ten extensions. */
  lemma HasMediaExtIffEndsWith(path: string)
    ensures HasMediaExt(path) <==> exists e :: IsMediaExt(e) && EndsWithIgnoringCase(path, e)
  {
    if HasMediaExt(path) {
      var dot := LastIndexOf(path, '.').value;
      var e := Lower(path[dot..]);
      assert path[|path| - |e|..] == path[dot..];
      assert IsMediaExt(e) && EndsWithIgnoringCase(path, e);
    }
    if e :| IsMediaExt(e) && EndsWithIgnoringCase(path, e) {
      EndsWithExtIsLastDot(path, e);
    }
  }

  /** A suffix shaped like an extension starts at the last dot. */
  lemma EndsWithExtIsLastDot(path: string, e: string)
    requires IsMediaExt(e) && EndsWithIgnoringCase(path, e)
    ensures HasMediaExt(path)
  {
    ExtsHaveShape();
    var q := |path| - |e|;
    var low := Lower(path[q..]);
    assert low[0] == AsciiLower(path[q]) == '.';
    forall j | q < j < |path|
      ensures path[j] != '.'
    {
      assert low[j - q] == AsciiLower(path[j]) == e[1..][j - q - 1];
    }
    HasMediaExtAt(path, q);
  }

  /** When the tail `name` of `p` holds a dot, the last dot of `p` is the last
      dot of `name`, and the two suffixes from it are the same. */
  lemma LastDotInTail(p: string, name: string, q: nat)
    requires |name| <= |p| && p[|p| - |name|..] == name
    requires LastIndexOf(name, '.') == Some(q)
    ensures LastIndexOf(p, '.') == Some(|p| - |name| + q)
    ensures p[|p| - |name| + q..] == name[q..]
  {
    var base := |p| - |name|;
    assert p[base + q] == p[base..][q] == '.';
    forall j | base + q < j < |p|
      ensures p[j] != '.'
    {
      assert p[j] == p[base..][j - base];
    }
    LastIndexOfIs(p, '.', base + q);
    assert p[base + q..] == p[base..][q..];
  }

  /** A path ending in `name`, where `name` holds a dot, gets `name`'s verdict. */
  lemma DottedTailDecides(p: string, name: string)
    requires |name| <= |p| && p[|p| - |name|..] == name && '.' in name
    ensures HasMediaExt(p) == HasMediaExt(name)
  {
    var q := LastIndexOf(name, '.').value;
    LastDotInTail(p, name, q);
    var ext := Lower(name[q..]);
    assert HasMediaExt(name) == IsMediaExt(ext);
    assert HasMediaExt(p) == IsMediaExt(ext);
  }

  /** When `name` has a dot, the last dot of the joined path is the last dot of `name`. */
  lemma JoinedPathExtDotted(folder: string, name: string)
    requires '.' in name
    ensures HasMediaExt(folder + "/" + name) == HasMediaExt(name)
  {
    var p := folder + "/" + name;
    assert p[|p| - |name|..] == name;
    DottedTailDecides(p, name);
  }

  /** When `name` has no dot, any dot of the joined path lies in the folder, so
      its suffix holds the '/' separator and is rejected. */
  lemma JoinedPathExtUndotted(folder: string, name: string)
    requires '.' !in name
    ensures !HasMediaExt(folder + "/" + name)
  {
    var p := folder + "/" + name;
    var base := |folder| + 1;
    match LastIndexOf(p, '.')
    case None =>
    case Some(d) =>
      assert p[base..] == name;
      assert forall k :: 0 <= k < |name| ==> p[base + k] == name[k];
      assert p[|folder|] == '/';
      assert d < |folder|;
      assert p[d..][|folder| - d] == '/';
      SlashNotExt(p[d..], |folder| - d);
  }

  /** The test on `folder + "/" + name` gives the same answer as the test on
      `name` alone: a folder's own dots never make a file eligible. */
  lemma JoinedPathExt(folder: string, name: string)
    ensures HasMediaExt(folder + "/" + name) == HasMediaExt(name)
  {
    if '.' in name {
      JoinedPathExtDotted(folder, name);
    } else {
      JoinedPathExtUndotted(folder, name);
    }
  }

  /** `x.MP4` is accepted: the comparison ignores ASCII case. */
  lemma UpperCaseExtAccepted()
    ensures HasMediaExt("x.MP4")
  {
    HasMediaExtAt("x.MP4", 1);
    assert Lower(".MP4") == ".mp4";
  }

  /** `x.mp4.txt` is rejected: only the suffix from the last dot counts. */
  lemma InnerExtRejected()
    ensures !HasMediaExt("x.mp4.txt")
  {
    HasMediaExtAt("x.mp4.txt", 5);
    assert Lower(".txt") == ".txt";
  }
}
