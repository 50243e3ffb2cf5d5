/** The vocabulary of one spawn batch: what the host answers, what one
    attempt does, the generated source names, the early-exit gates and the
    batch size. */
module Spawn {
  import opened Wrappers
  import opened Settings
  import opened ActiveItems
  import opened Transform

  /** What the host does for one `spawn_one`: `obs_source_create` fails, or
      `obs_scene_add` fails, or the item is added to the scene. */
  datatype HostOutcome = CreateFailed | AddFailed | Added(item: SceneItem)

  /** The host as seen by the plugin: its answer for a source name and a file. */
  type Host = (string, string) -> HostOutcome

  /** One `spawn_one` call: the uid it drew, the file, the host's answer, the
      placement applied (if any) and whether a media-ended callback was attached. */
  datatype Attempt = Attempt(
    uid: nat,
    file: string,
    outcome: HostOutcome,
    placement: Option<Placement>,
    watchesEnd: bool)

  /** What `spawn_one` does after the host answers: a transform only when
      random transform is on, a media-ended callback only when hide-on-end is on,
      and neither when the item was not added. */
  predicate Follows(a: Attempt, cfg: Config, canvas: Canvas)
    ensures Follows(a, cfg, canvas) && !a.outcome.Added? ==> a.placement.None? && !a.watchesEnd
  {
    && (a.placement.Some? <==> a.outcome.Added? && cfg.randomTransform)
    && (a.placement.Some? ==> Fits(a.placement.value, cfg, canvas))
    && (a.watchesEnd <==> a.outcome.Added? && cfg.hideOnEnd)
  }

  /** `a` is the attempt made with uid `uid` on a file of `files`: the host was
      asked under that uid's source name, and the follow-up matches `cfg`. */
  predicate AttemptedWith(a: Attempt, uid: nat, files: seq<string>, cfg: Config, canvas: Canvas, host: Host) {
    && a.uid == uid
    && a.file in files
    && a.outcome == host(SourceName(uid), a.file)
    && Follows(a, cfg, canvas)
  }

  /** `attempts` is a batch made with consecutive uids after `start`, each
      on a file of `files`. */
  ghost predicate Batch(attempts: seq<Attempt>, start: nat, files: seq<string>, cfg: Config, canvas: Canvas, host: Host) {
    forall k :: 0 <= k < |attempts| ==> AttemptedWith(attempts[k], start + k + 1, files, cfg, canvas, host)
  }

  /** A batch extended by the attempt with the next uid is still a batch. */
  lemma BatchSnoc(attempts: seq<Attempt>, a: Attempt, start: nat, files: seq<string>, cfg: Config, canvas: Canvas, host: Host)
    requires Batch(attempts, start, files, cfg, canvas, host)
    requires AttemptedWith(a, start + |attempts| + 1, files, cfg, canvas, host)
    ensures Batch(attempts + [a], start, files, cfg, canvas, host)
  {
    assert forall k :: 0 <= k < |attempts| ==> (attempts + [a])[k] == attempts[k];
  }

  /** The decimal digit character for `d`. */
  function DigitChar(d: nat): (c: char)
    requires d < 10
    ensures '0' <= c <= '9'
  {
    ('0' as int + d) as char
  }

  /** `std::to_string` of a non-negative number. */
  function Decimal(n: nat): (r: string)
    ensures |r| >= 1
    ensures n < 10 <==> |r| == 1
    decreases n
  {
    if n < 10 then [DigitChar(n)] else Decimal(n / 10) + [DigitChar(n % 10)]
  }

  /** Different numbers print differently. */
  lemma {:induction false} DecimalInjective(a: nat, b: nat)
    requires Decimal(a) == Decimal(b)
    ensures a == b
    decreases a
  {
    var da, db := Decimal(a), Decimal(b);
    if a >= 10 {
      assert b >= 10;
      assert da[|da| - 1] == db[|db| - 1];
      assert a % 10 == b % 10;
      assert Decimal(a / 10) == da[..|da| - 1] == db[..|db| - 1] == Decimal(b / 10);
      DecimalInjective(a / 10, b / 10);
    }
  }

  /** The name `spawn_one` gives the media source it creates. */
  function SourceName(uid: nat): (name: string)
    ensures |name| > 12 && name[..12] == "RandomMedia_"
    ensures name[12..] == Decimal(uid)
  {
    "RandomMedia_" + Decimal(uid)
  }

  /** Distinct uids give distinct source names. */
  lemma SourceNamesDistinct(u: nat, v: nat)
    requires u != v
    ensures SourceName(u) != SourceName(v)
  {
    if SourceName(u) == SourceName(v) {
      assert SourceName(u)[12..] == Decimal(u);
      assert SourceName(v)[12..] == Decimal(v);
      DecimalInjective(u, v);
    }
  }

  /** Why `do_spawn` stops before its loop, if it does; in the source's order. */
  datatype Gate = NoFiles | AtCapacity | NoScene | Proceed

  /** The early-exit checks of `do_spawn`. */
  function SpawnGate(fileCount: nat, active: nat, maxActive: int, sceneAvailable: bool): (g: Gate)
    ensures g == Proceed <==> fileCount > 0 && active < maxActive && sceneAvailable
    ensures g == NoFiles <==> fileCount == 0
  {
    if fileCount == 0 then NoFiles
    else if active >= maxActive then AtCapacity
    else if !sceneAvailable then NoScene
    else Proceed
  }

  /** `std::max(1, spawn_count)`: the number of attempts in a batch. */
  function BatchSize(spawnCount: int): (n: nat)
    ensures n >= 1 && n >= spawnCount
    ensures n == 1 || n == spawnCount
  {
    if spawnCount > 1 then spawnCount else 1
  }

  /** The item one attempt appended to the active list: none unless the host added it. */
  function ItemOf(a: Attempt): (items: seq<SceneItem>)
    ensures |items| <= 1
  {
    if a.outcome.Added? then [a.outcome.item] else []
  }

  /** The items a sequence of attempts added, in order. */
  function AddedItems(attempts: seq<Attempt>): (items: seq<SceneItem>)
    ensures |items| <= |attempts|
  {
    if attempts == [] then []
    else AddedItems(attempts[..|attempts| - 1]) + ItemOf(attempts[|attempts| - 1])
  }

  /** Adding one attempt at the end adds its item, if any, at the end. */
  lemma AddedItemsSnoc(attempts: seq<Attempt>, a: Attempt)
    ensures AddedItems(attempts + [a]) == AddedItems(attempts) + ItemOf(a)
  {
    assert (attempts + [a])[..|attempts|] == attempts;
  }

  /** When the host adds every item, every attempt contributes one. */
  lemma {:induction false} AddedItemsAllAdded(attempts: seq<Attempt>)
    requires forall i :: 0 <= i < |attempts| ==> attempts[i].outcome.Added?
    ensures |AddedItems(attempts)| == |attempts|
    decreases |attempts|
  {
    if attempts != [] {
      AddedItemsAllAdded(attempts[..|attempts| - 1]);
    }
  }

  /** The cap is checked once per batch: a batch that passed the gate ends at
      most `BatchSize - 1` items over `maxActive`. */
  lemma BatchOvershootBound(active: nat, maxActive: int, spawnCount: int, attempts: seq<Attempt>)
    requires active < maxActive
    requires |attempts| == BatchSize(spawnCount)
    ensures active + |AddedItems(attempts)| <= maxActive - 1 + BatchSize(spawnCount)
  {
  }

  /** The overshoot bound is reached: one below the cap, with every host call
      succeeding, the batch ends exactly `BatchSize - 1` over the cap. */
  lemma BatchOvershootReached(maxActive: nat, spawnCount: int, attempts: seq<Attempt>)
    requires maxActive >= 1
    requires |attempts| == BatchSize(spawnCount)
    requires forall i :: 0 <= i < |attempts| ==> attempts[i].outcome.Added?
    ensures (maxActive - 1) + |AddedItems(attempts)| == maxActive + BatchSize(spawnCount) - 1
  {
    AddedItemsAllAdded(attempts);
  }
}
