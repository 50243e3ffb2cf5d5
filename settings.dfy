/** The operator settings a Random Media Source holds (the fields of
    `random_media_data` other than its lists). */
module Settings {

  /** Every setting except the folder; floats of the source are `real` here. */
  datatype Config = Config(
    randomTransform: bool,
    hideOnEnd: bool,
    minScale: real,
    maxScale: real,
    preserveAspect: bool,
    minRot: real,
    maxRot: real,
    disableRot: bool,
    minX: int,
    minY: int,
    maxX: int,
    maxY: int,
    spawnCount: int,
    maxActive: int)

  /** One settings snapshot handed to `source_update`. */
  datatype SourceSettings = SourceSettings(folder: string, config: Config)

  /** The field initialisers of `random_media_data`, in force before the first
      update: transform and hide-on-end off, ordered scale and rotation ranges
      with the aspect lock on, position bounds unset, one spawn per trigger
      and a cap of five. */
  function StructDefaults(): (c: Config)
    ensures !c.randomTransform && !c.hideOnEnd && !c.disableRot && c.preserveAspect
    ensures 0.0 < c.minScale < c.maxScale && c.minRot < c.maxRot
    ensures c.minX <= 0 && c.minY <= 0 && c.maxX <= 0 && c.maxY <= 0
    ensures c.spawnCount == 1 && c.maxActive == 5
  {
    Config(
      randomTransform := false,
      hideOnEnd := false,
      minScale := 50.0,
      maxScale := 150.0,
      preserveAspect := true,
      minRot := -180.0,
      maxRot := 180.0,
      disableRot := false,
      minX := 0,
      minY := 0,
      maxX := 0,
      maxY := 0,
      spawnCount := 1,
      maxActive := 5)
  }
}
