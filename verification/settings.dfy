/** The rating configuration: seven knobs read once at start-up and never
    changed afterwards, passed to the rating engine as an immutable record. */
module Settings {

  datatype Config = Config(
    ageRatePerYear: real,
    valueRatePer10000: real,
    valueBracket: real,
    defaultCoveragePercentage: real,
    enableGisAdjustment: bool,
    maxGisAdjustment: real,
    minGisAdjustment: real)

  /** The defaults the service starts with when nothing overrides them. */
  const Default := Config(
    ageRatePerYear := 0.005,
    valueRatePer10000 := 0.005,
    valueBracket := 10000.0,
    defaultCoveragePercentage := 1.0,
    enableGisAdjustment := false,
    maxGisAdjustment := 0.02,
    minGisAdjustment := -0.02)

  /** Overrides are not checked; a zero value bracket would make the value rate undefined. */
  predicate Usable(cfg: Config) {
    cfg.valueBracket != 0.0
  }
}
