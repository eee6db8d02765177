/**
 * The lbDate configuration record, the partial options object callers pass,
 * and the default configuration.
 */
module LbDateConfig {
  import opened Wrappers

  /** The three timezone modes of `TimeZoneOptions`. */
  datatype TimeZone = Auto | Manual | Utc

  /** The string value of each `TimeZoneOptions` member. */
  function TimeZoneName(tz: TimeZone): string {
    match tz
    case Auto => "auto"
    case Manual => "manual"
    case Utc => "utc"
  }

  /** Reads a timezone from its string value; any other string is not a timezone. */
  function ParseTimeZone(s: string): (r: Option<TimeZone>)
    ensures r.Some? ==> TimeZoneName(r.value) == s
    ensures r.None? ==> forall tz: TimeZone :: TimeZoneName(tz) != s
  {
    if s == "auto" then Some(Auto)
    else if s == "manual" then Some(Manual)
    else if s == "utc" then Some(Utc)
    else None
  }

  /** Every timezone is read back from its own string value. */
  lemma ParseTimeZoneName(tz: TimeZone)
    ensures ParseTimeZone(TimeZoneName(tz)) == Some(tz)
  {
  }

  /** Bounds of `manualTimeZoneOffset`, in minutes. */
  const MinOffset: int := -840
  const MaxOffset: int := 840

  /** Bounds of `precision`, in fractional-second digits. */
  const MinPrecision: int := 0
  const MaxPrecision: int := 3

  /** The name under which the native `toJSON` is kept by default. */
  const DefaultToNativeJsonName: string := "toNativeJSON"

  /** A fully populated configuration; a `None` offset is JavaScript's `null`. */
  datatype Config = Config(
    timezone: TimeZone,
    manualTimeZoneOffset: Option<int>,
    toNativeJsonName: string,
    precision: int)

  /** Every numeric field lies in its range. */
  predicate ValidConfig(c: Config) {
    (c.manualTimeZoneOffset.Some? ==>
       MinOffset <= c.manualTimeZoneOffset.value <= MaxOffset) &&
    MinPrecision <= c.precision <= MaxPrecision
  }

  /** The fixed default configuration returned by `getDefaultConfig()`. */
  function GetDefaultConfig(): (c: Config)
    ensures c.timezone == Auto
    ensures c.manualTimeZoneOffset == None
    ensures c.toNativeJsonName == "toNativeJSON"
    ensures c.precision == 3
    ensures ValidConfig(c)
  {
    Config(Auto, None, DefaultToNativeJsonName, MaxPrecision)
  }

  /**
   * An `LbDateOptions` object as a caller writes it: every field may be
   * absent, `timezone` may be any string (a cast such as
   * `'Test' as TimeZoneOptions`), and numbers may be fractional.
   */
  datatype LbDateOptions = LbDateOptions(
    timezone: Option<string>,
    manualTimeZoneOffset: Nullable<real>,
    toNativeJsonName: Option<string>,
    precision: Option<real>)

  /** The empty object `{}`. */
  const EmptyOptions: LbDateOptions := LbDateOptions(None, Absent, None, None)

  /** All four keys are present (the offset may be an explicit `null`). */
  predicate IsComplete(o: LbDateOptions) {
    o.timezone.Some? && !o.manualTimeZoneOffset.Absent? &&
    o.toNativeJsonName.Some? && o.precision.Some?
  }

  /** A configuration written out as an options object with exactly its four keys. */
  function ToOptions(c: Config): (o: LbDateOptions)
    ensures IsComplete(o) && o != EmptyOptions
    ensures ParseTimeZone(o.timezone.value) == Some(c.timezone)
    ensures o.manualTimeZoneOffset.Null? <==> c.manualTimeZoneOffset.None?
    ensures o.manualTimeZoneOffset.Present? ==>
              o.manualTimeZoneOffset.value == c.manualTimeZoneOffset.value as real
    ensures o.toNativeJsonName == Some(c.toNativeJsonName)
    ensures o.precision == Some(c.precision as real)
  {
    LbDateOptions(
      Some(TimeZoneName(c.timezone)),
      match c.manualTimeZoneOffset
      case None => Null
      case Some(m) => Present(m as real),
      Some(c.toNativeJsonName),
      Some(c.precision as real))
  }
}
