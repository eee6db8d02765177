/**
 * Validation and merging of partial options onto a base configuration.
 * Every field is decided on its own: an absent or invalid option keeps the
 * base value, a numeric option is rounded and clamped, and a
 * `toNativeJsonName` that already names a method of the Date prototype is
 * discarded. `proto` is the set of names under which the Date prototype has
 * a (truthy) entry at the time of the merge.
 */
module Merging {
  import opened Wrappers
  import opened Numeric
  import opened LbDateConfig

  /** `timezone`: a valid timezone string replaces the base, any other value is dropped. */
  function MergeTimeZone(base: TimeZone, option: Option<string>): (r: TimeZone)
    ensures option.Some? && ParseTimeZone(option.value).Some? ==> TimeZoneName(r) == option.value
    ensures option.None? || ParseTimeZone(option.value).None? ==> r == base
  {
    match option
    case Some(s) => ParseTimeZone(s).GetOr(base)
    case None => base
  }

  /** A numeric offset rounded to whole minutes and clamped into `[-840, 840]`. */
  function NormalizeOffset(x: real): (m: int)
    ensures MinOffset <= m <= MaxOffset
    ensures MinOffset as real <= x <= MaxOffset as real ==> m == Round(x)
    ensures x <= MinOffset as real ==> m == MinOffset
    ensures MaxOffset as real <= x ==> m == MaxOffset
  {
    RoundAndClamp(x, MinOffset, MaxOffset)
  }

  /** A numeric precision rounded to whole digits and clamped into `[0, 3]`. */
  function NormalizePrecision(x: real): (p: int)
    ensures MinPrecision <= p <= MaxPrecision
    ensures MinPrecision as real <= x <= MaxPrecision as real ==> p == Round(x)
    ensures x <= MinPrecision as real ==> p == MinPrecision
    ensures MaxPrecision as real <= x ==> p == MaxPrecision
  {
    RoundAndClamp(x, MinPrecision, MaxPrecision)
  }

  /**
   * `manualTimeZoneOffset`: an absent key keeps the base, an explicit `null`
   * unsets it, and a number is normalised (never rejected).
   */
  function MergeOffset(base: Option<int>, option: Nullable<real>): (r: Option<int>)
    ensures option.Absent? ==> r == base
    ensures option.Null? ==> r == None
    ensures option.Present? ==> r == Some(NormalizeOffset(option.value))
  {
    match option
    case Absent => base
    case Null => None
    case Present(x) => Some(NormalizeOffset(x))
  }

  /** `toNativeJsonName`: a name not yet on the prototype replaces the base. */
  function MergeName(base: string, option: Option<string>, proto: set<string>): (r: string)
    ensures option.Some? && option.value !in proto ==> r == option.value
    ensures option.None? || option.value in proto ==> r == base
    ensures r == base || r !in proto
  {
    match option
    case Some(name) => if name in proto then base else name
    case None => base
  }

  /** `precision`: an absent key keeps the base, a number is normalised. */
  function MergePrecision(base: int, option: Option<real>): (r: int)
    ensures option.None? ==> r == base
    ensures option.Some? ==> r == NormalizePrecision(option.value)
  {
    match option
    case Some(x) => NormalizePrecision(x)
    case None => base
  }

  /** Merges `options` onto `base`, field by field. */
  function Merge(base: Config, options: LbDateOptions, proto: set<string>): (r: Config)
    ensures ValidConfig(base) ==> ValidConfig(r)
    ensures options == EmptyOptions ==> r == base
    ensures r.toNativeJsonName == base.toNativeJsonName || r.toNativeJsonName !in proto
  {
    Config(
      MergeTimeZone(base.timezone, options.timezone),
      MergeOffset(base.manualTimeZoneOffset, options.manualTimeZoneOffset),
      MergeName(base.toNativeJsonName, options.toNativeJsonName, proto),
      MergePrecision(base.precision, options.precision))
  }

  /**
   * A complete, in-range options object is stored verbatim, provided its
   * name is not already a prototype method (or is the base's own name).
   */
  lemma MergeCompleteOptions(base: Config, c: Config, proto: set<string>)
    requires ValidConfig(c)
    requires c.toNativeJsonName !in proto || c.toNativeJsonName == base.toNativeJsonName
    ensures Merge(base, ToOptions(c), proto) == c
  {
  }

  /** An invalid timezone string is dropped; it changes no field at all. */
  lemma MergeDropsInvalidTimeZone(base: Config, options: LbDateOptions, s: string, proto: set<string>)
    requires ParseTimeZone(s).None?
    ensures Merge(base, options.(timezone := Some(s)), proto)
         == Merge(base, options.(timezone := None), proto)
    ensures Merge(base, options.(timezone := Some(s)), proto).timezone == base.timezone
  {
  }

  /**
   * An offset at or beyond a bound becomes that bound, whatever the
   * timezone mode; the other fields are as if no offset had been given.
   */
  lemma MergeClampsOffset(base: Config, options: LbDateOptions, proto: set<string>)
    requires options.manualTimeZoneOffset.Present?
    ensures var r := Merge(base, options, proto);
      && (MaxOffset as real <= options.manualTimeZoneOffset.value ==> r.manualTimeZoneOffset == Some(MaxOffset))
      && (options.manualTimeZoneOffset.value <= MinOffset as real ==> r.manualTimeZoneOffset == Some(MinOffset))
      && r.(manualTimeZoneOffset := base.manualTimeZoneOffset)
         == Merge(base, options.(manualTimeZoneOffset := Absent), proto)
  {
  }

  /** A name that is already a prototype method is dropped; it changes no field. */
  lemma MergeDropsPrototypeName(base: Config, options: LbDateOptions, name: string, proto: set<string>)
    requires name in proto
    ensures Merge(base, options.(toNativeJsonName := Some(name)), proto)
         == Merge(base, options.(toNativeJsonName := None), proto)
    ensures Merge(base, options.(toNativeJsonName := Some(name)), proto).toNativeJsonName
         == base.toNativeJsonName
  {
  }

  /** A name the prototype does not have is taken. */
  lemma MergeTakesUnusedName(base: Config, options: LbDateOptions, name: string, proto: set<string>)
    requires name !in proto
    ensures Merge(base, options.(toNativeJsonName := Some(name)), proto).toNativeJsonName == name
  {
  }

  /**
   * A precision at or beyond a bound becomes that bound; the other fields
   * are as if no precision had been given.
   */
  lemma MergeClampsPrecision(base: Config, options: LbDateOptions, proto: set<string>)
    requires options.precision.Some?
    ensures var r := Merge(base, options, proto);
      && (MaxPrecision as real <= options.precision.value ==> r.precision == MaxPrecision)
      && (options.precision.value <= MinPrecision as real ==> r.precision == MinPrecision)
      && r.(precision := base.precision) == Merge(base, options.(precision := None), proto)
  {
  }

  /**
   * An in-range offset is rounded to the nearest whole minute: no integer
   * is closer to the given value than the stored one.
   */
  lemma MergeRoundsOffsetToNearest(base: Config, options: LbDateOptions, proto: set<string>, m: int)
    requires options.manualTimeZoneOffset.Present?
    requires MinOffset as real <= options.manualTimeZoneOffset.value <= MaxOffset as real
    ensures var r := Merge(base, options, proto);
      && r.manualTimeZoneOffset.Some?
      && Distance(options.manualTimeZoneOffset.value, r.manualTimeZoneOffset.value as real)
         <= Distance(options.manualTimeZoneOffset.value, m as real)
  {
    RoundIsNearest(options.manualTimeZoneOffset.value, m);
  }

  /**
   * An in-range precision is rounded to the nearest whole digit: no integer
   * is closer to the given value than the stored one.
   */
  lemma MergeRoundsPrecisionToNearest(base: Config, options: LbDateOptions, proto: set<string>, m: int)
    requires options.precision.Some?
    requires MinPrecision as real <= options.precision.value <= MaxPrecision as real
    ensures var r := Merge(base, options, proto);
      Distance(options.precision.value, r.precision as real)
      <= Distance(options.precision.value, m as real)
  {
    RoundIsNearest(options.precision.value, m);
  }

  /**
   * The options that result from giving `earlier` and then `later`: every
   * field `later` would set (present and valid) wins, the rest come from
   * `earlier`.
   */
  function Override(earlier: LbDateOptions, later: LbDateOptions, proto: set<string>): LbDateOptions {
    LbDateOptions(
      if later.timezone.Some? && ParseTimeZone(later.timezone.value).Some?
      then later.timezone else earlier.timezone,
      if later.manualTimeZoneOffset.Absent?
      then earlier.manualTimeZoneOffset else later.manualTimeZoneOffset,
      if later.toNativeJsonName.Some? && later.toNativeJsonName.value !in proto
      then later.toNativeJsonName else earlier.toNativeJsonName,
      if later.precision.None? then earlier.precision else later.precision)
  }

  /** Two successive merges are one merge of the overridden options. */
  lemma MergeComposes(base: Config, earlier: LbDateOptions, later: LbDateOptions, proto: set<string>)
    ensures Merge(Merge(base, earlier, proto), later, proto)
         == Merge(base, Override(earlier, later, proto), proto)
  {
  }
}
