/**
 * The library's own test cases, each on a fresh store (every test imports
 * the module anew). `proto` is the Date prototype at the time of the test;
 * a scenario requires only what its test relies on about it.
 */
module GlobalConfigSpec {
  import opened Wrappers
  import opened LbDateConfig
  import opened GlobalConfig

  /** `getGlobalConfig()` is `{}` before `init`, through the call and the object form alike. */
  method EmptyBeforeInit() returns (viaCall: LbDateOptions, viaObject: LbDateOptions)
    ensures viaCall == EmptyOptions && viaObject == EmptyOptions
  {
    var store := new GlobalStore();
    viaCall := store.GetGlobalConfig();
    viaObject := store.GetGlobalConfig();
  }

  /** `init()` without options stores the default configuration. */
  method InitWithoutOptions(proto: set<string>) returns (config: LbDateOptions)
    ensures config == LbDateOptions(Some("auto"), Null, Some("toNativeJSON"), Some(3.0))
  {
    var store := new GlobalStore();
    store.Init(EmptyOptions, proto);
    config := store.GetGlobalConfig();
  }

  /** Valid options, including the bounds 840 and 0, are stored as given. */
  method InitWithValidOptions(proto: set<string>) returns (config: LbDateOptions)
    requires "anotherToNativeJSON" !in proto
    ensures config == LbDateOptions(Some("manual"), Present(840.0), Some("anotherToNativeJSON"), Some(0.0))
  {
    var store := new GlobalStore();
    store.Init(LbDateOptions(Some("manual"), Present(840.0), Some("anotherToNativeJSON"), Some(0.0)), proto);
    config := store.GetGlobalConfig();
  }

  /** Three successive `init` calls, each merged onto the configuration the previous one left. */
  method SuccessiveInitsMerge(proto: set<string>) returns (first: LbDateOptions, second: LbDateOptions, third: LbDateOptions)
    requires "anotherToNativeJSON" !in proto
    ensures first == LbDateOptions(Some("utc"), Null, Some("toNativeJSON"), Some(3.0))
    ensures second == LbDateOptions(Some("manual"), Present(840.0), Some("toNativeJSON"), Some(3.0))
    ensures third == LbDateOptions(Some("manual"), Present(840.0), Some("anotherToNativeJSON"), Some(2.0))
  {
    var store := new GlobalStore();
    store.Init(LbDateOptions(Some("utc"), Null, Some("toNativeJSON"), Some(3.0)), proto);
    first := store.GetGlobalConfig();
    store.Init(LbDateOptions(Some("manual"), Present(840.0), Some("toNativeJSON"), Some(3.0)), proto);
    second := store.GetGlobalConfig();
    store.Init(LbDateOptions(Some("manual"), Present(840.0), Some("anotherToNativeJSON"), Some(2.0)), proto);
    third := store.GetGlobalConfig();
  }

  /** The timezone `'Test'` is dropped and the default `auto` kept. */
  method InvalidTimeZoneDropped(proto: set<string>) returns (config: LbDateOptions)
    ensures config == LbDateOptions(Some("auto"), Null, Some("toNativeJSON"), Some(3.0))
  {
    var store := new GlobalStore();
    store.Init(EmptyOptions.(timezone := Some("Test")), proto);
    config := store.GetGlobalConfig();
  }

  /** Offsets 841 and -841 are clamped to 840 and -840 while the timezone stays `auto`. */
  method OffsetClamped(proto: set<string>) returns (first: LbDateOptions, second: LbDateOptions)
    ensures first == LbDateOptions(Some("auto"), Present(840.0), Some("toNativeJSON"), Some(3.0))
    ensures second == LbDateOptions(Some("auto"), Present(-840.0), Some("toNativeJSON"), Some(3.0))
  {
    var store := new GlobalStore();
    store.Init(EmptyOptions.(manualTimeZoneOffset := Present(841.0)), proto);
    first := store.GetGlobalConfig();
    store.Init(EmptyOptions.(manualTimeZoneOffset := Present(-841.0)), proto);
    second := store.GetGlobalConfig();
  }

  /** `toISOString`, already a Date method, is dropped as a `toNativeJsonName`. */
  method PrototypeNameDropped(proto: set<string>) returns (config: LbDateOptions)
    requires "toISOString" in proto
    ensures config == LbDateOptions(Some("auto"), Null, Some("toNativeJSON"), Some(3.0))
  {
    var store := new GlobalStore();
    store.Init(EmptyOptions.(toNativeJsonName := Some("toISOString")), proto);
    config := store.GetGlobalConfig();
  }

  /** Precisions 4 and -1 are clamped to 3 and 0. */
  method PrecisionClamped(proto: set<string>) returns (first: LbDateOptions, second: LbDateOptions)
    ensures first == LbDateOptions(Some("auto"), Null, Some("toNativeJSON"), Some(3.0))
    ensures second == LbDateOptions(Some("auto"), Null, Some("toNativeJSON"), Some(0.0))
  {
    var store := new GlobalStore();
    store.Init(EmptyOptions.(precision := Some(4.0)), proto);
    first := store.GetGlobalConfig();
    store.Init(EmptyOptions.(precision := Some(-1.0)), proto);
    second := store.GetGlobalConfig();
  }

  /** Precision 2.1 is rounded to 2. */
  method PrecisionRounded(proto: set<string>) returns (config: LbDateOptions)
    ensures config == LbDateOptions(Some("auto"), Null, Some("toNativeJSON"), Some(2.0))
  {
    var store := new GlobalStore();
    store.Init(EmptyOptions.(precision := Some(2.1)), proto);
    config := store.GetGlobalConfig();
  }

  /** Offset 120.1 is rounded to 120. */
  method OffsetRounded(proto: set<string>) returns (config: LbDateOptions)
    ensures config == LbDateOptions(Some("manual"), Present(120.0), Some("toNativeJSON"), Some(3.0))
  {
    var store := new GlobalStore();
    store.Init(EmptyOptions.(timezone := Some("manual"), manualTimeZoneOffset := Present(120.1)), proto);
    config := store.GetGlobalConfig();
  }
}

/** The test of `getDefaultConfig()`. */
module DefaultConfigSpec {
  import opened Wrappers
  import opened LbDateConfig

  /** `getDefaultConfig()` is strictly equal to the four-key default literal. */
  method DefaultConfigLiteral() returns (config: LbDateOptions)
    ensures config == LbDateOptions(Some("auto"), Null, Some("toNativeJSON"), Some(3.0))
  {
    config := ToOptions(GetDefaultConfig());
  }
}

/**
 * How the playground uses the store. No test asserts this; `restore()`
 * resetting the store is inferred from the playground calling `restore()`
 * before every new `init(options)`.
 */
module PlaygroundUsage {
  import opened LbDateConfig
  import opened GlobalConfig
  import Merging

  /**
   * Restoring and then initialising with new options, as the playground does
   * whenever its options change, stores the new options merged onto the
   * default, not onto what was stored before.
   */
  method ReinitializeAfterRestore(earlier: LbDateOptions, later: LbDateOptions, proto: set<string>)
    returns (config: LbDateOptions)
    ensures config == ToOptions(Merging.Merge(GetDefaultConfig(), later, proto))
  {
    var store := new GlobalStore();
    store.Init(earlier, proto);
    store.Restore();
    store.Init(later, proto);
    config := store.GetGlobalConfig();
  }
}
