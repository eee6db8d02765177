/**
 * The global configuration store behind `lbDate().init()`,
 * `lbDate().getGlobalConfig()` and `lbDate().restore()`.
 */
module GlobalConfig {
  import opened Wrappers
  import opened LbDateConfig
  import opened Merging

  /** The store is either not yet initialised or holds one configuration. */
  datatype StoreState = Uninitialized | Initialized(config: Config)

  /** A stored configuration is always in range. */
  predicate ValidState(s: StoreState) {
    s.Initialized? ==> ValidConfig(s.config)
  }

  /** What `init` merges onto: the current configuration, or the default before the first `init`. */
  function BaseOf(s: StoreState): (c: Config)
    ensures s.Uninitialized? ==> c == GetDefaultConfig()
    ensures s.Initialized? ==> c == s.config
    ensures ValidState(s) ==> ValidConfig(c)
  {
    match s
    case Uninitialized => GetDefaultConfig()
    case Initialized(c) => c
  }

  /** The state after one `init(options)`. */
  function InitState(s: StoreState, options: LbDateOptions, proto: set<string>): (t: StoreState)
    ensures t.Initialized?
    ensures ValidState(s) ==> ValidState(t)
    ensures t.config == Merge(BaseOf(s), options, proto)
  {
    Initialized(Merge(BaseOf(s), options, proto))
  }

  /** Successive `init` calls, one per element of `calls`, all against the same prototype. */
  ghost function InitSequence(s: StoreState, calls: seq<LbDateOptions>, proto: set<string>): StoreState
    decreases |calls|
  {
    if calls == [] then s
    else InitSequence(InitState(s, calls[0], proto), calls[1..], proto)
  }

  /** The options of `calls` overridden one after another onto `acc`. */
  ghost function CombineFrom(acc: LbDateOptions, calls: seq<LbDateOptions>, proto: set<string>): LbDateOptions
    decreases |calls|
  {
    if calls == [] then acc
    else CombineFrom(Override(acc, calls[0], proto), calls[1..], proto)
  }

  /** The options of `calls` overridden one after another onto `{}`. */
  ghost function Combined(calls: seq<LbDateOptions>, proto: set<string>): LbDateOptions {
    CombineFrom(EmptyOptions, calls, proto)
  }

  /** However many `init` calls are made, the stored configuration stays in range. */
  lemma {:induction false} InitSequenceValid(s: StoreState, calls: seq<LbDateOptions>, proto: set<string>)
    requires ValidState(s)
    ensures ValidState(InitSequence(s, calls, proto))
    decreases |calls|
  {
    if calls != [] {
      InitSequenceValid(InitState(s, calls[0], proto), calls[1..], proto);
    }
  }

  /** Further `init` calls after one merge act as a single merge of the overridden options. */
  lemma {:induction false} InitSequenceFromMerged(
    base: Config, acc: LbDateOptions, calls: seq<LbDateOptions>, proto: set<string>)
    ensures InitSequence(Initialized(Merge(base, acc, proto)), calls, proto)
         == Initialized(Merge(base, CombineFrom(acc, calls, proto), proto))
    decreases |calls|
  {
    if calls != [] {
      MergeComposes(base, acc, calls[0], proto);
      InitSequenceFromMerged(base, Override(acc, calls[0], proto), calls[1..], proto);
    }
  }

  /**
   * Successive `init` calls compose: they store what one `init` of their
   * field-by-field overridden options would store.
   */
  lemma {:induction false} InitSequenceComposes(s: StoreState, calls: seq<LbDateOptions>, proto: set<string>)
    requires calls != []
    ensures InitSequence(s, calls, proto)
         == Initialized(Merge(BaseOf(s), Combined(calls, proto), proto))
  {
    var base := BaseOf(s);
    MergeComposes(base, EmptyOptions, calls[0], proto);
    InitSequenceFromMerged(base, Override(EmptyOptions, calls[0], proto), calls[1..], proto);
  }

  /** The process-wide store; each test of the library starts from a fresh one. */
  class GlobalStore {
    var state: StoreState

    ghost predicate Valid()
      reads this
    {
      ValidState(state)
    }

    /** A fresh store, as after importing the module. */
    constructor()
      ensures Valid() && state == Uninitialized
    {
      state := Uninitialized;
    }

    /**
     * `lbDate(options).init()`: merges onto the default before the first
     * call and onto the current configuration afterwards.
     */
    method Init(options: LbDateOptions, proto: set<string>)
      requires Valid()
      modifies this
      ensures Valid()
      ensures state == Initialized(Merge(BaseOf(old(state)), options, proto))
    {
      state := InitState(state, options, proto);
    }

    /** `lbDate().restore()`: back to the uninitialised store. */
    method Restore()
      modifies this
      ensures Valid() && state == Uninitialized
    {
      state := Uninitialized;
    }

    /** `getGlobalConfig()`: `{}` before `init`, else a copy of the stored configuration. */
    function GetGlobalConfig(): (r: LbDateOptions)
      reads this
      ensures state.Uninitialized? <==> r == EmptyOptions
      ensures state.Initialized? ==> IsComplete(r) && r == ToOptions(state.config)
    {
      match state
      case Uninitialized => EmptyOptions
      case Initialized(c) => ToOptions(c)
    }
  }
}
