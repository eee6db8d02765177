/**
 * The playground's helper functions: a nullish test, the Date prototype
 * lookup, and the name under which the native `toJSON` currently lives.
 */
module PlaygroundHelpers {
  import Wrappers
  import opened LbDateConfig
  import opened Merging
  import opened GlobalConfig

  /** The JavaScript values the helpers look at. */
  datatype JsValue = Undefined | Null | Boolean(b: bool) | Number(n: real) | Text(s: string) | Object

  /** `isNullable(value)`: `value === null || value === undefined`. */
  function IsNullable(value: JsValue): (b: bool)
    ensures b <==> value.Null? || value.Undefined?
  {
    value == Null || value == Undefined
  }

  /** Reading an optional string key: a missing key reads as `undefined`. */
  function KeyValue(key: Wrappers.Option<string>): (v: JsValue)
    ensures IsNullable(v) <==> key.None?
    ensures key.Some? ==> v == Text(key.value)
  {
    match key
    case Some(s) => Text(s)
    case None => Undefined
  }

  /** JavaScript's `left ?? right`. */
  function NullishCoalesce(left: JsValue, right: JsValue): (r: JsValue)
    ensures !IsNullable(left) ==> r == left
    ensures IsNullable(left) ==> r == right
    ensures !IsNullable(right) ==> !IsNullable(r)
  {
    if IsNullable(left) then right else left
  }

  /** `isMethodInDatesPrototype(name)`: the prototype has a truthy entry under `name`. */
  function IsMethodInDatesPrototype(proto: set<string>, methodName: string): (b: bool)
    ensures b <==> methodName in proto
  {
    methodName in proto
  }

  /**
   * The merge drops a new `toNativeJsonName` exactly when
   * `isMethodInDatesPrototype` holds of it.
   */
  lemma MergeDropsNameIffOnPrototype(base: Config, options: LbDateOptions, name: string, proto: set<string>)
    requires name != base.toNativeJsonName
    ensures Merge(base, options.(toNativeJsonName := Wrappers.Some(name)), proto).toNativeJsonName
         == base.toNativeJsonName
        <==> IsMethodInDatesPrototype(proto, name)
  {
  }

  /**
   * `getCurrentToJsonMethodName()`: the global configuration's name, or the
   * default configuration's when the store is still empty. The `??` fallback
   * is never nullish, so neither is the result.
   */
  function GetCurrentToJsonMethodName(store: GlobalStore): (name: JsValue)
    reads store
    ensures name.Text? && !IsNullable(name)
    ensures store.state.Initialized? ==> name == Text(store.state.config.toNativeJsonName)
    ensures store.state.Uninitialized? ==> name == Text(DefaultToNativeJsonName)
  {
    NullishCoalesce(
      KeyValue(store.GetGlobalConfig().toNativeJsonName),
      KeyValue(ToOptions(GetDefaultConfig()).toNativeJsonName))
  }
}
