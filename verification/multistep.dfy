/** The step contract the builders are written against: a step's action and
    the shared state bag (the packer-plugin-sdk `multistep` package, as the
    modelled code uses it). The runner that sequences steps belongs to that
    SDK and is not part of this model.

    A bag value is any of the types the modelled code stores, so a `Value`
    is a closed sum of them. Reading a required key with `Get` and asserting
    its type stops the program when the key is absent or mistyped; the steps
    that do so state it as a precondition. */
module Multistep {
  import opened Wrappers
  import LinodeConfig
  import Api

  datatype Action = Continue | Halt

  datatype Value =
    | ConfigValue(config: LinodeConfig.Config)
    | UiHandle
    | InstanceValue(instance: Api.Instance)
    | InstanceIdValue(id: int)
    | DiskValue(disk: Api.Disk)
    | ImageValue(image: Api.Image)
    | ErrorValue(message: string)
    | Text(text: string)
    | Opaque(kind: string)

  type Bag = map<string, Value>

  /** The key a failing step writes its error under. */
  const ErrorKey: string := "error"

  /** One line shown to the user. */
  datatype UiLine = Say(text: string) | ErrorLine(text: string)

  /** What a step's `Run` did: the action it returned, the bag afterwards, the
      client calls it made and the lines it showed. */
  datatype StepResult = StepResult(action: Action, bag: Bag, calls: seq<Api.Call>, ui: seq<UiLine>)

  /** What a step's `Cleanup` did; cleanup never changes the bag. */
  datatype CleanupResult = CleanupResult(calls: seq<Api.Call>, ui: seq<UiLine>)

  /** The optional read: the value, or `None` for a key never written. */
  function GetOk(bag: Bag, key: string): (r: Option<Value>)
    ensures r.Some? <==> key in bag
    ensures r.Some? ==> r.value == bag[key]
  {
    if key in bag then Some(bag[key]) else None
  }

  /** `after` is `before` with exactly the keys of `written` stored, and
      nothing else changed. */
  ghost predicate Writes(before: Bag, after: Bag, written: map<string, Value>) {
    && after.Keys == before.Keys + written.Keys
    && (forall k :: k in written ==> after[k] == written[k])
    && (forall k :: k in before && k !in written ==> after[k] == before[k])
  }
}
