/** Value types of the wheel game: slices, wheel tiers and wheel configurations
    (Assets/Scripts/Data/WheelConfig.cs). A Unity `Sprite` reference is modelled
    as an optional opaque icon; `null` is `None`. */
module WheelData {

  datatype Option<+T> = None | Some(value: T)

  /** An opaque sprite asset; only its identity matters to the core. */
  datatype Icon = Icon(asset: nat)

  datatype SliceType = Reward | Bomb | Multiplier

  datatype WheelType = Bronze | Silver | Gold

  /** One wheel slice. `id` is a C# string and may be null (`None`). */
  datatype SliceDef = SliceDef(id: Option<string>, kind: SliceType, value: int, icon: Option<Icon>)

  /** The parts of a wheel configuration the core reads or copies; sprites,
      colours and descriptive text belong to the view and are not modelled. */
  datatype WheelConfig = WheelConfig(wheelName: string, wheelType: WheelType,
                                     slices: seq<SliceDef>, spinDuration: real)

  /** How an operation of the core ended: normally, or with the exception
      the source throws. `NotSupported` is GameStateMachine.Create's
      NotSupportedException; `ArgumentOutOfRange` is the
      ArgumentOutOfRangeException of the `List<T>` indexer on the slices of
      a wheel that has none (`Range(0, 0)` yields 0); `NullReference` and
      `KeyNotFound` are the reward flight's target lookup failing. */
  datatype Outcome = Done | NotSupported(typeName: string) | ArgumentOutOfRange | NullReference | KeyNotFound

  function Max(a: int, b: int): (r: int)
    ensures r >= a && r >= b && (r == a || r == b)
  {
    if a >= b then a else b
  }
}
