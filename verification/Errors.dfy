/** Failures of the library, and the result type every fallible operation returns. */
module Errors {

  // The labels the library attaches to its errors.
  datatype Axis = Height | Width
  datatype Role = Source | Rhs | Output | Field
  datatype Resource = BufferBytes | DeviceBytes | LiveBuffers | Operations
  datatype Arithmetic = HeightPlusTwo | WidthPlusTwo | InteriorProduct | HaloedProduct | InteriorBytes | HaloedBytes
  datatype Quantity =
    | QInteriorBytes | QHaloedBytes
    | QHeight | QWidth | QHaloHeight | QHaloWidth | QInteriorElements | QHaloedElements
    | QHeightBlocks | QWidthBlocks
    | QMetadataElements | QLaunchBlocks
    | QTimestepRows | QTimestepColumns
  datatype Stage = Create | Bind | Upload | Metadata | Slice | Views | Execute | Readback | StepCount | Snapshot

  datatype Error =
    | InvalidResourceLimits
    | ResourceLimit(resource: Resource, maximum: nat)
    | EmptyInterior(axis: Axis)
    | ShapeOverflow(operation: Arithmetic)
    | ShapeLimit(quantity: Quantity, actual: nat, limit: nat)
    | LengthMismatch(buffer: Role, expected: nat, found: nat)
    | ShapeMismatch(mismatched: Role)
    | ContextMismatch(foreign: Role)
    | InvalidBuffer(unavailable: Role)
    | Backend(stage: Stage)

  datatype Option<+T> = None | Some(value: T)

  datatype Result<+T> = Ok(value: T) | Err(error: Error) {
    predicate IsFailure() { Err? }

    function PropagateFailure<U>(): Result<U>
      requires Err?
    {
      Err(error)
    }

    function Extract(): T
      requires Ok?
    {
      value
    }
  }

  /** How a poll of a future ends. */
  datatype Polled = StillPending | Ready(result: Result<()>)

  function CheckLen(buffer: Role, expected: nat, actual: nat): Result<()> {
    if expected != actual then Err(LengthMismatch(buffer, expected, actual)) else Ok(())
  }
}
