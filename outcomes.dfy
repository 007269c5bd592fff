/** Results of the fault-injection operations: a value, or the fatal condition
    (an `assert(0)` or a thrown `std::out_of_range`) that aborts the simulator. */
module Outcomes {

  /** The ways an operation of the core stops the simulation. */
  datatype Fatal =
    | UnknownPrefix      // descriptor starts with neither "Src" nor "Dst"
    | OutOfRange         // std::string::substr with a start past the end
    | ArchMismatch       // IEW corruption entry point built without ALPHA_ISA
    | PlaceholderCalled  // IEWStageInjectedFault::process<T>(void)

  datatype Result<+T> = Success(value: T) | Failure(error: Fatal)
}
