/** Outcomes of the modelled Java operations: a value, or the fault the JVM would raise. */
module Errors {

  /** The runtime faults the modelled code can raise. `NotFinite` stands for an IEEE-754
      division by zero: Java raises nothing, but the result is infinite or NaN and poisons
      every value computed from it, so the model treats it as a failed operation. */
  datatype Fault = IndexOutOfBounds | NegativeArraySize | NullPointer | NotFinite

  /** A possibly-null reference. */
  datatype Option<+T> = None | Some(value: T)

  /** A value, or the fault that ended the computation. Usable with `:-`. */
  datatype Result<+T> = Ok(value: T) | Err(fault: Fault) {

    predicate IsFailure() {
      Err?
    }

    function PropagateFailure<U>(): Result<U>
      requires Err?
    {
      Err(fault)
    }

    function Extract(): T
      requires Ok?
    {
      value
    }
  }
}
