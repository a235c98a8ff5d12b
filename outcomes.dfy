/** The ways an operation of the library can fail. The library throws string
    literals; each kind below stands for one of them, plus the operand-shape
    assertions of the matrix library and the call of an empty function
    object, which abort the operation in the same way. */
module Outcomes {

  datatype Error =
    | NonPositiveShape         // an input shape with a component that is not positive
    | InputSizeError           // weights whose row count does not fit the input width
    | OutputSizeError          // weights whose column count is not the output size
    | InputRowsMismatch        // a network input with the wrong number of rows
    | InputColsMismatch        // a network input with the wrong number of columns
    | TargetLengthMismatch     // a target whose length is not the output count
    | WeightCountMismatch      // not exactly one weight matrix per layer
    | ActivationCountMismatch  // not exactly one activation per layer
    | DimensionMismatch        // operands of a matrix operation whose shapes do not fit
    | MissingLossFunction      // the network was built without a loss function

  /** The outcome of an operation that returns nothing. */
  datatype Outcome = Pass | Fail(error: Error)

  /** The outcome of an operation that returns a value. */
  datatype Result<T> = Ok(value: T) | Err(error: Error)

  datatype Option<T> = None | Some(value: T)
}
