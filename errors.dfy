/** Error values returned by the engine (the source returns Go `error`s built by fmt.Errorf;
    only their kind and the layer index they report are modelled, not their text). */
module Errors {

  datatype Error =
    | DimensionMismatch                           // Matrix.Multiply / Matrix.Add
    | InputSizeMismatch(got: nat, expected: nat)  // Dense.Forward
    | GradientSizeMismatch                        // Dense.Backward
    | ShapeMismatch                               // every loss Forward / Backward
    | ChannelMismatch(got: nat, expected: nat)    // ConvLayer.Forward
    | ForwardFailed(layer: nat, cause: Error)     // Sequential.Forward: "error in layer i"
    | BackwardFailed(layer: nat, cause: Error)    // Sequential.Backward: "error in backward pass at layer i"

  /** A value or the error that replaced it. */
  datatype Result<T> = Ok(value: T) | Err(error: Error)

  datatype Option<T> = None | Some(value: T)
}
