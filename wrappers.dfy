/** Option and Result used throughout the model, and the failures of the engine.

    The engine reports failure by raising Python exceptions; the model returns
    `Err` with the kind of failure instead. */
module Wrappers {

  datatype Option<+T> = None | Some(value: T)

  datatype Result<+T> = Ok(value: T) | Err(error: EngineError)

  /** The exceptions the core can raise. */
  datatype EngineError =
    | UnknownScaleType      // `intervals` is never bound: only "Major" and "Minor" have a table
    | ZeroTempo             // duration = 60 / bpm with bpm == 0
    | NothingToConcatenate  // np.concatenate of an empty list of chord parts (n == 0)
    | FadeShapeMismatch     // a one-sample chord: chord[-0:] is the whole chord, linspace(1, 0, 0) is empty
    | IndexOutOfRange       // stretching an empty chord: every index clips to -1
}
