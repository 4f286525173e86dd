/** Option and Result values, and the faults the skill raises.
    The Python code raises `ValueError` for a foreign caller or an unknown
    intent and lets a `KeyError` escape when a request lacks a key it reads;
    here each of these becomes an `Err` value. */
module Outcomes {

  datatype Option<+T> = None | Some(value: T)

  /** The ways a request can fail. */
  datatype Error =
    | InvalidApplicationId     // ValueError("Invalid Application ID")
    | InvalidIntent            // ValueError("Invalid intent")
    | MissingKey(key: string)  // KeyError on a dictionary lookup

  datatype Result<+T> = Ok(value: T) | Err(error: Error)
}
