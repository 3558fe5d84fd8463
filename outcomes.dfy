/** Failure-compatible wrappers shared by every module of the model.

    The C# engine and the Python scripts signal errors by throwing; `Main`
    (and the Python interpreter) then abort the run. The model returns
    `Err(fault)` instead, naming the exception the source would raise. */
module Outcomes {

  datatype Option<+T> = None | Some(value: T) {
    function GetOr(default: T): T {
      match this
      case Some(v) => v
      case None => default
    }
  }

  /** The exception kinds the modelled code can raise. */
  datatype Fault =
    // C# / .NET
    | IndexOutOfRange            // array index `lines[j + 1]` past the end
    | ArgumentOutOfRange         // List indexer, Substring, ElementAt, RemoveAt
    | DuplicateKey(key: string)  // Dictionary.Add / ToDictionary on a present key
    | FormatError(text: string)  // decimal.Parse on a non-numeric text
    // Python
    | PyIndexError               // `lines[3]` on a shorter list
    | PyValueError               // `range(..., 0)`
    | PyUnboundLocal             // reading `part_num` that no iteration bound
    | PyTypeError                // float(None), comparing unorderable values
    | PyAttributeError           // `.get` / `.replace` on a value of the wrong type

  datatype Result<+T> = Ok(value: T) | Err(fault: Fault) {
    predicate IsFailure() {
      Err?
    }

    function PropagateFailure<U>(): Result<U>
      requires Err?
    {
      Err(fault)
    }

    function Extract(): T
      requires Ok?
    {
      value
    }
  }
}
