/** Option and Result, and the exceptions the package raises, as values. */
module Wrappers {

  datatype Option<+T> = None | Some(value: T)

  /** The exceptions raised by the core, one constructor per distinct cause.
      `AtLine` is the `ValueError("Line {n}: {e}")` that `Edl.from_file`
      raises around an error from its segmentation loop. */
  datatype Error =
    | IndexOutOfRange            // IndexError from `name[0]`, `split()[0]`, `parsed[1]`
    | InvalidTrackType           // ValueError from `Track.Type(...)`
    | InvalidIntLiteral          // ValueError from `int(...)`
    | InvalidFloatLiteral        // ValueError from `float(...)`
    | ReelNotRecognized          // "Reel name format is not recognized"
    | InvalidReelCharacters      // "Reel name contains invalid characters for this source type"
    | InvalidComment             // "This is not a valid comment"
    | NotThisStatement           // "This line is not a valid {cls.__name__}"
    | UnrecognizedStatement      // "Unrecognized standard form statement"
    | UnrecognizedLine           // "Unrecognized line"
    | NoStatements               // "An event must contain at least one standard form statement"
    | MismatchedFcm              // "Standard Form Statements must have matching FCMs"
    | TitleNotFound              // "Title was expected, but not found"
    | TitleIsEmpty               // "Title is empty"
    | FcmNotFound                // "FCM was expected, but not found"
    | InvalidFcmSpecified        // "Invalid FCM specified"
    | EmptyTitle                 // "The title cannot be an empty string"
    | MultilineTitle             // "The title must not contain line breaks"
    | InvalidFcmProvided         // "Invalid FCM provided"
    | AtLine(line: int, cause: Error)

  datatype Result<+T> = Ok(value: T) | Err(error: Error) {
    predicate IsFailure() { Err? }

    function PropagateFailure<U>(): Result<U>
      requires Err?
    {
      Err(error)
    }

    function Extract(): T
      requires Ok?
    {
      value
    }
  }

  /** The outcome of a setter that either assigns or raises. */
  datatype Outcome = Pass | Fail(error: Error)
}
