/** Option and Result values, the Python exceptions the model tells apart,
    and how a call to one of the program's adapters ends. */
module Results {

  datatype Option<+T> = None | Some(value: T)

  /** The exceptions the program raises or catches. `OSError` stands for every
      error of `open` other than FileNotFoundError (a permission error, a
      directory, ...) and for a registry key that cannot be opened. */
  datatype Error =
    | FileNotFoundError
    | OSError
    | JSONDecodeError
    | TypeError
    | KeyError
    | ValueError
    | IndexError
    | NameError
    | AttributeError

  datatype Result<+T> = Ok(value: T) | Err(error: Error)

  /** How one adapter call ends: the theme name it reports as set, an
      exception it caught and logged, or an exception that escapes it. */
  datatype Outcome = Done(name: string) | Caught(error: Error) | Escaped(error: Error)
}
