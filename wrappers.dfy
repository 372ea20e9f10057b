/** Option, Result and Outcome values, and the Python exceptions that the
    modelled operations raise, returned as values instead of thrown. */
module Wrappers {

  datatype Option<+T> = None | Some(value: T)

  /** The exceptions raised by the modelled code. */
  datatype Exception =
    | SoundFormatError    // no audio stream of the requested format can be had
    | ValueError          // a bad frequency, a missing sound file, an unknown audio library
    | NameError           // `mediaLocation` is undefined on this platform
    | AttributeError      // a method the sound class does not define
    | IndexError          // a list or array index out of range
    | TypeError           // an operation applied to a value of the wrong type, such as slicing None
    | UnboundLocalError   // a local variable read before any branch assigned it
    | ZeroDivisionError   // a division by a zero sample count
    | DependencyError     // no audio library could be loaded
    | RuntimeError        // the sound file library cannot open a file
    | ImportError         // a backend module, or a library it needs, is missing

  /** The result of an operation that returns a value or raises. */
  datatype Result<+T> = Ok(value: T) | Err(error: Exception)

  /** The result of an operation that returns nothing or raises. */
  datatype Outcome = Pass | Fail(error: Exception)
}
