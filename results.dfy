/** Outcomes of the package's operations.
    A Go panic (a usage error that ends the offending call path) and a Go
    `error` return (a recoverable failure handed back to the caller) are both
    modelled as values, so that every error path can be stated in a contract. */
module Results {

  datatype Option<+T> = None | Some(value: T)

  datatype Result<+T, +E> = Ok(value: T) | Err(error: E)

  /** The package's panics, one constructor per panic site. Where the message
      names a property, method or type, the constructor carries that name. */
  datatype Panic =
    | InitCalledTwice                        // Init on an already initialised package
    | EngineAlreadyDestroyed                 // use of a destroyed engine
    | NoSuchProperty(property: string)       // Property on a missing property
    | TooLargeForInt(property: string)       // Int on an int64 outside the platform int
    | NotAnInt(property: string)             // Int on a non-numeric value
    | NotAnInt64(property: string)           // Int64 on a non-numeric value
    | NotAFloat64(property: string)          // Float64 on a non-numeric value
    | NotABool(property: string)             // Bool on a value that is not a bool
    | NotAString(property: string)           // String on a value that is not a string
    | NotAnObject(property: string)          // Object on a value that is not an object
    | NoSuchDescendant(objectName: string)   // ObjectByName found nothing
    | TooManyParameters                      // Call with more params than argument slots
    | NotAComponent                          // Create or CreateWindow on a non-component
    | WindowNotWaiting                       // hidden signal for a window nobody waits on

  /** The package's returned errors. */
  datatype Error =
    | ReadFailed(cause: string)              // reading the QML content failed; returned as is
    | NoAbsolutePath(cause: string)          // the working directory could not be obtained
    | CompileFailed(message: string)         // the component compiler's diagnostic
    | NilSample(typeName: string)            // TypeSpec.New returned nil
}
