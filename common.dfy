/** Option and the fatal-failure result used across the model.
    Every `panic!` / `expect` of the macro becomes a `Panic(reason)` value. */
module Common {

  datatype Option<+T> = None | Some(value: T)

  /** Why translation of a declaration aborted; one constructor per panic site. */
  datatype Failure =
    | UnsupportedItem                 // an item that is neither a struct nor a fn
    | NoFieldIdent                    // a tuple-struct field (no name)
    | NoIdent                         // a type path that is not a single identifier
    | NoPath                          // a type that is not a path at all
    | UnsupportedType(name: string)   // a parameter or return type outside Primitive / String
    | ReceiverArgument                // a `self` parameter
    | NonIdentPattern                 // a destructuring parameter pattern
    | NoIdentInReturn                 // a return type path that is not a single identifier
    | NoPathInReturn                  // a return type that is not a path

  datatype Result<+T> = Ok(value: T) | Panic(reason: Failure)
}
