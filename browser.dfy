/** Values the browser hands to the application and that the model treats as opaque. */
module Browser {

  /** The binary payload of a response (a `Blob`). */
  datatype Blob = Blob(bytes: seq<bv8>)

  /** A file the user picked in a file input. */
  datatype File = File(name: string, bytes: seq<bv8>)

  /** A `Date`, as the number of milliseconds since the epoch. */
  datatype Date = Date(millis: int)
}
