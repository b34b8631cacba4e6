/** The exceptions the resource-access-manager backend raises, and how it reads optional arguments. */
module RamErrors {
  import opened Results

  /** One constructor per exception class the backend raises, carrying its message. */
  datatype RamError =
    | InvalidParameter(message: string)
    | MalformedArn(message: string)
    | UnknownResource(message: string)
    | NotImplemented(message: string)

  /** Python truthiness of an optional string argument: present and not empty. */
  predicate Given(o: Option<string>) {
    o.Some? && o.value != ""
  }
}
