/** Values shared by the listing and booking services: ids, optional values,
    the failures the services raise and the metadata of a paginated answer. */
module Common {

  /** A document id, or a reference to another document, in its string form. */
  type Id = string

  datatype Option<T> = None | Some(value: T) {

    /** The value when present, otherwise `default`. */
    function GetOr(default: T): T {
      if Some? then value else default
    }
  }

  /** What a service call can fail with: the document is absent, an id is
      malformed, or the schema rejects the document being created. */
  datatype Error = NotFound | InvalidArgument | ValidationFailed

  datatype Result<T> = Ok(value: T) | Err(error: Error)

  /** The `metadata` record that accompanies a page of results. */
  datatype Metadata = Metadata(total: nat, page: int, limit: int)

  /** Mongoose's `required` validator on a String path: the value must be
      present, and the empty string counts as missing. */
  predicate RequiredText(v: Option<string>) {
    v.Some? && v.value != ""
  }
}
