/** A value that may be absent: the model of a TypeScript `T | undefined` or
    `T | null`, and of an optional property of a partial record. */
module Optional {

  datatype Option<T> = None | Some(value: T)

  /** `o ?? fallback`: the value when present, the fallback otherwise. */
  function Coalesce<T>(o: Option<T>, fallback: T): T {
    if o.Some? then o.value else fallback
  }

  /** `!!x` for an optional boolean: an absent value counts as false. */
  predicate Truthy(b: Option<bool>) {
    b == Some(true)
  }
}
