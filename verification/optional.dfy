/** A value that may be absent, for the queries over command logs. */
module Optional {

  datatype Option<T> = None | Some(value: T)

  /** The present value, or `fallback` when there is none. */
  function Otherwise<T>(o: Option<T>, fallback: T): (r: T)
    ensures o.Some? ==> r == o.value
    ensures o.None? ==> r == fallback
  {
    if o.Some? then o.value else fallback
  }
}
