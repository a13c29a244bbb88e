/** Shared optional values and results used by every model in the project. */
module Wrappers {
  /** A value that may be absent: Java's null or Optional, JavaScript's undefined. */
  datatype Option<T> = None | Some(value: T)
  {
    /** `Optional.or` / `Optional.or(Supplier)`: this value when present, else the fallback. */
    function Or(fallback: T): (r: T)
      ensures this.Some? ==> r == this.value
      ensures this.None? ==> r == fallback
    {
      if this.Some? then this.value else fallback
    }
  }
}
