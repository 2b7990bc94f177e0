/** Optional values: a Python `None` or a JavaScript `null`, and the present case. */
module Options {

  datatype Option<+T> = None | Some(value: T) {

    /** The value if present, otherwise `default`, as `dict.get(key, default)` reads an optional entry. */
    function GetOr(default: T): T {
      match this
      case Some(v) => v
      case None => default
    }
  }

  /** A Python `Optional[str]` is falsy when it is `None` or the empty string. */
  predicate Truthy(s: Option<string>) {
    s.Some? && s.value != ""
  }
}
