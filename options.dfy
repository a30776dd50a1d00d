/** Optional values: the model's rendering of TypeScript's `?:` fields and `| null` state. */
module Options {

  datatype Option<+T> = None | Some(value: T) {

    /** The value, or `default` when absent (TypeScript's `x ?? default` on a possibly-undefined value). */
    function GetOr(default: T): T {
      match this
      case Some(v) => v
      case None => default
    }
  }
}
