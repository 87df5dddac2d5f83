/** The JavaScript `undefined`/`null` of an optional field, as a value. */
module Optional {

  datatype Option<+T> = None | Some(value: T) {

    /**
     * The value, or `default` when absent. With `default == ""` on a string
     * field this is the source's `x || ''`, since an empty string is falsy
     * either way; a non-empty default for a falsy value is written out where
     * it occurs (see `Lovable.KindOf`).
     */
    function GetOr(default: T): T {
      match this
      case Some(v) => v
      case None => default
    }
  }
}
