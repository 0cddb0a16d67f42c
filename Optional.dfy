/** Swift optionals, and the `??` operator that the editor uses to fall back to a default. */
module Optional {

  datatype Option<+T> = None | Some(value: T) {

    /** `self ?? default` */
    function GetOr(default: T): T {
      match this
      case Some(v) => v
      case None => default
    }
  }
}
