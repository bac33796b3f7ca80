/** Kotlin's nullable results (`String?`), as an option value. */
module Optional {

  datatype Option<+T> = None | Some(value: T) {

    /** The Elvis operator `this ?: other`. */
    function OrElse(other: Option<T>): Option<T> {
      match this
      case Some(_) => this
      case None => other
    }
  }
}
