/** Small value types shared by every module of the model. */
module Base {

  /** A value that may be missing: a JavaScript `null`/`undefined`, or a lookup that found nothing. */
  datatype Option<+T> = None | Some(value: T)

}
