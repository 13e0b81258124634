/** The optional value used throughout the model, for fields a reply may omit
    and for look-ups that may find nothing. */
module Options {

  datatype Option<+T> = None | Some(value: T)

}
