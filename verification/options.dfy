/** The optional value used wherever a code may name no enumeration member. */
module Options {

  datatype Option<+T> = None | Some(value: T)
}
