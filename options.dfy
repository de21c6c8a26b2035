/** The optional value used for absent slots, keys, payload fields and dispatch results. */
module Options {

  datatype Option<+T> = None | Some(value: T)

}
