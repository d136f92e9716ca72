/** The optional value used where the source holds `null` / `undefined`. */
module Optional {

  datatype Option<+T> = None | Some(value: T)
}
