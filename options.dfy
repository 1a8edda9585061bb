/** The optional value used wherever the engine hands back a pointer that may be null
    or an array that a mesh may lack. */
module Options {

  datatype Option<+T> = None | Some(value: T)

}
