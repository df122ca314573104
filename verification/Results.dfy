/** Results shared by the modules: an optional value, and the outcome of a call. */
module Results {
  datatype Option<+T> = None | Some(value: T)

  datatype Status = Ok | Error
}
