/** Small shared datatypes. */
module Common {

  /** A value that may be absent. Used for registers and locals that the
      modelled code may leave unwritten, and for "no match" results. */
  datatype Option<+T> = None | Some(value: T)
}
