/** Declarations shared by the models. */
module Common {

  /** Identity of a thread taking part in a concurrent run. */
  type Tid = nat

  datatype Option<+T> = None | Some(value: T)
}
