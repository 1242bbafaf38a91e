/** Types shared by every part of the model. */
module Common {

  datatype Option<+T> = None | Some(value: T)

  /** Seconds since the epoch. Clocks are parameters: no step reads one by itself. */
  type Time = int
}
