/** Types shared by every part of the model. */
module Common {

  /** A value that may be absent (Python's None). */
  datatype Option<T> = None | Some(value: T) {
    function GetOr(default: T): T {
      match this
      case Some(v) => v
      case None => default
    }
  }

  /** One step of a plan: its name, focus minutes and break minutes
      (the dictionaries {"step", "duration", "break"} of the source). */
  datatype Task = Task(step: string, duration: int, brk: int)
}
