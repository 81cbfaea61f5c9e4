/** Option type shared by every module: `None` stands for JavaScript's
    `null`/`undefined` (or Ruby's `nil`) where the source uses them as "absent". */
module Wrappers {

  datatype Option<+T> = None | Some(value: T) {

    /** The value, or `default` when absent (JavaScript's `??`). */
    function GetOr(default: T): T {
      match this
      case Some(v) => v
      case None => default
    }
  }
}
