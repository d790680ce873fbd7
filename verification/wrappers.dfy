/** The optional value used wherever the bridge holds "something or nothing":
    the extension-agent slot, a dictionary lookup, a hashable key. */
module Wrappers {

  datatype Option<+T> = None | Some(value: T) {

    /** The encapsulated value, or `default` when there is none. */
    function GetOr(default: T): T {
      match this
      case Some(v) => v
      case None => default
    }
  }
}
