/** The optional value used by the readers of the monitor's inputs. */
module Wrappers {

  datatype Option<+T> = None | Some(value: T)
}
