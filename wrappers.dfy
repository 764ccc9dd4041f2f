/** The usual optional-value datatype, used for absent payloads, failed reads and rejected frames. */
module Wrappers {

  datatype Option<+T> = None | Some(value: T)

}
