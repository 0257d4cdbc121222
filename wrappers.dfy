/** Swift's `Optional`: the only failure signal the RIDB client ever produces. */
module Wrappers {

  datatype Option<+T> = None | Some(value: T)
}
