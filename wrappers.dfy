/** The optional value used for the game's one-shot callback slots. */
module Wrappers {

  datatype Option<+T> = None | Some(value: T)
}
