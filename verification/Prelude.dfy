/** The one datatype shared by all models. */
module Prelude {

  datatype Option<+T> = None | Some(value: T)
}
