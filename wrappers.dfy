/** Option stands for the Python attributes that start as `None` and are
    filled in later (timestamps, the ramp's starting temperature). */
module Wrappers {

  datatype Option<+T> = None | Some(value: T)
}
