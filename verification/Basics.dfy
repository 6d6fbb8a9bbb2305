/**
 What several of the models use.
 */
module Basics {

  datatype Option<+T> = None | Some(value: T)

  function One(b: bool): nat { if b then 1 else 0 }
}
