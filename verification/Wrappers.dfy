module Wrappers {
  datatype Option<+T> = None | Some(value: T)

  function Max(a: nat, b: nat): nat {
    if a >= b then a else b
  }

  function Min(a: nat, b: nat): nat {
    if a <= b then a else b
  }
}
