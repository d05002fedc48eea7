module Sequences {

  function Before<T>(acts: seq<T>): (r: seq<T>)
    requires acts != []
    ensures |r| == |acts| - 1
  {
    acts[..|acts| - 1]
  }

  function Last<T>(acts: seq<T>): (a: T)
    requires acts != []
  {
    acts[|acts| - 1]
  }
}
