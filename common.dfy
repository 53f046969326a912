/** Small value types and numeric helpers shared by every module of the model.
    - Option<T>: a value that may be absent (Python's None, a missing dict key).
    - Result<T>: a value or an error message (Python's raised exceptions, Go's error returns).
    - Python and Go numeric conversions that differ from Dafny's own operators. */
module Wrappers {

  datatype Option<T> = None | Some(value: T)

  datatype Result<T> = Ok(value: T) | Err(msg: string)

  function Abs(x: real): real {
    if x < 0.0 then -x else x
  }

  function MinR(a: real, b: real): real {
    if a <= b then a else b
  }

  function MaxR(a: real, b: real): real {
    if a >= b then a else b
  }

  function MinI(a: int, b: int): int {
    if a <= b then a else b
  }

  function MaxI(a: int, b: int): int {
    if a >= b then a else b
  }

  /** Python's `math.floor` on a float. */
  function Floor(x: real): int {
    x.Floor
  }

  /** Python's `int(x)` and Go's `int(x)` on a float: truncation toward zero. */
  function Trunc(x: real): (n: int)
    ensures x >= 0.0 ==> n == x.Floor
    ensures Abs(n as real) <= Abs(x) < Abs(n as real) + 1.0
    ensures n != 0 ==> (n > 0 <==> x > 0.0)
  {
    if x >= 0.0 then x.Floor else -((-x).Floor)
  }

  lemma MulNonneg(a: real, b: real)
    ensures a >= 0.0 && b >= 0.0 ==> a * b >= 0.0
  {
  }

  /** Python's `s[-count:]` on a list: the whole list for count 0, the last `count`
      elements for 0 < count <= |s|, and for a negative count the list without its
      first |count| elements. */
  function PyTail<T>(s: seq<T>, count: int): (r: seq<T>)
    ensures |r| <= |s| && r == s[|s| - |r|..]
    ensures |r| == if count == 0 then |s|
                   else if count > 0 then (if count < |s| then count else |s|)
                   else (if |s| + count > 0 then |s| + count else 0)
    ensures count == 0 ==> r == s
  {
    if count == 0 then s
    else if count > 0 then (if count >= |s| then s else s[|s| - count..])
    else if -count <= |s| then s[-count..] else []
  }
}
