/** Small shared vocabulary: optional values, integer helpers and sums of amounts. */
module Common {

  datatype Option<+T> = None | Some(value: T)

  /** The outcome of an operation that may throw: the value, or the error's message. */
  datatype Result<+T> = Success(value: T) | Failure(error: string)

  /** An argument that is either a single id or an array of ids. */
  datatype IdArg<T> = One(id: T) | Many(ids: seq<T>)

  /** `if (!Array.isArray(ids)) ids = [ids]` */
  function AsArray<T>(a: IdArg<T>): seq<T>
  {
    match a
    case One(x) => [x]
    case Many(xs) => xs
  }

  function Min(a: int, b: int): int { if a < b then a else b }

  function Max(a: int, b: int): int { if a < b then b else a }

  function Abs(a: int): int { if a < 0 then -a else a }

  /** -1, 0 or 1, the direction of a one-cent correction. */
  function Sign(a: int): int { if a > 0 then 1 else if a < 0 then -1 else 0 }

  /** Sum of a sequence of amounts (cents). */
  function Sum(s: seq<int>): int
  {
    if s == [] then 0 else Sum(s[..|s| - 1]) + s[|s| - 1]
  }

  lemma {:induction false} SumConcat(a: seq<int>, b: seq<int>)
    ensures Sum(a + b) == Sum(a) + Sum(b)
    decreases |b|
  {
    if b == [] {
      assert a + b == a;
    } else {
      assert (a + b)[..|a + b| - 1] == a + b[..|b| - 1];
      SumConcat(a, b[..|b| - 1]);
    }
  }

  /** Changing one element changes the sum by exactly the difference. */
  lemma {:induction false} SumUpdate(s: seq<int>, i: nat, v: int)
    requires i < |s|
    ensures Sum(s[i := v]) == Sum(s) - s[i] + v
    decreases |s|
  {
    var t := s[i := v];
    if i == |s| - 1 {
      assert t[..|t| - 1] == s[..|s| - 1];
    } else {
      assert t[..|t| - 1] == s[..|s| - 1][i := v];
      SumUpdate(s[..|s| - 1], i, v);
    }
  }
}
