/** The value-level behaviour of the deque that the interpreter's `Stack`
    is built on. A deque is modelled by the sequence of its elements from
    the left end to the right end; the right end is the top of the stack.
    Operations that raise IndexError in the source return `Err(IndexError)`. */
module StackSpec {

  datatype Error = IndexError

  datatype Result<T> = Ok(value: T) | Err(error: Error)

  /** `deque.append(v)`: `v` becomes the new right end (the top). */
  function Append<T>(s: seq<T>, v: T): (r: seq<T>)
    ensures |r| == |s| + 1
    ensures r[|s|] == v
    ensures r[..|s|] == s
  {
    s + [v]
  }

  /** `deque[i]`: a non-negative index counts from the left end, a negative
      one from the right end (`-1` is the rightmost element); anything
      outside `-|s| <= i < |s|` raises IndexError. */
  function Subscript<T>(s: seq<T>, i: int): (r: Result<T>)
    ensures r.Ok? <==> -|s| <= i < |s|
    ensures 0 <= i < |s| ==> r == Ok(s[i])
    ensures -|s| <= i < 0 ==> r == Ok(s[|s| + i])
  {
    if 0 <= i < |s| then Ok(s[i])
    else if -|s| <= i < 0 then Ok(s[|s| + i])
    else Err(IndexError)
  }

  /** `deque.pop()`: removes and returns the right end; raises IndexError
      on an empty deque. On success the result is the popped value and the
      remaining elements. */
  function PopRight<T>(s: seq<T>): (r: Result<(T, seq<T>)>)
    ensures r.Ok? <==> |s| > 0
    ensures r.Ok? ==> s == Append(r.value.1, r.value.0)
  {
    if |s| == 0 then Err(IndexError) else Ok((s[|s| - 1], s[..|s| - 1]))
  }

  /** Pushing the elements of `vs` one after another, first to last. */
  function AppendAll<T>(s: seq<T>, vs: seq<T>): (r: seq<T>)
    ensures r == s + vs
    decreases |vs|
  {
    if |vs| == 0 then s
    else Append(AppendAll(s, vs[..|vs| - 1]), vs[|vs| - 1])
  }

  /** Popping `n` times in a row. On success the result holds the popped
      values in the order they came off and what is left of the stack;
      the first underflow stops the sequence with IndexError. */
  function PopMany<T>(s: seq<T>, n: nat): (r: Result<(seq<T>, seq<T>)>)
    ensures r.Ok? <==> n <= |s|
    ensures r.Ok? ==> |r.value.0| == n && r.value.1 == s[..|s| - n]
    ensures r.Ok? ==> forall k :: 0 <= k < n ==> r.value.0[k] == s[|s| - 1 - k]
    decreases n
  {
    if n == 0 then Ok(([], s))
    else
      match PopRight(s)
      case Err(e) => Err(e)
      case Ok((v, rest)) =>
        match PopMany(rest, n - 1)
        case Err(e) => Err(e)
        case Ok((vs, left)) => Ok(([v] + vs, left))
  }

  /** `top()` (that is, `self[-1]`) sees what `pop()` would remove. */
  lemma TopIsWhatPopRemoves<T>(s: seq<T>)
    ensures Subscript(s, -1).Ok? <==> PopRight(s).Ok?
    ensures PopRight(s).Ok? ==> Subscript(s, -1).value == PopRight(s).value.0
  {
  }

  /** After `push(v)`, `top()` returns `v`. */
  lemma TopAfterPush<T>(s: seq<T>, v: T)
    ensures Subscript(Append(s, v), -1) == Ok(v)
  {
  }

  /** `pop()` undoes `push(v)`: it returns `v` and restores the old contents. */
  lemma PopAfterPush<T>(s: seq<T>, v: T)
    ensures PopRight(Append(s, v)) == Ok((v, s))
  {
  }

  /** Last in, first out: after pushing `vs`, popping `|vs|` times yields
      the elements of `vs` in reverse order and leaves the stack as it was. */
  lemma LastInFirstOut<T>(s: seq<T>, vs: seq<T>)
    ensures PopMany(AppendAll(s, vs), |vs|).Ok?
    ensures PopMany(AppendAll(s, vs), |vs|).value.1 == s
    ensures forall k :: 0 <= k < |vs| ==>
              PopMany(AppendAll(s, vs), |vs|).value.0[k] == vs[|vs| - 1 - k]
  {
  }
}
