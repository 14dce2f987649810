/** Small value types shared by every module of the model. */
module Base {

  /** Rust's `Option` and JavaScript's `null`/`undefined` for an absent value. */
  datatype Option<+T> = None | Some(value: T)

  /** Rust's `Result`. */
  datatype Result<+T, +E> = Ok(value: T) | Err(error: E)

  function Min(a: int, b: int): int { if a <= b then a else b }

  function Max(a: int, b: int): int { if a >= b then a else b }

  /** A non-empty sequence is its front followed by its last element. */
  lemma FrontAndLast<T>(s: seq<T>)
    requires s != []
    ensures s[..|s| - 1] + [s[|s| - 1]] == s
  {
  }

  /** Appending two elements is appending one, then the other. */
  lemma AppendTwo<T>(s: seq<T>, a: T, b: T)
    ensures s + [a, b] == (s + [a]) + [b]
  {
  }

  /** Appending an element leaves the front as it was. */
  lemma FrontOfAppend<T>(s: seq<T>, x: T)
    ensures (s + [x])[..|s|] == s && (s + [x])[|s|] == x
  {
  }

  lemma ConcatAssoc<T>(a: seq<T>, b: seq<T>, c: seq<T>)
    ensures (a + b) + c == a + (b + c)
  {
  }

  /** The three pieces of `a + b + c` sit at their offsets. */
  lemma ThreePieces<T>(a: seq<T>, b: seq<T>, c: seq<T>)
    ensures var s := a + b + c;
      s[..|a|] == a && s[|a|..|a| + |b|] == b && s[|a| + |b|..] == c
  {
  }

  /** A non-empty sequence is its first element followed by the rest. */
  lemma FrontAndRest<T>(s: seq<T>)
    requires s != []
    ensures [s[0]] + s[1..] == s
  {
  }
}
