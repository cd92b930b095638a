// Small shared vocabulary: optional values, the outcome of a request handler, and a few
// facts about sequences.
module Base {

  datatype Option<+T> = None | Some(value: T)

  /** What a FastAPI handler ends with: a value, an `HTTPException(status_code, detail)`, or
      an unexpected Python exception, which the framework answers with status 500. */
  datatype Outcome<+T> = Ok(value: T) | HttpError(status: int, detail: string) | Crash

  function Min(a: int, b: int): int { if b < a then b else a }

  // Small facts about sequences, kept out of the larger proofs that use them.

  /** Moving one element from the front of the rest to the end of the prefix. */
  lemma ShiftOne<T>(prefix: seq<T>, x: T, rest: seq<T>, whole: seq<T>)
    requires prefix + ([x] + rest) == whole
    ensures (prefix + [x]) + rest == whole
  {
    assert (prefix + [x]) + rest == prefix + ([x] + rest);
  }

  lemma AppendAssoc<T>(a: seq<T>, b: seq<T>, c: seq<T>)
    ensures (a + b) + c == a + (b + c)
  {
  }

  /** Dropping the last element of `xs + ys`, for a non-empty `ys`. */
  lemma DropLastAppend<T>(xs: seq<T>, ys: seq<T>)
    requires ys != []
    ensures var whole := xs + ys;
      whole[..|whole| - 1] == xs + ys[..|ys| - 1] && whole[|whole| - 1] == ys[|ys| - 1]
  {
    var whole := xs + ys;
    assert whole[..|whole| - 1] == xs + ys[..|ys| - 1];
  }

  lemma SliceJoin<T>(s: seq<T>, i: nat, j: nat)
    requires i <= j <= |s|
    ensures s[..i] + s[i..j] == s[..j]
  {
  }

  lemma TakeOneMore<T>(s: seq<T>, i: nat)
    requires i < |s|
    ensures s[..i + 1] == s[..i] + [s[i]]
  {
  }
}
