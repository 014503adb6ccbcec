/** Outcomes of the application's handlers, and one predicate on lists. */
module Common {

  /** The Python exceptions the random helpers raise on bad catalogs:
      `random.choice` of an empty list raises IndexError, `random.sample`
      with more items than the population and `random.randint(lo, hi)`
      with lo > hi raise ValueError. */
  datatype PyError = IndexError | ValueError

  /** Either the handler's result or the exception that stopped it. */
  datatype Result<T> = Ok(value: T) | Err(error: PyError)

  datatype Option<T> = None | Some(value: T)

  /** No element occurs twice. */
  ghost predicate Distinct<T>(s: seq<T>)
  {
    forall i, j :: 0 <= i < j < |s| ==> s[i] != s[j]
  }

  /** Concatenation regroups; stated once so that proofs about text built
      piece by piece need not rediscover it element by element. */
  lemma ConcatAssoc<T>(a: seq<T>, b: seq<T>, c: seq<T>)
    ensures (a + b) + c == a + (b + c)
  {
  }
}
