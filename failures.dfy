/** Optional values (Java's null) and the connector's exceptions as values. */
module Failures {

  /** A value that may be absent: Java's null becomes None. */
  datatype Option<+T> = None | Some(value: T)

  /** The Java exceptions the modelled code raises, each with its message. */
  datatype Exception =
    | IOException(message: string)
    | InvalidConfigurationException(message: string)
    | IllegalArgumentException(message: string)
    | URISyntaxException(message: string)
    | IllegalStateException(message: string)
    | NullPointerException(message: string)

  /** A call that returns a value or throws. */
  datatype Result<+T> = Ok(value: T) | Err(error: Exception) {
    predicate IsFailure() { Err? }

    function PropagateFailure<U>(): Result<U>
      requires Err?
    {
      Err(error)
    }

    function Extract(): T
      requires Ok?
    {
      value
    }
  }

  /** True when t occurs in s as a contiguous piece. */
  ghost predicate Contains(s: string, t: string) {
    exists i :: 0 <= i <= |s| && OccursAt(s, t, i)
  }

  /** True when t occurs in s starting at index i. */
  predicate OccursAt(s: string, t: string, i: nat) {
    i + |t| <= |s| && s[i..i + |t|] == t
  }

  lemma ContainsSuffix(p: string, t: string)
    ensures Contains(p + t, t)
  {
    var s := p + t;
    assert s[|p|..|p| + |t|] == t;
    assert OccursAt(s, t, |p|);
  }

  lemma ContainsPrefix(t: string, q: string)
    ensures Contains(t + q, t)
  {
    var s := t + q;
    assert s[0..|t|] == t;
    assert OccursAt(s, t, 0);
  }
}
