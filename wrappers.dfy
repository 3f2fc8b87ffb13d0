/** Failure-carrying results. The error side is the text of the exception the
    Python code would raise (what `str(e)` yields in the handler's catch-all). */
module Wrappers {

  datatype Option<T> = None | Some(value: T)

  /** A value, or the message of the exception that prevented it. */
  datatype Result<T> = Ok(value: T) | Err(message: string)

  /** Success or the message of the exception raised by an effect. */
  datatype Outcome = Pass | Fail(message: string)

  /** `t` occurs somewhere inside `s`. */
  ghost predicate Contains(s: string, t: string)
  {
    exists i :: OccursAt(s, t, i)
  }

  /** `t` occurs in `s` starting at index `i`. */
  ghost predicate OccursAt(s: string, t: string, i: int)
  {
    0 <= i && i + |t| <= |s| && s[i..i + |t|] == t
  }

  /** The middle of a concatenation occurs in it. */
  lemma ContainsMiddle(a: string, t: string, b: string)
    ensures Contains(a + t + b, t)
  {
    assert (a + t + b)[|a|..|a| + |t|] == t;
    assert OccursAt(a + t + b, t, |a|);
  }

  /** What occurs in a part occurs in the whole. */
  lemma ContainsWithin(a: string, s: string, b: string, t: string)
    requires Contains(s, t)
    ensures Contains(a + s + b, t)
  {
    var k :| OccursAt(s, t, k);
    assert (a + s + b)[|a| + k..|a| + k + |t|] == s[k..k + |t|];
    assert OccursAt(a + s + b, t, |a| + k);
  }

  lemma ContainsSelf(t: string)
    ensures Contains(t, t)
  {
    assert t[0..|t|] == t;
    assert OccursAt(t, t, 0);
  }

  lemma ContainsBefore(s: string, b: string, t: string)
    requires Contains(s, t)
    ensures Contains(s + b, t)
  {
    var k :| OccursAt(s, t, k);
    assert (s + b)[k..k + |t|] == s[k..k + |t|];
    assert OccursAt(s + b, t, k);
  }

  lemma ContainsAfter(a: string, s: string, t: string)
    requires Contains(s, t)
    ensures Contains(a + s, t)
  {
    var k :| OccursAt(s, t, k);
    assert (a + s)[|a| + k..|a| + k + |t|] == s[k..k + |t|];
    assert OccursAt(a + s, t, |a| + k);
  }
}
