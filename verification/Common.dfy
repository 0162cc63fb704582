// Vocabulary shared by the models.
module Common {
  datatype Option<+T> = None | Some(value: T)

  datatype Result<+T, +E> = Ok(value: T) | Err(error: E)

  /** How a write to the store ends: done; not done; or done, but reported as an error. */
  datatype Write = Works | Fails | Unreported

  function Get<K, V>(m: map<K, V>, k: K, default: V): V {
    if k in m then m[k] else default
  }

  /** The last n elements of s; a negative n means no limit, as LIMIT does in SQLite. */
  function LastN<T>(s: seq<T>, n: int): (r: seq<T>)
    ensures |r| == if n < 0 || |s| < n then |s| else n
    ensures r == s[|s| - |r|..]
  {
    if n < 0 || |s| <= n then s else s[|s| - n..]
  }

  /** A non-empty set of ids has an element to pick. */
  lemma Inhabited(s: set<int>)
    ensures s != {} ==> exists x: int :: x in s
  {
    if forall x: int :: x !in s {
      assert s == {};
    }
  }
}
