/** Types shared by every component of the gateway model. */
module Basics {

  datatype Option<+T> = None | Some(value: T)

  function Last<T>(s: seq<T>): T
    requires s != []
  {
    s[|s| - 1]
  }

  function Max(a: int, b: int): int {
    if a < b then b else a
  }

  function Min(a: int, b: int): int {
    if a < b then a else b
  }

  /** `s` can be read off `t` from left to right, skipping elements of `t`. */
  ghost predicate Subsequence<T(!new)>(s: seq<T>, t: seq<T>) {
    s == [] || (t != [] && (Subsequence(s, t[..|t| - 1]) ||
                            (Last(s) == Last(t) && Subsequence(s[..|s| - 1], t[..|t| - 1]))))
  }

  /** Elements appended to the longer sequence may also be appended to the shorter one, or not. */
  lemma {:induction false} SubsequenceExtends<T(!new)>(s: seq<T>, t: seq<T>, more: seq<T>)
    requires Subsequence(s, t)
    ensures Subsequence(s, t + more)
    ensures Subsequence(s + more, t + more)
    decreases more
  {
    if more == [] {
      assert s + more == s && t + more == t;
    } else {
      var init := more[..|more| - 1];
      SubsequenceExtends(s, t, init);
      assert (t + more)[..|t + more| - 1] == t + init;
      assert (s + more)[..|s + more| - 1] == s + init;
    }
  }
}
