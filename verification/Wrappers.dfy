/** The optional values and sequence helpers every other module uses. */
module Wrappers {
  datatype Option<+T> = None | Some(value: T)

  /** The rows of `s` that satisfy `keep`, in order. */
  ghost function Count<T>(s: seq<T>, keep: T -> bool): (n: nat)
    ensures n <= |s|
  {
    if s == [] then 0 else Count(s[..|s| - 1], keep) + if keep(s[|s| - 1]) then 1 else 0
  }

  lemma {:induction false} CountAppend<T>(s: seq<T>, x: T, keep: T -> bool)
    ensures Count(s + [x], keep) == Count(s, keep) + if keep(x) then 1 else 0
  {
    assert (s + [x])[..|s|] == s;
  }

  /** Overwriting one row moves the count by that row's own contribution. */
  lemma {:induction false} CountUpdate<T>(s: seq<T>, i: nat, x: T, keep: T -> bool)
    requires i < |s|
    ensures Count(s[i := x], keep) + (if keep(s[i]) then 1 else 0) == Count(s, keep) + (if keep(x) then 1 else 0)
  {
    var t := s[i := x];
    if i == |s| - 1 {
      assert t[..|s| - 1] == s[..|s| - 1];
    } else {
      CountUpdate(s[..|s| - 1], i, x, keep);
      assert t[..|s| - 1] == s[..|s| - 1][i := x];
    }
  }

  lemma {:induction false} CountNone<T>(s: seq<T>, keep: T -> bool)
    requires forall k :: 0 <= k < |s| ==> !keep(s[k])
    ensures Count(s, keep) == 0
  {
    if s != [] { CountNone(s[..|s| - 1], keep); }
  }

  lemma {:induction false} CountAtMostOne<T>(s: seq<T>, keep: T -> bool)
    requires forall k, l :: 0 <= k < l < |s| ==> !(keep(s[k]) && keep(s[l]))
    ensures Count(s, keep) <= 1
  {
    if s != [] {
      var init := s[..|s| - 1];
      CountAtMostOne(init, keep);
      if keep(s[|s| - 1]) { CountNone(init, keep); }
    }
  }
}
