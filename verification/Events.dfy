/** What the event loop and its clients share. */
module Events {

  /** File descriptors as the program stores them: -1 marks a closed slot. */
  type Fd = int

  datatype EventReturn = StopLoop | SkipOtherFd | Nothing

  function One(b: bool): nat {
    if b then 1 else 0
  }

  ghost predicate Distinct<T>(s: seq<T>) {
    forall i, j | 0 <= i < j < |s| :: s[i] != s[j]
  }

  lemma DistinctCons<T>(x: T, s: seq<T>)
    requires Distinct(s) && x !in s
    ensures Distinct([x] + s)
  {
    var all := [x] + s;
    forall i, j | 0 <= i < j < |all| ensures all[i] != all[j] {
      assert all[j] == s[j - 1] && s[j - 1] in s;
    }
  }

  lemma Associative<T>(a: seq<T>, b: seq<T>, c: seq<T>)
    ensures a + b + c == a + (b + c)
  {}

  /** An upper bound of a set of descriptors. */
  lemma Bound(fds: set<Fd>) returns (m: Fd)
    ensures m >= 0 && forall f | f in fds :: f <= m
    decreases |fds|
  {
    m := 0;
    if f :| f in fds {
      m := Bound(fds - {f});
      assert forall g | g in fds :: g == f || g in fds - {f};
      m := if f > m then f else m;
    }
  }
}
