/** The few facts about multisets and sequences that many proofs share. */
module Collections {
  lemma {:induction false} Cancel<T>(a: multiset<T>, b: multiset<T>, x: T)
    requires a + multiset{x} == b + multiset{x}
    ensures a == b
  {
    assert a == a + multiset{x} - multiset{x};
    assert b == b + multiset{x} - multiset{x};
  }

  lemma {:induction false} Regroup<T>(a: seq<T>, b: seq<T>, c: seq<T>)
    ensures a + b + c == a + (b + c)
  {
  }

  lemma {:induction false} TakeOneMore<T>(s: seq<T>, n: nat)
    requires n < |s|
    ensures s[..n + 1] == s[..n] + [s[n]] && s[..n + 1][..n] == s[..n]
  {
  }

  lemma {:induction false} TakeAll<T>(s: seq<T>)
    ensures s[..0] == [] && s[..|s|] == s
  {
  }

  lemma {:induction false} DropAppended<T>(base: seq<T>, all: seq<T>, more: seq<T>)
    requires base <= all
    ensures base <= all + more && (all + more)[|base|..] == all[|base|..] + more
  {
  }

  lemma {:induction false} TailSlices<T>(s: seq<T>, i: nat)
    requires 0 < i <= |s|
    ensures s[..i][1..] == s[1..][..i - 1] && s[i..] == s[1..][i - 1..]
  {
  }

  lemma {:induction false} DropPastFirst<T>(x: T, s: seq<T>, i: nat)
    requires 0 < i <= |s| + 1
    ensures ([x] + s)[i..] == s[i - 1..]
  {
  }
}
