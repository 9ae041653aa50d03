/** Sums of a natural-number weight over a sequence, used by the potential-function arguments. */
module Totals {

  function Total<T>(f: T -> nat, s: seq<T>): nat {
    if s == [] then 0 else f(s[0]) + Total(f, s[1..])
  }

  function RemoveAt<T>(s: seq<T>, i: nat): seq<T>
    requires i < |s|
  {
    s[..i] + s[i + 1..]
  }

  lemma {:induction false} TotalConcat<T>(f: T -> nat, a: seq<T>, b: seq<T>)
    ensures Total(f, a + b) == Total(f, a) + Total(f, b)
  {
    if a == [] {
      assert a + b == b;
    } else {
      assert (a + b)[1..] == a[1..] + b;
      TotalConcat(f, a[1..], b);
    }
  }

  lemma TotalSplit<T>(f: T -> nat, s: seq<T>, i: nat)
    requires i < |s|
    ensures Total(f, s) == Total(f, s[..i]) + f(s[i]) + Total(f, s[i + 1..])
  {
    assert s == s[..i] + ([s[i]] + s[i + 1..]);
    TotalConcat(f, s[..i], [s[i]] + s[i + 1..]);
  }

  lemma TotalRemove<T>(f: T -> nat, s: seq<T>, i: nat)
    requires i < |s|
    ensures Total(f, s) == f(s[i]) + Total(f, RemoveAt(s, i))
  {
    TotalSplit(f, s, i);
    TotalConcat(f, s[..i], s[i + 1..]);
  }

  lemma TotalUpdate<T>(f: T -> nat, s: seq<T>, i: nat, x: T)
    requires i < |s|
    ensures Total(f, s[i := x]) + f(s[i]) == Total(f, s) + f(x)
  {
    var t := s[i := x];
    TotalSplit(f, s, i);
    TotalSplit(f, t, i);
    assert t[..i] == s[..i] && t[i + 1..] == s[i + 1..];
  }

  lemma TotalOne<T>(f: T -> nat, x: T)
    ensures Total(f, [x]) == f(x)
  {
    assert [x][1..] == [];
  }

  lemma {:induction false} TotalMember<T>(f: T -> nat, s: seq<T>, i: nat)
    requires i < |s|
    ensures f(s[i]) <= Total(f, s)
  {
    TotalSplit(f, s, i);
  }
}
