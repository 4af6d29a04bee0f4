/** Taking one element out of a sequence, as LREM does on a list and spending does on a set of codes. */
module Lists {

  /** `s` without its first `x`; `s` itself when there is none. */
  function RemoveFirst<T(==)>(s: seq<T>, x: T): (r: seq<T>)
    ensures x !in s ==> r == s
    ensures forall y :: y in r ==> y in s
    ensures forall y :: y in s && y != x ==> y in r
    ensures |r| <= |s|
  {
    if s == [] then []
    else if s[0] == x then s[1..]
    else [s[0]] + RemoveFirst(s[1..], x)
  }

  lemma {:induction false} RemoveFirstTakesOne<T>(s: seq<T>, x: T)
    requires x in s
    ensures multiset(RemoveFirst(s, x)) == multiset(s) - multiset{x}
  {
    assert s == [s[0]] + s[1..];
    if s[0] != x {
      RemoveFirstTakesOne(s[1..], x);
    }
  }

  lemma {:induction false} RemoveFirstSnoc<T>(s: seq<T>, y: T, x: T)
    ensures RemoveFirst(s + [y], x) == if x in s then RemoveFirst(s, x) + [y] else if y == x then s else s + [y]
  {
    if s == [] {
      assert [] + [y] == [y];
    } else {
      assert s == [s[0]] + s[1..];
      assert (s + [y])[1..] == s[1..] + [y];
      RemoveFirstSnoc(s[1..], y, x);
    }
  }
}
