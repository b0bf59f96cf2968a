/** Facts about sequences that the tree walks and the event traces share. */
module Sequences {

  predicate NoDup<T(==)>(s: seq<T>)
  {
    forall i, j :: 0 <= i < j < |s| ==> s[i] != s[j]
  }

  /** Where `x` stands in `s`, or the length when it is absent. */
  ghost function Pos<T>(s: seq<T>, x: T): (p: nat)
    ensures p <= |s|
    ensures x in s ==> p < |s| && s[p] == x
  {
    if x in s then
      var i :| 0 <= i < |s| && s[i] == x;
      i
    else |s|
  }

  lemma PosUnique<T>(s: seq<T>, k: nat)
    requires NoDup(s) && k < |s|
    ensures Pos(s, s[k]) == k
  {
    var p := Pos(s, s[k]);
    assert s[p] == s[k];
  }

  lemma PosAppend<T>(s: seq<T>, x: T, y: T)
    requires NoDup(s) && y !in s
    ensures NoDup(s + [y])
    ensures x in s ==> Pos(s + [y], x) == Pos(s, x)
    ensures Pos(s + [y], y) == |s|
  {
    var t := s + [y];
    assert forall i :: 0 <= i < |s| ==> t[i] == s[i];
    PosUnique(t, |s|);
    if x in s {
      PosUnique(t, Pos(s, x));
    }
  }

  /** The prefix ending with the first occurrence of `x`; the whole sequence when there is none. */
  function Through<T(==)>(s: seq<T>, x: T): seq<T>
  {
    if s == [] then [] else if s[0] == x then [x] else [s[0]] + Through(s[1..], x)
  }

  /** The prefix stopping just before the first occurrence of `x`; everything when there is none. */
  function Before<T(==)>(s: seq<T>, x: T): seq<T>
  {
    if s == [] || s[0] == x then [] else [s[0]] + Before(s[1..], x)
  }

  lemma {:induction false} BeforeStops<T>(s: seq<T>, x: T)
    ensures x !in Before(s, x)
    ensures Before(s, x) <= s
    ensures x !in s ==> Before(s, x) == s
  {
    if s != [] && s[0] != x {
      BeforeStops(s[1..], x);
      assert s == [s[0]] + s[1..];
    }
  }

  lemma BeforeIsPrefix<T>(s: seq<T>, x: T)
    requires x in s && NoDup(s)
    ensures Before(s, x) == s[..Pos(s, x)]
  {
    BeforeStops(s, x);
    ThroughIsPrefix(s, x);
    PosUnique(s, |Before(s, x)|);
  }

  lemma {:induction false} ThroughIsPrefix<T>(s: seq<T>, x: T)
    ensures x in s ==> Through(s, x) == Before(s, x) + [x] && Through(s, x) <= s
    ensures x !in s ==> Through(s, x) == s
  {
    if s != [] && s[0] != x {
      ThroughIsPrefix(s[1..], x);
      assert s == [s[0]] + s[1..];
    }
  }

  lemma {:induction false} BeforeExtend<T>(s: seq<T>, t: seq<T>, x: T)
    requires x !in s
    ensures Before(s + t, x) == s + Before(t, x)
  {
    if s == [] {
      assert s + t == t;
    } else {
      assert (s + t)[1..] == s[1..] + t;
      BeforeExtend(s[1..], t, x);
    }
  }
}
