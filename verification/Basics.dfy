/** Containers and enumerations shared by every part of the model. */
module Basics {

  datatype Option<+T> = None | Some(value: T) {
    function GetOr(default: T): T {
      if Some? then value else default
    }
  }

  function Lookup<K, V>(m: map<K, V>, k: K): Option<V> {
    if k in m then Some(m[k]) else None
  }

  ghost predicate Distinct<T>(s: seq<T>) {
    forall i, j :: 0 <= i < j < |s| ==> s[i] != s[j]
  }

  ghost function Elements<T>(s: seq<T>): set<T> {
    set x | x in s
  }

  /** `s` lists every member of `xs` once: one of the orders in which a hash set may be walked. */
  ghost predicate Enumerates<T>(s: seq<T>, xs: set<T>) {
    Distinct(s) && Elements(s) == xs
  }

  lemma ElementsAppend<T>(s: seq<T>, x: T)
    ensures Elements(s + [x]) == Elements(s) + {x}
    ensures Distinct(s + [x]) <==> Distinct(s) && x !in s
  {
    assert forall y :: y in s + [x] <==> y in s || y == x;
    if x in s {
      var i :| 0 <= i < |s| && s[i] == x;
      assert (s + [x])[i] == (s + [x])[|s|];
    } else if Distinct(s + [x]) {
      forall i, j | 0 <= i < j < |s|
        ensures s[i] != s[j]
      {
        assert (s + [x])[i] == s[i] && (s + [x])[j] == s[j];
      }
    }
  }

  lemma ElementsConcat<T>(s: seq<T>, t: seq<T>)
    ensures Elements(s + t) == Elements(s) + Elements(t)
  {
    assert forall y :: y in s + t <==> y in s || y in t;
  }

  lemma EnumeratesConcat<T>(s: seq<T>, xs: set<T>, t: seq<T>, ys: set<T>)
    requires Enumerates(s, xs) && Enumerates(t, ys) && xs !! ys
    ensures Enumerates(s + t, xs + ys)
  {
    ElementsConcat(s, t);
    assert forall i :: 0 <= i < |s| ==> s[i] in Elements(s);
    assert forall i :: 0 <= i < |t| ==> t[i] in Elements(t);
  }

  lemma Enumeration<T>(xs: set<T>) returns (s: seq<T>)
    ensures Enumerates(s, xs)
  {
    s := [];
    var rest := xs;
    while rest != {}
      invariant Distinct(s) && rest <= xs && Elements(s) == xs - rest
    {
      var x :| x in rest;
      ElementsAppend(s, x);
      s, rest := s + [x], rest - {x};
    }
  }
}
