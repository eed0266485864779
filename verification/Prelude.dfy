/** Shared vocabulary: optional values, Python truthiness, and sums over sequences. */
module Prelude {

  datatype Option<+T> = None | Some(value: T)

  /** Clock readings and durations, in seconds. */
  type Time = real

  /** `if x:` for an optional string: neither None nor "". */
  predicate Truthy(o: Option<string>) {
    o.Some? && o.value != ""
  }

  function RemoveAt<T>(s: seq<T>, i: nat): seq<T>
    requires i < |s|
  {
    s[..i] + s[i + 1..]
  }

  /** s followed by the element of o, if there is one. */
  function Push<T>(s: seq<T>, o: Option<T>): seq<T> {
    match o
    case None => s
    case Some(x) => s + [x]
  }

  function Sum<T>(f: T -> nat, s: seq<T>): nat {
    if s == [] then 0 else f(s[0]) + Sum(f, s[1..])
  }

  lemma {:induction false} SumConcat<T>(f: T -> nat, a: seq<T>, b: seq<T>)
    ensures Sum(f, a + b) == Sum(f, a) + Sum(f, b)
  {
    if a == [] {
      assert a + b == b;
    } else {
      assert (a + b)[1..] == a[1..] + b;
      SumConcat(f, a[1..], b);
    }
  }

  lemma SumRemove<T>(f: T -> nat, s: seq<T>, i: nat)
    requires i < |s|
    ensures Sum(f, s) == Sum(f, RemoveAt(s, i)) + f(s[i])
  {
    var rest := [s[i]] + s[i + 1..];
    assert rest[1..] == s[i + 1..] && s == s[..i] + rest;
    SumConcat(f, s[..i], rest);
    SumConcat(f, s[..i], s[i + 1..]);
  }

  lemma SumPush<T>(f: T -> nat, s: seq<T>, o: Option<T>)
    ensures Sum(f, Push(s, o)) == Sum(f, s) + (if o.Some? then f(o.value) else 0)
  {
    if o.Some? {
      SumConcat(f, s, [o.value]);
    }
  }

  /** Taking out element i and adding at most one new element, in one equation. */
  lemma SumReplace<T>(f: T -> nat, s: seq<T>, i: nat, o: Option<T>)
    requires i < |s|
    ensures Sum(f, Push(RemoveAt(s, i), o)) + f(s[i]) == Sum(f, s) + (if o.Some? then f(o.value) else 0)
  {
    SumRemove(f, s, i);
    SumPush(f, RemoveAt(s, i), o);
  }

  /** Replacing element i, in one equation. */
  lemma SumUpdate<T>(f: T -> nat, s: seq<T>, i: nat, x: T)
    requires i < |s|
    ensures Sum(f, s[i := x]) + f(s[i]) == Sum(f, s) + f(x)
  {
    SumRemove(f, s, i);
    SumRemove(f, s[i := x], i);
    assert RemoveAt(s[i := x], i) == RemoveAt(s, i);
  }

  lemma {:induction false} SumPositive<T>(f: T -> nat, s: seq<T>)
    ensures Sum(f, s) > 0 <==> exists x <- s :: f(x) > 0
  {
    if s != [] {
      SumPositive(f, s[1..]);
      assert forall x :: x in s <==> x == s[0] || x in s[1..];
    }
  }

  lemma {:induction false} SumMonotone<T>(f: T -> nat, g: T -> nat, s: seq<T>)
    requires forall x <- s :: f(x) <= g(x)
    ensures Sum(f, s) <= Sum(g, s)
  {
    if s != [] { SumMonotone(f, g, s[1..]); }
  }

  /** When only one unit is there and element i has it, no other element has any. */
  lemma SumOnlyOne<T>(f: T -> nat, s: seq<T>, i: nat, j: nat)
    requires i < |s| && j < |s| && i != j && Sum(f, s) <= 1 && f(s[i]) >= 1
    ensures f(s[j]) == 0
  {
    SumRemove(f, s, i);
    var rest := RemoveAt(s, i);
    assert s[j] == rest[if j < i then j else j - 1];
    SumPositive(f, rest);
  }

  /** Every element of the new sequence was there before, or is the added one. */
  lemma ReplaceMembers<T>(s: seq<T>, i: nat, o: Option<T>)
    requires i < |s|
    ensures forall x :: x in Push(RemoveAt(s, i), o) ==> x in s || o == Some(x)
    ensures forall x :: x in RemoveAt(s, i) ==> x in s
  {
  }
}
