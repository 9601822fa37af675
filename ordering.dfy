/**
 * The order JavaScript's `Array.prototype.sort` puts strings in when given no
 * comparator, and the list `Array.from(new Set(values)).sort()` produces:
 * every distinct value once, ascending.
 */
module Ordering {

  /** `a` sorts strictly before `b`: the first differing character decides, and a
      proper prefix comes first. */
  predicate Below(a: string, b: string)
  {
    if |a| == 0 then |b| != 0
    else if |b| == 0 then false
    else if a[0] != b[0] then a[0] < b[0]
    else Below(a[1..], b[1..])
  }

  lemma {:induction false} BelowIrreflexive(a: string)
    ensures !Below(a, a)
  {
    if |a| != 0 {
      BelowIrreflexive(a[1..]);
    }
  }

  lemma {:induction false} BelowTransitive(a: string, b: string, c: string)
    requires Below(a, b) && Below(b, c)
    ensures Below(a, c)
  {
    if |a| != 0 && |b| != 0 && |c| != 0 && a[0] == b[0] && b[0] == c[0] {
      BelowTransitive(a[1..], b[1..], c[1..]);
    }
  }

  /** Any two different strings are ordered one way or the other. */
  lemma {:induction false} BelowTotal(a: string, b: string)
    requires a != b
    ensures Below(a, b) || Below(b, a)
  {
    if |a| != 0 && |b| != 0 && a[0] == b[0] {
      assert a == [a[0]] + a[1..] && b == [b[0]] + b[1..];
      BelowTotal(a[1..], b[1..]);
    }
  }

  /** Ascending without repeats. */
  predicate StrictlySorted(s: seq<string>)
  {
    forall i, j :: 0 <= i < j < |s| ==> Below(s[i], s[j])
  }

  /** A strictly sorted list holds each of its values exactly once. */
  lemma SortedIsDistinct(s: seq<string>)
    requires StrictlySorted(s)
    ensures forall i, j :: 0 <= i < |s| && 0 <= j < |s| && i != j ==> s[i] != s[j]
  {
    forall i, j | 0 <= i < |s| && 0 <= j < |s| && i != j
      ensures s[i] != s[j]
    {
      if i < j {
        BelowIrreflexive(s[i]);
      } else {
        BelowIrreflexive(s[j]);
      }
    }
  }

  /** A value below the head of a strictly sorted list is below all of it. */
  lemma BelowHeadBelowAll(x: string, s: seq<string>)
    requires StrictlySorted(s) && |s| != 0 && Below(x, s[0])
    ensures forall y :: y in s ==> Below(x, y)
  {
    forall y | y in s
      ensures Below(x, y)
    {
      if y != s[0] {
        BelowTransitive(x, s[0], y);
      }
    }
  }

  /** `x` added to a strictly sorted list, in its place, unless already there. */
  function Insert(x: string, s: seq<string>): (r: seq<string>)
    requires StrictlySorted(s)
    ensures StrictlySorted(r)
    ensures forall y :: y in r <==> y == x || y in s
  {
    if |s| == 0 then [x]
    else if x == s[0] then s
    else if Below(x, s[0]) then
      BelowHeadBelowAll(x, s);
      [x] + s
    else
      BelowTotal(x, s[0]);
      var rest := Insert(x, s[1..]);
      assert forall y :: y in rest ==> Below(s[0], y);
      [s[0]] + rest
  }

  /** `Array.from(new Set(values.filter(Boolean))).sort()`: the distinct non-empty
      values, ascending. */
  function SortedDistinct(values: seq<string>): (r: seq<string>)
    ensures StrictlySorted(r)
    ensures forall v :: v in r <==> v in values && v != ""
  {
    if |values| == 0 then []
    else if values[0] == "" then SortedDistinct(values[1..])
    else Insert(values[0], SortedDistinct(values[1..]))
  }

  lemma BelowAsymmetric(a: string, b: string)
    ensures !(Below(a, b) && Below(b, a))
  {
    BelowIrreflexive(a);
    if Below(a, b) && Below(b, a) {
      BelowTransitive(a, b, a);
    }
  }

  /** The head of a strictly sorted list is below every other value in it. */
  lemma HeadIsLeast(s: seq<string>, x: string)
    requires StrictlySorted(s) && x in s
    ensures s[0] == x || Below(s[0], x)
  {
    var j :| 0 <= j < |s| && s[j] == x;
    if j != 0 {
      assert Below(s[0], s[j]);
    }
  }

  /** A strictly sorted list is fixed by the values it holds: there is only one
      ascending duplicate-free arrangement of a set of strings. */
  lemma {:induction false} SortedUnique(a: seq<string>, b: seq<string>)
    requires StrictlySorted(a) && StrictlySorted(b)
    requires forall x :: x in a <==> x in b
    ensures a == b
    decreases |a|
  {
    assert |a| != 0 ==> a[0] in a;
    assert |b| != 0 ==> b[0] in b;
    if |a| != 0 && |b| != 0 {
      HeadIsLeast(b, a[0]);
      HeadIsLeast(a, b[0]);
      BelowAsymmetric(a[0], b[0]);
      BelowIrreflexive(a[0]);
      assert a == [a[0]] + a[1..] && b == [b[0]] + b[1..];
      forall x
        ensures x in a[1..] <==> x in b[1..]
      {
        if x in a[1..] {
          var i :| 1 <= i < |a| && a[i] == x;
          assert Below(a[0], x) && x in b && x != b[0];
        }
        if x in b[1..] {
          var i :| 1 <= i < |b| && b[i] == x;
          assert Below(b[0], x) && x in a && x != a[0];
        }
      }
      SortedUnique(a[1..], b[1..]);
    }
  }
}
