/** The order in which the input videos are listed and joined: lexicographic
 *  order on names, the sort the directory listing goes through, and the fact
 *  that a set of names has exactly one sorted listing. */
module Order {

  /** `a` comes no later than `b` in lexicographic order. */
  predicate Below(a: string, b: string)
    decreases |a|
  {
    |a| == 0 || (|b| > 0 && (a[0] < b[0] || (a[0] == b[0] && Below(a[1..], b[1..]))))
  }

  lemma {:induction false} BelowReflexive(a: string)
    ensures Below(a, a)
    decreases |a|
  {
    if |a| > 0 {
      BelowReflexive(a[1..]);
    }
  }

  lemma {:induction false} BelowTotal(a: string, b: string)
    ensures Below(a, b) || Below(b, a)
    decreases |a|
  {
    if |a| > 0 && |b| > 0 && a[0] == b[0] {
      BelowTotal(a[1..], b[1..]);
    }
  }

  lemma {:induction false} BelowAntisymmetric(a: string, b: string)
    requires Below(a, b) && Below(b, a)
    ensures a == b
    decreases |a|
  {
    if |a| > 0 {
      BelowAntisymmetric(a[1..], b[1..]);
      assert a == [a[0]] + a[1..] && b == [b[0]] + b[1..];
    }
  }

  lemma {:induction false} BelowTransitive(a: string, b: string, c: string)
    requires Below(a, b) && Below(b, c)
    ensures Below(a, c)
    decreases |a|
  {
    if |a| > 0 && a[0] == b[0] && b[0] == c[0] {
      BelowTransitive(a[1..], b[1..], c[1..]);
    }
  }

  predicate Sorted(s: seq<string>) {
    forall i, j :: 0 <= i < j < |s| ==> Below(s[i], s[j])
  }

  /** A name no later than the head of a sorted listing is no later than any
   *  of its entries. */
  lemma BelowHead(x: string, s: seq<string>)
    requires Sorted(s) && |s| > 0 && Below(x, s[0])
    ensures forall j :: 0 <= j < |s| ==> Below(x, s[j])
  {
    forall j | 0 < j < |s| ensures Below(x, s[j]) {
      BelowTransitive(x, s[0], s[j]);
    }
  }

  /** A name below `x` and below every entry of `u` is below every entry of a
   *  listing holding the entries of `u` and `x`. */
  lemma LowerBound(y: string, x: string, u: seq<string>, t: seq<string>)
    requires multiset(t) == multiset(u) + multiset{x}
    requires Below(y, x) && forall k :: 0 <= k < |u| ==> Below(y, u[k])
    ensures forall j :: 0 <= j < |t| ==> Below(y, t[j])
  {
    forall j | 0 <= j < |t| ensures Below(y, t[j]) {
      assert t[j] in multiset(t);
      if t[j] != x {
        assert t[j] in multiset(u);
        var k :| 0 <= k < |u| && u[k] == t[j];
      }
    }
  }

  /** Inserts `x` into a sorted listing, before the first entry it is below. */
  function Insert(x: string, s: seq<string>): (r: seq<string>)
    requires Sorted(s)
    ensures Sorted(r) && multiset(r) == multiset(s) + multiset{x}
  {
    if s == [] then [x]
    else if Below(x, s[0]) then
      BelowHead(x, s);
      [x] + s
    else
      BelowTotal(x, s[0]);
      assert s == [s[0]] + s[1..];
      var t := Insert(x, s[1..]);
      assert forall k :: 0 <= k < |s[1..]| ==> Below(s[0], s[1..][k]) by {
        forall k | 0 <= k < |s[1..]| ensures Below(s[0], s[1..][k]) {
          assert s[1..][k] == s[k + 1];
        }
      }
      LowerBound(s[0], x, s[1..], t);
      [s[0]] + t
  }

  /** The sort of the directory listing (Java's `Stream.sorted()`): a sorted
   *  permutation of its input. */
  function Sort(s: seq<string>): (r: seq<string>)
    ensures Sorted(r) && multiset(r) == multiset(s)
  {
    if s == [] then []
    else
      assert s == [s[0]] + s[1..];
      Insert(s[0], Sort(s[1..]))
  }

  /** The head of a sorted listing is below every name in it. */
  lemma HeadIsLeast(a: seq<string>, x: string)
    requires Sorted(a) && x in multiset(a)
    ensures Below(a[0], x)
  {
    var i :| 0 <= i < |a| && a[i] == x;
    if i == 0 {
      BelowReflexive(x);
    }
  }

  /** The tail of a non-empty listing holds its names but the head. */
  lemma DropHead(a: seq<string>)
    requires |a| > 0
    ensures a == [a[0]] + a[1..] && multiset(a[1..]) == multiset(a) - multiset{a[0]}
    ensures Sorted(a) ==> Sorted(a[1..])
  {
    assert a == [a[0]] + a[1..];
  }

  /** Two sorted listings of the same names are the same listing: however the
   *  folder enumerates its files, the sorted listing is determined. */
  lemma {:induction false} SortedUnique(a: seq<string>, b: seq<string>)
    requires Sorted(a) && Sorted(b) && multiset(a) == multiset(b)
    ensures a == b
    decreases |a|
  {
    if a == [] {
      assert |b| == |multiset(b)| == 0;
    } else {
      assert |b| == |multiset(b)| > 0;
      HeadIsLeast(b, a[0]);
      HeadIsLeast(a, b[0]);
      BelowAntisymmetric(a[0], b[0]);
      DropHead(a);
      DropHead(b);
      SortedUnique(a[1..], b[1..]);
    }
  }

  /** The sorted listing of a set of names. */
  ghost function SortedElements(s: set<string>): (r: seq<string>)
    ensures Sorted(r) && multiset(r) == multiset(s)
    decreases s
  {
    if s == {} then []
    else
      var x :| x in s;
      assert multiset(s - {x}) + multiset{x} == multiset(s);
      Insert(x, SortedElements(s - {x}))
  }
}
