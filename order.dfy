/** The order `Array.prototype.sort` uses when given no comparator: strings compared
    character by character, a proper prefix first. Every string the generator sorts is
    ASCII, so comparing code points and comparing UTF-16 code units agree. */
module StringOrder {

  /** `a` sorts strictly before `b`. */
  predicate Below(a: string, b: string)
  {
    if a == [] then b != []
    else b != [] && (a[0] < b[0] || (a[0] == b[0] && Below(a[1..], b[1..])))
  }

  lemma {:induction false} BelowIrreflexive(a: string)
    ensures !Below(a, a)
  {
    if a != [] {
      BelowIrreflexive(a[1..]);
    }
  }

  lemma {:induction false} BelowTransitive(a: string, b: string, c: string)
    requires Below(a, b) && Below(b, c)
    ensures Below(a, c)
  {
    if a != [] && a[0] == b[0] && b[0] == c[0] {
      BelowTransitive(a[1..], b[1..], c[1..]);
    }
  }

  lemma {:induction false} BelowTotal(a: string, b: string)
    requires a != b
    ensures Below(a, b) || Below(b, a)
  {
    if a != [] && b != [] && a[0] == b[0] {
      BelowTotal(a[1..], b[1..]);
    }
  }

  lemma BelowAsymmetric(a: string, b: string)
    requires Below(a, b)
    ensures !Below(b, a)
  {
    if Below(b, a) {
      BelowTransitive(a, b, a);
      BelowIrreflexive(a);
    }
  }

  /** Strictly increasing: sorted and free of duplicates. */
  ghost predicate Sorted(s: seq<string>)
  {
    forall i, j :: 0 <= i < j < |s| ==> Below(s[i], s[j])
  }

  /** Puts `x` into its place in a strictly increasing sequence, unless it is there already. */
  function Insert(x: string, s: seq<string>): (r: seq<string>)
    requires Sorted(s)
    ensures Sorted(r)
    ensures forall y :: y in r <==> y == x || y in s
  {
    if s == [] then [x]
    else if x == s[0] then s
    else if Below(x, s[0]) then
      assert forall j :: 0 <= j < |s| ==> Below(x, s[j]) by {
        forall j | 0 <= j < |s| ensures Below(x, s[j]) {
          if j > 0 { BelowTransitive(x, s[0], s[j]); }
        }
      }
      [x] + s
    else
      BelowTotal(x, s[0]);
      var t := Insert(x, s[1..]);
      assert forall y :: y in t ==> Below(s[0], y);
      [s[0]] + t
  }

  /** The strictly increasing sequence of the elements of `s`. */
  ghost function SortedSeq(s: set<string>): (r: seq<string>)
    ensures Sorted(r)
    ensures forall y :: y in r <==> y in s
    decreases |s|
  {
    if s == {} then []
    else
      var x :| x in s;
      Insert(x, SortedSeq(s - {x}))
  }

  /** A set has only one strictly increasing listing. */
  lemma {:induction false} SortedUnique(a: seq<string>, b: seq<string>)
    requires Sorted(a) && Sorted(b)
    requires forall y :: y in a <==> y in b
    ensures a == b
  {
    assert b != [] ==> b[0] in a;
    if a != [] {
      assert b != [] by { assert a[0] in b; }
      assert a[0] == b[0] by {
        if a[0] != b[0] {
          assert a[0] in b && b[0] in a;
          var k :| 0 <= k < |b| && b[k] == a[0];
          var m :| 0 <= m < |a| && a[m] == b[0];
          assert Below(b[0], a[0]) && Below(a[0], b[0]);
          BelowAsymmetric(a[0], b[0]);
        }
      }
      forall y ensures y in a[1..] <==> y in b[1..] {
        SortedTail(a, y);
        SortedTail(b, y);
      }
      SortedUnique(a[1..], b[1..]);
    }
  }

  lemma SortedTail(a: seq<string>, y: string)
    requires Sorted(a) && a != []
    ensures y in a[1..] <==> y in a && y != a[0]
  {
    if y in a[1..] {
      var k :| 1 <= k < |a| && a[k] == y;
      BelowIrreflexive(a[0]);
    }
    if y in a && y != a[0] {
      var k :| 0 <= k < |a| && a[k] == y;
      assert a[1..][k - 1] == y;
    }
  }

  /** `Array.from(set).sort()`: lists the set in increasing order. */
  method SortSet(items: set<string>) returns (sorted: seq<string>)
    ensures sorted == SortedSeq(items)
  {
    sorted := [];
    var rest := items;
    while rest != {}
      invariant rest <= items
      invariant Sorted(sorted)
      invariant forall y :: y in sorted <==> y in items - rest
      decreases |rest|
    {
      var x :| x in rest;
      sorted := Insert(x, sorted);
      rest := rest - {x};
    }
    SortedUnique(sorted, SortedSeq(items));
  }
}
