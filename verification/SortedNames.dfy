/** Lists of names in ascending order, as sort.Strings leaves them. */
module SortedNames {
  /** Lexicographic order. */
  predicate Le(a: string, b: string) {
    a == "" || (b != "" && (a[0] < b[0] || (a[0] == b[0] && Le(a[1..], b[1..]))))
  }

  lemma {:induction false} LeTotal(a: string, b: string)
    ensures Le(a, b) || Le(b, a)
    ensures Le(a, b) && Le(b, a) ==> a == b
  {
    if a != "" && b != "" {
      LeTotal(a[1..], b[1..]);
      assert a == [a[0]] + a[1..] && b == [b[0]] + b[1..];
    }
  }

  lemma {:induction false} LeTransitive(a: string, b: string, c: string)
    requires Le(a, b) && Le(b, c)
    ensures Le(a, c)
  {
    if a != "" && a[0] == b[0] == c[0] {
      LeTransitive(a[1..], b[1..], c[1..]);
    }
  }

  /** In ascending order and without duplicates. */
  ghost predicate Ascending(s: seq<string>) {
    forall i, j :: 0 <= i < j < |s| ==> Le(s[i], s[j]) && s[i] != s[j]
  }

  /** Insert a new name where it belongs. */
  function Insert(x: string, s: seq<string>): (r: seq<string>)
    ensures forall y :: y in r <==> y == x || y in s
  {
    if s == [] || Le(x, s[0]) then [x] + s
    else
      assert s == [s[0]] + s[1..];
      [s[0]] + Insert(x, s[1..])
  }

  lemma {:induction false} InsertAscending(x: string, s: seq<string>)
    requires Ascending(s) && x !in s
    ensures Ascending(Insert(x, s))
  {
    if s != [] {
      LeTotal(x, s[0]);
      if Le(x, s[0]) {
        forall y | y in s
          ensures Le(x, y)
        {
          if y != s[0] {
            LeTransitive(x, s[0], y);
          }
        }
      } else {
        InsertAscending(x, s[1..]);
        forall y | y in Insert(x, s[1..])
          ensures Le(s[0], y) && s[0] != y
        {
        }
      }
    }
  }

  /** The elements of a set in ascending order. */
  ghost function SortedOf(names: set<string>): (r: seq<string>)
    ensures Ascending(r) && forall x :: x in r <==> x in names
  {
    if names == {} then []
    else
      var x :| x in names;
      InsertAscending(x, SortedOf(names - {x}));
      Insert(x, SortedOf(names - {x}))
  }

  /** There is one ascending list of the elements of a set. */
  lemma {:induction false} AscendingUnique(a: seq<string>, b: seq<string>)
    requires Ascending(a) && Ascending(b) && forall x :: x in a <==> x in b
    ensures a == b
    decreases |a|
  {
    assert b != [] ==> b[0] in b;
    if a != [] {
      assert a[0] in b && b != [] && b[0] in a;
      LeTotal(a[0], b[0]);
      assert a[0] == b[0];
      assert a == [a[0]] + a[1..] && b == [b[0]] + b[1..];
      assert forall x :: x in a[1..] <==> x in a && x != a[0];
      assert forall x :: x in b[1..] <==> x in b && x != b[0];
      AscendingUnique(a[1..], b[1..]);
    }
  }

  /** The elements of a set, taken in any order, and sorted. */
  method SortStrings(names: set<string>) returns (r: seq<string>)
    ensures r == SortedOf(names)
  {
    r := [];
    var left := names;
    while left != {}
      invariant left <= names && Ascending(r)
      invariant forall x :: x in r <==> x in names && x !in left
      decreases |left|
    {
      var x :| x in left;
      InsertAscending(x, r);
      r := Insert(x, r);
      left := left - {x};
    }
    AscendingUnique(r, SortedOf(names));
  }
}
