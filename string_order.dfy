/** The order `Array.prototype.sort()` uses on strings when it is given no
    comparator (character by character, a proper prefix first), and the
    sorted duplicate-free list `Array.from(new Set(xs)).sort()` builds. */
module StringOrder {
  import opened Seqs

  /** `a` sorts strictly before `b`. */
  predicate Less(a: string, b: string) {
    if a == [] then b != []
    else if b == [] then false
    else if a[0] != b[0] then a[0] < b[0]
    else Less(a[1..], b[1..])
  }

  lemma {:induction false} LessIrreflexive(a: string)
    ensures !Less(a, a)
  {
    if a != [] {
      LessIrreflexive(a[1..]);
    }
  }

  lemma {:induction false} LessTrichotomy(a: string, b: string)
    ensures a == b || Less(a, b) || Less(b, a)
  {
    if a != [] && b != [] && a[0] == b[0] {
      LessTrichotomy(a[1..], b[1..]);
      if a[1..] == b[1..] {
        assert a == [a[0]] + a[1..] && b == [b[0]] + b[1..];
      }
    }
  }

  lemma {:induction false} LessAsymmetric(a: string, b: string)
    requires Less(a, b)
    ensures !Less(b, a)
  {
    if a != [] && b != [] && a[0] == b[0] {
      LessAsymmetric(a[1..], b[1..]);
    }
  }

  lemma {:induction false} LessTransitive(a: string, b: string, c: string)
    requires Less(a, b) && Less(b, c)
    ensures Less(a, c)
  {
    if a != [] && b != [] && c != [] && a[0] == b[0] && b[0] == c[0] {
      LessTransitive(a[1..], b[1..], c[1..]);
    }
  }

  /** Strictly increasing, hence without duplicates. */
  predicate Sorted(s: seq<string>) {
    forall i, j :: 0 <= i < j < |s| ==> Less(s[i], s[j])
  }

  lemma SortedNoDuplicates(s: seq<string>)
    requires Sorted(s)
    ensures NoDuplicates(s)
  {
    forall i, j | 0 <= i < j < |s| ensures s[i] != s[j] {
      LessIrreflexive(s[i]);
    }
  }

  /** A non-empty strictly increasing list is its head followed by a
      strictly increasing list of larger strings. */
  lemma SortedCons(x: string, s: seq<string>)
    requires Sorted(s)
    requires forall y :: y in s ==> Less(x, y)
    ensures Sorted([x] + s)
  {
    var r := [x] + s;
    forall i, j | 0 <= i < j < |r| ensures Less(r[i], r[j]) {
      if i > 0 {
        assert r[i] == s[i - 1] && r[j] == s[j - 1];
      } else {
        assert r[j] == s[j - 1];
      }
    }
  }

  /** Puts `x` into its place in a sorted list, unless it is there already. */
  function Insert(x: string, s: seq<string>): (r: seq<string>)
    requires Sorted(s)
    ensures Sorted(r)
    ensures forall y :: y in r <==> y == x || y in s
  {
    if s == [] then [x]
    else if x == s[0] then s
    else if Less(x, s[0]) then
      assert forall y :: y in s ==> Less(x, y) by {
        forall y | y in s ensures Less(x, y) {
          var k :| 0 <= k < |s| && s[k] == y;
          if k > 0 {
            LessTransitive(x, s[0], y);
          }
        }
      }
      SortedCons(x, s);
      [x] + s
    else
      assert Sorted(s[1..]) by {
        forall i, j | 0 <= i < j < |s[1..]| ensures Less(s[1..][i], s[1..][j]) {
          assert s[1..][i] == s[i + 1] && s[1..][j] == s[j + 1];
        }
      }
      var rest := Insert(x, s[1..]);
      assert forall y :: y in rest ==> Less(s[0], y) by {
        forall y | y in rest ensures Less(s[0], y) {
          if y == x {
            LessTrichotomy(x, s[0]);
          } else {
            var k :| 1 <= k < |s| && s[k] == y;
          }
        }
      }
      SortedCons(s[0], rest);
      assert s == [s[0]] + s[1..];
      [s[0]] + rest
  }

  /** `Array.from(new Set(xs)).sort()`: the distinct strings of `xs`, in
      increasing order. */
  function SortUnique(xs: seq<string>): (r: seq<string>)
    ensures Sorted(r)
    ensures NoDuplicates(r)
    ensures forall y :: y in r <==> y in xs
  {
    if xs == [] then []
    else
      var r := Insert(xs[0], SortUnique(xs[1..]));
      assert forall y :: y in xs <==> y == xs[0] || y in xs[1..] by {
        assert xs == [xs[0]] + xs[1..];
      }
      SortedNoDuplicates(r);
      r
  }

  /** There is only one strictly increasing list with a given set of
      elements, so the catalogue does not depend on the order in which the
      strings were first seen. */
  lemma {:induction false} SortedUniqueness(a: seq<string>, b: seq<string>)
    requires Sorted(a) && Sorted(b)
    requires forall y :: y in a <==> y in b
    ensures a == b
    decreases |a|
  {
    assert a != [] ==> a[0] in b;
    assert b != [] ==> b[0] in a;
    if a != [] && b != [] {
      if a[0] != b[0] {
        assert b[0] in a && a[0] in b;
        var k :| 0 <= k < |a| && a[k] == b[0];
        var m :| 0 <= m < |b| && b[m] == a[0];
        assert k > 0 && m > 0;
        assert Less(a[0], b[0]) && Less(b[0], a[0]);
        LessAsymmetric(a[0], b[0]);
        assert false;
      }
      SortedNoDuplicates(a);
      SortedNoDuplicates(b);
      assert Sorted(a[1..]) by {
        forall i, j | 0 <= i < j < |a[1..]| ensures Less(a[1..][i], a[1..][j]) {
          assert a[1..][i] == a[i + 1] && a[1..][j] == a[j + 1];
        }
      }
      assert Sorted(b[1..]) by {
        forall i, j | 0 <= i < j < |b[1..]| ensures Less(b[1..][i], b[1..][j]) {
          assert b[1..][i] == b[i + 1] && b[1..][j] == b[j + 1];
        }
      }
      forall y ensures y in a[1..] <==> y in b[1..] {
        if y in a[1..] {
          var k :| 0 <= k < |a[1..]| && a[1..][k] == y;
          assert y == a[k + 1] && y != a[0];
          assert y in b;
          var m :| 0 <= m < |b| && b[m] == y;
          assert m != 0;
          assert b[1..][m - 1] == y;
        }
        if y in b[1..] {
          var m :| 0 <= m < |b[1..]| && b[1..][m] == y;
          assert y == b[m + 1] && y != b[0];
          assert y in a;
          var k :| 0 <= k < |a| && a[k] == y;
          assert k != 0;
          assert a[1..][k - 1] == y;
        }
      }
      SortedUniqueness(a[1..], b[1..]);
      assert a == [a[0]] + a[1..] && b == [b[0]] + b[1..];
    }
  }
}
