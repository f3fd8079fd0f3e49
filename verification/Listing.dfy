// Lists of strings in order: what `sort` and then `dedup` leave behind.
module Listing {

  // The order of Rust strings: by the first character in which they differ.
  predicate Less(a: string, b: string) {
    b != [] && (a == [] || a[0] < b[0] || (a[0] == b[0] && Less(a[1..], b[1..])))
  }

  lemma {:induction false} LessTrichotomy(a: string, b: string)
    ensures Less(a, b) || a == b || Less(b, a)
    ensures !(Less(a, b) && Less(b, a)) && (a == b ==> !Less(a, b))
  {
    if a != [] && b != [] && a[0] == b[0] {
      LessTrichotomy(a[1..], b[1..]);
      assert a == [a[0]] + a[1..] && b == [b[0]] + b[1..];
    }
  }

  lemma {:induction false} LessTransitive(a: string, b: string, c: string)
    requires Less(a, b) && Less(b, c)
    ensures Less(a, c)
  {
    if a != [] && a[0] == b[0] && b[0] == c[0] {
      LessTransitive(a[1..], b[1..], c[1..]);
    }
  }

  // `a` and `b` are alike up to place `k`, where `a` ends or has the lower character.
  predicate DiffersAt(a: string, b: string, k: nat) {
    k < |b| && k <= |a| && a[..k] == b[..k] && (k == |a| || a[k] < b[k])
  }

  // The order is that of the first place where the two differ, a prefix coming first.
  lemma {:induction false} LessExactly(a: string, b: string)
    ensures Less(a, b) <==> exists k: nat :: DiffersAt(a, b, k)
  {
    if Less(a, b) {
      LessDiffers(a, b);
    }
    if k: nat :| DiffersAt(a, b, k) {
      DiffersLess(a, b, k);
    }
  }

  lemma {:induction false} LessDiffers(a: string, b: string)
    requires Less(a, b)
    ensures exists k: nat :: DiffersAt(a, b, k)
  {
    if a != [] && a[0] == b[0] {
      LessDiffers(a[1..], b[1..]);
      var k: nat :| DiffersAt(a[1..], b[1..], k);
      assert a[..k + 1] == [a[0]] + a[1..][..k] && b[..k + 1] == [b[0]] + b[1..][..k];
      assert DiffersAt(a, b, k + 1);
    } else {
      assert DiffersAt(a, b, 0);
    }
  }

  lemma {:induction false} DiffersLess(a: string, b: string, k: nat)
    requires DiffersAt(a, b, k)
    ensures Less(a, b)
  {
    if k > 0 {
      assert a[..k][0] == a[0] && b[..k][0] == b[0];
      assert a[1..][..k - 1] == a[..k][1..] && b[1..][..k - 1] == b[..k][1..];
      DiffersLess(a[1..], b[1..], k - 1);
    }
  }

  predicate Sorted(xs: seq<string>) {
    forall i :: 0 < i < |xs| ==> !Less(xs[i], xs[i - 1])
  }

  predicate StrictlyIncreasing(xs: seq<string>) {
    forall i :: 0 < i < |xs| ==> Less(xs[i - 1], xs[i])
  }

  function Insert(x: string, xs: seq<string>): seq<string> {
    if xs == [] || Less(x, xs[0]) then [x] + xs else [xs[0]] + Insert(x, xs[1..])
  }

  // `sort`: the same strings in order.
  function Sort(xs: seq<string>): seq<string> {
    if xs == [] then [] else Insert(xs[0], Sort(xs[1..]))
  }

  lemma {:induction false} InsertSorts(x: string, xs: seq<string>)
    requires Sorted(xs)
    ensures var r := Insert(x, xs); Sorted(r) && r != [] && (r[0] == x || (xs != [] && r[0] == xs[0]))
  {
    hide Less;
    if xs != [] {
      LessTrichotomy(x, xs[0]);
      if !Less(x, xs[0]) {
        InsertSorts(x, xs[1..]);
      }
    }
  }

  lemma {:induction false} InsertAdds(x: string, xs: seq<string>)
    ensures multiset(Insert(x, xs)) == multiset(xs) + multiset{x}
  {
    hide Less;
    if xs != [] {
      assert xs == [xs[0]] + xs[1..];
      if !Less(x, xs[0]) {
        InsertAdds(x, xs[1..]);
      }
    }
  }

  lemma {:induction false} SortSorts(xs: seq<string>)
    ensures Sorted(Sort(xs)) && multiset(Sort(xs)) == multiset(xs)
  {
    if xs != [] {
      SortSorts(xs[1..]);
      InsertSorts(xs[0], Sort(xs[1..]));
      InsertAdds(xs[0], Sort(xs[1..]));
      assert xs == [xs[0]] + xs[1..];
    }
  }

  // `dedup`: of equal neighbours one stays.
  method Dedup(xs: seq<string>) returns (r: seq<string>)
    requires Sorted(xs)
    ensures StrictlyIncreasing(r)
    ensures forall x :: x in r <==> x in xs
  {
    r := [];
    for i := 0 to |xs|
      invariant StrictlyIncreasing(r)
      invariant (r == [] <==> i == 0) && (r != [] ==> r[|r| - 1] == xs[i - 1])
      invariant forall x :: x in r <==> x in xs[..i]
    {
      assert xs[..i + 1] == xs[..i] + [xs[i]];
      if r == [] || r[|r| - 1] != xs[i] {
        if r != [] {
          LessTrichotomy(xs[i - 1], xs[i]);
        }
        r := r + [xs[i]];
      }
    }
    assert xs[..|xs|] == xs;
  }

  lemma {:induction false} Ahead(xs: seq<string>, i: nat, j: nat)
    requires StrictlyIncreasing(xs) && i < j < |xs|
    ensures Less(xs[i], xs[j])
    decreases j
  {
    if i < j - 1 {
      Ahead(xs, i, j - 1);
      LessTransitive(xs[i], xs[j - 1], xs[j]);
    }
  }

  // Strictly increasing lists of the same strings are the same list.
  lemma {:induction false} OneListing(a: seq<string>, b: seq<string>)
    requires StrictlyIncreasing(a) && StrictlyIncreasing(b) && forall x :: x in a <==> x in b
    ensures a == b
  {
    assert a != [] ==> a[0] in b;
    assert b != [] ==> b[0] in a;
    if a != [] {
      FirstIsLeast(a, b);
      FirstIsLeast(b, a);
      LessTrichotomy(a[0], b[0]);
      RestOf(a, b);
      RestOf(b, a);
      OneListing(a[1..], b[1..]);
      assert a == [a[0]] + a[1..] && b == [b[0]] + b[1..];
    }
  }

  lemma FirstIsLeast(a: seq<string>, b: seq<string>)
    requires StrictlyIncreasing(b) && a != [] && b != [] && a[0] in b
    ensures a[0] == b[0] || Less(b[0], a[0])
  {
    var j :| 0 <= j < |b| && b[j] == a[0];
    if j > 0 {
      Ahead(b, 0, j);
    }
  }

  lemma RestOf(a: seq<string>, b: seq<string>)
    requires StrictlyIncreasing(a) && a != [] && b != [] && a[0] == b[0]
    requires forall x :: x in a ==> x in b
    ensures forall x :: x in a[1..] ==> x in b[1..]
  {
    forall x | x in a[1..] ensures x in b[1..] {
      var i :| 0 <= i < |a[1..]| && a[1..][i] == x;
      Ahead(a, 0, i + 1);
      LessTrichotomy(a[0], x);
      assert x in b && b == [b[0]] + b[1..];
    }
  }
}
