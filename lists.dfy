/** Element-wise operations on sequences that the C++ code writes as
    range-for loops: transforming every element, keeping the elements that
    pass a test, removing every element that matches. */
module Lists {
  import opened Wrappers

  /** `f` applied to every element, in order. */
  function Map<T, U>(xs: seq<T>, f: T -> U): (r: seq<U>)
    ensures |r| == |xs|
  {
    if xs == [] then [] else [f(xs[0])] + Map(xs[1..], f)
  }

  /** The element at each position is transformed in place. */
  lemma {:induction false} MapAt<T, U>(xs: seq<T>, f: T -> U, k: nat)
    requires k < |xs|
    ensures Map(xs, f)[k] == f(xs[k])
    decreases k
  {
    var r := Map(xs, f);
    assert r == [f(xs[0])] + Map(xs[1..], f);
    if k > 0 {
      MapAt(xs[1..], f, k - 1);
      assert r[k] == Map(xs[1..], f)[k - 1];
      assert xs[1..][k - 1] == xs[k];
    }
  }

  /** The first element and the rest of a transformed sequence. */
  lemma MapHead<T, U>(xs: seq<T>, f: T -> U)
    requires xs != []
    ensures Map(xs, f)[0] == f(xs[0]) && Map(xs, f)[1..] == Map(xs[1..], f)
  {
  }

  /** One more element transformed by a mapping loop. */
  lemma MapSnoc<T, U>(xs: seq<T>, i: nat, f: T -> U)
    requires i < |xs|
    ensures Map(xs[..i + 1], f) == Map(xs[..i], f) + [f(xs[i])]
  {
    assert xs[..i + 1] == xs[..i] + [xs[i]];
    MapAppend(xs[..i], [xs[i]], f);
  }

  lemma {:induction false} MapAppend<T, U>(a: seq<T>, b: seq<T>, f: T -> U)
    ensures Map(a + b, f) == Map(a, f) + Map(b, f)
    decreases |a|
  {
    if a == [] {
      assert a + b == b;
    } else {
      assert (a + b)[1..] == a[1..] + b;
      MapAppend(a[1..], b, f);
    }
  }

  /** Mapping with `f` is mapping with `g` and then `h` wherever `f` is
      their composition. */
  lemma {:induction false} MapCompose<T, U, V>(xs: seq<T>, g: T -> U, h: U -> V, f: T -> V)
    requires forall x :: x in xs ==> f(x) == h(g(x))
    ensures Map(xs, f) == Map(Map(xs, g), h)
    decreases |xs|
  {
    if xs != [] {
      assert forall x :: x in xs[1..] ==> x in xs;
      MapCompose(xs[1..], g, h, f);
    }
  }

  /** The elements for which `keep` holds, in their order. */
  function Filter<T>(xs: seq<T>, keep: T -> bool): (r: seq<T>)
    ensures |r| <= |xs|
  {
    if xs == [] then []
    else (if keep(xs[0]) then [xs[0]] else []) + Filter(xs[1..], keep)
  }

  lemma {:induction false} FilterAppend<T>(a: seq<T>, b: seq<T>, keep: T -> bool)
    ensures Filter(a + b, keep) == Filter(a, keep) + Filter(b, keep)
    decreases |a|
  {
    if a == [] {
      assert a + b == b;
    } else {
      var head := if keep(a[0]) then [a[0]] else [];
      assert (a + b)[0] == a[0];
      assert (a + b)[1..] == a[1..] + b;
      FilterAppend(a[1..], b, keep);
      assert Filter(a + b, keep) == head + (Filter(a[1..], keep) + Filter(b, keep));
      assert Filter(a, keep) == head + Filter(a[1..], keep);
    }
  }

  /** One more element considered by a filtering loop. */
  lemma FilterSnoc<T>(xs: seq<T>, i: nat, keep: T -> bool)
    requires i < |xs|
    ensures Filter(xs[..i + 1], keep) == Filter(xs[..i], keep) + (if keep(xs[i]) then [xs[i]] else [])
  {
    assert xs[..i + 1] == xs[..i] + [xs[i]];
    FilterAppend(xs[..i], [xs[i]], keep);
  }

  /** An element is kept iff it passes the test. */
  lemma {:induction false} FilterMembers<T>(xs: seq<T>, keep: T -> bool, x: T)
    ensures x in Filter(xs, keep) <==> x in xs && keep(x)
    decreases |xs|
  {
    if xs != [] {
      FilterMembers(xs[1..], keep, x);
      assert xs == [xs[0]] + xs[1..];
    }
  }

  /** Every element kept passes the test. */
  lemma {:induction false} FilterPasses<T>(xs: seq<T>, keep: T -> bool, k: nat)
    requires k < |Filter(xs, keep)|
    ensures keep(Filter(xs, keep)[k])
  {
    FilterMembers(xs, keep, Filter(xs, keep)[k]);
  }

  /** Filtering with a test every element passes changes nothing. */
  lemma {:induction false} FilterAll<T>(xs: seq<T>, keep: T -> bool)
    requires forall k :: 0 <= k < |xs| ==> keep(xs[k])
    ensures Filter(xs, keep) == xs
    decreases |xs|
  {
    if xs != [] {
      FilterAll(xs[1..], keep);
      assert xs == [xs[0]] + xs[1..];
    }
  }

  /** Filtering twice with the same test is filtering once. */
  lemma FilterIdempotent<T>(xs: seq<T>, keep: T -> bool)
    ensures Filter(Filter(xs, keep), keep) == Filter(xs, keep)
  {
    var kept := Filter(xs, keep);
    forall k | 0 <= k < |kept| ensures keep(kept[k]) {
      FilterPasses(xs, keep, k);
    }
    FilterAll(kept, keep);
  }

  // ---------------------------------------------------------------------------
  // Lists of records keyed by an id: `std::ranges::find`, replacement of the
  // element found, `std::erase_if`.
  // ---------------------------------------------------------------------------

  /** The position of the first element at or after `k` that matches. */
  function FindFrom<T>(xs: seq<T>, matches: T -> bool, k: nat): (r: Option<nat>)
    requires k <= |xs|
    ensures r.Some? ==> k <= r.value < |xs| && matches(xs[r.value])
    ensures r.Some? ==> forall j :: k <= j < r.value ==> !matches(xs[j])
    ensures r.None? ==> forall j :: k <= j < |xs| ==> !matches(xs[j])
    decreases |xs| - k
  {
    if k == |xs| then None
    else if matches(xs[k]) then Some(k)
    else FindFrom(xs, matches, k + 1)
  }

  /** The position of the first element that matches, if any. */
  function FindFirst<T>(xs: seq<T>, matches: T -> bool): (r: Option<nat>)
    ensures r.Some? ==> r.value < |xs| && matches(xs[r.value]) && forall j :: 0 <= j < r.value ==> !matches(xs[j])
    ensures r.None? <==> forall j :: 0 <= j < |xs| ==> !matches(xs[j])
  {
    FindFrom(xs, matches, 0)
  }

  /** The first element that matches takes the place of `x`; without one,
      nothing changes. */
  function ReplaceFirst<T>(xs: seq<T>, matches: T -> bool, x: T): (r: seq<T>)
    ensures |r| == |xs|
    ensures forall j :: 0 <= j < |xs| ==> r[j] == (if FindFirst(xs, matches) == Some(j) then x else xs[j])
  {
    match FindFirst(xs, matches)
    case Some(i) => xs[i := x]
    case None => xs
  }

  /** Every element that matches removed, the others in their order. */
  function RemoveAll<T>(xs: seq<T>, matches: T -> bool): (r: seq<T>)
    ensures |r| <= |xs|
  {
    Filter(xs, x => !matches(x))
  }

  /** An element stays iff it was there and does not match. */
  lemma RemoveAllMembers<T>(xs: seq<T>, matches: T -> bool, x: T)
    ensures x in RemoveAll(xs, matches) <==> x in xs && !matches(x)
  {
    FilterMembers(xs, x => !matches(x), x);
  }

  /** Removing a second time changes nothing. */
  lemma RemoveAllIdempotent<T>(xs: seq<T>, matches: T -> bool)
    ensures RemoveAll(RemoveAll(xs, matches), matches) == RemoveAll(xs, matches)
  {
    FilterIdempotent(xs, x => !matches(x));
  }

  /** Removing from a list with no match changes nothing. */
  lemma RemoveAllAbsent<T>(xs: seq<T>, matches: T -> bool)
    requires forall j :: 0 <= j < |xs| ==> !matches(xs[j])
    ensures RemoveAll(xs, matches) == xs
  {
    FilterAll(xs, x => !matches(x));
  }

  /** Removal commutes with appending: an element added at the end is kept
      or dropped on its own. */
  lemma RemoveAllSnoc<T>(xs: seq<T>, matches: T -> bool, x: T)
    ensures RemoveAll(xs + [x], matches) == RemoveAll(xs, matches) + (if matches(x) then [] else [x])
  {
    FilterAppend(xs, [x], x => !matches(x));
    assert [x][1..] == [];
  }

  /** After appending `x`, the first match is the old one if there was
      one, else `x` itself when it matches. */
  lemma FindFirstSnoc<T>(xs: seq<T>, matches: T -> bool, x: T)
    ensures FindFirst(xs + [x], matches)
         == if FindFirst(xs, matches).Some? then FindFirst(xs, matches)
            else if matches(x) then Some(|xs|) else None
  {
    var ys := xs + [x];
    if FindFirst(xs, matches).Some? {
      var i := FindFirst(xs, matches).value;
      assert ys[i] == xs[i];
      FindFirstUnique(ys, matches, i);
    } else if matches(x) {
      assert forall j :: 0 <= j < |xs| ==> ys[j] == xs[j];
      FindFirstUnique(ys, matches, |xs|);
    } else {
      assert forall j :: 0 <= j < |ys| ==> j < |xs| ==> ys[j] == xs[j];
    }
  }

  /** A matching position with no match before it is the first match. */
  lemma FindFirstUnique<T>(xs: seq<T>, matches: T -> bool, i: nat)
    requires i < |xs| && matches(xs[i])
    requires forall j :: 0 <= j < i ==> !matches(xs[j])
    ensures FindFirst(xs, matches) == Some(i)
  {
  }

  /** Replacing the first match by an element that matches keeps the
      position of the first match, and that position now holds the new
      element. */
  lemma FindFirstReplace<T>(xs: seq<T>, matches: T -> bool, x: T)
    requires matches(x)
    ensures FindFirst(ReplaceFirst(xs, matches, x), matches) == FindFirst(xs, matches)
    ensures FindFirst(xs, matches).Some? ==> ReplaceFirst(xs, matches, x)[FindFirst(xs, matches).value] == x
  {
    var ys := ReplaceFirst(xs, matches, x);
    match FindFirst(xs, matches)
    case Some(i) =>
      assert ys[i] == x;
      assert forall j :: 0 <= j < i ==> ys[j] == xs[j];
      FindFirstUnique(ys, matches, i);
    case None =>
      assert ys == xs;
  }

  /** After removing every match, nothing matches. */
  lemma FindFirstRemoved<T>(xs: seq<T>, matches: T -> bool)
    ensures FindFirst(RemoveAll(xs, matches), matches) == None
  {
    var ys := RemoveAll(xs, matches);
    forall j | 0 <= j < |ys| ensures !matches(ys[j]) {
      RemoveAllMembers(xs, matches, ys[j]);
    }
  }
}
