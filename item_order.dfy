/** The order of cart lines: most recently added or updated first. `addToCart`
    sorts its new line array in place, comparing the two lines' timestamps
    with the later one first; the sort is stable, so lines
    with equal timestamps keep their relative order. `SortDesc` is that sort
    as a function (an insertion sort), `SortByAddedDesc` the in-place one. */
module ItemOrder {
  import opened CartTypes
  import opened Pricing

  ghost predicate SortedDesc(s: seq<CartItem>)
  {
    forall i, j :: 0 <= i < j < |s| ==> s[i].addedDateTime >= s[j].addedDateTime
  }

  /** No two lines share a product id. */
  ghost predicate UniqueIds(s: seq<CartItem>)
  {
    forall i, j :: 0 <= i < j < |s| ==> s[i].product.id != s[j].product.id
  }

  /** Inserts `x` into `t` after the last line of `t`'s tail whose timestamp is
      not smaller than `x`'s, moving past only strictly older lines. */
  function InsertDesc(t: seq<CartItem>, x: CartItem): seq<CartItem>
  {
    if |t| == 0 then [x]
    else if t[|t| - 1].addedDateTime >= x.addedDateTime then t + [x]
    else InsertDesc(t[..|t| - 1], x) + [t[|t| - 1]]
  }

  /** The stable sort by `addedDateTime`, most recent first. */
  function SortDesc(s: seq<CartItem>): seq<CartItem>
  {
    if |s| == 0 then [] else InsertDesc(SortDesc(s[..|s| - 1]), s[|s| - 1])
  }

  // ---------------------------------------------------------------------
  // Insertion

  lemma {:induction false} InsertDescPerm(t: seq<CartItem>, x: CartItem)
    ensures multiset(InsertDesc(t, x)) == multiset(t) + multiset{x}
    decreases |t|
  {
    if |t| > 0 && t[|t| - 1].addedDateTime < x.addedDateTime {
      var t' := t[..|t| - 1];
      assert t == t' + [t[|t| - 1]];
      InsertDescPerm(t', x);
    }
  }

  lemma {:induction false} InsertDescSorted(t: seq<CartItem>, x: CartItem)
    requires SortedDesc(t)
    ensures SortedDesc(InsertDesc(t, x))
    decreases |t|
  {
    if |t| > 0 {
      var t', y := t[..|t| - 1], t[|t| - 1];
      if y.addedDateTime < x.addedDateTime {
        InsertDescSorted(t', x);
        var r := InsertDesc(t', x);
        InsertDescPerm(t', x);
        forall z | z in r ensures z.addedDateTime >= y.addedDateTime {
          assert z in multiset(r);
          if z != x {
            assert z in t';
          }
        }
        assert forall i :: 0 <= i < |r| ==> r[i] in r;
      }
    }
  }

  lemma {:induction false} InsertDescUnique(t: seq<CartItem>, x: CartItem)
    requires UniqueIds(t)
    requires forall j :: 0 <= j < |t| ==> t[j].product.id != x.product.id
    ensures UniqueIds(InsertDesc(t, x))
    decreases |t|
  {
    if |t| > 0 {
      var t', y := t[..|t| - 1], t[|t| - 1];
      if y.addedDateTime < x.addedDateTime {
        InsertDescUnique(t', x);
        var r := InsertDesc(t', x);
        InsertDescPerm(t', x);
        forall z | z in r ensures z.product.id != y.product.id {
          assert z in multiset(r);
          if z != x {
            assert z in t';
          }
        }
        assert forall i :: 0 <= i < |r| ==> r[i] in r;
      }
    }
  }

  lemma {:induction false} InsertDescSubTotal(t: seq<CartItem>, x: CartItem)
    ensures SubTotal(InsertDesc(t, x)) == SubTotal(t) + Contribution(x)
    decreases |t|
  {
    if |t| == 0 {
      SubTotalSnoc([], x);
    } else if t[|t| - 1].addedDateTime >= x.addedDateTime {
      SubTotalSnoc(t, x);
    } else {
      var t', y := t[..|t| - 1], t[|t| - 1];
      assert t == t' + [y];
      InsertDescSubTotal(t', x);
      SubTotalSnoc(InsertDesc(t', x), y);
      SubTotalSnoc(t', y);
    }
  }

  // ---------------------------------------------------------------------
  // Sorting

  /** The sort only reorders: the result holds the same lines, as often. */
  lemma {:induction false} SortDescPerm(s: seq<CartItem>)
    ensures multiset(SortDesc(s)) == multiset(s)
    ensures |SortDesc(s)| == |s|
    decreases |s|
  {
    if |s| > 0 {
      var s' := s[..|s| - 1];
      assert s == s' + [s[|s| - 1]];
      SortDescPerm(s');
      InsertDescPerm(SortDesc(s'), s[|s| - 1]);
    }
    assert |multiset(SortDesc(s))| == |multiset(s)|;
  }

  /** The result is ordered most recent first. */
  lemma {:induction false} SortDescSorted(s: seq<CartItem>)
    ensures SortedDesc(SortDesc(s))
    decreases |s|
  {
    if |s| > 0 {
      SortDescSorted(s[..|s| - 1]);
      InsertDescSorted(SortDesc(s[..|s| - 1]), s[|s| - 1]);
    }
  }

  /** Lines already in order are left exactly as they are. */
  lemma {:induction false} SortDescOfSorted(s: seq<CartItem>)
    requires SortedDesc(s)
    ensures SortDesc(s) == s
    decreases |s|
  {
    if |s| > 0 {
      var s' := s[..|s| - 1];
      assert SortedDesc(s');
      SortDescOfSorted(s');
      assert s == s' + [s[|s| - 1]];
    }
  }

  /** Sorting keeps product ids unique. */
  lemma {:induction false} SortDescUnique(s: seq<CartItem>)
    requires UniqueIds(s)
    ensures UniqueIds(SortDesc(s))
    decreases |s|
  {
    if |s| > 0 {
      var s', x := s[..|s| - 1], s[|s| - 1];
      assert UniqueIds(s');
      SortDescUnique(s');
      SortDescPerm(s');
      var t := SortDesc(s');
      forall j | 0 <= j < |t| ensures t[j].product.id != x.product.id {
        assert t[j] in multiset(t);
      }
      InsertDescUnique(t, x);
    }
  }

  /** Sorting does not change the subtotal. */
  lemma {:induction false} SortDescSubTotal(s: seq<CartItem>)
    ensures SubTotal(SortDesc(s)) == SubTotal(s)
    decreases |s|
  {
    if |s| > 0 {
      var s', x := s[..|s| - 1], s[|s| - 1];
      assert s == s' + [x];
      SortDescSubTotal(s');
      InsertDescSubTotal(SortDesc(s'), x);
      SubTotalSnoc(s', x);
    }
  }

  /** Every line of the sorted sequence is a line of the input. */
  lemma SortDescMembers(s: seq<CartItem>)
    ensures forall j :: 0 <= j < |SortDesc(s)| ==> SortDesc(s)[j] in s
  {
    SortDescPerm(s);
    forall j | 0 <= j < |SortDesc(s)| ensures SortDesc(s)[j] in s {
      assert SortDesc(s)[j] in multiset(SortDesc(s));
    }
  }

  // ---------------------------------------------------------------------
  // The in-place sort

  /** Where the insertion lands: after the prefix `t[..j]` whose last line is
      not older than `x`, before the tail of strictly older lines. */
  lemma {:induction false} InsertDescSplit(t: seq<CartItem>, j: nat, x: CartItem)
    requires j <= |t|
    requires j == 0 || t[j - 1].addedDateTime >= x.addedDateTime
    requires forall k :: j <= k < |t| ==> t[k].addedDateTime < x.addedDateTime
    ensures InsertDesc(t, x) == t[..j] + [x] + t[j..]
    decreases |t|
  {
    if |t| == j {
      assert t[..j] == t && t[j..] == [];
    } else {
      var init, last := t[..|t| - 1], t[|t| - 1];
      InsertDescSplit(init, j, x);
      assert init[..j] == t[..j];
      assert init[j..] + [last] == t[j..];
    }
  }

  /** The array contents after the shifting loop, read as sequences: the
      prefix `t[..j]` kept, `x` placed at `j`, and `t[j..]` shifted right. */
  lemma ShiftedInsert(u: seq<CartItem>, t: seq<CartItem>, j: nat, x: CartItem)
    requires j <= |t| && |u| == |t| + 1
    requires forall k :: 0 <= k < j ==> u[k] == t[k]
    requires u[j] == x
    requires forall k :: j < k < |u| ==> u[k] == t[k - 1]
    ensures u == t[..j] + [x] + t[j..]
  {
  }

  /** One insertion step: moves `a[i]` left past the strictly older lines of
      the sorted prefix `a[..i]`. */
  method InsertAt(a: array<CartItem>, i: nat)
    requires i < a.Length
    modifies a
    ensures a[..i + 1] == InsertDesc(old(a[..i]), old(a[i]))
    ensures a[i + 1..] == old(a[i + 1..])
  {
    var x := a[i];
    ghost var t := a[..i];
    var j := i;
    while j > 0 && a[j - 1].addedDateTime < x.addedDateTime
      invariant 0 <= j <= i
      invariant forall k :: 0 <= k < j ==> a[k] == t[k]
      invariant forall k :: j < k <= i ==> a[k] == t[k - 1]
      invariant forall k :: i < k < a.Length ==> a[k] == old(a[k])
      invariant forall k :: j <= k < i ==> t[k].addedDateTime < x.addedDateTime
    {
      a[j] := a[j - 1];
      j := j - 1;
    }
    a[j] := x;
    InsertDescSplit(t, j, x);
    ShiftedInsert(a[..i + 1], t, j, x);
  }

  /** `updatedItems.sort(...)` on the new line array: an insertion sort
      that shifts strictly older lines right, the order `SortDesc` gives. */
  method SortByAddedDesc(a: array<CartItem>)
    modifies a
    ensures a[..] == SortDesc(old(a[..]))
  {
    ghost var s := a[..];
    var i := 0;
    while i < a.Length
      invariant 0 <= i <= a.Length
      invariant a[..i] == SortDesc(s[..i])
      invariant a[i..] == s[i..]
    {
      InsertAt(a, i);
      assert s[..i + 1][..i] == s[..i];
      assert s[i] == s[i..][0];
      i := i + 1;
    }
    assert s[..a.Length] == s;
  }

  /** The line array `addToCart` builds and then sorts: the lines are copied
      into a fresh array, sorted in place, and read back. */
  method SortedLines(items: seq<CartItem>) returns (sorted: seq<CartItem>)
    ensures sorted == SortDesc(items)
  {
    var a := new CartItem[|items|](i requires 0 <= i < |items| => items[i]);
    assert a[..] == items;
    SortByAddedDesc(a);
    sorted := a[..];
  }
}
