/** The list toggle two screens share (components/WorkoutView.tsx:24-28 on the checklist
    of done exercises, components/Onboarding.tsx:87-94 on the chosen equipment): a value
    that is in the list is filtered out, every occurrence of it; one that is not is
    appended at the end. Equality is structural, as `includes` and `!==` are on the
    strings these lists hold. */
module ListToggle {

  /** `xs.filter(i => i !== x)` */
  function Without<T(==,!new)>(xs: seq<T>, x: T): (r: seq<T>)
    ensures forall y :: y in r <==> y in xs && y != x
    ensures |r| <= |xs|
    ensures x in xs ==> |r| < |xs|
  {
    if xs == [] then []
    else (if xs[0] == x then [] else [xs[0]]) + Without(xs[1..], x)
  }

  /** `xs.includes(x) ? xs.filter(i => i !== x) : [...xs, x]` */
  function Toggled<T(==,!new)>(xs: seq<T>, x: T): (r: seq<T>)
    ensures forall y :: y in r <==> ((y in xs) != (y == x))
    ensures x !in xs ==> r == xs + [x]
    ensures x in xs ==> |r| < |xs| && x !in r
  {
    if x in xs then Without(xs, x) else xs + [x]
  }

  /** No value occurs twice. */
  predicate NoDup<T(==,!new)>(xs: seq<T>) {
    forall i, j :: 0 <= i < j < |xs| ==> xs[i] != xs[j]
  }

  /** Filtering out a value that does not occur changes nothing. */
  lemma {:induction false} WithoutAbsent<T(!new)>(xs: seq<T>, x: T)
    requires x !in xs
    ensures Without(xs, x) == xs
  {
    if xs != [] {
      WithoutAbsent(xs[1..], x);
      assert xs == [xs[0]] + xs[1..];
    }
  }

  lemma {:induction false} WithoutNoDup<T(!new)>(xs: seq<T>, x: T)
    requires NoDup(xs)
    ensures NoDup(Without(xs, x))
  {
    if xs != [] {
      assert NoDup(xs[1..]) by {
        forall i, j | 0 <= i < j < |xs[1..]| ensures xs[1..][i] != xs[1..][j] {
          assert xs[1..][i] == xs[i + 1] && xs[1..][j] == xs[j + 1];
        }
      }
      WithoutNoDup(xs[1..], x);
      var rest := Without(xs[1..], x);
      if xs[0] != x {
        assert xs[0] !in xs[1..] by {
          forall k | 0 <= k < |xs[1..]| ensures xs[1..][k] != xs[0] {
            assert xs[1..][k] == xs[k + 1];
          }
        }
        var r := [xs[0]] + rest;
        forall i, j | 0 <= i < j < |r| ensures r[i] != r[j] {
          if i == 0 {
            assert r[j] == rest[j - 1];
          } else {
            assert r[i] == rest[i - 1] && r[j] == rest[j - 1];
          }
        }
      } else {
        assert Without(xs, x) == rest;
      }
    }
  }

  /** A toggle keeps a list free of duplicates. */
  lemma ToggleKeepsNoDup<T(!new)>(xs: seq<T>, x: T)
    requires NoDup(xs)
    ensures NoDup(Toggled(xs, x))
  {
    if x in xs {
      WithoutNoDup(xs, x);
    } else {
      var r := xs + [x];
      forall i, j | 0 <= i < j < |r| ensures r[i] != r[j] {
        if j == |xs| {
          assert r[i] == xs[i];
        } else {
          assert r[i] == xs[i] && r[j] == xs[j];
        }
      }
    }
  }

  /** Toggling a value twice gives back exactly the list it started from when the value
      was not in it. */
  lemma ToggleTwiceAbsent<T(!new)>(xs: seq<T>, x: T)
    requires x !in xs
    ensures Toggled(Toggled(xs, x), x) == xs
  {
    WithoutAbsent(xs, x);
    WithoutAppendLast(xs, x);
  }

  lemma {:induction false} WithoutAppendLast<T(!new)>(xs: seq<T>, x: T)
    ensures Without(xs + [x], x) == Without(xs, x)
  {
    if xs == [] {
      assert Without([x], x) == [] + Without([x][1..], x);
    } else {
      assert (xs + [x])[1..] == xs[1..] + [x];
      WithoutAppendLast(xs[1..], x);
    }
  }

  /** When the value was in the list, the second toggle brings it back at the end: the
      membership is restored, not the order. */
  lemma ToggleTwicePresent<T(!new)>(xs: seq<T>, x: T)
    requires x in xs
    ensures Toggled(Toggled(xs, x), x) == Without(xs, x) + [x]
    ensures forall y :: y in Toggled(Toggled(xs, x), x) <==> y in xs
  {
  }

  /** A duplicate-free list whose values all occur in `ys` is no longer than `ys`. */
  lemma {:induction false} NoDupWithinIsShorter<T(!new)>(xs: seq<T>, ys: seq<T>)
    requires NoDup(xs)
    requires forall i :: 0 <= i < |xs| ==> xs[i] in ys
    ensures |xs| <= |ys|
  {
    if xs != [] {
      var x := xs[0];
      var rest := Without(ys, x);
      forall i | 0 <= i < |xs[1..]| ensures xs[1..][i] in rest {
        assert xs[1..][i] == xs[i + 1] && xs[i + 1] != xs[0];
      }
      assert NoDup(xs[1..]) by {
        forall i, j | 0 <= i < j < |xs[1..]| ensures xs[1..][i] != xs[1..][j] {
          assert xs[1..][i] == xs[i + 1] && xs[1..][j] == xs[j + 1];
        }
      }
      NoDupWithinIsShorter(xs[1..], rest);
    }
  }
}
