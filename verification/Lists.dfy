/** Sequences used as the kernel's doubly linked lists. */
module Lists {

  /** How often `x` is on the list. */
  function Count<T(==)>(xs: seq<T>, x: T): nat {
    if xs == [] then 0 else (if xs[0] == x then 1 else 0) + Count(xs[1..], x)
  }

  /** Unlinks the first occurrence of `x`; unlinking an entry that is not on the list changes nothing. */
  function Remove<T(==)>(xs: seq<T>, x: T): seq<T> {
    if xs == [] then [] else if xs[0] == x then xs[1..] else [xs[0]] + Remove(xs[1..], x)
  }

  /** Links `x` in front of position `p`. */
  function InsertAt<T>(xs: seq<T>, p: nat, x: T): seq<T>
    requires p <= |xs|
  {
    xs[..p] + [x] + xs[p..]
  }

  lemma {:induction false} CountIn<T>(xs: seq<T>, x: T)
    ensures x in xs <==> Count(xs, x) > 0
  {
    if xs != [] {
      CountIn(xs[1..], x);
    }
  }

  lemma {:induction false} CountConcat<T>(xs: seq<T>, ys: seq<T>, x: T)
    ensures Count(xs + ys, x) == Count(xs, x) + Count(ys, x)
  {
    if xs == [] {
      assert xs + ys == ys;
    } else {
      assert (xs + ys)[1..] == xs[1..] + ys;
      CountConcat(xs[1..], ys, x);
    }
  }

  lemma {:induction false} CountRemove<T>(xs: seq<T>, x: T, y: T)
    ensures Count(Remove(xs, x), y) == if x == y && x in xs then Count(xs, y) - 1 else Count(xs, y)
  {
    if xs != [] {
      if xs[0] == x {
        CountIn(xs, x);
      } else {
        CountRemove(xs[1..], x, y);
        assert ([xs[0]] + Remove(xs[1..], x))[1..] == Remove(xs[1..], x);
      }
    }
  }

  lemma {:induction false} RemoveAbsent<T>(xs: seq<T>, x: T)
    requires x !in xs
    ensures Remove(xs, x) == xs
  {
    if xs != [] {
      RemoveAbsent(xs[1..], x);
    }
  }

  /** Everything but `x` stays. */
  lemma {:induction false} RemoveIn<T>(xs: seq<T>, x: T, y: T)
    ensures y in Remove(xs, x) ==> y in xs
    ensures y in xs && y != x ==> y in Remove(xs, x)
  {
    CountRemove(xs, x, y);
    CountIn(xs, y);
    CountIn(Remove(xs, x), y);
  }
}
