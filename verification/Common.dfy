/** Small shared vocabulary: optional values and sums over sequences. */
module Common {

  datatype Option<+T> = None | Some(value: T)

  /** The sum of `f` over a sequence, the unit of account of every counting argument. */
  ghost function Sum<T>(s: seq<T>, f: T -> int): int {
    if s == [] then 0 else f(s[0]) + Sum(s[1..], f)
  }

  lemma {:induction false} SumConcat<T>(a: seq<T>, b: seq<T>, f: T -> int)
    ensures Sum(a + b, f) == Sum(a, f) + Sum(b, f)
  {
    if a == [] {
      assert a + b == b;
    } else {
      assert (a + b)[1..] == a[1..] + b;
      SumConcat(a[1..], b, f);
    }
  }

  lemma SumSnoc<T>(a: seq<T>, x: T, f: T -> int)
    ensures Sum(a + [x], f) == Sum(a, f) + f(x)
  {
    SumConcat(a, [x], f);
    assert Sum([x], f) == f(x) + Sum([x][1..], f);
  }
}
