/** Small value types and real arithmetic shared by the models. */
module Core {

  datatype Option<+T> = None | Some(value: T)

  function Max(x: real, y: real): real { if x >= y then x else y }

  function Min(x: real, y: real): real { if x <= y then x else y }

  function Abs(x: real): real { if x >= 0.0 then x else -x }

  function MinInt(x: int, y: int): int { if x <= y then x else y }

  function MaxInt(x: int, y: int): int { if x >= y then x else y }

  /** Per-day books default to zero. */
  function RealOn(book: map<int, real>, day: int): real { if day in book then book[day] else 0.0 }

  function CountOn(book: map<int, nat>, day: int): nat { if day in book then book[day] else 0 }

  // Facts about products return the product as a variable, so that callers reason linearly about it.

  lemma ScaleLe(x: real, y: real, k: real)
    requires x <= y && k >= 0.0
    ensures x * k <= y * k
  {
    assert (y - x) * k >= 0.0;
  }

  lemma Shrink(d: real, w: real) returns (m: real)
    requires d >= 0.0 && 0.0 <= w <= 1.0
    ensures m == d * w
    ensures 0.0 <= m <= d
  {
    ScaleLe(w, 1.0, d);
    m := d * w;
  }

  lemma Between(x: real, y: real, w: real)
    ensures x * w + y * (1.0 - w) == y + (x - y) * w
    ensures x * w + y * (1.0 - w) == y - (y - x) * w
  {
  }

  /** A weighted average stays between common bounds. */
  lemma BlendIsBounded(x: real, y: real, w: real, low: real, high: real)
    requires 0.0 <= w <= 1.0 && low <= x <= high && low <= y <= high
    ensures low <= x * w + y * (1.0 - w) <= high
  {
    Between(x, y, w);
    if x >= y {
      var m := Shrink(x - y, w);
    } else {
      var m := Shrink(y - x, w);
    }
  }

  function Sum(xs: seq<real>): real {
    if |xs| == 0 then 0.0 else Sum(xs[..|xs| - 1]) + xs[|xs| - 1]
  }

  lemma SumAppend(xs: seq<real>, x: real)
    ensures Sum(xs + [x]) == Sum(xs) + x
  {
    assert (xs + [x])[..|xs|] == xs;
  }

  lemma {:induction false} SumConcat(xs: seq<real>, ys: seq<real>)
    ensures Sum(xs + ys) == Sum(xs) + Sum(ys)
  {
    if |ys| == 0 {
      assert xs + ys == xs;
    } else {
      SumConcat(xs, ys[..|ys| - 1]);
      assert (xs + ys)[..|xs + ys| - 1] == xs + ys[..|ys| - 1];
    }
  }
}
