/** Euclidean division, for arithmetic the solver should not search. */
module Division {
  lemma MultipleLeavesBand(d: int, w: int)
    requires w >= 0
    ensures d >= 1 ==> d * w >= w
    ensures d <= -1 ==> d * w <= -w
  {
    if d >= 1 { assert (d - 1) * w >= 0; }
    if d <= -1 { assert (-d - 1) * w >= 0; }
  }

  lemma DivMod(n: int, d: int, q: int, r: int)
    requires d > 0 && n == d * q + r && 0 <= r < d
    ensures n / d == q && n % d == r
  {
    var e := n / d - q;
    assert n == d * (n / d) + n % d;
    assert e * d == r - n % d;
    MultipleLeavesBand(e, d);
  }
}
