/** Division, remainder and rounding facts the index arithmetic elsewhere rests on. */
module IndexArith {

  lemma MulMono(a: nat, i: nat, j: nat)
    requires i < j
    ensures a * i + a <= a * j
  {
    assert a * j == a * i + a * (j - i);
    MulGe(a, j - i);
  }

  lemma MulGe(a: nat, k: nat)
    requires k >= 1
    ensures a * k >= a
  {
    assert a * k == a + a * (k - 1);
  }

  /** The digits of a two digit mixed radix number. */
  lemma DivMod(b: nat, q: nat, r: nat)
    requires r < b
    ensures (q * b + r) / b == q
    ensures (q * b + r) % b == r
  {
    var x := q * b + r;
    var q', r' := x / b, x % b;
    assert x == q' * b + r';
    if q' < q {
      MulMono(b, q', q);
      assert false;
    } else if q < q' {
      MulMono(b, q, q');
      assert false;
    }
  }

  lemma Split(b: nat, x: nat) returns (q: nat, r: nat)
    requires b > 0
    ensures x == q * b + r && r < b
  {
    q, r := x / b, x % b;
  }

  /** Two digit numbers agree only digit by digit. */
  lemma SplitUnique(b: nat, q: nat, r: nat, q': nat, r': nat)
    requires r < b && r' < b && q * b + r == q' * b + r'
    ensures q == q' && r == r'
  {
    DivMod(b, q, r);
    DivMod(b, q', r');
  }

  lemma MulLe(a: nat, x: nat, y: nat)
    requires x <= y
    ensures a * x <= a * y && x * a <= y * a
  {
    if x < y { MulMono(a, x, y); }
  }

  lemma Quotient(n: nat, d: nat)
    requires d > 0
    ensures d * (n / d) <= n < d * (n / d + 1)
  {
    var q, r := Split(d, n);
    assert d * (q + 1) == d * q + d;
  }

  lemma DivBelow(x: nat, k: nat, b: nat)
    requires b > 0 && x < k * b
    ensures x / b < k
  {
    var q, r := Split(b, x);
    DivMod(b, q, r);
    if q >= k {
      MulLe(b, k, q);
      assert false;
    }
  }

  lemma MulMod(k: nat, b: nat)
    requires b > 0
    ensures (k * b) % b == 0
    ensures (k * b) / b == k
  {
    DivMod(b, k, 0);
  }

  lemma AddMultipleMod(x: nat, k: nat, b: nat)
    requires b > 0
    ensures (x + k * b) % b == x % b
    ensures (x + k * b) / b == x / b + k
  {
    assert x + k * b == (x / b + k) * b + x % b;
    DivMod(b, x / b + k, x % b);
  }

  lemma MultipleOf(x: nat, b: nat)
    requires b > 0 && x % b == 0
    ensures x == (x / b) * b
  {
  }

  lemma ModSum(x: nat, y: nat, b: nat)
    requires b > 0 && x % b == 0 && y % b == 0
    ensures (x + y) % b == 0
  {
    MultipleOf(y, b);
    AddMultipleMod(x, y / b, b);
  }

  function CeilDiv(a: nat, b: nat): (q: nat)
    requires b > 0
    ensures q * b >= a
    ensures a > 0 ==> q > 0 && (q - 1) * b < a
    ensures a == 0 ==> q == 0
  {
    var q := (a + b - 1) / b;
    assert a + b - 1 == q * b + (a + b - 1) % b;
    assert (q - 1) * b == q * b - b;
    q
  }

  function RoundUp(a: nat, b: nat): (r: nat)
    requires b > 0
    ensures r % b == 0
    ensures a <= r < a + b
  {
    var q := (a + b - 1) / b;
    MulMod(q, b);
    q * b
  }

  function Min(a: int, b: int): (r: int)
    ensures r <= a && r <= b && (r == a || r == b)
  {
    if a < b then a else b
  }

  function Max(a: int, b: int): (r: int)
    ensures r >= a && r >= b && (r == a || r == b)
  {
    if a > b then a else b
  }

  lemma ModNext(x: nat, b: nat)
    requires b > 0
    ensures (x + 1) % b == (x % b + 1) % b
  {
    var q, r := Split(b, x);
    DivMod(b, q, r);
    if r + 1 < b {
      DivMod(b, q, r + 1);
      DivMod(b, 0, r + 1);
    } else {
      DivMod(b, q + 1, 0);
      DivMod(b, 1, 0);
    }
  }

  lemma ModReaches(x: nat, q: nat, b: nat) returns (d: nat)
    requires q < b
    ensures (x + d) % b == q
  {
    var k, r := Split(b, x);
    d := if q >= r then q - r else q + b - r;
    DivMod(b, if q >= r then k else k + 1, q);
  }

  // ---- counting ----

  lemma FullSet(q: set<nat>, n: nat)
    requires forall x :: x in q ==> x < n
    ensures |q| <= n
    ensures |q| == n ==> forall i: nat :: i < n ==> i in q
  {
    if n > 0 {
      FullSet(q - {n - 1}, n - 1);
    }
  }

  lemma {:induction false} CountAll(q: set<nat>, n: nat)
    requires forall i: nat :: i < n ==> i in q
    ensures |q| >= n
  {
    if n > 0 { CountAll(q - {n - 1}, n - 1); }
  }

  function Elements(s: seq<nat>): (r: set<nat>)
    ensures |r| <= |s|
    ensures forall x :: x in r <==> x in s
  {
    if s == [] then {} else Elements(s[..|s| - 1]) + {s[|s| - 1]}
  }

  function Pow2(k: nat): (p: nat)
    ensures p > 0
  {
    if k == 0 then 1 else 2 * Pow2(k - 1)
  }

  lemma {:induction false} Pow2Mono(j: nat, k: nat)
    requires j <= k
    ensures Pow2(j) <= Pow2(k)
  {
    if j < k { Pow2Mono(j, k - 1); }
  }

  lemma Pow2Of31()
    ensures Pow2(31) == 0x8000_0000
  {
    assert Pow2(6) == 2 * (2 * Pow2(4)) == 64;
    assert Pow2(11) == 2 * (2 * (2 * (2 * (2 * Pow2(6)))));
    assert Pow2(16) == 2 * (2 * (2 * (2 * (2 * Pow2(11)))));
    assert Pow2(21) == 2 * (2 * (2 * (2 * (2 * Pow2(16)))));
    assert Pow2(26) == 2 * (2 * (2 * (2 * (2 * Pow2(21)))));
    assert Pow2(31) == 2 * (2 * (2 * (2 * (2 * Pow2(26)))));
  }
}
