/**
 The integers of the source fragment: 32-bit words that wrap around.
 */
module Words {
  import opened Source

  predicate IsInt(n: int) {
    -0x8000_0000 <= n < 0x8000_0000
  }

  /** Wrapping gives the one 32-bit value that differs by a multiple of 2^32. */
  lemma WrapsAround(n: int, k: int)
    ensures IsInt(Wrap(n)) && (Wrap(n) - n) % 0x1_0000_0000 == 0 && Wrap(n + k * 0x1_0000_0000) == Wrap(n)
    ensures IsInt(n) ==> Wrap(n) == n
  {
    var m := 0x1_0000_0000;
    var h := n + 0x8000_0000;
    assert h == m * (h / m) + h % m;
    assert Wrap(n) - n == -m * (h / m);
    assert (-m * (h / m)) % m == 0 by { Multiple(m, -(h / m)); }
    Shifted(h, m, k);
    assert h + k * m == n + k * m + 0x8000_0000;
  }

  lemma Multiple(m: int, q: int)
    requires m > 0
    ensures (m * q) % m == 0
  {
    var r := (m * q) % m;
    var d := (m * q) / m;
    assert m * q == m * d + r;
    assert m * (q - d) == r;
    Far(m, q - d);
  }

  lemma Far(m: int, d: int)
    requires m > 0
    ensures (d >= 1 ==> m * d >= m) && (d <= -1 ==> m * d <= -m)
  {
  }

  lemma Shifted(h: int, m: int, k: int)
    requires m > 0
    ensures (h + k * m) % m == h % m
  {
    var a, b := (h + k * m) / m, h / m;
    var r, s := (h + k * m) % m, h % m;
    assert h + k * m == m * a + r && h == m * b + s;
    var d := b + k - a;
    assert m * d == r - s;
    Far(m, d);
  }

  /** Arithmetic is that of the ring of 32-bit integers. */
  lemma ArithmeticLaws(a: int, b: int)
    requires IsInt(a) && IsInt(b)
    ensures ArithVal(Sub, ArithVal(Add, a, b), b) == a && ArithVal(Add, ArithVal(Sub, a, b), b) == a
    ensures ArithVal(Add, a, b) == ArithVal(Add, b, a) && ArithVal(Add, a, 0) == a
    ensures ArithVal(Mul, a, 0) == 0 && ArithVal(Mul, a, 1) == a
    ensures ArithVal(Mul, a, ArithVal(Add, b, 1)) == ArithVal(Add, ArithVal(Mul, a, b), a)
  {
    Sums(a, b);
    Products(a, b);
  }

  lemma Sums(a: int, b: int)
    requires IsInt(a) && IsInt(b)
    ensures ArithVal(Sub, ArithVal(Add, a, b), b) == a && ArithVal(Add, ArithVal(Sub, a, b), b) == a
    ensures ArithVal(Add, a, b) == ArithVal(Add, b, a) && ArithVal(Add, a, 0) == a
  {
    hide Wrap;
    WrapsAround(a, 0);
    WrapMinus(a + b, -b);
    WrapMinus(a - b, b);
    assert Wrap(a + b) - b == Wrap(a + b) + -b;
  }

  lemma Products(a: int, b: int)
    requires IsInt(a) && IsInt(b)
    ensures ArithVal(Mul, a, 0) == 0 && ArithVal(Mul, a, 1) == a
    ensures ArithVal(Mul, a, ArithVal(Add, b, 1)) == ArithVal(Add, ArithVal(Mul, a, b), a)
  {
    hide Wrap;
    WrapsAround(a, 0);
    WrapsAround(0, 0);
    WrapMinus(a * b, a);
    WrapTimes(a, b + 1);
    Distributes(a, b);
    assert a * 0 == 0 && a * 1 == a;
  }

  lemma Distributes(a: int, b: int)
    ensures a * (b + 1) == a * b + a
  {
  }

  /** A wrapped value may be used in place of the value. */
  lemma WrapMinus(n: int, d: int)
    ensures Wrap(Wrap(n) + d) == Wrap(n + d)
  {
    hide Wrap;
    var k := Turns(n);
    WrapsAround(n + d, k);
    assert Wrap(n) + d == n + d + k * 0x1_0000_0000;
  }

  lemma WrapTimes(a: int, n: int)
    ensures Wrap(a * Wrap(n)) == Wrap(a * n)
  {
    hide Wrap;
    var k := Turns(n);
    WrapsAround(a * n, a * k);
    Spread(a, n, k, 0x1_0000_0000);
  }

  lemma Spread(a: int, n: int, k: int, m: int)
    ensures a * (n + k * m) == a * n + (a * k) * m
  {
  }

  function Turns(n: int): (k: int)
    ensures Wrap(n) == n + k * 0x1_0000_0000
  {
    -((n + 0x8000_0000) / 0x1_0000_0000)
  }

  /** Comparisons are those of the order of the integers. */
  lemma ComparisonLaws(a: int, b: int)
    ensures CmpVal(Lt, a, a + 1) && !CmpVal(Lt, a, a) && (CmpVal(Lt, a, b) && a + 1 != b ==> CmpVal(Lt, a + 1, b))
    ensures CmpVal(Gt, a, b) == CmpVal(Lt, b, a) && CmpVal(Le, a, b) == !CmpVal(Lt, b, a) && CmpVal(Ge, a, b) == !CmpVal(Lt, a, b)
    ensures CmpVal(Eq, a, b) == (CmpVal(Le, a, b) && CmpVal(Ge, a, b)) && CmpVal(Ne, a, b) == !CmpVal(Eq, a, b)
  {
  }
}
