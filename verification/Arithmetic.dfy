/** Facts about division with remainder used by the modules that count modulo a power of two or a threshold. */
module Arithmetic {

  lemma BigMultiple(d: int, h: int)
    requires h > 0 && d != 0
    ensures d * h >= h || d * h <= -h
  {
  }

  lemma DivModUnique(a: int, h: int, q: int, r: int)
    requires 0 <= r < h && a == q * h + r
    ensures a / h == q && a % h == r
  {
    var q', r' := a / h, a % h;
    assert a == q' * h + r';
    assert (q' - q) * h == r - r';
    if q' != q {
      BigMultiple(q' - q, h);
    }
  }

  lemma ModShift(a: int, h: int)
    requires h > 0
    ensures (a + h) % h == a % h && (a - h) % h == a % h
  {
    var q, r := a / h, a % h;
    assert a + h == (q + 1) * h + r;
    DivModUnique(a + h, h, q + 1, r);
    assert a - h == (q - 1) * h + r;
    DivModUnique(a - h, h, q - 1, r);
  }

  lemma ModGap(a: int, b: int, h: int)
    requires h > 0 && a % h == b % h && a < b
    ensures a + h <= b
  {
    var x, y, r := a / h, b / h, a % h;
    assert a == x * h + r && b == y * h + r;
    assert b - a == (y - x) * h;
    BigMultiple(y - x, h);
  }

  lemma ModAdd(a: int, b: int, h: int)
    requires h > 0 && 0 <= b && a % h + b <= h
    ensures (a + b) % h == if a % h + b == h then 0 else a % h + b
  {
    var q, r := a / h, a % h;
    if r + b == h {
      assert a + b == (q + 1) * h + 0;
      DivModUnique(a + b, h, q + 1, 0);
    } else {
      DivModUnique(a + b, h, q, r + b);
    }
  }

  /** Two numbers leave the same remainder exactly when they differ by a multiple. */
  lemma SameMod(a: int, b: int, h: int)
    requires h > 0
    ensures a % h == b % h <==> (a - b) % h == 0
  {
    var x, y := a / h, b / h;
    if a % h == b % h {
      assert a - b == (x - y) * h + 0;
      DivModUnique(a - b, h, x - y, 0);
    }
    if (a - b) % h == 0 {
      var d := (a - b) / h;
      assert a == (y + d) * h + b % h;
      DivModUnique(a, h, y + d, b % h);
    }
  }

  lemma ModPlus(a: int, b: int, h: int)
    requires h > 0
    ensures (a % h + b) % h == (a + b) % h
  {
    var q, r := (a % h + b) / h, (a % h + b) % h;
    assert a + b == (a / h + q) * h + r;
    DivModUnique(a + b, h, a / h + q, r);
  }

  /** Twice a number plus an even or odd offset keeps its parity modulo an even number. */
  lemma ModParity(n: int, h: int)
    requires h > 0
    ensures (2 * n + 1) % (2 * h) == 2 * (n % h) + 1
  {
    assert 2 * n + 1 == n / h * (2 * h) + (2 * (n % h) + 1);
    DivModUnique(2 * n + 1, 2 * h, n / h, 2 * (n % h) + 1);
  }
}
