/** Facts about products that the solver does not find by itself. */
module Arithmetic {
  function Min(a: nat, b: nat): nat {
    if a < b then a else b
  }

  function Max(a: nat, b: nat): nat {
    if a < b then b else a
  }

  lemma TimesAtLeast(a: nat, b: nat)
    ensures a > 0 ==> a * b >= b
  {
    if a > 0 {
      assert a * b == b + (a - 1) * b;
    }
  }

  lemma TimesGrows(x: nat, a: nat, b: nat)
    requires a <= b
    ensures x * a <= x * b
  {
    assert x * b == x * a + x * (b - a);
  }

  /** Different multiples are at least one width apart. */
  lemma Apart(a: int, b: int, w: nat)
    ensures a < b ==> a * w + w <= b * w
  {
    if a < b {
      assert b * w == a * w + (b - a) * w;
      TimesAtLeast(b - a, w);
    }
  }
}
