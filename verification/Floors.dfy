/** Floored pro-rata shares, the rounding rule of every payout in the launchpad. */
module Floors {

  /** `floor(balance * pool / total)`. */
  function ProRata(balance: nat, pool: nat, total: nat): nat
    requires 0 < total
  {
    FloorBounds(balance * pool, total);
    balance * pool / total
  }

  lemma FloorBounds(a: nat, c: nat)
    requires 0 < c
    ensures 0 <= a / c && a / c * c <= a < a / c * c + c
  {
  }

  lemma ShareBounds(balance: nat, pool: nat, total: nat)
    requires 0 < total
    ensures ProRata(balance, pool, total) * total <= balance * pool < (ProRata(balance, pool, total) + 1) * total
  {
    FloorBounds(balance * pool, total);
    var q := ProRata(balance, pool, total);
    assert (q + 1) * total == q * total + total;
  }

  lemma MulLe(x: int, y: int, c: nat)
    requires x <= y
    ensures x * c <= y * c
  {
  }

  lemma MulLt(x: int, y: int, c: nat)
    requires x * c < y * c
    ensures x < y
  {
    if y <= x {
      MulLe(y, x, c);
    }
  }

  /** A floored share is the largest `q` with `q * total <= balance * pool`. */
  lemma LargestShare(balance: nat, pool: nat, total: nat, q: int)
    requires 0 < total
    ensures q <= ProRata(balance, pool, total) <==> q * total <= balance * pool
  {
    var share := ProRata(balance, pool, total);
    ShareBounds(balance, pool, total);
    if q <= share {
      MulLe(q, share, total);
    } else {
      MulLe(share + 1, q, total);
    }
  }

  lemma LargerBalance(balance: nat, balance': nat, pool: nat, total: nat)
    requires 0 < total && balance <= balance'
    ensures ProRata(balance, pool, total) <= ProRata(balance', pool, total)
  {
    MulLe(balance, balance', pool);
    ShareBounds(balance, pool, total);
    LargestShare(balance', pool, total, ProRata(balance, pool, total));
  }

  lemma ShareAtMostPool(balance: nat, pool: nat, total: nat)
    requires 0 < total && balance <= total
    ensures ProRata(balance, pool, total) <= pool
  {
    MulLe(balance, total, pool);
    LargestShare(balance, pool, total, pool + 1);
    assert (pool + 1) * total == total * pool + total;
  }

  lemma ShareAtMostBalance(balance: nat, pool: nat, total: nat)
    requires 0 < total && pool <= total
    ensures ProRata(balance, pool, total) <= balance
  {
    MulLe(pool, total, balance);
    LargestShare(balance, pool, total, balance + 1);
    assert (balance + 1) * total == total * balance + total;
  }

  lemma WholeShare(pool: nat, total: nat)
    requires 0 < total
    ensures ProRata(total, pool, total) == pool
  {
    LargestShare(total, pool, total, pool);
    ShareAtMostPool(total, pool, total);
  }

  /** Raising the rate `p / b` to `p' / b'` never lowers a floored share. */
  lemma HigherRate(x: nat, p: nat, b: nat, p': nat, b': nat)
    requires 0 < b && 0 < b' && p * b' <= p' * b
    ensures ProRata(x, p, b) <= ProRata(x, p', b')
  {
    var q := ProRata(x, p, b);
    ShareBounds(x, p, b);
    MulLe(q * b, x * p, b');
    MulLe(p * b', p' * b, x);
    MulSwap(q, b, b');
    MulSwap(x, p, b');
    MulSwap(x, p', b);
    RateStep(q * b', x * p', b);
    LargestShare(x, p', b', q);
  }

  lemma MulSwap(a: int, b: int, c: int)
    ensures (a * b) * c == (a * c) * b == (b * c) * a
  {
  }

  lemma RateStep(u: int, v: int, b: nat)
    requires 0 < b && u * b <= v * b
    ensures u <= v
  {
    if v < u {
      MulLe(v + 1, u, b);
    }
  }
}
