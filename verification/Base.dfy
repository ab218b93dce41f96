/** Machine integers, masks and the few arithmetic facts that the device models share. */
module Base {
  type byte = x: int | 0 <= x < 0x100
  type word = x: int | 0 <= x < 0x1_0000

  datatype Option<+T> = None | Some(value: T)

  /** `Bit(v, 0x80)` is the source's `(v & 0x80) != 0` for a one-bit mask. */
  predicate Bit(v: int, mask: int)
    requires mask > 0
  {
    (v / mask) % 2 == 1
  }

  /** The mask of a bit of a byte. */
  function BitWeight(bit: int): (w: int)
    requires 0 <= bit < 8
    ensures 0 < w <= 128
  {
    [1, 2, 4, 8, 16, 32, 64, 128][bit]
  }

  function Zeros(n: nat): (s: seq<byte>)
    ensures |s| == n && forall i | 0 <= i < n :: s[i] == 0
  {
    seq(n, i => 0)
  }

  function Min(a: int, b: int): int { if a <= b then a else b }

  function Max(a: int, b: int): int { if a >= b then a else b }

  /** The source's `clamp`. */
  function Clamp(x: int, lo: int, hi: int): int
    requires lo <= hi
  {
    Max(lo, Min(x, hi))
  }

  /** Integer division that truncates toward zero, as Rust divides signed integers. */
  function TruncDiv(a: int, b: int): int
    requires b > 0
  {
    if a >= 0 then a / b else -((-a) / b)
  }

  lemma DivUnique(a: int, p: int, k: int)
    requires p > 0 && p * k <= a < p * k + p
    ensures a / p == k
    ensures a % p == a - p * k
  {
    var q := a / p;
    assert a == p * q + a % p;
    if q < k {
      MulMonotone(p, q + 1, k);
      assert false;
    }
    if q > k {
      MulMonotone(p, k + 1, q);
      assert false;
    }
  }

  lemma MulMonotone(p: int, a: int, b: int)
    requires p >= 0 && a <= b
    ensures p * a <= p * b
  {
  }

  /** One more unit crosses a multiple of `p` exactly when it lands on one. */
  lemma DivSucc(a: int, p: int)
    requires p > 0
    ensures (a + 1) / p == a / p + (if (a + 1) % p == 0 then 1 else 0)
    ensures (a + 1) % p == if a % p == p - 1 then 0 else a % p + 1
  {
    var q, r := a / p, a % p;
    assert a == p * q + r;
    if r + 1 == p {
      assert p * (q + 1) == p * q + p;
      DivUnique(a + 1, p, q + 1);
    } else {
      DivUnique(a + 1, p, q);
    }
  }

  lemma DivBelow(a: int, p: int, k: int)
    requires p > 0 && a < p * k
    ensures a / p < k
  {
    if a / p >= k {
      MulMonotone(p, k, a / p);
      assert false;
    }
  }

  lemma DivShift(a: int, p: int, k: int)
    requires p > 0
    ensures (a + p * k) / p == a / p + k
    ensures (a + p * k) % p == a % p
  {
    var q, r := a / p, a % p;
    assert p * (q + k) == p * q + p * k;
    DivUnique(a + p * k, p, q + k);
  }

  // ------------------------------------------------ runs of a clocked device

  /** `n` clock steps of a device. */
  function Run<S>(step: S -> S, s: S, n: nat): S {
    if n == 0 then s else step(Run(step, s, n - 1))
  }

  /** How many of the `n` steps from `s` are taken in a state where `event` holds. */
  function Count<S>(event: S -> bool, step: S -> S, s: S, n: nat): nat {
    if n == 0 then 0
    else Count(event, step, s, n - 1) + (if event(Run(step, s, n - 1)) then 1 else 0)
  }

  lemma {:induction false} RunSplit<S>(step: S -> S, s: S, m: nat, n: nat)
    ensures Run(step, s, m + n) == Run(step, Run(step, s, m), n)
  {
    if n > 0 {
      RunSplit(step, s, m, n - 1);
      assert m + n - 1 == m + (n - 1);
    }
  }

  lemma {:induction false} CountSplit<S>(event: S -> bool, step: S -> S, s: S, m: nat, n: nat)
    ensures Count(event, step, s, m + n) == Count(event, step, s, m) + Count(event, step, Run(step, s, m), n)
  {
    if n > 0 {
      CountSplit(event, step, s, m, n - 1);
      RunSplit(step, s, m, n - 1);
      assert m + n - 1 == m + (n - 1);
    }
  }

  /** The interrupt-flag bits requested by `n` steps, OR-accumulated as the devices do. */
  function Raised<S>(mask: S -> bv8, step: S -> S, s: S, n: nat): bv8 {
    if n == 0 then 0 else Raised(mask, step, s, n - 1) | mask(Run(step, s, n - 1))
  }

  lemma {:induction false} RaisedSplit<S>(mask: S -> bv8, step: S -> S, s: S, m: nat, n: nat)
    ensures Raised(mask, step, s, m + n) == Raised(mask, step, s, m) | Raised(mask, step, Run(step, s, m), n)
  {
    if n > 0 {
      RaisedSplit(mask, step, s, m, n - 1);
      RunSplit(step, s, m, n - 1);
      assert m + n - 1 == m + (n - 1);
    }
  }
}
