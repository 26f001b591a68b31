/** Small value types shared by the display and touch drivers. */
module Optional {
  /** A keyword argument that may be left as `None` (the driver then uses its own default). */
  datatype Option<T> = None | Some(value: T) {
    function GetOr(default: T): (r: T)
      ensures Some? ==> r == value
      ensures None? ==> r == default
    {
      match this
      case Some(v) => v
      case None => default
    }
  }
}

/**
 * The operators of Python's arbitrary-precision integers that the drivers
 * apply to non-negative values: shifts, bitwise and, bitwise or.
 */
module Bits {
  /** One octet as it travels on the SPI bus. */
  type byte = x: int | 0 <= x < 256

  function Pow2(k: nat): (r: nat)
    ensures r >= 1
  {
    if k == 0 then 1 else 2 * Pow2(k - 1)
  }

  /** `a << k` */
  function Shl(a: nat, k: nat): nat { a * Pow2(k) }

  /** `a >> k` */
  function Shr(a: nat, k: nat): nat
  {
    DivOfNat(a, Pow2(k));
    a / Pow2(k)
  }

  /** Floor division of a natural number by a positive one stays a natural number. */
  lemma DivOfNat(a: nat, p: int)
    requires p >= 1
    ensures a / p >= 0
  {
    var q := a / p;
    assert a == p * q + a % p;
    if q < 0 {
      MulNonNeg(p, -q - 1);
    }
  }

  lemma MulNonNeg(a: int, b: int)
    requires a >= 0 && b >= 0
    ensures a * b >= 0
  {
  }

  lemma MulSucc(a: int, b: int)
    ensures (a + 1) * b == a * b + b
  {
  }

  /** `a & b`, bit by bit from the least significant end. */
  function BitAnd(a: nat, b: nat): nat
  {
    if a == 0 || b == 0 then 0
    else 2 * BitAnd(a / 2, b / 2) + (if a % 2 == 1 && b % 2 == 1 then 1 else 0)
  }

  /** `a | b`, bit by bit from the least significant end. */
  function BitOr(a: nat, b: nat): nat
  {
    if a == 0 then b
    else if b == 0 then a
    else 2 * BitOr(a / 2, b / 2) + (if a % 2 == 1 || b % 2 == 1 then 1 else 0)
  }

  /** Bit `i` of `a` is set. */
  predicate BitSet(a: nat, i: nat) {
    (a / Pow2(i)) % 2 == 1
  }

  /** `|` does not depend on the order of its operands. */
  lemma {:induction false} BitOrCommutes(a: nat, b: nat)
    ensures BitOr(a, b) == BitOr(b, a)
  {
    if a != 0 && b != 0 {
      BitOrCommutes(a / 2, b / 2);
    }
  }

  /** `a & 1` extracts the least significant bit. */
  lemma AndOne(a: nat)
    ensures BitAnd(a, 1) == a % 2
  {
  }

  /** Masking with `2^k - 1` keeps any value that already fits in `k` bits. */
  lemma {:induction false} AndLowMask(a: nat, k: nat)
    requires a < Pow2(k)
    ensures BitAnd(a, Pow2(k) - 1) == a
  {
    if k > 0 && a > 0 {
      var p := Pow2(k - 1);
      assert (Pow2(k) - 1) / 2 == p - 1 && (Pow2(k) - 1) % 2 == 1;
      AndLowMask(a / 2, k - 1);
    }
  }

  /** Or-ing a value shifted left by `k` with one that fits in `k` bits is addition. */
  lemma {:induction false} OrDisjoint(a: nat, c: nat, k: nat)
    requires c < Pow2(k)
    ensures BitOr(Shl(a, k), c) == Shl(a, k) + c
  {
    if k > 0 && a > 0 && c > 0 {
      var p := Pow2(k - 1);
      assert Shl(a, k) == 2 * (a * p);
      assert Shl(a, k) / 2 == Shl(a, k - 1) && Shl(a, k) % 2 == 0;
      OrDisjoint(a, c / 2, k - 1);
    }
  }
}

/** Python's sequence repetition `s * n`. */
module Sequences {
  import Bits

  function Max0(n: int): nat { if n > 0 then n else 0 }

  /** `s * n`: `n` copies of `s` one after another; no copy at all when `n <= 0`. */
  function Repeat<T>(s: seq<T>, n: int): (r: seq<T>)
    ensures |r| == Max0(n) * |s|
  {
    if |s| == 0 then []
    else seq(Max0(n) * |s|, i requires 0 <= i < Max0(n) * |s| => s[i % |s|])
  }

  /** The whole of a sequence and the empty prefix, stated once for any element type. */
  lemma TakeAllNone<T>(s: seq<T>)
    ensures s[..|s|] == s && s[..0] == []
  {
  }

  /** Concatenation is associative; stated once so that long appends need not be re-derived. */
  lemma SeqAssoc<T>(a: seq<T>, b: seq<T>, c: seq<T>)
    ensures a + (b + c) == (a + b) + c
  {
  }

  /** Index `i` of `n` copies of `s` is element `i % |s|` of `s`. */
  lemma RepeatAt<T>(s: seq<T>, n: int, i: int)
    requires 0 <= i < |Repeat(s, n)|
    ensures |s| > 0 && Repeat(s, n)[i] == s[i % |s|]
  {
  }

  /** The only multiple of a positive `m` strictly between `-m` and `m` is zero. */
  lemma SmallMultiple(e: int, m: int)
    requires m > 0
    ensures -m < e * m < m ==> e == 0
  {
    if e > 0 {
      Bits.MulNonNeg(e - 1, m);
      assert e * m == (e - 1) * m + m;
    } else if e < 0 {
      Bits.MulNonNeg(-e - 1, m);
      assert e * m == -((-e - 1) * m) - m;
    }
  }

  /** Floor division by a positive `m` undoes `q * m + j` for `0 <= j < m`. */
  lemma ModOfMultiplePlus(q: int, m: int, j: int)
    requires m > 0 && 0 <= j < m
    ensures (q * m + j) % m == j
  {
    var k := q * m + j;
    var d := k / m;
    var r := k % m;
    assert k == d * m + r && 0 <= r < m;
    assert (q - d) * m == r - j;
    SmallMultiple(q - d, m);
  }

  /** One more copy appends `s`. */
  lemma RepeatSnoc<T>(s: seq<T>, n: int)
    requires n > 0
    ensures Repeat(s, n) == Repeat(s, n - 1) + s
  {
    var r := Repeat(s, n);
    var p := Repeat(s, n - 1);
    assert Max0(n) * |s| == Max0(n - 1) * |s| + |s|;
    forall k | 0 <= k < |r|
      ensures r[k] == (p + s)[k]
    {
      RepeatAt(s, n, k);
      if k < |p| {
        RepeatAt(s, n - 1, k);
      } else {
        ModOfMultiplePlus(n - 1, |s|, k - |p|);
      }
    }
  }

  /** Zero copies (or fewer) are empty. */
  lemma RepeatNone<T>(s: seq<T>, n: int)
    requires n <= 0
    ensures Repeat(s, n) == []
  {
  }
}
