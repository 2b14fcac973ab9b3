/** 32-bit machine words: wrapping arithmetic, masks, and powers of two. */
module Words {
  const TWO32 := 0x1_0000_0000

  type u32 = x: int | 0 <= x < TWO32

  // A pointer-sized word; 0 is NULL.
  type Ptr = nat
  const NULL: Ptr := 0

  /** The u32 that holds x modulo 2^32. */
  function W(x: int): u32 {
    x % TWO32
  }

  function Pow2(k: nat): (r: nat)
    ensures r >= 1
  {
    if k == 0 then 1 else 2 * Pow2(k - 1)
  }

  predicate IsPow2(n: nat, k: nat) {
    n == Pow2(k)
  }

  /** C's `&` on non-negative numbers, bit by bit. */
  function BitAnd(x: nat, y: nat): nat {
    if x == 0 || y == 0 then 0 else 2 * BitAnd(x / 2, y / 2) + (x % 2) * (y % 2)
  }

  // is_power_of_2 of linux/log2.h: n != 0 && (n & (n - 1)) == 0
  predicate IsPowerOf2(n: nat) {
    n != 0 && BitAnd(n, n - 1) == 0
  }

  lemma BitAndSelf(n: nat)
    ensures BitAnd(n, n) == n
  {
  }

  /** Masking with 2^k - 1 is the remainder modulo 2^k. */
  lemma {:induction false} MaskIsMod(x: nat, k: nat)
    ensures Pow2(k) > 0 && BitAnd(x, Pow2(k) - 1) == x % Pow2(k)
    decreases k
  {
    hide BitAnd, Pow2;
    if k == 0 {
      MaskOfZero(x);
    } else {
      var h := Pow2(k - 1);
      MaskIsMod(x / 2, k - 1);
      Pow2Doubles(k);
      MaskOfDouble(x, h, Pow2(k));
    }
  }

  lemma MaskOfDouble(x: nat, h: nat, p: nat)
    requires h > 0 && p == 2 * h && BitAnd(x / 2, h - 1) == (x / 2) % h
    ensures BitAnd(x, p - 1) == x % p
  {
    hide BitAnd;
    BitAndHalves(x, h - 1);
    HalfMod(x, h);
    assert 2 * (h - 1) + 1 == p - 1;
  }

  lemma MaskOfZero(x: nat)
    ensures Pow2(0) == 1 && BitAnd(x, 0) == 0
  {
  }

  lemma Pow2Doubles(k: nat)
    requires k > 0
    ensures Pow2(k) == 2 * Pow2(k - 1)
  {
  }

  lemma BitAndHalves(x: nat, y: nat)
    ensures BitAnd(x, 2 * y + 1) == 2 * BitAnd(x / 2, y) + x % 2
  {
    if x > 0 {
      assert (2 * y + 1) / 2 == y && (2 * y + 1) % 2 == 1;
    }
  }

  lemma HalfMod(x: nat, h: nat)
    requires h > 0
    ensures x % (2 * h) == 2 * ((x / 2) % h) + x % 2
  {
    var q, r := (x / 2) / h, (x / 2) % h;
    assert x == 2 * (q * h + r) + x % 2;
    ModUnique(x, 2 * h, q, 2 * r + x % 2) by { assert q * (2 * h) == 2 * (q * h); }
  }

  lemma ModUnique(x: int, m: int, q: int, r: int)
    requires m > 0 && 0 <= r < m && x == q * m + r
    ensures x % m == r && x / m == q
  {
    assert (x / m - q) * m == r - x % m;
    SmallMultiple(x / m - q, m);
  }

  lemma SmallMultiple(a: int, m: int)
    requires m > 0 && -m < a * m < m
    ensures a == 0
  {
    if a >= 1 {
      MulGe(a, m);
    } else if a <= -1 {
      MulGe(-a, m);
    }
  }

  lemma MulGe(a: int, m: int)
    requires a >= 1 && m > 0
    ensures a * m >= m
  {
    assert (a - 1) * m >= 0;
  }

  /** is_power_of_2 accepts exactly the powers of two. */
  lemma {:induction false} PowerOf2Test(n: nat)
    ensures IsPowerOf2(n) <==> exists k: nat :: IsPow2(n, k)
    decreases n
  {
    if n == 1 {
      assert IsPow2(n, 0);
    } else if n >= 2 && n % 2 == 0 {
      PowerOf2Test(n / 2);
      assert (n - 1) / 2 == n / 2 - 1;
      assert IsPowerOf2(n) <==> IsPowerOf2(n / 2);
      if IsPowerOf2(n / 2) {
        var k: nat :| IsPow2(n / 2, k);
        assert IsPow2(n, k + 1);
      }
      if exists k: nat :: IsPow2(n, k) {
        var k: nat :| IsPow2(n, k);
        assert IsPow2(n / 2, k - 1);
      }
    } else if n >= 2 {
      assert (n - 1) / 2 == n / 2;
      BitAndSelf(n / 2);
      assert BitAnd(n, n - 1) == 2 * (n / 2);
      OddNotPow2(n);
    }
  }

  lemma OddNotPow2(n: nat)
    requires n >= 2 && n % 2 == 1
    ensures forall k: nat :: !IsPow2(n, k)
  {
    forall k: nat ensures !IsPow2(n, k) {
      if k > 0 { assert Pow2(k) == 2 * Pow2(k - 1); }
    }
  }

  lemma {:induction false} Pow2Divides(k: nat, m: nat)
    requires k <= m
    ensures Pow2(m) == Pow2(m - k) * Pow2(k)
    decreases m
  {
    hide Pow2;
    if k < m {
      Pow2Divides(k, m - 1);
      Pow2Doubles(m);
      Pow2Doubles(m - k);
      DoubleOfProduct(Pow2(m - 1 - k), Pow2(k));
    } else {
      MaskOfZero(0);
    }
  }

  lemma DoubleOfProduct(a: nat, b: nat)
    ensures 2 * (a * b) == (2 * a) * b
  {
  }

  lemma Pow2Thirty2()
    ensures Pow2(32) == TWO32
  {
    assert Pow2(4) == 16;
    assert Pow2(8) == 256;
    assert Pow2(12) == 4096;
    assert Pow2(16) == 65536;
    assert Pow2(20) == 0x10_0000;
    assert Pow2(24) == 0x100_0000;
    assert Pow2(28) == 0x1000_0000;
  }

  lemma {:induction false} Pow2Grows(k: nat, m: nat)
    requires k <= m
    ensures Pow2(k) <= Pow2(m)
    decreases m
  {
    if k < m { Pow2Grows(k, m - 1); }
  }

  // A ring size that both queue implementations accept: a power of two well below 2^32.
  predicate RingSize(size: nat) {
    IsPowerOf2(size) && size <= 0x1000_0000
  }

  /** The slot of the free-running index x: the u32 masked with size - 1. */
  function Slot(size: nat, i: u32): nat
    requires size > 0
  {
    BitAnd(i, size - 1)
  }

  /** The slot that the unbounded index x stands for: x modulo the size. */
  function Index(size: nat, x: nat): (r: nat)
    requires size > 0
    ensures r < size
  {
    if x < size then x else Index(size, x - size)
  }

  lemma {:induction false} IndexIsMod(size: nat, x: nat)
    requires size > 0
    ensures Index(size, x) == x % size
  {
    if x < size {
      ModUnique(x, size, 0, x);
    } else {
      IndexIsMod(size, x - size);
      ModUnique(x, size, (x - size) / size + 1, (x - size) % size);
    }
  }

  /** The wrapped index selects the same slot as the unbounded one, because the size divides 2^32. */
  lemma SlotIsIndex(size: nat, x: nat)
    requires RingSize(size)
    ensures Slot(size, W(x)) == Index(size, x)
  {
    PowerOf2Test(size);
    var k: nat :| IsPow2(size, k);
    if k > 32 { Pow2Grows(32, k); Pow2Thirty2(); }
    MaskIsMod(W(x), k);
    Pow2Divides(k, 32);
    Pow2Thirty2();
    ModOfMod(x, Pow2(32 - k), size);
    IndexIsMod(size, x);
  }

  lemma ModOfMod(x: int, c: int, m: int)
    requires c > 0 && m > 0
    ensures c * m > 0 && (x % (c * m)) % m == x % m
  {
    MulGe(c, m);
    var big := c * m;
    var y := x % big;
    assert x == (x / big) * (c * m) + y;
    assert (x / big) * (c * m) == ((x / big) * c) * m;
    assert x == ((x / big) * c + y / m) * m + y % m by {
      assert y == (y / m) * m + y % m;
      assert ((x / big) * c + y / m) * m == ((x / big) * c) * m + (y / m) * m;
    }
    ModUnique(x, m, (x / big) * c + y / m, y % m);
  }

  /** Two indices less than a whole ring apart use different slots. */
  lemma SlotsDiffer(size: nat, x: nat, y: nat)
    requires size > 0 && x < y < x + size
    ensures Index(size, x) != Index(size, y)
  {
    IndexIsMod(size, x);
    IndexIsMod(size, y);
    SameRemainder(size, x, y);
  }

  lemma SameRemainder(m: nat, x: nat, y: nat)
    requires m > 0 && x <= y < x + m
    ensures x % m == y % m ==> x == y
  {
    if x % m == y % m {
      assert (y / m - x / m) * m == y - x;
      SmallMultiple(y / m - x / m, m);
    }
  }

  lemma WrappedSum(a: int, n: int)
    ensures W(W(a) + n) == W(a + n)
  {
  }

  lemma WrappedSpace(c: int, a: int, b: int)
    ensures W(c + W(a) - W(b)) == W(c + a - b)
  {
  }

  /** Subtracting wrapped counters gives their true distance when that distance fits in 32 bits. */
  lemma WrappedDistance(a: int, b: int)
    ensures W(W(a) - W(b)) == W(a - b)
    ensures 0 <= a - b < TWO32 ==> W(W(a) - W(b)) == a - b
  {
  }
}
