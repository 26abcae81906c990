/**
 64-bit unsigned words (`size_t` / `uint64_t`) and the bit trick of the ring buffer:
 a free-running index `i` is reduced modulo 2^64 by the hardware and mapped to a slot by
 `i & (Size - 1)`.  Bitwise AND is defined here bit by bit on naturals.
 */
module Words {

  const TWO_TO_THE_64: nat := 0x1_0000_0000_0000_0000

  type Word = x: nat | x < TWO_TO_THE_64

  /** The word that holds an unbounded counter. */
  function Wrap(i: nat): Word {
    i % TWO_TO_THE_64
  }

  /** `a + b` on `size_t`. */
  function WordAdd(a: Word, b: Word): Word {
    (a + b) % TWO_TO_THE_64
  }

  /** `a - b` on `size_t`. */
  function WordSub(a: Word, b: Word): Word {
    (a - b) % TWO_TO_THE_64
  }

  /** `a & b`, bit by bit. */
  function And(a: nat, b: nat): nat {
    if a == 0 then 0
    else 2 * And(a / 2, b / 2) + (if a % 2 == 1 && b % 2 == 1 then 1 else 0)
  }

  predicate IsPowerOfTwo(n: nat) {
    n == 1 || (n > 0 && n % 2 == 0 && IsPowerOfTwo(n / 2))
  }

  /** The `static_assert` that guards the class template: `(Size & (Size - 1)) == 0`. */
  predicate StaticAssert(size: Word) {
    And(size, WordSub(size, 1)) == 0
  }

  /** The slot a word index selects: `index & (Size - 1)`. */
  function SlotOf(index: Word, size: Word): nat {
    And(index, WordSub(size, 1))
  }

  // ----- what the assertion accepts

  lemma {:induction false} AndPredecessor(n: nat)
    requires n > 0
    ensures And(n, n - 1) == 0 <==> IsPowerOfTwo(n)
    decreases n
  {
    if n == 1 {
      assert And(1, 0) == 2 * And(0, 0) + 0;
    } else if n % 2 == 0 {
      assert (n - 1) / 2 == n / 2 - 1 && (n - 1) % 2 == 1;
      AndPredecessor(n / 2);
    } else {
      assert (n - 1) / 2 == n / 2 && n / 2 > 0;
      AndSelf(n / 2);
    }
  }

  lemma {:induction false} AndSelf(n: nat)
    ensures And(n, n) == n
    decreases n
  {
    if n > 0 {
      AndSelf(n / 2);
    }
  }

  /** The assertion accepts exactly the powers of two, and also zero. */
  lemma StaticAssertAccepts(size: Word)
    ensures StaticAssert(size) <==> size == 0 || IsPowerOfTwo(size)
  {
    if size > 0 {
      AndPredecessor(size);
    }
  }

  // ----- the mask is the remainder, and it survives the wrap at 2^64

  lemma {:induction false} MaskIsRemainder(i: nat, n: nat)
    requires IsPowerOfTwo(n)
    ensures And(i, n - 1) == i % n
    decreases n
  {
    if n == 1 {
      AndZero(i);
    } else {
      var h := n / 2;
      assert (n - 1) / 2 == h - 1 && (n - 1) % 2 == 1;
      MaskIsRemainder(i / 2, h);
      DoubleRemainder(i, h);
      if i == 0 {
        assert 0 % n == 0;
      } else {
        assert And(i, n - 1) == 2 * And(i / 2, h - 1) + (if i % 2 == 1 then 1 else 0);
      }
    }
  }

  lemma {:induction false} AndZero(i: nat)
    ensures And(i, 0) == 0
    decreases i
  {
    if i > 0 {
      AndZero(i / 2);
    }
  }

  lemma DoubleRemainder(i: nat, h: nat)
    requires h > 0
    ensures i % (2 * h) == 2 * ((i / 2) % h) + i % 2
  {
    var q, r := (i / 2) / h, (i / 2) % h;
    assert i / 2 == q * h + r;
    assert i == q * (2 * h) + (2 * r + i % 2);
    RemainderUnique(i, 2 * h, q, 2 * r + i % 2);
  }

  lemma RemainderUnique(i: int, n: int, q: int, r: int)
    requires n > 0 && 0 <= r < n && i == q * n + r
    ensures i % n == r
  {
    var d := i / n - q;
    assert i == (i / n) * n + i % n;
    assert d * n == r - i % n;
    MultipleBound(d, n);
  }

  lemma MultipleBound(d: int, n: int)
    requires n > 0
    ensures d >= 1 ==> d * n >= n
    ensures d <= -1 ==> d * n <= -n
  {
    if d >= 1 {
      assert d * n == n + (d - 1) * n;
    } else if d <= -1 {
      assert d * n == -n + (d + 1) * n;
    }
  }

  lemma {:induction false} PowersDivide(a: nat, b: nat)
    requires IsPowerOfTwo(a) && IsPowerOfTwo(b) && a <= b
    ensures b % a == 0
    decreases a
  {
    if a > 1 {
      PowersDivide(a / 2, b / 2);
      DoubleRemainder(b, a / 2);
    }
  }

  lemma {:induction false} PowersMultiply(a: nat, b: nat)
    requires IsPowerOfTwo(a) && IsPowerOfTwo(b)
    ensures IsPowerOfTwo(a * b)
    decreases a
  {
    if a > 1 {
      PowersMultiply(a / 2, b);
      assert a == 2 * (a / 2);
      assert a * b == 2 * ((a / 2) * b);
      assert (a / 2) * b > 0;
    }
  }

  lemma WordModulusIsPower()
    ensures IsPowerOfTwo(TWO_TO_THE_64)
  {
    assert IsPowerOfTwo(2);
    assert IsPowerOfTwo(4);
    PowersMultiply(4, 4);
    PowersMultiply(16, 16);
    PowersMultiply(0x100, 0x100);
    PowersMultiply(0x1_0000, 0x1_0000);
    PowersMultiply(0x1_0000_0000, 0x1_0000_0000);
  }

  /** For an accepted non-zero size, the slot of the wrapped index is the unbounded index modulo the size. */
  lemma SlotOfWrapped(i: nat, size: Word)
    requires StaticAssert(size) && size > 0
    ensures SlotOf(Wrap(i), size) == i % size < size
  {
    StaticAssertAccepts(size);
    MaskIsRemainder(Wrap(i), size);
    WordModulusIsPower();
    PowersDivide(size, TWO_TO_THE_64);
    RemainderOfRemainder(i, size, TWO_TO_THE_64);
  }

  lemma RemainderOfRemainder(i: nat, a: nat, b: nat)
    requires a > 0 && b > 0 && b % a == 0
    ensures (i % b) % a == i % a
  {
    var q, p := i / b, b / a;
    assert i == q * b + i % b && b == p * a;
    var s, t := (i % b) / a, (i % b) % a;
    assert i % b == s * a + t;
    assert q * (p * a) == (q * p) * a;
    assert i == (q * p + s) * a + t;
    RemainderUnique(i, a, q * p + s, t);
  }

  // ----- comparisons of wrapped counters

  /** While two counters are less than 2^64 apart, the wrapped difference is the true one. */
  lemma WrappedDifference(a: nat, b: nat)
    requires b <= a < b + TWO_TO_THE_64
    ensures WordSub(Wrap(a), Wrap(b)) == a - b
  {
    var M := TWO_TO_THE_64;
    var x := Wrap(a) - Wrap(b);
    assert a == (a / M) * M + Wrap(a) && b == (b / M) * M + Wrap(b);
    assert x == (b / M - a / M) * M + (a - b);
    RemainderUnique(x, M, b / M - a / M, a - b);
  }

  lemma WrappedEqual(a: nat, b: nat)
    requires b <= a < b + TWO_TO_THE_64
    ensures Wrap(a) == Wrap(b) <==> a == b
  {
    WrappedDifference(a, b);
  }

  lemma WrappedSuccessor(a: nat)
    ensures WordAdd(Wrap(a), 1) == Wrap(a + 1)
  {
    var M := TWO_TO_THE_64;
    assert a + 1 == (a / M) * M + (Wrap(a) + 1);
    if Wrap(a) + 1 == M {
      RemainderUnique(a + 1, M, a / M + 1, 0);
    } else {
      RemainderUnique(a + 1, M, a / M, Wrap(a) + 1);
    }
  }

  /** Indices less than `n` apart never share a slot. */
  lemma SlotsDiffer(i: nat, j: nat, n: nat)
    requires i < j < i + n
    ensures i % n != j % n
  {
    var d := j / n - i / n;
    assert j - i == d * n + (j % n - i % n);
    MultipleBound(d, n);
  }
}
