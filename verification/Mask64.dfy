// 64-bit masks and their bits, numbered by naturals.
module Mask64 {
  type Index = n: nat | n < 64

  const ALL: bv64 := 0xFFFF_FFFF_FFFF_FFFF

  // Bit `n`, reached one place at a time.
  predicate Bit(m: bv64, n: Index) {
    if n == 0 then m & 1 == 1 else Bit(m >> 1, n - 1)
  }

  // 1ULL << n
  function One(n: Index): bv64 {
    if n == 0 then 1 else One(n - 1) << 1
  }

  // `n` as a shift amount, and the bit such a shift brings down.
  function At(n: Index): bv7 {
    if n == 0 then 0 else At(n - 1) + 1
  }

  predicate BitAt(m: bv64, n: Index) {
    AtBound(n);
    (m >> At(n)) & 1 == 1
  }

  function Low39(m: bv64): bv64 {
    (m << 25) >> 25
  }

  function From39(m: bv64): bv64 {
    m >> 39
  }

  lemma Increment(x: bv7)
    requires x as int < 63
    ensures (x + 1) as int == x as int + 1
  {
  }

  lemma {:induction false} AtValue(n: Index)
    ensures At(n) as int == n
  {
    if n != 0 {
      AtValue(n - 1);
      Increment(At(n - 1));
    }
  }

  lemma Bounds(x: bv7)
    ensures (x as int < 64 <==> x < 64) && (x as int < 63 <==> x < 63)
    ensures (x as int < 39 <==> x < 39) && (x as int < 25 <==> x < 25)
  {
  }

  lemma AtBound(n: Index)
    ensures At(n) < 64 && (n < 63 <==> At(n) < 63) && (n < 39 <==> At(n) < 39) && (n < 25 <==> At(n) < 25)
  {
    AtValue(n);
    Bounds(At(n));
  }

  lemma {:induction false} AtSum(i: Index, k: Index)
    requires i + k < 64
    ensures At(i + k) == At(i) + At(k)
    decreases k
  {
    if k != 0 {
      AtSum(i, k - 1);
    }
  }

  // ---- bits of masks ----

  lemma HalfAt(m: bv64, x: bv7)
    ensures x < 63 ==> ((m >> 1) >> x) & 1 == (m >> (x + 1)) & 1
    ensures x == 63 ==> ((m >> 1) >> x) & 1 == 0
  {
  }

  lemma {:induction false} BitIsAt(m: bv64, n: Index)
    ensures Bit(m, n) <==> BitAt(m, n)
    decreases n
  {
    if n != 0 {
      BitIsAt(m >> 1, n - 1);
      AtBound(n - 1);
      HalfAt(m, At(n - 1));
    }
  }

  lemma DoubleAt(x: bv7)
    requires x < 63
    ensures (1 as bv64 << x) << 1 == 1 as bv64 << (x + 1)
  {
  }

  lemma {:induction false} OneIsAt(n: Index)
    ensures At(n) < 64 && One(n) == 1 << At(n)
  {
    AtBound(n);
    if n != 0 {
      OneIsAt(n - 1);
      AtBound(n - 1);
      DoubleAt(At(n - 1));
    }
  }

  lemma OrAt(m: bv64, k: bv7, i: bv7)
    requires k < 64 && i < 64
    ensures ((m | (1 << k)) >> i) & 1 == 1 <==> (m >> i) & 1 == 1 || i == k
  {
  }

  lemma BitAtOfOr(m: bv64, k: Index, i: Index)
    ensures BitAt(m | One(k), i) <==> BitAt(m, i) || i == k
  {
    AtIsInjective(i, k);
    AtBound(i);
    OneIsAt(k);
    OrAt(m, At(k), At(i));
  }

  lemma BitOfOr(m: bv64, k: Index, i: Index)
    ensures Bit(m | One(k), i) <==> Bit(m, i) || i == k
  {
    BitIsAt(m | One(k), i);
    BitIsAt(m, i);
    BitAtOfOr(m, k, i);
  }

  lemma AtIsInjective(a: Index, b: Index)
    ensures At(a) == At(b) <==> a == b
  {
    AtValue(a);
    AtValue(b);
  }

  lemma AllAt(i: Index)
    ensures BitAt(ALL, i)
  {
    AtBound(i);
  }

  lemma BitOfAll(i: Index)
    ensures Bit(ALL, i)
  {
    BitIsAt(ALL, i);
    AllAt(i);
  }

  lemma {:induction false} BitOfZero(i: Index)
    ensures !Bit(0, i)
  {
    if i != 0 {
      BitOfZero(i - 1);
    }
  }

  // The top bit of a half is clear.
  lemma TopOfHalf(m: bv64)
    ensures !Bit(m >> 1, 63)
  {
    BitIsAt(m >> 1, 63);
    AtBound(63);
    AtValue(63);
    HalfAt(m, At(63));
  }

  lemma HalfIsLess(m: bv64)
    requires m != 0
    ensures m >> 1 < m && (m & 1 == 0 ==> m >> 1 != 0)
  {
  }

  lemma BitOfHalf(m: bv64, i: Index)
    ensures if i < 63 then Bit(m >> 1, i) == Bit(m, i + 1) else !Bit(m >> 1, i)
  {
    TopOfHalf(m);
  }

  lemma BitAtOfHalf(m: bv64, i: Index)
    ensures if i < 63 then BitAt(m >> 1, i) == BitAt(m, i + 1) else !BitAt(m >> 1, i)
  {
    AtBound(i);
    HalfAt(m, At(i));
  }

  lemma {:induction false} SomeBitAt(m: bv64) returns (i: Index)
    requires m != 0
    ensures BitAt(m, i)
    decreases m
  {
    if m & 1 == 1 {
      i := 0;
    } else {
      HalfIsLess(m);
      var j := SomeBitAt(m >> 1);
      BitAtOfHalf(m, j);
      i := j + 1;
    }
  }

  lemma SomeBit(m: bv64) returns (i: Index)
    requires m != 0
    ensures Bit(m, i)
  {
    i := SomeBitAt(m);
    BitIsAt(m, i);
  }

  lemma XorAt(a: bv64, b: bv64, x: bv7)
    requires x < 64
    ensures ((a ^ b) >> x) & 1 == 1 <==> ((a >> x) & 1 == 1) != ((b >> x) & 1 == 1)
  {
  }

  lemma BitAtOfXor(a: bv64, b: bv64, i: Index)
    ensures BitAt(a ^ b, i) <==> (BitAt(a, i)) != (BitAt(b, i))
  {
    AtBound(i);
    XorAt(a, b, At(i));
  }

  lemma BitOfXor(a: bv64, b: bv64, i: Index)
    ensures Bit(a ^ b, i) <==> (Bit(a, i)) != (Bit(b, i))
  {
    BitIsAt(a ^ b, i);
    BitIsAt(a, i);
    BitIsAt(b, i);
    BitAtOfXor(a, b, i);
  }

  lemma BothAt(a: bv64, b: bv64, x: bv7)
    requires x < 64
    ensures (a >> x) & 1 == 1 && (b >> x) & 1 == 1 ==> ((a & b) >> x) & 1 == 1
  {
  }

  lemma FirstAt(a: bv64, b: bv64, x: bv7)
    requires x < 64
    ensures ((a & b) >> x) & 1 == 1 ==> (a >> x) & 1 == 1
  {
  }

  lemma SecondAt(a: bv64, b: bv64, x: bv7)
    requires x < 64
    ensures ((a & b) >> x) & 1 == 1 ==> (b >> x) & 1 == 1
  {
  }

  lemma BitAtOfAnd(a: bv64, b: bv64, i: Index)
    ensures BitAt(a & b, i) <==> BitAt(a, i) && BitAt(b, i)
  {
    AtBound(i);
    BothAt(a, b, At(i));
    FirstAt(a, b, At(i));
    SecondAt(a, b, At(i));
  }

  lemma BitOfAnd(a: bv64, b: bv64, i: Index)
    ensures Bit(a & b, i) <==> Bit(a, i) && Bit(b, i)
  {
    BitIsAt(a & b, i);
    BitIsAt(a, i);
    BitIsAt(b, i);
    BitAtOfAnd(a, b, i);
  }

  lemma EitherAt(a: bv64, b: bv64, x: bv7)
    requires x < 64
    ensures ((a | b) >> x) & 1 == 1 ==> (a >> x) & 1 == 1 || (b >> x) & 1 == 1
  {
  }

  lemma WidenedAt(a: bv64, b: bv64, x: bv7)
    requires x < 64
    ensures (a >> x) & 1 == 1 ==> ((a | b) >> x) & 1 == 1
    ensures (b >> x) & 1 == 1 ==> ((a | b) >> x) & 1 == 1
  {
  }

  lemma BitAtOfUnion(a: bv64, b: bv64, i: Index)
    ensures BitAt(a | b, i) <==> BitAt(a, i) || BitAt(b, i)
  {
    AtBound(i);
    EitherAt(a, b, At(i));
    WidenedAt(a, b, At(i));
  }

  lemma BitOfUnion(a: bv64, b: bv64, i: Index)
    ensures Bit(a | b, i) <==> Bit(a, i) || Bit(b, i)
  {
    BitIsAt(a | b, i);
    BitIsAt(a, i);
    BitIsAt(b, i);
    BitAtOfUnion(a, b, i);
  }

  // a & ~b, the complement written as an exclusive or with all ones.
  function Without(a: bv64, b: bv64): bv64 {
    a & (b ^ ALL)
  }

  lemma BitOfComplement(b: bv64, i: Index)
    ensures Bit(b ^ ALL, i) <==> !Bit(b, i)
  {
    BitOfXor(b, ALL, i);
    BitOfAll(i);
  }

  // The bits of `a` that are not in `b`.
  lemma BitOfWithout(a: bv64, b: bv64, i: Index)
    ensures Bit(Without(a, b), i) <==> Bit(a, i) && !Bit(b, i)
  {
    BitOfComplement(b, i);
    BitOfMasked(a, b ^ ALL, i, Bit(b, i));
  }

  lemma BitOfMasked(a: bv64, c: bv64, i: Index, excluded: bool)
    requires Bit(c, i) <==> !excluded
    ensures Bit(a & c, i) <==> Bit(a, i) && !excluded
  {
    BitOfAnd(a, c, i);
  }

  lemma XorIsZero(a: bv64, b: bv64)
    ensures a ^ b == 0 ==> a == b
  {
  }

  // Masks with the same bits are the same mask.
  lemma Extensional(a: bv64, b: bv64)
    requires forall i: Index :: Bit(a, i) == Bit(b, i)
    ensures a == b
  {
    XorIsZero(a, b);
    if a ^ b != 0 {
      var i := SomeBit(a ^ b);
      BitOfXor(a, b, i);
    }
  }

  // ---- the two parts of a mask split at bit 39 ----

  lemma LowAt(m: bv64, x: bv7)
    requires x < 64
    ensures (((m << 25) >> 25) >> x) & 1 == 1 <==> x < 39 && (m >> x) & 1 == 1
  {
  }

  lemma BitAtOfLow(m: bv64, i: Index)
    ensures BitAt(Low39(m), i) <==> i < 39 && BitAt(m, i)
  {
    AtBound(i);
    LowAt(m, At(i));
  }

  lemma BitOfLow(m: bv64, i: Index)
    ensures Bit(Low39(m), i) <==> i < 39 && Bit(m, i)
  {
    BitIsAt(Low39(m), i);
    BitIsAt(m, i);
    BitAtOfLow(m, i);
  }

  lemma HighAt(m: bv64, x: bv7)
    ensures x < 25 ==> ((m >> 39) >> x) & 1 == (m >> (x + 39)) & 1
    ensures 25 <= x < 64 ==> ((m >> 39) >> x) & 1 == 0
  {
  }

  lemma At39()
    ensures At(39) == 39
  {
    AtValue(39);
  }

  lemma BitAtOfHigh(m: bv64, i: Index)
    ensures i < 25 ==> (BitAt(From39(m), i) <==> BitAt(m, i + 39))
    ensures 25 <= i ==> !BitAt(From39(m), i)
  {
    AtBound(i);
    HighAt(m, At(i));
    if i < 25 {
      AtSum(i, 39);
      At39();
    }
  }

  lemma BitOfHigh(m: bv64, i: Index)
    ensures i < 25 ==> (Bit(From39(m), i) <==> Bit(m, i + 39))
    ensures 25 <= i ==> !Bit(From39(m), i)
  {
    BitIsAt(From39(m), i);
    BitAtOfHigh(m, i);
    if i < 25 {
      BitIsAt(m, i + 39);
    }
  }

  lemma PartsAreNotAll(m: bv64)
    ensures Low39(m) != ALL && From39(m) != ALL
  {
  }
}
