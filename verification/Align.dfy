/**
  Forward alignment of addresses (core/include/ten_utils/lib/align.h).

  A `size_t` of `w` bits is a natural number below `Pow2(w)`; every theorem holds for every
  width. The bit operators are defined bit by bit, so the link between the mask form of the
  source and division is proved rather than assumed.
 */
module Align {

  function Pow2(k: nat): (p: nat)
    ensures p >= 1
  {
    if k == 0 then 1 else 2 * Pow2(k - 1)
  }

  // Bitwise "and": the bits of x and y, lowest first.
  function And(x: nat, y: nat): nat {
    if x == 0 || y == 0 then 0
    else (if x % 2 == 1 && y % 2 == 1 then 1 else 0) + 2 * And(x / 2, y / 2)
  }

  // Bitwise complement of the low w bits of x.
  function Not(w: nat, x: nat): nat {
    if w == 0 then 0 else (1 - x % 2) + 2 * Not(w - 1, x / 2)
  }

  // Reduction of x to a w-bit word, as unsigned arithmetic does.
  function Wrap(w: nat, x: int): nat {
    x % Pow2(w)
  }

  // (addr + (align - 1)) & ~(align - 1)
  function AlignForward(w: nat, addr: nat, align: nat): nat {
    And(Wrap(w, addr + Wrap(w, align - 1)), Not(w, Wrap(w, align - 1)))
  }

  // The addition inside AlignForward leaves the range of a w-bit word.
  predicate Overflows(w: nat, addr: nat, align: nat) {
    addr + align - 1 >= Pow2(w)
  }

  // ---------- Clearing the low k bits ----------

  // x with its k lowest bits cleared.
  function Down(x: nat, k: nat): nat {
    if k == 0 then x else 2 * Down(x / 2, k - 1)
  }

  // The k lowest bits of x are clear.
  predicate Clear(x: nat, k: nat) {
    k == 0 || (x % 2 == 0 && Clear(x / 2, k - 1))
  }

  lemma {:induction false} DownBounds(x: nat, k: nat)
    ensures Down(x, k) <= x < Down(x, k) + Pow2(k)
    ensures Clear(Down(x, k), k)
  {
    if k > 0 {
      DownBounds(x / 2, k - 1);
    }
  }

  lemma {:induction false} ClearIsFixed(x: nat, k: nat)
    requires Clear(x, k)
    ensures Down(x, k) == x
  {
    if k > 0 {
      ClearIsFixed(x / 2, k - 1);
    }
  }

  lemma {:induction false} ClearAreApart(a: nat, b: nat, k: nat)
    requires Clear(a, k) && Clear(b, k) && a < b
    ensures a + Pow2(k) <= b
  {
    if k > 0 {
      ClearAreApart(a / 2, b / 2, k - 1);
    }
  }

  lemma {:induction false} ClearSmaller(x: nat, j: nat, k: nat)
    requires j <= k && Clear(x, k)
    ensures Clear(x, j)
  {
    if j > 0 {
      ClearSmaller(x / 2, j - 1, k - 1);
    }
  }

  lemma Halves(x: nat)
    ensures (2 * x) / 2 == x && (2 * x) % 2 == 0
  {
  }

  lemma {:induction false} Pow2Clear(w: nat, k: nat)
    requires k <= w
    ensures Clear(Pow2(w), k) && Pow2(k) <= Pow2(w)
  {
    if k > 0 {
      Pow2Clear(w - 1, k - 1);
      var half := Pow2(w - 1);
      assert Pow2(w) == 2 * half && Pow2(k) == 2 * Pow2(k - 1);
      Halves(half);
    }
  }

  lemma ZeroClear(k: nat)
    ensures Clear(0, k)
  {
    if k > 0 {
      ZeroClear(k - 1);
    }
  }

  // ---------- The mask form ----------

  lemma {:induction false} NotZero(w: nat)
    ensures Not(w, 0) == Pow2(w) - 1
  {
    if w > 0 {
      NotZero(w - 1);
    }
  }

  lemma {:induction false} AndAllOnes(w: nat, x: nat)
    requires x < Pow2(w)
    ensures And(x, Pow2(w) - 1) == x
  {
    if w > 0 && x > 0 {
      AndAllOnes(w - 1, x / 2);
      assert (Pow2(w) - 1) / 2 == Pow2(w - 1) - 1;
    }
  }

  // Masking with ~(2^k - 1) clears the k lowest bits.
  lemma {:induction false} MaskIsDown(w: nat, k: nat, x: nat)
    requires k <= w && x < Pow2(w)
    ensures And(x, Not(w, Pow2(k) - 1)) == Down(x, k)
  {
    if k == 0 {
      NotZero(w);
      AndAllOnes(w, x);
    } else {
      var half := Pow2(k - 1);
      MaskIsDown(w - 1, k - 1, x / 2);
      OddHalves(half);
      assert Not(w, Pow2(k) - 1) == 2 * Not(w - 1, half - 1);
      AndEven(x, Not(w - 1, half - 1));
    }
  }

  lemma OddHalves(x: nat)
    requires x > 0
    ensures (2 * x - 1) / 2 == x - 1 && (2 * x - 1) % 2 == 1
  {
  }

  lemma AndEven(x: nat, y: nat)
    ensures And(x, 2 * y) == 2 * And(x / 2, y)
  {
    if x != 0 && y != 0 {
      assert (2 * y) / 2 == y && (2 * y) % 2 == 0;
    }
  }

  // ---------- Division and remainder by a power of two ----------

  lemma ModUnique(x: int, m: nat, q: int, r: nat)
    requires r < m
    requires x == m * q + r
    ensures x % m == r && x / m == q
  {
    var q', r' := x / m, x % m;
    MulDiff(m, q, q');
    if q - q' >= 1 {
      MulMonotone(m, 1, q - q');
    } else if q - q' <= -1 {
      MulMonotone(m, q - q', -1);
    }
  }

  lemma MulDiff(m: nat, a: int, b: int)
    ensures m * (a - b) == m * a - m * b
  {
  }

  lemma MulMonotone(m: nat, a: int, b: int)
    requires a <= b
    ensures m * a <= m * b
  {
    MulDiff(m, b, a);
  }

  lemma {:induction false} DownIsDivision(x: nat, k: nat)
    ensures Down(x, k) == Pow2(k) * (x / Pow2(k))
    ensures Clear(x, k) <==> x % Pow2(k) == 0
  {
    if k > 0 {
      var m, h := Pow2(k - 1), x / 2;
      DownIsDivision(h, k - 1);
      DoubleDivision(x, m);
    }
  }

  lemma DoubleDivision(x: nat, m: nat)
    requires m > 0
    ensures x / (2 * m) == (x / 2) / m && x % (2 * m) == 2 * ((x / 2) % m) + x % 2
    ensures (2 * m) * (x / (2 * m)) == 2 * (m * ((x / 2) / m))
  {
    var q, r := (x / 2) / m, (x / 2) % m;
    assert x / 2 == m * q + r;
    assert (2 * m) * q == 2 * (m * q);
    ModUnique(x, 2 * m, q, 2 * r + x % 2);
  }

  lemma WrapSmall(w: nat, x: nat)
    requires x < Pow2(w)
    ensures Wrap(w, x) == x
  {
    ModUnique(x, Pow2(w), 0, x);
  }

  lemma WrapOnce(w: nat, x: nat)
    requires Pow2(w) <= x < 2 * Pow2(w)
    ensures Wrap(w, x) == x - Pow2(w)
  {
    ModUnique(x, Pow2(w), 1, x - Pow2(w));
  }

  // ---------- AlignForward over clear bits ----------

  // The exact value for every address and every power of two, overflow included.
  lemma AlignForwardIsDown(w: nat, addr: nat, k: nat)
    requires k < w && addr < Pow2(w)
    ensures AlignForward(w, addr, Pow2(k)) ==
            if Overflows(w, addr, Pow2(k)) then 0 else Down(addr + Pow2(k) - 1, k)
  {
    var m, sum := Pow2(k), addr + Pow2(k) - 1;
    Pow2Clear(w, k);
    WrapSmall(w, m - 1);
    if sum < Pow2(w) {
      WrapSmall(w, sum);
      MaskIsDown(w, k, sum);
    } else {
      WrapOnce(w, sum);
      var rest := sum - Pow2(w);
      MaskIsDown(w, k, rest);
      DownBounds(rest, k);
      ZeroClear(k);
      if Down(rest, k) > 0 {
        ClearAreApart(0, Down(rest, k), k);
      }
    }
  }

  // Without overflow: the aligned value, its range, and its minimality among clear words.
  lemma AlignForwardLeastClear(w: nat, addr: nat, k: nat)
    requires k < w && addr < Pow2(w)
    requires !Overflows(w, addr, Pow2(k))
    ensures var r := AlignForward(w, addr, Pow2(k));
            && Clear(r, k)
            && addr <= r < addr + Pow2(k)
            && (forall m: nat | Clear(m, k) && addr <= m :: r <= m)
  {
    var r := Down(addr + Pow2(k) - 1, k);
    AlignForwardIsDown(w, addr, k);
    DownBounds(addr + Pow2(k) - 1, k);
    forall m: nat | Clear(m, k) && addr <= m ensures r <= m {
      if m < r {
        ClearAreApart(m, r, k);
      }
    }
  }

  lemma AlignForwardResult(w: nat, addr: nat, k: nat)
    requires k < w && addr < Pow2(w)
    ensures AlignForward(w, addr, Pow2(k)) < Pow2(w)
    ensures Clear(AlignForward(w, addr, Pow2(k)), k)
  {
    AlignForwardIsDown(w, addr, k);
    ZeroClear(k);
    DownBounds(addr + Pow2(k) - 1, k);
  }

  lemma AlignForwardFixesClear(w: nat, addr: nat, k: nat)
    requires k < w && addr < Pow2(w) && Clear(addr, k)
    ensures AlignForward(w, addr, Pow2(k)) == addr
  {
    Pow2Clear(w, k);
    ClearAreApart(addr, Pow2(w), k);
    AlignForwardLeastClear(w, addr, k);
  }

  // ---------- What the result means ----------

  lemma ClearIsMultiple(w: nat, addr: nat, k: nat)
    requires k < w && addr < Pow2(w)
    ensures AlignForward(w, addr, Pow2(k)) % Pow2(k) == 0
  {
    AlignForwardResult(w, addr, k);
    DownIsDivision(AlignForward(w, addr, Pow2(k)), k);
  }

  lemma MultipleIsNotLess(w: nat, addr: nat, k: nat, m: nat)
    requires k < w && addr < Pow2(w) && !Overflows(w, addr, Pow2(k))
    requires m % Pow2(k) == 0 && addr <= m
    ensures AlignForward(w, addr, Pow2(k)) <= m
  {
    DownIsDivision(m, k);
    AlignForwardLeastClear(w, addr, k);
  }

  // The result is the rounded-up quotient times the alignment.
  lemma AlignForwardIsQuotient(w: nat, addr: nat, k: nat)
    requires k < w && addr < Pow2(w) && !Overflows(w, addr, Pow2(k))
    ensures AlignForward(w, addr, Pow2(k)) == Pow2(k) * ((addr + Pow2(k) - 1) / Pow2(k))
  {
    AlignForwardIsDown(w, addr, k);
    DownIsDivision(addr + Pow2(k) - 1, k);
  }

  // Without overflow the result is the least multiple of the alignment that is >= addr,
  // and it is the rounded-up quotient times the alignment.
  lemma AlignForwardIsLeastMultiple(w: nat, addr: nat, k: nat)
    requires k < w && addr < Pow2(w)
    requires !Overflows(w, addr, Pow2(k))
    ensures var r := AlignForward(w, addr, Pow2(k));
            && r % Pow2(k) == 0
            && addr <= r < addr + Pow2(k)
            && (forall m: nat | m % Pow2(k) == 0 && addr <= m :: r <= m)
            && r == Pow2(k) * ((addr + Pow2(k) - 1) / Pow2(k))
  {
    ClearIsMultiple(w, addr, k);
    AlignForwardLeastClear(w, addr, k);
    AlignForwardIsQuotient(w, addr, k);
    forall m: nat | m % Pow2(k) == 0 && addr <= m ensures AlignForward(w, addr, Pow2(k)) <= m {
      MultipleIsNotLess(w, addr, k, m);
    }
  }

  // The result reaches addr exactly when the addition does not overflow; otherwise it is 0.
  lemma AlignForwardReachesAddrIff(w: nat, addr: nat, k: nat)
    requires k < w && addr < Pow2(w)
    ensures AlignForward(w, addr, Pow2(k)) >= addr <==> !Overflows(w, addr, Pow2(k))
    ensures Overflows(w, addr, Pow2(k)) ==> AlignForward(w, addr, Pow2(k)) == 0
  {
    Pow2Clear(w, k);
    AlignForwardIsDown(w, addr, k);
    if !Overflows(w, addr, Pow2(k)) {
      AlignForwardLeastClear(w, addr, k);
    }
  }

  // Order is kept exactly when the larger address does not overflow, or nothing is lost by the
  // fall to 0 because the smaller one is 0 or overflows too.
  lemma AlignForwardMonotoneIff(w: nat, x: nat, y: nat, k: nat)
    requires k < w && x <= y < Pow2(w)
    ensures AlignForward(w, x, Pow2(k)) <= AlignForward(w, y, Pow2(k))
            <==> !Overflows(w, y, Pow2(k)) || x == 0 || Overflows(w, x, Pow2(k))
  {
    AlignForwardReachesAddrIff(w, x, k);
    AlignForwardReachesAddrIff(w, y, k);
    ZeroClear(k);
    AlignForwardFixesClear(w, 0, k);
    if !Overflows(w, y, Pow2(k)) {
      AlignForwardLeastClear(w, x, k);
      AlignForwardLeastClear(w, y, k);
    }
  }

  // Aligning twice, in either order, is aligning once to the larger power of two. This holds
  // for every word, also where one of the additions overflows.
  lemma AlignForwardCompose(w: nat, addr: nat, j: nat, k: nat)
    requires j <= k < w && addr < Pow2(w)
    ensures AlignForward(w, AlignForward(w, addr, Pow2(j)), Pow2(k)) == AlignForward(w, addr, Pow2(k))
    ensures AlignForward(w, AlignForward(w, addr, Pow2(k)), Pow2(j)) == AlignForward(w, addr, Pow2(k))
  {
    var a, b := Pow2(j), Pow2(k);
    Pow2Clear(k, j);
    var y, r := AlignForward(w, addr, a), AlignForward(w, addr, b);
    AlignForwardResult(w, addr, j);
    AlignForwardResult(w, addr, k);
    ClearSmaller(r, j, k);
    AlignForwardFixesClear(w, r, j);
    if Overflows(w, addr, a) {
      AlignForwardIsDown(w, addr, j);
      AlignForwardIsDown(w, addr, k);
      ZeroClear(k);
      AlignForwardFixesClear(w, 0, k);
    } else {
      AlignForwardLeastClear(w, addr, j);
      if Overflows(w, addr, b) {
        AlignForwardIsDown(w, addr, k);
        AlignForwardIsDown(w, y, k);
      } else {
        AlignForwardLeastClear(w, addr, k);
        AlignForwardBelow(w, addr, y, k);
      }
    }
  }

  // Between addr and its aligned value there is no other aligned word, so every word of that
  // range has the same aligned value.
  lemma AlignForwardBelow(w: nat, addr: nat, y: nat, k: nat)
    requires k < w && addr < Pow2(w) && !Overflows(w, addr, Pow2(k))
    requires addr <= y <= AlignForward(w, addr, Pow2(k))
    ensures AlignForward(w, y, Pow2(k)) == AlignForward(w, addr, Pow2(k))
  {
    var r := AlignForward(w, addr, Pow2(k));
    AlignForwardResult(w, addr, k);
    AlignForwardLeastClear(w, addr, k);
    Pow2Clear(w, k);
    ClearAreApart(r, Pow2(w), k);
    AlignForwardLeastClear(w, y, k);
  }

  lemma AlignForwardIdempotent(w: nat, addr: nat, k: nat)
    requires k < w && addr < Pow2(w)
    ensures AlignForward(w, AlignForward(w, addr, Pow2(k)), Pow2(k)) == AlignForward(w, addr, Pow2(k))
  {
    AlignForwardCompose(w, addr, k, k);
  }

  // ---------- The alignment must be a power of two ----------

  lemma {:induction false} MaskedIsDisjoint(w: nat, x: nat, m: nat)
    requires x < Pow2(w) && m < Pow2(w)
    ensures And(And(x, Not(w, m)), m) == 0
  {
    if w > 0 && x > 0 && m > 0 {
      MaskedIsDisjoint(w - 1, x / 2, m / 2);
      MaskedHalf(w, x, m);
    }
  }

  // The bits of x outside m: the lowest one is missing if m has it, and the others follow.
  lemma MaskedHalf(w: nat, x: nat, m: nat)
    requires w > 0
    ensures var a := And(x, Not(w, m));
            a / 2 == And(x / 2, Not(w - 1, m / 2)) && (m % 2 == 1 ==> a % 2 == 0)
  {
    var rest := Not(w - 1, m / 2);
    assert Not(w, m) == (1 - m % 2) + 2 * rest;
    AndHalf(x, Not(w, m));
    assert Not(w, m) / 2 == rest && Not(w, m) % 2 == 1 - m % 2;
  }

  lemma AndHalf(x: nat, y: nat)
    ensures And(x, y) / 2 == And(x / 2, y / 2)
    ensures y % 2 == 0 ==> And(x, y) % 2 == 0
  {
    if x == 0 || y == 0 {
      assert And(x / 2, y / 2) == 0;
    }
  }

  lemma AndSelf(x: nat)
    ensures And(x, x) == x
  {
    if x > 0 {
      AndSelf(x / 2);
    }
  }

  // A positive number sharing no bit with its predecessor has a single bit.
  lemma {:induction false} SingleBit(a: nat)
    requires a > 0 && And(a, a - 1) == 0
    ensures exists k: nat :: a == Pow2(k)
  {
    if a % 2 == 1 {
      AndSelf(a / 2);
      assert (a - 1) / 2 == a / 2;
      assert a == Pow2(0);
    } else {
      assert (a - 1) / 2 == a / 2 - 1;
      SingleBit(a / 2);
      var k: nat :| a / 2 == Pow2(k);
      assert a == Pow2(k + 1);
    }
  }

  lemma {:induction false} AndIsSmaller(x: nat, y: nat)
    ensures And(x, y) <= x
  {
    if x > 0 && y > 0 {
      AndIsSmaller(x / 2, y / 2);
    }
  }

  // Where the addition overflows, the result falls below the alignment.
  lemma OverflowingAlignmentMoves(w: nat, align: nat)
    requires 0 < align < Pow2(w) && Overflows(w, align, align)
    ensures AlignForward(w, align, align) != align
    ensures forall k: nat :: align != Pow2(k)
  {
    WrapSmall(w, align - 1);
    WrapOnce(w, align + align - 1);
    AndIsSmaller(Wrap(w, align + align - 1), Not(w, align - 1));
    forall k: nat
      ensures align != Pow2(k)
    {
      if w <= k {
        Pow2AtLeast(w, k);
      } else {
        Pow2AtLeast(k + 1, w);
      }
    }
  }

  lemma {:induction false} Pow2AtLeast(j: nat, k: nat)
    requires j <= k
    ensures Pow2(j) <= Pow2(k)
  {
    if j < k {
      Pow2AtLeast(j, k - 1);
    }
  }

  // The powers of two are exactly the alignments that keep their own value fixed; every other
  // one already fails on addr == align.
  lemma AlignmentMustBePowerOfTwo(w: nat, align: nat)
    requires 0 < align < Pow2(w)
    ensures AlignForward(w, align, align) == align <==> (exists k: nat :: align == Pow2(k))
  {
    if Overflows(w, align, align) {
      OverflowingAlignmentMoves(w, align);
    } else {
      WrapSmall(w, align - 1);
      WrapSmall(w, align + align - 1);
      if AlignForward(w, align, align) == align {
        MaskedIsDisjoint(w, align + align - 1, align - 1);
        SingleBit(align);
      }
      if k: nat :| align == Pow2(k) {
        if w <= k {
          Pow2AtLeast(w, k);
        }
        Pow2Clear(k, k);
        AlignForwardFixesClear(w, align, k);
      }
    }
  }
}
