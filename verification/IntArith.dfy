// 64-bit fast paths of integer arithmetic, against unbounded integers.

module IntArith {
  const MIN: int := -0x8000_0000_0000_0000
  const MAX: int := 0x7FFF_FFFF_FFFF_FFFF
  const WORD: int := 0x1_0000_0000_0000_0000

  predicate Fits(x: int) {
    MIN <= x <= MAX
  }

  type int64 = x: int | Fits(x)

  /** Reinterpret the low 64 bits as a signed number. */
  function Signed(x: int): (r: int)
    ensures Fits(r)
  {
    var low := x % WORD;
    if low > MAX then low - WORD else low
  }

  function Abs(x: int): nat {
    if x < 0 then -x else x
  }

  function NatQuot(a: nat, b: nat): nat
    requires b > 0
  {
    a / b
  }

  /** Division and remainder as in C: towards zero. */
  function Quot(a: int, b: int): int
    requires b != 0
  {
    var q: int := NatQuot(Abs(a), Abs(b));
    if (a < 0) == (b < 0) then q else -q
  }

  function Rem(a: int, b: int): int
    requires b != 0
  {
    a - b * Quot(a, b)
  }

  function Pow(b: int, e: nat): int {
    if e == 0 then 1 else b * Pow(b, e - 1)
  }

  /** `q` is the quotient rounded towards minus infinity. */
  predicate IsFloor(a: int, b: int, q: int)
    requires b != 0
  {
    if b > 0 then b * q <= a < b * q + b else b * q + b < a <= b * q
  }

  /** An integer result: machine integer or big integer. */
  datatype Number = Int(i: int64) | Big(z: int)

  function Value(n: Number): int {
    if n.Int? then n.i else n.z
  }

  datatype Outcome = Ok(n: Number) | DivisionByZero | TooBig

  // ----- words -----

  lemma SignedIs(x: int, k: int)
    requires Fits(x + k * WORD)
    ensures Signed(x) == x + k * WORD
  {
  }

  lemma SignedMultiple(x: int) returns (k: int)
    ensures Signed(x) == x + k * WORD
  {
    k := if x % WORD > MAX then -(x / WORD) - 1 else -(x / WORD);
  }

  lemma SignedNegates(x: int)
    ensures Signed(-Signed(x)) == Signed(-x)
  {
    var k := SignedMultiple(x);
    var j := SignedMultiple(-Signed(x));
    SignedIs(-x, j - k);
  }

  // ----- products -----

  lemma MulPos(a: int, b: int)
    requires a >= 0 && b >= 0
    ensures a * b >= 0
  {
  }

  lemma MulMono(a: int, b: int, c: int)
    requires a <= b && c >= 0
    ensures a * c <= b * c
  {
    MulPos(b - a, c);
    assert (b - a) * c == b * c - a * c;
  }

  lemma AbsTimes(a: int, b: int)
    ensures Abs(a * b) == Abs(a) * Abs(b)
  {
    if a >= 0 && b >= 0 {
      MulPos(a, b);
    } else if a >= 0 {
      MulPos(a, -b);
      assert a * (-b) == -(a * b);
    } else if b >= 0 {
      MulPos(-a, b);
      assert (-a) * b == -(a * b);
    } else {
      MulPos(-a, -b);
      assert (-a) * (-b) == a * b;
    }
  }

  lemma AbsGrows(a: int, b: int)
    requires b != 0
    ensures Abs(a) <= Abs(a * b)
  {
    AbsTimes(a, b);
    MulMono(1, Abs(b), Abs(a));
    assert Abs(b) * Abs(a) == Abs(a) * Abs(b);
  }

  // ----- truncating division -----

  lemma DivNat(a: nat, b: nat)
    requires b > 0
    ensures b * NatQuot(a, b) <= a < b * NatQuot(a, b) + b
  {
    assert a == b * (a / b) + a % b;
  }

  lemma QuotRem(a: int, b: int)
    requires b != 0
    ensures a == b * Quot(a, b) + Rem(a, b) && Abs(Rem(a, b)) < Abs(b)
    ensures Rem(a, b) > 0 ==> a > 0
    ensures Rem(a, b) < 0 ==> a < 0
  {
    hide *;
    AbsIs(a);
    AbsIs(b);
    QuotIs(a, b);
    RemIs(a, b);
    AbsIs(Rem(a, b));
    DivNat(Abs(a), Abs(b));
    var q := NatQuot(Abs(a), Abs(b));
    var p := Abs(b) * q;
    SignedQuotient(a, b, Abs(a), Abs(b), q, p, Quot(a, b));
  }

  lemma SignedQuotient(a: int, b: int, aa: int, bb: int, q: int, p: int, signed: int)
    requires aa == (if a < 0 then -a else a) && bb == (if b < 0 then -b else b) && p == bb * q
    requires signed == if (a < 0) == (b < 0) then q else -q
    ensures b * signed == if a < 0 then -p else p
  {
    if b < 0 {
      assert b == -bb;
      if a < 0 { assert (-bb) * q == -(bb * q); } else { assert (-bb) * (-q) == bb * q; }
    } else {
      assert b == bb;
      if a < 0 { assert bb * (-q) == -(bb * q); }
    }
  }

  lemma AbsIs(a: int)
    ensures Abs(a) == if a < 0 then -a else a
  {
  }

  lemma QuotIs(a: int, b: int)
    requires b != 0
    ensures Quot(a, b) == if (a < 0) == (b < 0) then NatQuot(Abs(a), Abs(b)) else 0 - NatQuot(Abs(a), Abs(b))
  {
  }

  lemma RemIs(a: int, b: int)
    requires b != 0
    ensures Rem(a, b) == a - b * Quot(a, b)
  {
    hide Quot;
  }

  lemma QuotUnique(b: int, q: int, r: int)
    requires b != 0 && Abs(r) < Abs(b)
    requires r > 0 ==> b * q + r > 0
    requires r < 0 ==> b * q + r < 0
    ensures Quot(b * q + r, b) == q
  {
    var a := b * q + r;
    hide Quot, Rem, Abs;
    QuotRem(a, b);
    var d, r1 := Quot(a, b) - q, Rem(a, b);
    var bd := b * d;
    assert bd == b * Quot(a, b) - b * q;
    AbsIs(r);
    AbsIs(r1);
    AbsIs(bd);
    if d != 0 { AbsGrows(b, d); }
  }

  // ----- multiplication -----

  lemma AbsFacts(y: int)
    requires Fits(y) && y != 0
    ensures 0 < Abs(y) < WORD && Abs(0) == 0
  {
  }

  lemma NoMultiple(r: int, k: int)
    requires r == k * WORD && Abs(r) < WORD
    ensures r == 0
  {
  }

  lemma DivisionExact(x: int, y: int)
    requires Fits(y) && y != 0 && Quot(Signed(x * y), y) == x
    ensures Signed(x * y) == x * y
  {
    hide Quot, Rem, Signed, Abs;
    AbsFacts(y);
    var prod := Signed(x * y);
    var k := SignedMultiple(x * y);
    assert y * x == x * y;
    QuotRem(prod, y);
    assert prod == x * y + Rem(prod, y);
    NoMultiple(Rem(prod, y), k);
  }

  /** Dividing the wrapped product gives back the factor exactly when nothing was wrapped. */
  lemma DivisionDetects(x: int, y: int)
    requires Fits(x) && Fits(y) && x != 0 && y != 0
    ensures var prod := Signed(x * y);
            !(y == -1 && prod == MIN) && Quot(prod, y) == x <==> Fits(x * y)
  {
    hide Quot, Signed, Abs;
    AbsFacts(y);
    var prod := Signed(x * y);
    if Quot(prod, y) == x { DivisionExact(x, y); }
    if Fits(x * y) {
      SignedIs(x * y, 0);
      assert y * x + 0 == x * y;
      QuotUnique(y, x, 0);
      if y == -1 { assert x * -1 == -x; }
    }
  }

  lemma Negated(x: int)
    requires Fits(x)
    ensures x < 0 ==> (-x) % WORD == -x
  {
  }

  lemma SignedProduct(x: int, y: int, sign: int)
    requires x != 0 && y != 0 && sign == if (x > 0) == (y > 0) then 1 else -1
    ensures x * y == if sign == 1 then Abs(x) * Abs(y) else -(Abs(x) * Abs(y))
  {
    AbsTimes(x, y);
    if x > 0 {
      if y > 0 { MulPos(x, y); } else { MulPos(x, -y); assert x * (-y) == -(x * y); }
    } else {
      if y > 0 { MulPos(-x, y); assert (-x) * y == -(x * y); } else { MulPos(-x, -y); assert (-x) * (-y) == x * y; }
    }
  }

  /** The portable multiplication of two words: succeeds exactly when the product is a word. */
  method Mul64(x: int64, y: int64) returns (ok: bool, r: int64)
    ensures ok <==> Fits(x * y)
    ensures ok ==> r == x * y
  {
    r := 0;
    if x == 0 || y == 0 { return true, 0; }
    var sx: int, sy: int := x, y;
    var sign, ax, ay := 1, 0, 0;
    if sx > 0 {
      ax := sx;
      if sy > 0 { ay := sy; } else { ay, sign := (-sy) % WORD, -1; }
    } else {
      ax := (-sx) % WORD;
      if sy > 0 { ay, sign := sy, -1; } else { ay := (-sy) % WORD; }
    }
    Negated(sx);
    Negated(sy);
    assert ax == Abs(sx) && ay == Abs(sy);
    SignedProduct(sx, sy, sign);
    var prod := Signed(ax * ay);
    if sign < 0 {
      SignedNegates(ax * ay);
      prod := Signed(-prod);
    }
    assert prod == Signed(sx * sy);
    if ax < 0x4000_0000 && ay < 0x4000_0000 {
      SmallProduct(ax, ay);
      SignedIs(sx * sy, 0);
      return true, prod;
    }
    DivisionDetects(sx, sy);
    if !(sy == -1 && prod == MIN) && Quot(prod, sy) == sx {
      SignedIs(sx * sy, 0);
      return true, prod;
    }
    return false, 0;
  }

  lemma SmallProduct(a: nat, b: nat)
    requires a < 0x4000_0000 && b < 0x4000_0000
    ensures 0 <= a * b <= 0x1000_0000_0000_0000
  {
    MulPos(a, b);
    MulMono(a, 0x4000_0000, b);
  }

  // ----- powers -----

  lemma {:induction false} PowDouble(m: int, n: nat)
    ensures Pow(m, 2 * n) == Pow(m * m, n)
    decreases n
  {
    if n > 0 {
      PowDouble(m, n - 1);
      assert Pow(m, 2 * n) == m * (m * Pow(m, 2 * n - 2));
      assert m * (m * Pow(m * m, n - 1)) == m * m * Pow(m * m, n - 1);
    }
  }

  lemma {:induction false} PowGrows(m: int, n: nat)
    requires m != 0
    ensures Abs(Pow(m, n)) >= 1 && (n > 0 ==> Abs(Pow(m, n)) >= Abs(m))
    decreases n
  {
    if n > 0 {
      PowGrows(m, n - 1);
      AbsGrows(m, Pow(m, n - 1));
    }
  }

  /** No square is 2 to the power 63. */
  lemma SquareMisses(m: int)
    requires !Fits(m * m)
    ensures m * m > MAX + 1
  {
    var a := Abs(m);
    AbsTimes(m, m);
    MulPos(a, a);
    if a <= 3037000499 {
      MulMono(a, 3037000499, a);
    } else {
      MulMono(3037000500, a, 3037000500);
      MulMono(3037000500, a, a);
    }
  }

  /** A factor that overflows makes the whole power overflow. */
  lemma FactorOverflows(res: int64, m: int64, rest: nat)
    requires !Fits(res * m) && (m < 0 ==> res == 1)
    ensures !Fits(res * m * Pow(m, rest))
  {
    var p := res * m;
    if rest == 0 {
      assert p * Pow(m, 0) == p;
    } else {
      SmallFactor(res, m);
      PowGrows(m, rest);
      AbsTimes(p, Pow(m, rest));
      MulMono(2, Abs(Pow(m, rest)), Abs(p));
      assert Abs(Pow(m, rest)) * Abs(p) == Abs(p) * Abs(Pow(m, rest));
    }
  }

  lemma SmallFactor(res: int64, m: int64)
    requires !Fits(res * m) && (m < 0 ==> res == 1)
    ensures Abs(m) >= 2
  {
    assert res * 0 == 0 && res * 1 == res;
  }

  lemma SquareOverflows(res: int64, m: int64, rest: nat)
    requires !Fits(m * m) && rest > 0 && res != 0
    ensures !Fits(res * Pow(m * m, rest))
  {
    SquareMisses(m);
    PowGrows(m * m, rest);
    AbsGrows(Pow(m * m, rest), res);
    assert Pow(m * m, rest) * res == res * Pow(m * m, rest);
  }

  lemma PowSplit(res: int, m: int, n: nat)
    ensures res * Pow(m, n) == if n % 2 == 1 then res * m * Pow(m * m, n / 2) else res * Pow(m * m, n / 2)
    ensures n % 2 == 1 ==> res * Pow(m, n) == res * m * Pow(m, n - 1)
  {
    PowDouble(m, n / 2);
    if n % 2 == 1 {
      assert Pow(m, n) == m * Pow(m, n - 1) && n - 1 == 2 * (n / 2);
      assert res * (m * Pow(m, n - 1)) == res * m * Pow(m, n - 1);
    }
  }

  /** Power by squaring: succeeds exactly when the power is a word, although squares are taken ahead. */
  method Pow64(m0: int64, n0: int64) returns (ok: bool, r: int64)
    requires n0 >= 0
    ensures ok <==> Fits(Pow(m0, n0))
    ensures ok ==> r == Pow(m0, n0)
  {
    r := 0;
    var res: int64, m: int64, n: nat := 1, m0, n0;
    while n != 0
      invariant res * Pow(m, n) == Pow(m0, n0)
      invariant (m < 0 ==> res == 1) && (res == 0 ==> m == 0)
      decreases n
    {
      PowSplit(res, m, n);
      if n % 2 == 1 {
        var fits, prod := Mul64(res, m);
        if !fits {
          FactorOverflows(res, m, n - 1);
          return false, 0;
        }
        NonZero(res, m);
        res := prod;
      }
      n := n / 2;
      if n != 0 {
        var fits, square := Mul64(m, m);
        if !fits {
          SquareOverflows(res, m, n);
          return false, 0;
        }
        NonZero(m, m);
        m := square;
      } else {
        PowNone(m, res);
        return true, res;
      }
    }
    return true, res;
  }

  lemma NonZero(a: int, b: int)
    ensures a * b == 0 ==> a == 0 || b == 0
    ensures a == b ==> a * b >= 0
    ensures a == 0 ==> a * b == 0
  {
    if a * b == 0 && a != 0 && b != 0 { AbsGrows(a, b); }
    if a == b {
      AbsTimes(a, a);
      MulPos(Abs(a), Abs(a));
      if a < 0 { assert (-a) * (-a) == a * a; }
    }
  }

  lemma PowNone(m: int, res: int)
    ensures res * Pow(m * m, 0) == res
  {
  }

  // ----- subtraction -----

  /** Differences are exact, and stay machine integers exactly when they can. */
  method ArMinus(n1: Number, n2: Number) returns (r: Number)
    ensures Value(r) == Value(n1) - Value(n2)
    ensures n1.Int? && n2.Int? ==> (r.Int? <==> Fits(Value(n1) - Value(n2)))
  {
    if n1.Int? && n2.Int? {
      var a: int, b: int := n1.i, n2.i;
      var d := Signed(a - b);
      if (a >= 0 && b < 0 && d <= 0) || (a < 0 && b > 0 && d >= 0) {
        return Big(a - b);
      }
      return Int(d);
    }
    return Big(Value(n1) - Value(n2));
  }

  // ----- floor division and modulus -----

  /** Rounding the truncated quotient down when signs differ gives the floor. */
  lemma AdjustedQuotient(a: int, b: int)
    requires b != 0
    ensures IsFloor(a, b, if (a > 0) != (b > 0) && Rem(a, b) != 0 then Quot(a, b) - 1 else Quot(a, b))
  {
    QuotRem(a, b);
    var q := Quot(a, b);
    assert b * (q - 1) == b * q - b;
  }

  method ArDiv(n1: Number, n2: Number) returns (r: Outcome)
    ensures r == DivisionByZero <==> Value(n2) == 0
    ensures Value(n2) != 0 ==> r.Ok? && IsFloor(Value(n1), Value(n2), Value(r.n))
    ensures r.Ok? && n1.Int? && n2.Int? ==> (r.n.Int? <==> !(n2.i == -1 && n1.i == MIN))
  {
    if n1.Int? && n2.Int? {
      if n2.i == 0 { return DivisionByZero; }
      if !(n2.i == -1 && n1.i == MIN) {
        AdjustedQuotient(n1.i, n2.i);
        QuotientFits(n1.i, n2.i);
        var q := Quot(n1.i, n2.i);
        if (n1.i > 0) != (n2.i > 0) && Rem(n1.i, n2.i) != 0 { q := q - 1; }
        return Ok(Int(q));
      }
    }
    if Value(n2) == 0 { return DivisionByZero; }
    return Ok(Big(FloorQuot(Value(n1), Value(n2))));
  }

  /** Big-integer floor division. */
  function FloorQuot(a: int, b: int): (q: int)
    requires b != 0
    ensures IsFloor(a, b, q)
  {
    var q := if b > 0 then a / b else -a / -b;
    assert b > 0 ==> a == b * (a / b) + a % b;
    assert b < 0 ==> -a == -b * (-a / -b) + -a % -b && -b * (-a / -b) == -(b * (-a / -b));
    q
  }

  lemma QuotientFits(a: int, b: int)
    requires Fits(a) && Fits(b) && b != 0 && !(b == -1 && a == MIN)
    ensures Fits(Quot(a, b)) && (Rem(a, b) != 0 ==> Fits(Quot(a, b) - 1))
  {
    hide Quot, Rem;
    QuotRem(a, b);
    QuotIs(a, b);
    hide NatQuot;
    var q, s := Quot(a, b), NatQuot(Abs(a), Abs(b));
    DivNat(Abs(a), Abs(b));
    if s > 0 {
      MulMono(1, Abs(b), s);
      if Abs(b) >= 2 { MulMono(2, Abs(b), s); }
    }
    if Abs(b) == 1 {
      assert b * q == q || b * q == -q;
      assert Rem(a, b) == 0;
    }
  }

  method ArMod(n1: Number, n2: Number) returns (r: Outcome)
    ensures r == DivisionByZero <==> Value(n2) == 0
    ensures Value(n2) != 0 ==> r.Ok? && Value(r.n) == Value(n1) - Value(n2) * FloorQuot(Value(n1), Value(n2))
    ensures r.Ok? && n1.Int? && n2.Int? ==> r.n.Int?
  {
    if Value(n2) == 0 { return DivisionByZero; }
    if n1.Int? && n2.Int? {
      if n2.i != -1 || n1.i != MIN {
        QuotRem(n1.i, n2.i);
        var x := Rem(n1.i, n2.i);
        if x != 0 && (x < 0) != (n2.i < 0) { x := x + n2.i; }
        FloorRemainder(n1.i, n2.i, x);
        return Ok(Int(x));
      }
      FloorRemainder(n1.i, n2.i, 0);
      return Ok(Int(0));
    }
    return Ok(Big(Value(n1) - Value(n2) * FloorQuot(Value(n1), Value(n2))));
  }

  /** A remainder with the sign of the divisor belongs to the floor. */
  lemma FloorRemainder(a: int, b: int, x: int)
    requires b != 0 && Abs(x) < Abs(b) && (x != 0 ==> (x < 0) == (b < 0))
    requires (a - x) == b * Quot(a, b) || (a - x) == b * Quot(a, b) - b
    ensures x == a - b * FloorQuot(a, b)
  {
    var q := if a - x == b * Quot(a, b) then Quot(a, b) else Quot(a, b) - 1;
    assert b * (Quot(a, b) - 1) == b * Quot(a, b) - b;
    FloorUnique(a, b, q, FloorQuot(a, b));
  }

  lemma FloorUnique(a: int, b: int, p: int, q: int)
    requires b != 0 && IsFloor(a, b, p) && IsFloor(a, b, q)
    ensures p == q
  {
    hide Abs;
    var d := p - q;
    var bp, bq, bd := b * p, b * q, b * d;
    assert bp == bq + bd;
    if d != 0 {
      AbsGrows(b, d);
      AbsIs(b);
      AbsIs(bd);
    }
  }

  // ----- shifts -----

  /** `n` shifted right by `k` places, rounding down; left when `k` is negative. */
  function Shifted(n: int, k: int): int {
    if k >= 0 then PowPositive(k); FloorQuot(n, Pow(2, k)) else n * Pow(2, -k)
  }

  lemma {:induction false} PowPositive(k: nat)
    ensures Pow(2, k) > 0
  {
    if k > 0 { PowPositive(k - 1); }
  }

  lemma {:induction false} PowSum(a: nat, b: nat)
    ensures Pow(2, a + b) == Pow(2, a) * Pow(2, b)
    decreases b
  {
    if b > 0 {
      PowSum(a, b - 1);
      assert Pow(2, a + b) == 2 * Pow(2, a + b - 1);
      assert 2 * (Pow(2, a) * Pow(2, b - 1)) == Pow(2, a) * (2 * Pow(2, b - 1));
    }
  }

  /** The number of the highest bit that is set. */
  function Msb(v: nat): (k: nat)
    requires v > 0
    ensures Pow(2, k) <= v < Pow(2, k + 1)
  {
    if v < 2 then 0 else 1 + Msb(v / 2)
  }

  lemma Pow63()
    ensures Pow(2, 63) == MAX + 1
  {
    PowStep8(0);
    PowStep8(8);
    PowStep8(16);
    PowStep8(24);
    PowStep8(32);
    PowStep8(40);
    PowStep8(48);
    assert Pow(2, 56) == 0x100_0000_0000_0000;
    assert Pow(2, 60) == 16 * Pow(2, 56) by { assert Pow(2, 58) == 4 * Pow(2, 56); }
    assert Pow(2, 63) == 8 * Pow(2, 60) by { assert Pow(2, 61) == 2 * Pow(2, 60); }
  }

  lemma PowStep8(k: nat)
    ensures Pow(2, k + 8) == 256 * Pow(2, k)
  {
    assert Pow(2, k + 2) == 4 * Pow(2, k);
    assert Pow(2, k + 4) == 4 * Pow(2, k + 2);
    assert Pow(2, k + 6) == 4 * Pow(2, k + 4);
    assert Pow(2, k + 8) == 4 * Pow(2, k + 6);
  }

  lemma {:induction false} PowMonotone(a: nat, b: nat)
    requires a <= b
    ensures Pow(2, a) <= Pow(2, b)
    decreases b
  {
    if a < b {
      PowMonotone(a, b - 1);
      PowPositive(b - 1);
    }
  }

  /** Shifting a word left by few enough places does not lose bits. */
  lemma LeftFits(n: int, shift: nat)
    requires n != 0 && shift + Msb(Abs(n)) < 63
    ensures Fits(n * Pow(2, shift))
  {
    hide Pow, Msb;
    var k, p := Msb(Abs(n)), Pow(2, shift);
    PowSum(k + 1, shift);
    PowMonotone(k + 1 + shift, 63);
    Pow63();
    PowPositive(shift);
    AbsTimes(n, p);
    MulMono(Abs(n) + 1, Pow(2, k + 1), p);
    assert (Abs(n) + 1) * p == Abs(n) * p + p;
  }

  /** Shifting right by more places than the number has bits leaves its sign. */
  lemma SignRemains(n: int, k: nat)
    requires -Pow(2, k) <= n < Pow(2, k)
    ensures Shifted(n, k) == if n >= 0 then 0 else -1
  {
    PowPositive(k);
    FloorUnique(n, Pow(2, k), if n >= 0 then 0 else -1, FloorQuot(n, Pow(2, k)));
  }

  /** Shifting this far to the right leaves something other than zero. */
  predicate LeavesSign(n: int, right: int) {
    right > 0 && !(0 <= n < Pow(2, right))
  }

  /** `b` is the number of bits of `v`. */
  ghost predicate HasBits(v: int, b: nat) {
    b > 0 && Pow(2, b - 1) <= Abs(v) < Pow(2, b)
  }

  /** The number has more than 10000 bits and more than `limit`. */
  ghost predicate TooLarge(v: int, limit: nat) {
    exists b: nat :: HasBits(v, b) && b > 10000 && b > limit
  }

  lemma OneSize(v: int, b: nat, c: nat)
    requires HasBits(v, b) && HasBits(v, c)
    ensures b == c
  {
    if b < c { PowMonotone(b, c - 1); }
    if c < b { PowMonotone(c, b - 1); }
  }

  lemma Scaled(low: int, v: int, high: int, p: int)
    requires p > 0 && low <= v < high
    ensures low * p <= v * p < high * p
  {
    MulMono(low, v, p);
    MulMono(v + 1, high, p);
    assert (v + 1) * p == v * p + p;
  }

  lemma ShiftedBounds(n: int, shift: nat, k: nat)
    requires Pow(2, k) <= Abs(n) < Pow(2, k + 1)
    ensures Pow(2, k + shift) <= Abs(n * Pow(2, shift)) < Pow(2, k + shift + 1)
  {
    hide Pow, Abs;
    var p := Pow(2, shift);
    PowPositive(shift);
    AbsIs(p);
    Scaled(Pow(2, k), Abs(n), Pow(2, k + 1), p);
    assert Pow(2, k) * p == Pow(2, k + shift) by { PowSum(k, shift); }
    assert Pow(2, k + 1) * p == Pow(2, k + shift + 1) by { PowSum(k + 1, shift); }
    assert Abs(n) * p == Abs(n * p) by { AbsTimes(n, p); }
  }

  /** Shifting to the left adds as many bits as places. */
  lemma ShiftedBits(n: int, shift: nat)
    requires n != 0
    ensures HasBits(n * Pow(2, shift), BitSize(n, shift))
  {
    hide *;
    SizeIs(n, shift);
    ShiftedBounds(n, shift, Msb(Abs(n)));
    BitsAre(n * Pow(2, shift), Msb(Abs(n)) + shift);
  }

  lemma BitsAre(v: int, k: nat)
    requires Pow(2, k) <= Abs(v) < Pow(2, k + 1)
    ensures HasBits(v, k + 1)
  {
    hide Pow;
  }

  lemma SizeIs(n: int, shift: nat)
    requires n != 0
    ensures Abs(n) > 0 && BitSize(n, shift) == Msb(Abs(n)) + shift + 1
  {
  }

  lemma LargeBits(n: int, shift: nat, limit: nat)
    requires n != 0
    ensures TooLarge(n * Pow(2, shift), limit) <==> BitSize(n, shift) > 10000 && BitSize(n, shift) > limit
  {
    hide Pow, HasBits, BitSize;
    var v := n * Pow(2, shift);
    ShiftedBits(n, shift);
    if TooLarge(v, limit) {
      var b: nat :| HasBits(v, b) && b > 10000 && b > limit;
      OneSize(v, b, BitSize(n, shift));
    }
  }

  /** The size of the result of a shift to the left, in bits. */
  function BitSize(n: int, shift: nat): nat
    requires n != 0
  {
    Msb(Abs(n)) + 1 + shift
  }

  predicate Leftward(k: int, dir: int) {
    if dir < 0 then k >= 0 else k < 0
  }

  /** `dir` is -1 for << and 1 for >>; `limit` is the size of the stack.  An amount beyond a long is
      answered with 0 when it goes to the right, which is right unless the number leaves a sign. */
  method ArShift(n1: Number, n2: Number, dir: int, limit: nat) returns (r: Outcome)
    requires dir == 1 || dir == -1
    ensures r != DivisionByZero
    ensures var n, k := Value(n1), Value(n2);
            r.Ok? ==> (Value(r.n) == Shifted(n, dir * k) <==> !(n != 0 && !Fits(k) && LeavesSign(n, dir * k)))
                      && (!Fits(k) ==> Value(r.n) == 0)
    ensures var n, k := Value(n1), Value(n2);
            r == TooBig <==> n != 0 && if Fits(k) then Leftward(k, dir) && TooLarge(n * Pow(2, Abs(k)), limit)
                                       else dir * k < 0
  {
    var n, k := Value(n1), Value(n2);
    if n == 0 {
      ZeroShifted(dir * k);
      return Ok(Int(0));
    }
    if !Fits(k) {
      if k * dir < 0 { return TooBig; }
      FarRight(n, dir * k);
      return Ok(Int(0));
    }
    // The magnitude of the most negative long is kept as an unsigned number.
    var shift, way := k, dir;
    if shift < 0 { shift, way := -shift, -dir; }
    if way < 0 {
      r := ShiftLeft(n1, shift, limit);
    } else {
      r := ShiftRight(n1, shift);
    }
  }

  method ShiftLeft(n1: Number, shift: nat, limit: nat) returns (r: Outcome)
    requires Value(n1) != 0
    ensures r == TooBig <==> TooLarge(Value(n1) * Pow(2, shift), limit)
    ensures r != TooBig ==> r.Ok? && Value(r.n) == Value(n1) * Pow(2, shift)
  {
    var n := Value(n1);
    LargeBits(n, shift, limit);
    if n1.Int? {
      var bits := shift + if n == MIN then 64 else Msb(Abs(n));
      if bits < 63 {
        LeftFits(n, shift);
        SignedIs(n * Pow(2, shift), 0);
        return Ok(Int(Signed(n * Pow(2, shift))));
      }
    }
    if BitSize(n, shift) > 10000 && BitSize(n, shift) > limit { return TooBig; }
    return Ok(Big(n * Pow(2, shift)));
  }

  method ShiftRight(n1: Number, shift: nat) returns (r: Outcome)
    ensures r.Ok? && Value(r.n) == Shifted(Value(n1), shift)
  {
    var n := Value(n1);
    PowPositive(shift);
    if n1.Big? { return Ok(Big(FloorQuot(n, Pow(2, shift)))); }
    if shift >= 64 {
      WordVanishes(n, shift);
      return Ok(Int(if n >= 0 then 0 else -1));
    }
    RightFits(n, shift);
    return Ok(Int(FloorQuot(n, Pow(2, shift))));
  }

  lemma ZeroShifted(k: int)
    ensures Shifted(0, k) == 0
  {
    if k >= 0 {
      PowPositive(k);
      FloorUnique(0, Pow(2, k), 0, FloorQuot(0, Pow(2, k)));
    }
  }

  lemma FarRight(n: int, k: nat)
    requires n != 0
    ensures Shifted(n, k) == 0 <==> 0 <= n < Pow(2, k)
  {
    PowPositive(k);
    var q := FloorQuot(n, Pow(2, k));
    if 0 <= n < Pow(2, k) { FloorUnique(n, Pow(2, k), 0, q); }
  }

  lemma WordVanishes(n: int, k: nat)
    requires Fits(n) && k >= 64
    ensures Shifted(n, k) == if n >= 0 then 0 else -1
  {
    hide Pow, Shifted;
    Pow63();
    PowMonotone(63, k);
    SignRemains(n, k);
  }

  lemma RightFits(n: int, k: nat)
    requires Fits(n)
    ensures Pow(2, k) > 0 && Fits(FloorQuot(n, Pow(2, k)))
  {
    hide Pow, FloorQuot;
    PowPositive(k);
    var p, q := Pow(2, k), FloorQuot(n, Pow(2, k));
    if q > 0 { MulMono(1, p, q); }
    if q < -1 {
      MulMono(1, p, -(q + 1));
      assert p * (q + 1) == p * q + p;
      assert p * -(q + 1) == -(p * (q + 1));
    }
  }

  /** A negative number shifted right by an amount beyond a long leaves -1; the code answers 0. */
  method FarShiftCounterexample(n: int64, limit: nat) returns (r: Outcome)
    requires n < 0
    ensures Shifted(n, WORD) == -1 && r.Ok? && Value(r.n) != -1
  {
    hide Pow, Shifted, LeavesSign;
    FarNegative(n);
    r := ArShift(Int(n), Big(WORD), 1, limit);
  }

  lemma FarNegative(n: int)
    requires Fits(n) && n < 0
    ensures Shifted(n, WORD) == -1 && !Fits(WORD) && LeavesSign(n, WORD) && !Leftward(WORD, 1)
  {
    hide Pow, Shifted;
    WordVanishes(n, WORD);
  }
}
