/**
 * Table-based trigonometry: a 64-entry sine table built from a truncated
 * Taylor series by quarter-wave reflection, and `sin`/`cos` by range
 * reduction and linear interpolation between adjacent entries.
 * The f32 arithmetic is idealised as exact real arithmetic.
 */
module DiscreteFunctions {
  import opened Ints
  import opened Wrappers

  /** f32 PI, and TAU = 2 * PI, which doubling gives exactly in f32 too; only the printed decimal of f32 TAU rounds differently. */
  const PI: real := 3.1415927
  const TAU: real := 2.0 * PI
  const FRAC_PI_2: real := PI / 2.0

  const TABLE_SIZE: nat := 64
  /** Phase step between two table entries. */
  const DPHI: real := TAU / 64.0

  /** n!, the value the `factorial` loop computes. */
  function Fact(n: nat): (r: nat)
    ensures r >= 1
  {
    if n == 0 then 1 else n * Fact(n - 1)
  }

  /** x^n by repeated multiplication from the right, as `pow` does. */
  function Power(x: real, n: nat): real
  {
    if n == 0 then 1.0 else Power(x, n - 1) * x
  }

  lemma {:induction false} FactMonotone(i: nat, n: nat)
    requires i <= n
    ensures Fact(i) <= Fact(n)
  {
    if i < n {
      FactMonotone(i, n - 1);
    }
  }

  /** 12! fits in a u32, 13! does not: `factorial` is only defined for n <= 12. */
  lemma FactorialU32Bound()
    ensures Fact(12) < U32_LIMIT
    ensures Fact(13) >= U32_LIMIT
  {
    assert Fact(12) == 479001600;
    assert Fact(13) == 6227020800;
  }

  /** The `factorial` loop over u32 (an overflow would abort the const evaluation). */
  method Factorial(n: nat) returns (f: U32)
    requires n <= 12
    ensures f == Fact(n)
  {
    FactorialU32Bound();
    f := 1;
    var i := 0;
    while i < n
      invariant 0 <= i <= n
      invariant f == Fact(i)
    {
      i := i + 1;
      FactMonotone(i, 12);
      f := f * i;
    }
  }

  /** The `pow` loop: x multiplied into 1.0 exactly n times. */
  method Pow(x: real, n: nat) returns (p: real)
    ensures p == Power(x, n)
  {
    p := 1.0;
    var i := 0;
    while i < n
      invariant 0 <= i <= n
      invariant p == Power(x, i)
    {
      p := p * x;
      i := i + 1;
    }
  }

  /** +1 for the k-th odd term when k is even, -1 when k is odd. */
  function TermSign(k: nat): real
  {
    if k % 2 == 0 then 1.0 else -1.0
  }

  /** The first k terms of the sine Taylor series: the terms of odd degree 1, 3, ..., 2k-1. */
  function TaylorSum(phi: real, k: nat): real
  {
    if k == 0 then 0.0
    else TaylorSum(phi, k - 1) + TermSign(k - 1) * Power(phi, 2 * k - 1) / (Fact(2 * k - 1) as real)
  }

  /**
   * The `sin_apx` loop: it adds the terms of odd degree i = 1, 3, ... below n
   * with alternating sign, that is the first n / 2 terms of the series.
   */
  method SinApx(phi: real, n: nat) returns (result: real)
    requires n <= 13
    ensures result == TaylorSum(phi, n / 2)
  {
    result := 0.0;
    var i := 1;
    var s := 1.0;
    ghost var k: nat := 0;
    while i < n
      invariant i == 2 * k + 1
      invariant k <= n / 2
      invariant i < n + 2
      invariant s == TermSign(k)
      invariant result == TaylorSum(phi, k)
    {
      var p := Pow(phi, i);
      var f := Factorial(i);
      result := result + s * p / (f as real);
      i := i + 2;
      s := s * -1.0;
      k := k + 1;
    }
  }

  /** The Taylor value written into slot i of the first quarter (sin_apx(phi, 10)). */
  function QuarterValue(i: nat): real
  {
    TaylorSum(i as real * DPHI, 10 / 2)
  }

  /** Entry k of the sine table: four anchors and the first quarter reflected and negated. */
  function SinTableEntry(k: nat): real
    requires k < 64
  {
    if k == 0 || k == 32 then 0.0
    else if k == 16 then 1.0
    else if k == 48 then -1.0
    else if k < 16 then QuarterValue(k)
    else if k < 32 then QuarterValue(32 - k)
    else if k < 48 then -QuarterValue(k - 32)
    else -QuarterValue(64 - k)
  }

  /** The table `SIN` that `generate_sin_table` produces. */
  function SinTable(): (t: seq<real>)
    ensures |t| == TABLE_SIZE
  {
    seq(64, k requires 0 <= k < 64 => SinTableEntry(k))
  }

  /** Quarter-wave symmetry of the table and its four anchors. */
  lemma SinTableSymmetry(i: nat)
    requires 1 <= i < 16
    ensures SinTable()[0] == 0.0 && SinTable()[16] == 1.0
    ensures SinTable()[32] == 0.0 && SinTable()[48] == -1.0
    ensures SinTable()[32 - i] == SinTable()[i]
    ensures SinTable()[32 + i] == -SinTable()[i]
    ensures SinTable()[64 - i] == -SinTable()[i]
  {
  }

  /**
   * The slots the loop of `generate_sin_table` writes at step i (i, 32 - i,
   * 32 + i, 64 - i) never coincide with another step's slots or with an
   * anchor, so with the 4 anchors and 4 * 15 loop slots each of the 64
   * indices is written exactly once.
   */
  function LoopSlots(i: nat): seq<int>
  {
    [i, 32 - i, 32 + i, 64 - i]
  }

  function Writer(k: nat): (r: nat)
    requires k < 64 && k % 16 != 0
    ensures 1 <= r < 16 && k in LoopSlots(r)
  {
    if k < 16 then k else if k < 32 then 32 - k else if k < 48 then k - 32 else 64 - k
  }

  lemma SinTableSlotsWrittenOnce(k: nat, i: nat, j: nat)
    requires k < 64
    requires 1 <= i < 16 && 1 <= j < 16
    ensures k % 16 == 0 ==> k !in LoopSlots(i)
    ensures k in LoopSlots(i) && k in LoopSlots(j) ==> i == j
    ensures k % 16 != 0 ==> k in LoopSlots(Writer(k))
    ensures forall a, b :: 0 <= a < b < 4 ==> LoopSlots(i)[a] != LoopSlots(i)[b]
  {
  }

  /** One step of the table loop: slot i gets v and the three reflected slots get v, -v, -v. */
  method WriteQuarterStep(table: array<real>, i: nat, v: real)
    requires table.Length == TABLE_SIZE && 1 <= i < 16
    modifies table
    ensures table[i] == v && table[32 - i] == v && table[32 + i] == -v && table[64 - i] == -v
    ensures forall k :: 0 <= k < TABLE_SIZE && k !in LoopSlots(i) ==> table[k] == old(table[k])
  {
    var n := 16;
    table[i] := v;
    table[2 * n - i] := table[i];
    table[2 * n + i] := -table[i];
    table[4 * n - i] := -table[i];
  }

  /** The anchors and every slot written by a loop step below i hold their final value. */
  predicate FilledBelow(t: seq<real>, i: nat)
    requires |t| == TABLE_SIZE
  {
    forall k :: 0 <= k < TABLE_SIZE && (k % 16 == 0 || Writer(k) < i) ==> t[k] == SinTableEntry(k)
  }

  /** A loop step that writes quarter value i into its four slots extends `FilledBelow` to i + 1. */
  lemma QuarterStepFills(before: seq<real>, after: seq<real>, i: nat)
    requires |before| == TABLE_SIZE && |after| == TABLE_SIZE && 1 <= i < 16
    requires FilledBelow(before, i)
    requires after[i] == QuarterValue(i) && after[32 - i] == QuarterValue(i)
    requires after[32 + i] == -QuarterValue(i) && after[64 - i] == -QuarterValue(i)
    requires forall k :: 0 <= k < TABLE_SIZE && k !in LoopSlots(i) ==> after[k] == before[k]
    ensures FilledBelow(after, i + 1)
  {
    forall k | 0 <= k < TABLE_SIZE && (k % 16 == 0 || Writer(k) < i + 1)
      ensures after[k] == SinTableEntry(k)
    {
      if k % 16 != 0 && Writer(k) == i {
        assert k in LoopSlots(i);
      } else {
        assert k !in LoopSlots(i);
      }
    }
  }

  /** The four anchors alone fill the table below step 1. */
  lemma AnchorsFilled(t: seq<real>)
    requires |t| == TABLE_SIZE
    requires t[0] == 0.0 && t[16] == 1.0 && t[32] == 0.0 && t[48] == -1.0
    ensures FilledBelow(t, 1)
  {
    forall k | 0 <= k < TABLE_SIZE && (k % 16 == 0 || Writer(k) < 1)
      ensures t[k] == SinTableEntry(k)
    {
      assert k == 0 || k == 16 || k == 32 || k == 48;
    }
  }

  /** The phase of table node i. */
  function Node(i: nat): real
  {
    i as real * DPHI
  }

  /** The phase of the next node: one more step of DPHI. */
  lemma NextNode(i: nat, phi: real)
    requires phi == Node(i)
    ensures phi + DPHI == Node(i + 1)
  {
  }

  /** Once every step has run, the table is `SinTable()`. */
  lemma FilledIsTable(t: seq<real>)
    requires |t| == TABLE_SIZE && FilledBelow(t, 16)
    ensures t == SinTable()
  {
    forall k | 0 <= k < TABLE_SIZE
      ensures t[k] == SinTable()[k]
    {
      if k % 16 != 0 {
        assert Writer(k) < 16;
      }
    }
  }

  /** `generate_sin_table`: anchors first, then the first quarter reflected into the other three. */
  method GenerateSinTable() returns (table: array<real>)
    ensures table.Length == TABLE_SIZE
    ensures table[..] == SinTable()
  {
    table := new real[64](_ => 0.0);
    var n := 16;
    table[0] := 0.0;
    table[n] := 1.0;
    table[2 * n] := 0.0;
    table[3 * n] := -1.0;
    AnchorsFilled(table[..]);
    var phi := DPHI;
    var i := 1;
    while i < n
      invariant 1 <= i <= n
      invariant phi == Node(i)
      invariant FilledBelow(table[..], i)
    {
      var v := SinApx(phi, 10);
      ghost var before := table[..];
      WriteQuarterStep(table, i, v);
      QuarterStepFills(before, table[..], i);
      NextNode(i, phi);
      phi := phi + DPHI;
      i := i + 1;
    }
    FilledIsTable(table[..]);
  }

  /** Index of the table entry at or below phi, floor(phi / DPHI); 64 exactly at TAU. */
  function TableIndex(phi: real): (i: nat)
    requires 0.0 <= phi <= TAU
    ensures i <= TABLE_SIZE
    ensures i as real <= phi / DPHI < i as real + 1.0
    ensures i == TABLE_SIZE <==> phi == TAU
  {
    var d := phi / DPHI;
    assert d <= 64.0;
    d.Floor
  }

  /**
   * Linear interpolation between entries i and i + 1 (mod 64) of a table
   * with weight d = phi / DPHI - i; it needs i < 64, that is phi < TAU.
   */
  function Interpolate(table: seq<real>, phi: real): (r: real)
    requires |table| == TABLE_SIZE
    requires 0.0 <= phi < TAU
    ensures var i := TableIndex(phi);
            var a := table[i];
            var b := table[(i + 1) % TABLE_SIZE];
            (a <= b ==> a <= r <= b) && (b <= a ==> b <= r <= a)
  {
    var i := TableIndex(phi);
    var d := phi / DPHI - i as real;
    var a := table[i];
    var b := table[(i + 1) % TABLE_SIZE];
    var r := Lerp(a, b, d);
    ConvexCombination(a, b, d, r);
    r
  }

  /** The point at weight d on the way from a to b. */
  function Lerp(a: real, b: real, d: real): real
  {
    d * b + (1.0 - d) * a
  }

  lemma MulNonNegative(x: real, y: real)
    requires x >= 0.0 && y >= 0.0
    ensures x * y >= 0.0
  {
  }

  lemma ConvexCombination(a: real, b: real, d: real, r: real)
    requires 0.0 <= d < 1.0
    requires r == d * b + (1.0 - d) * a
    ensures a <= b ==> a <= r <= b
    ensures b <= a ==> b <= r <= a
  {
    assert r == a + d * (b - a);
    assert r == b - (1.0 - d) * (b - a);
    if a <= b {
      MulNonNegative(d, b - a);
      MulNonNegative(1.0 - d, b - a);
    } else {
      MulNonNegative(d, a - b);
      MulNonNegative(1.0 - d, a - b);
    }
  }

  /** Termination measure of the range reduction: two units per period, one for a sign flip. */
  function ReductionMeasure(phi: real): nat
  {
    if phi < 0.0 then 2 * (-phi / TAU).Floor + 1 else 2 * (phi / TAU).Floor
  }

  /** phi is a non-zero whole multiple of TAU. */
  predicate TauMultiple(phi: real)
  {
    phi != 0.0 && (phi / TAU).Floor as real == phi / TAU
  }

  /** Shifting by one period or flipping the sign keeps a multiple of TAU a multiple. */
  lemma TauMultipleShift(phi: real)
    ensures phi != TAU && phi != 0.0 ==> (TauMultiple(phi) <==> TauMultiple(phi - TAU))
    ensures TauMultiple(phi) <==> TauMultiple(-phi)
  {
    var x := phi / TAU;
    assert (phi - TAU) / TAU == x - 1.0;
    assert (x - 1.0).Floor == x.Floor - 1;
    assert (-phi) / TAU == -x;
    IsIntegerNegated(x);
  }

  lemma FloorOfInteger(k: int)
    ensures (k as real).Floor == k
  {
  }

  /** x is a whole number exactly when -x is. */
  lemma IsIntegerNegated(x: real)
    ensures (x.Floor as real == x) <==> ((-x).Floor as real == -x)
  {
    if x.Floor as real == x {
      FloorOfInteger(-x.Floor);
      assert -x == (-x.Floor) as real;
    }
    if (-x).Floor as real == -x {
      FloorOfInteger(-(-x).Floor);
      assert x == (-(-x).Floor) as real;
    }
  }

  /**
   * `sin` as written: phi > TAU recurses on phi - TAU, phi < 0 via -sin(-phi),
   * and otherwise interpolates. A reduced phase of exactly TAU indexes SIN[64],
   * out of bounds: the panic is `None`. It happens exactly at the non-zero
   * multiples of TAU.
   */
  function SinAsWritten(phi: real): (r: Option<real>)
    ensures r.None? <==> TauMultiple(phi)
    decreases ReductionMeasure(phi)
  {
    TauMultipleShift(phi);
    if phi > TAU then SinAsWritten(phi - TAU)
    else if phi < 0.0 then
      match SinAsWritten(-phi)
      case Some(v) => Some(-v)
      case None => None
    else if TableIndex(phi) < TABLE_SIZE then Some(Interpolate(SinTable(), phi))
    else None
  }

  /** At phi = TAU the index is 64, past the end of the 64-entry table. */
  lemma SinAsWrittenPanicsAtTau()
    ensures TableIndex(TAU) == TABLE_SIZE
    ensures SinAsWritten(TAU) == None
    ensures SinAsWritten(-TAU) == None
  {
    assert SinAsWritten(TAU) == None;
  }

  /**
   * `sin` with the reduction test corrected to phi >= TAU, so that every
   * reduced phase lies in [0, TAU) and the index stays below 64. Where the
   * source panics, at the non-zero multiples of TAU, it gives sin 0 = 0.
   */
  function Sin(phi: real): (r: real)
    ensures -MaxMagnitude(SinTable()) <= r <= MaxMagnitude(SinTable())
    decreases ReductionMeasure(phi)
  {
    if phi >= TAU then Sin(phi - TAU)
    else if phi < 0.0 then -Sin(-phi)
    else
      var i := TableIndex(phi);
      MaxMagnitudeBounds(SinTable(), i);
      MaxMagnitudeBounds(SinTable(), (i + 1) % TABLE_SIZE);
      Interpolate(SinTable(), phi)
  }

  /** The largest magnitude among the entries of a table. */
  function MaxMagnitude(xs: seq<real>): (m: real)
    ensures m >= 0.0
  {
    if |xs| == 0 then 0.0
    else
      var a := if xs[|xs| - 1] < 0.0 then -xs[|xs| - 1] else xs[|xs| - 1];
      var m := MaxMagnitude(xs[..|xs| - 1]);
      if a > m then a else m
  }

  lemma {:induction false} MaxMagnitudeBounds(xs: seq<real>, i: nat)
    requires i < |xs|
    ensures -MaxMagnitude(xs) <= xs[i] <= MaxMagnitude(xs)
    decreases |xs|
  {
    if i < |xs| - 1 {
      MaxMagnitudeBounds(xs[..|xs| - 1], i);
    }
  }

  /** Where the source panics, at the non-zero multiples of TAU, the corrected Sin gives sin 0 = 0. */
  lemma {:induction false} SinZeroWhereSourcePanics(phi: real)
    requires TauMultiple(phi)
    ensures Sin(phi) == 0.0
    decreases ReductionMeasure(phi)
  {
    TauMultipleShift(phi);
    if phi > TAU {
      SinZeroWhereSourcePanics(phi - TAU);
    } else if phi < 0.0 {
      SinZeroWhereSourcePanics(-phi);
    } else {
      assert phi == TAU;
      SinAtNode(0);
      assert Sin(phi) == Sin(0.0 * DPHI);
    }
  }

  /** The corrected Sin agrees with the source wherever the source does not panic. */
  lemma {:induction false} SinAgreesWithSource(phi: real)
    ensures SinAsWritten(phi).Some? ==> SinAsWritten(phi) == Some(Sin(phi))
    decreases ReductionMeasure(phi)
  {
    if phi > TAU {
      SinAgreesWithSource(phi - TAU);
    } else if phi == TAU {
      assert SinAsWritten(phi) == None;
    } else if phi < 0.0 {
      SinAgreesWithSource(-phi);
    }
  }

  /** Table entry (64 - j) mod 64 is the negation of entry j. */
  lemma SinTableMirror(j: nat)
    requires j < TABLE_SIZE
    ensures SinTable()[(64 - j) % 64] == -SinTable()[j]
  {
    if j == 0 {
      assert (64 - j) % 64 == 0;
    } else {
      assert (64 - j) % 64 == 64 - j;
      SinTableEntryMirror(j);
    }
  }

  /** Entry 64 - j of the table negates entry j, for 0 < j < 64. */
  lemma SinTableEntryMirror(j: nat)
    requires 0 < j < TABLE_SIZE
    ensures SinTableEntry(64 - j) == -SinTableEntry(j)
  {
    if j < 16 {
      assert SinTableEntry(64 - j) == -QuarterValue(j);
    } else if 16 < j < 32 {
      assert SinTableEntry(64 - j) == -QuarterValue(32 - j);
    } else if 32 < j < 48 {
      assert SinTableEntry(j) == -QuarterValue(j - 32);
    } else if 48 < j {
      assert SinTableEntry(j) == -QuarterValue(64 - j);
    }
  }

  /** The interpolation weight at phi: its distance above the node TableIndex(phi), in steps. */
  function Weight(phi: real): real
    requires 0.0 <= phi <= TAU
  {
    phi / DPHI - TableIndex(phi) as real
  }

  /** The index of TAU - y, and its weight: the node mirrored, or the cell mirrored with the weight flipped. */
  lemma MirroredIndex(y: real)
    requires 0.0 < y < TAU
    ensures var i := TableIndex(y);
      var j := TableIndex(TAU - y);
      (Weight(y) == 0.0 ==> 1 <= i && j == 64 - i && Weight(TAU - y) == 0.0) &&
      (Weight(y) != 0.0 ==> j == 63 - i && Weight(TAU - y) == 1.0 - Weight(y))
  {
    assert (TAU - y) / DPHI == 64.0 - y / DPHI;
  }

  /** In a table whose entry (64 - j) mod 64 negates entry j, interpolating at TAU - y negates interpolating at y. */
  lemma InterpolateMirror(t: seq<real>, y: real)
    requires |t| == TABLE_SIZE && 0.0 < y < TAU
    requires t[(64 - TableIndex(y)) % 64] == -t[TableIndex(y)]
    requires t[(64 - (TableIndex(y) + 1) % 64) % 64] == -t[(TableIndex(y) + 1) % 64]
    ensures Interpolate(t, TAU - y) == -Interpolate(t, y)
  {
    MirroredIndex(y);
    if Weight(y) == 0.0 {
      MirrorAtNode(t, y);
    } else {
      MirrorInCell(t, y);
    }
  }

  /** The node case of `InterpolateMirror`: TAU - y is node 64 - i, both weights 0. */
  lemma MirrorAtNode(t: seq<real>, y: real)
    requires |t| == TABLE_SIZE && 0.0 < y < TAU && Weight(y) == 0.0
    requires t[(64 - TableIndex(y)) % 64] == -t[TableIndex(y)]
    requires 1 <= TableIndex(y) && TableIndex(TAU - y) == 64 - TableIndex(y) && Weight(TAU - y) == 0.0
    ensures Interpolate(t, TAU - y) == -Interpolate(t, y)
  {
    var i := TableIndex(y);
    assert (64 - i) % 64 == 64 - i;
    InterpolateValue(t, y);
    InterpolateValue(t, TAU - y);
  }

  /** The cell case of `InterpolateMirror`: TAU - y lies in cell 63 - i with weight 1 - e. */
  lemma MirrorInCell(t: seq<real>, y: real)
    requires |t| == TABLE_SIZE && 0.0 < y < TAU && Weight(y) != 0.0
    requires t[(64 - TableIndex(y)) % 64] == -t[TableIndex(y)]
    requires t[(64 - (TableIndex(y) + 1) % 64) % 64] == -t[(TableIndex(y) + 1) % 64]
    requires TableIndex(TAU - y) == 63 - TableIndex(y) && Weight(TAU - y) == 1.0 - Weight(y)
    ensures Interpolate(t, TAU - y) == -Interpolate(t, y)
  {
    var i := TableIndex(y);
    var j := TableIndex(TAU - y);
    MirroredSlots(i, j);
    InterpolateValue(t, y);
    InterpolateValue(t, TAU - y);
    NegatedCombination(t[i], t[(i + 1) % 64], t[j], t[(j + 1) % 64], Weight(y), Weight(TAU - y),
      Interpolate(t, y), Interpolate(t, TAU - y));
  }

  /** The slots of the mirrored cell 63 - i. */
  lemma MirroredSlots(i: nat, j: nat)
    requires i < 64 && j == 63 - i
    ensures j == (64 - (i + 1) % 64) % 64 && (j + 1) % 64 == (64 - i) % 64
  {
  }

  /** Interpolate unfolded at the index and weight of phi. */
  lemma InterpolateValue(t: seq<real>, phi: real)
    requires |t| == TABLE_SIZE && 0.0 <= phi < TAU
    ensures var i := TableIndex(phi);
      Interpolate(t, phi) == Lerp(t[i], t[(i + 1) % 64], Weight(phi))
  {
  }

  /** The cell case in values: the weights e and 1 - e over the negated, swapped ends. */
  lemma NegatedCombination(a: real, b: real, a': real, b': real, e: real, e': real, r: real, r': real)
    requires e' == 1.0 - e && a' == -b && b' == -a
    requires r == Lerp(a, b, e) && r' == Lerp(a', b', e')
    ensures r' == -r
  {
  }

  /** Sin is TAU-periodic and odd for every phase. */
  lemma SinPeriodicOdd(phi: real)
    ensures Sin(phi + TAU) == Sin(phi)
    ensures Sin(-phi) == -Sin(phi)
  {
    SinAtNode(0);
    assert Sin(0.0) == 0.0 by {
      assert 0 as real * DPHI == 0.0;
    }
    if phi >= 0.0 {
      assert Sin(phi + TAU) == Sin(phi);
    } else if phi == -TAU {
      assert Sin(phi) == -Sin(TAU);
      assert Sin(TAU) == Sin(0.0);
    } else if phi > -TAU {
      var i := TableIndex(-phi);
      SinTableMirror(i);
      SinTableMirror((i + 1) % 64);
      InterpolateMirror(SinTable(), -phi);
      assert Sin(phi + TAU) == Interpolate(SinTable(), TAU - -phi);
      assert Sin(phi) == -Interpolate(SinTable(), -phi);
    } else {
      assert Sin(phi + TAU) == -Sin(-phi - TAU);
      assert Sin(-phi) == Sin(-phi - TAU);
    }
  }

  /** At a table node k * DPHI the interpolation weight is 0: Sin returns the entry. */
  lemma SinAtNode(k: nat)
    requires k < TABLE_SIZE
    ensures Sin(k as real * DPHI) == SinTable()[k]
  {
    var phi := k as real * DPHI;
    assert 0.0 <= phi < TAU;
    assert phi / DPHI == k as real;
    assert TableIndex(phi) == k;
    InterpolateAtNode(SinTable(), phi, k);
  }

  lemma InterpolateAtNode(table: seq<real>, phi: real, k: nat)
    requires |table| == TABLE_SIZE && 0.0 <= phi < TAU
    requires TableIndex(phi) == k && phi / DPHI == k as real
    ensures Interpolate(table, phi) == table[k]
  {
  }

  /** `cos` as a quarter-period shift of `sin`. */
  function Cos(phi: real): (r: real)
    ensures -MaxMagnitude(SinTable()) <= r <= MaxMagnitude(SinTable())
  {
    Sin(phi + FRAC_PI_2)
  }

  /**
   * `cos` as written: `sin(phi + FRAC_PI_2)` through the as-written sine, so
   * it panics exactly where phi + PI / 2 is a non-zero multiple of TAU.
   */
  function CosAsWritten(phi: real): (r: Option<real>)
    ensures r.None? <==> TauMultiple(phi + FRAC_PI_2)
  {
    SinAsWritten(phi + FRAC_PI_2)
  }

  /** The corrected Cos agrees with the source wherever the source does not panic. */
  lemma CosAgreesWithSource(phi: real)
    ensures CosAsWritten(phi).Some? ==> CosAsWritten(phi) == Some(Cos(phi))
  {
    SinAgreesWithSource(phi + FRAC_PI_2);
  }

  /** At node 48, phase 3 PI / 2, the source's cos reaches sin(TAU) and panics; the corrected Cos gives 0. */
  lemma CosAsWrittenPanicsAtNode48()
    ensures 48 as real * DPHI + FRAC_PI_2 == TAU
    ensures CosAsWritten(48 as real * DPHI).None?
    ensures Cos(48 as real * DPHI) == 0.0
  {
    assert TauMultiple(TAU) by {
      assert TAU / TAU == 1.0;
      FloorOfInteger(1);
    }
    CosAtNode(48);
    SinAtNode(0);
    assert 0 as real * DPHI == 0.0;
  }

  /** Cos reads the table a quarter period ahead: at node k it is Sin at node k + 16, wrapped below 64. */
  lemma CosAtNode(k: nat)
    requires k < TABLE_SIZE
    ensures k < 48 ==> Cos(k as real * DPHI) == Sin((k + 16) as real * DPHI)
    ensures k >= 48 ==> Cos(k as real * DPHI) == Sin((k - 48) as real * DPHI)
  {
    QuarterShift(k);
    if k >= 48 {
      SinReduces(k as real * DPHI + FRAC_PI_2);
    }
  }

  lemma SinReduces(phi: real)
    requires phi >= TAU
    ensures Sin(phi) == Sin(phi - TAU)
  {
  }

  lemma QuarterShift(k: nat)
    ensures k as real * DPHI + FRAC_PI_2 == (k + 16) as real * DPHI
    ensures k >= 48 ==> k as real * DPHI + FRAC_PI_2 - TAU == (k + 16 - 64) as real * DPHI
  {
  }

  /** sin 0 = 0 and cos 0 = sin(PI/2) = 1 hit the anchors SIN[0] and SIN[16] exactly. */
  lemma SinCosAtZero()
    ensures Sin(0.0) == 0.0
    ensures Cos(0.0) == 1.0
  {
    SinAtNode(0);
    SinAtNode(16);
    assert 16 as real * DPHI == FRAC_PI_2;
  }
}
