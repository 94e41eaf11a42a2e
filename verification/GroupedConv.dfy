/** DFlash2 grouped causal convolution: whole-tensor shifts with a position mask against the
    nested sum over the predecessors inside each block. */
module GroupedConv {
  import opened Arithmetic

  type Matrix = seq<seq<real>>

  /** Bitwise and of naturals. */
  function And(a: nat, b: nat): nat {
    if a == 0 || b == 0 then 0 else a % 2 * (b % 2) + 2 * And(a / 2, b / 2)
  }

  /** Position of a row inside its block, as the code computes it. */
  function Position(row: nat, blockSize: nat): nat
    requires blockSize > 0
  {
    if And(blockSize, blockSize - 1) == 0 then And(row, blockSize - 1) else row % blockSize
  }

  lemma {:induction false} AndSelf(a: nat)
    ensures And(a, a) == a
  {
    if a == 0 {
    } else {
      AndSelf(a / 2);
      BitSquare(a % 2);
    }
  }

  lemma BitSquare(b: nat)
    requires b < 2
    ensures b * b == b
  {
  }

  /** Masking by size - 1 is the remainder whenever the bit test lets it through. */
  lemma {:induction false} MaskIsRemainder(row: nat, size: nat)
    requires size > 0 && And(size, size - 1) == 0
    ensures And(row, size - 1) == row % size
    decreases size
  {
    if size == 1 {
      assert And(row, 0) == 0;
    } else if size % 2 == 1 {
      assert (size - 1) / 2 == size / 2;
      AndSelf(size / 2);
    } else {
      var half := size / 2;
      assert size == 2 * half && (size - 1) / 2 == half - 1 && (size - 1) % 2 == 1;
      assert And(size, size - 1) == 2 * And(half, half - 1);
      MaskIsRemainder(row / 2, half);
      DoubleRemainder(row, half);
      if row == 0 {
        DivModUnique(0, 0, size);
      }
    }
  }

  lemma DoubleRemainder(v: nat, p: nat)
    requires p > 0
    ensures v % (2 * p) == v % 2 + 2 * (v / 2 % p)
  {
    var h := v / 2;
    var q, d := h / p, v % 2 + 2 * (h % p);
    assert h == q * p + h % p;
    assert v == 2 * (q * p) + d && 2 * (q * p) == q * (2 * p);
    DivModUnique(q, d, 2 * p);
  }

  lemma PositionIsRemainder(row: nat, blockSize: nat)
    requires blockSize > 0
    ensures Position(row, blockSize) == row % blockSize
  {
    if And(blockSize, blockSize - 1) == 0 {
      MaskIsRemainder(row, blockSize);
    }
  }

  predicate Rectangular(m: Matrix, rows: nat, width: nat) {
    |m| == rows && forall i | 0 <= i < rows :: |m[i]| == width
  }

  /** `hidden`: rows x channels; `delta`: rows x taps x groups; `base`: taps x channels. */
  datatype Input = Input(hidden: Matrix, delta: seq<Matrix>, base: Matrix,
                         blockSize: nat, groups: nat, groupSize: nat, taps: nat)
  {
    function Rows(): nat { |hidden| }
    function Width(): nat { groups * groupSize }

    predicate Valid() {
      && blockSize > 0 && groupSize > 0 && taps > 0
      && Rectangular(hidden, |hidden|, Width()) && Rectangular(base, taps, Width())
      && |delta| == |hidden| && forall i | 0 <= i < |delta| :: Rectangular(delta[i], taps, groups)
    }

    /** Coefficient of a tap: the channel's base plus the row's correction for the channel's group. */
    function Coefficient(row: nat, tap: nat, ch: nat): real
      requires Valid() && row < Rows() && tap < taps && ch < Width()
    {
      Split(ch, groups, groupSize);
      base[tap][ch] + delta[row][tap][ch / groupSize]
    }

    /** Reference, from the three inputs alone: lane `lane` of group `group`, summed over the first `n` taps whose
        predecessor row lies in the row's own block. */
    function Expected(row: nat, group: nat, lane: nat, n: nat): real
      requires Valid() && row < Rows() && group < groups && lane < groupSize && 1 <= n <= taps
    {
      NextRow(group, groups, groupSize, lane);
      var tap, ch := n - 1, group * groupSize + lane;
      var term := if tap <= row && (row - tap) / blockSize == row / blockSize
                  then (base[tap][ch] + delta[row][tap][group]) * hidden[row - tap][ch] else 0.0;
      if n == 1 then term else Expected(row, group, lane, n - 1) + term
    }

    /** The same by channel, as the whole-tensor operations see it. */
    function Reference(row: nat, ch: nat, n: nat): real
      requires Valid() && row < Rows() && ch < Width() && 1 <= n <= taps
    {
      var term := if n - 1 <= row && (row - (n - 1)) / blockSize == row / blockSize
                  then Coefficient(row, n - 1, ch) * hidden[row - (n - 1)][ch] else 0.0;
      if n == 1 then term else Reference(row, ch, n - 1) + term
    }
  }

  /** The channel's own group is the one its coefficient corrects. */
  lemma {:induction false} ReferenceIsExpected(x: Input, row: nat, group: nat, lane: nat, n: nat)
    requires x.Valid() && row < x.Rows() && group < x.groups && lane < x.groupSize && 1 <= n <= x.taps
    ensures group * x.groupSize + lane < x.Width()
    ensures x.Reference(row, group * x.groupSize + lane, n) == x.Expected(row, group, lane, n)
    decreases n
  {
    var ch := group * x.groupSize + lane;
    NextRow(group, x.groups, x.groupSize, lane);
    DivModUnique(group, lane, x.groupSize);
    assert x.Coefficient(row, n - 1, ch) == x.base[n - 1][ch] + x.delta[row][n - 1][group];
    if n == 1 {
    } else {
      ReferenceIsExpected(x, row, group, lane, n - 1);
    }
  }

  /** A predecessor is in the same block exactly when the row's position reaches back that far. */
  lemma InBlock(row: nat, tap: nat, blockSize: nat)
    requires blockSize > 0
    ensures tap <= row && (row - tap) / blockSize == row / blockSize <==> tap <= row % blockSize
  {
    var q, p := row / blockSize, row % blockSize;
    assert row == q * blockSize + p && q * blockSize >= 0;
    if tap <= p {
      assert row - tap == q * blockSize + (p - tap);
      DivModUnique(q, p - tap, blockSize);
    } else if tap <= row {
      EarlierBlock(row, tap, blockSize);
    }
  }

  lemma EarlierBlock(row: nat, tap: nat, blockSize: nat)
    requires blockSize > 0 && row % blockSize < tap <= row
    ensures (row - tap) / blockSize != row / blockSize
  {
    var u := row - tap;
    assert u == u / blockSize * blockSize + u % blockSize;
    assert row == row / blockSize * blockSize + row % blockSize;
  }

  /** `F.pad(blocks[:-tap], ...)`: the rows moved down by `tap`, zeros on top. */
  function Shifted(m: Matrix, width: nat, tap: nat): (s: Matrix)
    requires Rectangular(m, |m|, width) && tap <= |m|
    ensures Rectangular(s, |m|, width)
    ensures forall i | 0 <= i < |m| :: s[i] == if i < tap then seq(width, _ => 0.0) else m[i - tap]
  {
    seq(tap, _ => seq(width, _ => 0.0)) + m[..|m| - tap]
  }

  /** One element of `output += coefficients[:, tap] * shifted * (position >= tap)`. */
  function AddElement(x: Input, sofar: real, shifted: real, position: nat, row: nat, tap: nat, ch: nat): real
    requires x.Valid() && row < x.Rows() && tap < x.taps && ch < x.Width()
  {
    sofar + x.Coefficient(row, tap, ch) * shifted * (if position >= tap then 1.0 else 0.0)
  }

  function AddTap(x: Input, output: Matrix, shifted: Matrix, position: seq<nat>, tap: nat): (r: Matrix)
    requires x.Valid() && tap < x.taps && |position| == x.Rows()
    requires Rectangular(output, x.Rows(), x.Width()) && Rectangular(shifted, x.Rows(), x.Width())
    ensures Rectangular(r, x.Rows(), x.Width())
    ensures forall row, ch | 0 <= row < x.Rows() && 0 <= ch < x.Width() ::
              r[row][ch] == AddElement(x, output[row][ch], shifted[row][ch], position[row], row, tap, ch)
  {
    seq(x.Rows(), row requires 0 <= row < x.Rows() => seq(x.Width(), ch requires 0 <= ch < x.Width() =>
      AddElement(x, output[row][ch], shifted[row][ch], position[row], row, tap, ch)))
  }

  /** The accumulator after the first `n` taps. */
  ghost predicate Accumulated(x: Input, output: Matrix, n: nat)
    requires x.Valid() && 1 <= n <= x.taps
  {
    && Rectangular(output, x.Rows(), x.Width())
    && forall row, ch | 0 <= row < x.Rows() && 0 <= ch < x.Width() :: output[row][ch] == x.Reference(row, ch, n)
  }

  lemma TapStep(x: Input, output: Matrix, shifted: Matrix, position: seq<nat>, tap: nat)
    requires x.Valid() && 1 <= tap < x.taps && tap <= x.Rows() && Accumulated(x, output, tap)
    requires |position| == x.Rows() && forall row | 0 <= row < x.Rows() :: position[row] == Position(row, x.blockSize)
    requires shifted == Shifted(x.hidden, x.Width(), tap)
    ensures Accumulated(x, AddTap(x, output, shifted, position, tap), tap + 1)
  {
    forall row, ch | 0 <= row < x.Rows() && 0 <= ch < x.Width()
      ensures AddElement(x, output[row][ch], shifted[row][ch], position[row], row, tap, ch) == x.Reference(row, ch, tap + 1)
    {
      TapElement(x, row, ch, tap, shifted[row][ch]);
    }
  }

  /** A masked shifted product is the reference's term for that tap. */
  lemma TapElement(x: Input, row: nat, ch: nat, tap: nat, shifted: real)
    requires x.Valid() && 1 <= tap < x.taps && row < x.Rows() && ch < x.Width()
    requires row >= tap ==> shifted == x.hidden[row - tap][ch]
    ensures x.Reference(row, ch, tap + 1) ==
            AddElement(x, x.Reference(row, ch, tap), shifted, Position(row, x.blockSize), row, tap, ch)
  {
    PositionIsRemainder(row, x.blockSize);
    InBlock(row, tap, x.blockSize);
    MaskProduct(x.Coefficient(row, tap, ch) * shifted);
  }

  lemma MaskProduct(a: real)
    ensures a * 1.0 == a && a * 0.0 == 0.0
  {
  }

  lemma FirstTap(x: Input, output: Matrix)
    requires x.Valid() && Rectangular(output, x.Rows(), x.Width())
    requires forall row, ch | 0 <= row < x.Rows() && 0 <= ch < x.Width() ::
               output[row][ch] == x.Coefficient(row, 0, ch) * x.hidden[row][ch]
    ensures Accumulated(x, output, 1)
  {
  }

  /** `coefficients[:, 0] * blocks`. */
  function FirstOutput(x: Input): (r: Matrix)
    requires x.Valid()
    ensures Rectangular(r, x.Rows(), x.Width())
    ensures forall row, ch | 0 <= row < x.Rows() && 0 <= ch < x.Width() :: r[row][ch] == x.Coefficient(row, 0, ch) * x.hidden[row][ch]
  {
    seq(x.Rows(), row requires 0 <= row < x.Rows() => seq(x.Width(), ch requires 0 <= ch < x.Width() =>
      x.Coefficient(row, 0, ch) * x.hidden[row][ch]))
  }

  function Positions(x: Input): (p: seq<nat>)
    requires x.Valid()
    ensures |p| == x.Rows() && forall row | 0 <= row < x.Rows() :: p[row] == Position(row, x.blockSize)
  {
    seq(x.Rows(), row requires 0 <= row < x.Rows() => Position(row, x.blockSize))
  }

  /** This element of the output is the reference's. */
  ghost predicate Holds(x: Input, output: Matrix, row: nat, group: nat, lane: nat)
    requires x.Valid() && Rectangular(output, x.Rows(), x.Width())
    requires row < x.Rows() && group < x.groups && lane < x.groupSize
  {
    NextRow(group, x.groups, x.groupSize, lane);
    output[row][group * x.groupSize + lane] == x.Expected(row, group, lane, x.taps)
  }

  /** The accumulation over taps, whole tensor at a time, equals the per-block reference. */
  method Convolve(x: Input) returns (output: Matrix)
    requires x.Valid() && x.taps - 1 <= x.Rows()
    ensures Rectangular(output, x.Rows(), x.Width())
    ensures forall row, group, lane | 0 <= row < x.Rows() && 0 <= group < x.groups && 0 <= lane < x.groupSize ::
              Holds(x, output, row, group, lane)
  {
    output := FirstOutput(x);
    FirstTap(x, output);
    var position := Positions(x);
    var tap := 1;
    while tap < x.taps
      invariant 1 <= tap <= x.taps
      invariant Accumulated(x, output, tap)
    {
      var shifted := Shifted(x.hidden, x.Width(), tap);
      TapStep(x, output, shifted, position, tap);
      output := AddTap(x, output, shifted, position, tap);
      tap := tap + 1;
    }
    forall row, group, lane | 0 <= row < x.Rows() && 0 <= group < x.groups && 0 <= lane < x.groupSize
      ensures Holds(x, output, row, group, lane)
    {
      ReferenceIsExpected(x, row, group, lane, x.taps);
    }
  }
}
