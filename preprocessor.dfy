/** Preprocessor: the steps that turn a drawn digit into an MNIST-like 28x28
    grid. getSignificantPortion cuts out the square around the drawn cells,
    scaleDown resamples a grid bilinearly, normalizeDigit centres a 20x20
    resampling in a 28x28 grid, and blur2DArray averages each cell over a
    square window. A `double[][]` is a sequence of rows, which may be ragged;
    an index the JVM would reject is an `Err(IndexOutOfBounds)` result. */
module Preprocessor {
  import opened Maths
  import opened Outcomes

  // ---------------------------------------------------------------------------
  // getSignificantPortion

  /** A drawn cell: one that exists and is not 0. */
  predicate Marked(digit: seq<seq<real>>, i: int, j: int)
  {
    0 <= i < |digit| && 0 <= j < |digit[i]| && digit[i][j] != 0.0
  }

  /** One step of the scan: a drawn cell (i, j) lowers `min` to min(i, j) and
      raises `max` to max(i, j). */
  function Visit(acc: (int, int), digit: seq<seq<real>>, i: nat, j: nat): (int, int)
    requires i < |digit| && j < |digit[i]|
  {
    if digit[i][j] != 0.0 then (Min(acc.0, Min(i, j)), Max(acc.1, Max(i, j))) else acc
  }

  /** (min, max) after the first n cells of row i. */
  function RowExtent(digit: seq<seq<real>>, i: nat, n: nat, acc: (int, int)): (e: (int, int))
    requires i < |digit| && n <= |digit[i]|
    ensures Min(acc.0, 0) <= e.0 <= acc.0 && acc.1 <= e.1
  {
    if n == 0 then acc else Visit(RowExtent(digit, i, n - 1, acc), digit, i, n - 1)
  }

  /** (min, max) after the first m rows. */
  function Extent(digit: seq<seq<real>>, m: nat, acc: (int, int)): (e: (int, int))
    requires m <= |digit|
    ensures Min(acc.0, 0) <= e.0 <= acc.0 && acc.1 <= e.1
  {
    if m == 0 then acc else RowExtent(digit, m - 1, |digit[m - 1]|, Extent(digit, m - 1, acc))
  }

  /** The scan starts with min = max(rows, columns of row 0) and max = 0. */
  function Start(digit: seq<seq<real>>): (int, int)
    requires |digit| > 0
  {
    (Max(|digit|, |digit[0]|), 0)
  }

  /** The (min, max) the scan of the whole grid ends with. */
  function Bounds(digit: seq<seq<real>>): (e: (int, int))
    requires |digit| > 0
    ensures 0 <= e.0
  {
    Extent(digit, |digit|, Start(digit))
  }

  /** Arrays.copyOfRange(row, from, to): the cells from..to-1, with zeros
      past the end of the row. */
  function CopyOfRange(row: seq<real>, from: nat, to: nat): (r: seq<real>)
    requires from <= |row| && from <= to
    ensures |r| == to - from
  {
    seq(to - from, k requires 0 <= k < to - from => if from + k < |row| then row[from + k] else 0.0)
  }

  /** Every row lo..hi-1 exists and is at least lo long, so that
      copyOfRange(row, lo, hi) can start at lo. */
  predicate Copyable(digit: seq<seq<real>>, lo: int, hi: int)
  {
    forall i :: lo <= i < hi ==> CopyableRow(digit, i, lo)
  }

  predicate CopyableRow(digit: seq<seq<real>>, i: int, lo: int)
  {
    0 <= i < |digit| && lo <= |digit[i]|
  }

  /** What getSignificantPortion returns: rows and columns min..max-1 of the
      grid, where min and max are the least and the greatest coordinate of a
      drawn cell. `digit[0]` fails on an empty grid, `new double[max-min][]`
      when nothing is drawn, and copyOfRange on a missing or too short row. */
  function SignificantPortion(digit: seq<seq<real>>): Result<seq<seq<real>>>
  {
    if |digit| == 0 then Err(IndexOutOfBounds)
    else
      var lo, hi := Bounds(digit).0, Bounds(digit).1;
      if hi - lo < 0 then Err(NegativeArraySize)
      else if !Copyable(digit, lo, hi) then Err(IndexOutOfBounds)
      else Ok(seq(hi - lo, r requires 0 <= r < hi - lo && CopyableRow(digit, lo + r, lo) => CopyOfRange(digit[lo + r], lo, hi)))
  }

  /** getSignificantPortion: the nested scan for min and max, then one
      copyOfRange per row of the result. */
  method GetSignificantPortion(digit: seq<seq<real>>) returns (r: Result<seq<seq<real>>>)
    ensures r == SignificantPortion(digit)
  {
    if |digit| == 0 {
      return Err(IndexOutOfBounds);
    }
    var min := Max(|digit|, |digit[0]|);
    var max := 0;
    for i := 0 to |digit|
      invariant (min, max) == Extent(digit, i, Start(digit))
    {
      for j := 0 to |digit[i]|
        invariant (min, max) == RowExtent(digit, i, j, Extent(digit, i, Start(digit)))
      {
        if digit[i][j] != 0.0 {
          min := Min(min, Min(i, j));
          max := Max(max, Max(i, j));
        }
      }
    }
    if max - min < 0 {
      return Err(NegativeArraySize);
    }
    var res := new seq<real>[max - min];
    for i := min to max
      invariant forall k :: min <= k < i ==> CopyableRow(digit, k, min) && res[k - min] == CopyOfRange(digit[k], min, max)
    {
      if i >= |digit| || min > |digit[i]| {
        assert !CopyableRow(digit, i, min);
        return Err(IndexOutOfBounds);
      }
      res[i - min] := CopyOfRange(digit[i], min, max);
    }
    assert res[..] == SignificantPortion(digit).value;
    return Ok(res[..]);
  }

  /** The scan of row i: every drawn cell among the first n lies within the
      result, the result's min and max are the start values or are reached by
      a drawn cell, and a row with nothing drawn changes nothing. */
  lemma {:induction false} RowExtentMeaning(digit: seq<seq<real>>, i: nat, n: nat, acc: (int, int))
    requires i < |digit| && n <= |digit[i]|
    ensures var e := RowExtent(digit, i, n, acc);
      (forall j :: 0 <= j < n && Marked(digit, i, j) ==> e.0 <= Min(i, j) && Max(i, j) <= e.1) &&
      (e.0 == acc.0 || exists j :: 0 <= j < n && Marked(digit, i, j) && e.0 == Min(i, j)) &&
      (e.1 == acc.1 || exists j :: 0 <= j < n && Marked(digit, i, j) && e.1 == Max(i, j)) &&
      ((forall j :: 0 <= j < n ==> !Marked(digit, i, j)) ==> e == acc)
  {
    if n > 0 {
      RowExtentMeaning(digit, i, n - 1, acc);
      if digit[i][n - 1] != 0.0 {
        assert Marked(digit, i, n - 1);
      }
    }
  }

  /** The scan of the first m rows, as RowExtentMeaning says for one row. */
  lemma {:induction false} ExtentMeaning(digit: seq<seq<real>>, m: nat, acc: (int, int))
    requires m <= |digit|
    ensures var e := Extent(digit, m, acc);
      (forall i, j :: 0 <= i < m && Marked(digit, i, j) ==> e.0 <= Min(i, j) && Max(i, j) <= e.1) &&
      (e.0 == acc.0 || exists i, j :: 0 <= i < m && Marked(digit, i, j) && e.0 == Min(i, j)) &&
      (e.1 == acc.1 || exists i, j :: 0 <= i < m && Marked(digit, i, j) && e.1 == Max(i, j)) &&
      ((forall i, j :: 0 <= i < m ==> !Marked(digit, i, j)) ==> e == acc)
  {
    if m > 0 {
      var before := Extent(digit, m - 1, acc);
      assert Extent(digit, m, acc) == RowExtent(digit, m - 1, |digit[m - 1]|, before);
      hide Extent, RowExtent;
      ExtentMeaning(digit, m - 1, acc);
      RowExtentMeaning(digit, m - 1, |digit[m - 1]|, before);
    }
  }

  /** An empty canvas fails: nothing drawn leaves min above max. */
  lemma SignificantPortionBlank(digit: seq<seq<real>>)
    requires |digit| > 0 && forall i, j :: !Marked(digit, i, j)
    ensures SignificantPortion(digit) == Err(NegativeArraySize)
  {
    ExtentMeaning(digit, |digit|, Start(digit));
  }

  /** The value of cell (i, j), 0 where the grid has no such cell. */
  function Cell(digit: seq<seq<real>>, i: int, j: int): real
  {
    if 0 <= i < |digit| && 0 <= j < |digit[i]| then digit[i][j] else 0.0
  }

  /** The portion is the square of side max - min from (min, min): each of
      its cells is the grid's cell there, or 0 past the end of a row. */
  lemma SignificantPortionCells(digit: seq<seq<real>>, p: seq<seq<real>>)
    requires SignificantPortion(digit) == Ok(p)
    ensures |p| == Bounds(digit).1 - Bounds(digit).0
    ensures forall r :: 0 <= r < |p| ==> |p[r]| == |p|
    ensures forall r, c :: 0 <= r < |p| && 0 <= c < |p| ==> p[r][c] == Cell(digit, Bounds(digit).0 + r, Bounds(digit).0 + c)
  {
    forall r | 0 <= r < |p|
      ensures |p[r]| == |p|
    {
      PortionCell(digit, p, r, 0);
    }
    forall r, c | 0 <= r < |p| && 0 <= c < |p|
      ensures p[r][c] == Cell(digit, Bounds(digit).0 + r, Bounds(digit).0 + c)
    {
      PortionCell(digit, p, r, c);
    }
  }

  lemma PortionCell(digit: seq<seq<real>>, p: seq<seq<real>>, r: nat, c: nat)
    requires SignificantPortion(digit) == Ok(p) && r < |p|
    ensures |p[r]| == |p| && (c < |p| ==> p[r][c] == Cell(digit, Bounds(digit).0 + r, Bounds(digit).0 + c))
  {
    var lo, hi := Bounds(digit).0, Bounds(digit).1;
    assert CopyableRow(digit, lo + r, lo);
    assert p[r] == CopyOfRange(digit[lo + r], lo, hi);
  }

  /** Every drawn cell lies in rows and columns min..max, and some drawn cell
      lies on row or column max, just outside the portion: copyOfRange stops
      before max. */
  lemma SignificantPortionCovers(digit: seq<seq<real>>)
    requires SignificantPortion(digit).Ok?
    ensures var lo, hi := Bounds(digit).0, Bounds(digit).1;
      (forall i, j :: Marked(digit, i, j) ==> lo <= i <= hi && lo <= j <= hi) &&
      (exists i, j :: Marked(digit, i, j) && Max(i, j) == hi)
  {
    var lo, hi := Bounds(digit).0, Bounds(digit).1;
    ExtentMeaning(digit, |digit|, Start(digit));
    if forall i, j :: 0 <= i < |digit| ==> !Marked(digit, i, j) {
      assert false;
    }
    var i, j :| 0 <= i < |digit| && Marked(digit, i, j);
    if hi == 0 {
      assert Max(i, j) == hi;
    }
  }

  /** On a square grid with something drawn, getSignificantPortion succeeds. */
  lemma SignificantPortionSquare(digit: seq<seq<real>>, i: nat, j: nat)
    requires |digit| > 0 && forall k :: 0 <= k < |digit| ==> |digit[k]| == |digit|
    requires Marked(digit, i, j)
    ensures SignificantPortion(digit).Ok?
  {
    var (lo, hi) := Bounds(digit);
    ExtentMeaning(digit, |digit|, Start(digit));
    assert lo <= Min(i, j) && Max(i, j) <= hi;
    if hi != 0 {
      var i', j' :| 0 <= i' < |digit| && Marked(digit, i', j') && hi == Max(i', j');
    }
    assert hi < |digit|;
  }

  // ---------------------------------------------------------------------------
  // scaleDown

  /** (inputSize - 1) / outputSize, the step between sampled positions. With
      no output cells the ratio is never used; it is 0 here. */
  function Ratio(inSize: int, outSize: int): real
  {
    if outSize > 0 then (inSize - 1) as real / outSize as real else 0.0
  }

  /** The four cells output cell (x, y) interpolates between exist. */
  predicate Readable(input: seq<seq<real>>, x: nat, y: nat, xRatio: real, yRatio: real)
  {
    var xF, xC := Floor(x as real * xRatio), Ceil(x as real * xRatio);
    var yF, yC := Floor(y as real * yRatio), Ceil(y as real * yRatio);
    0 <= yF < |input| && 0 <= yC < |input| && 0 <= xF && 0 <= xC &&
    xF < |input[yF]| && xC < |input[yF]| && xF < |input[yC]| && xC < |input[yC]|
  }

  /** Output cell (x, y): the bilinear interpolation of the four cells around
      the sampled position, first along x, then along y. */
  function Bilinear(input: seq<seq<real>>, x: nat, y: nat, xRatio: real, yRatio: real): real
    requires Readable(input, x, y, xRatio, yRatio)
  {
    var xF, xC := Floor(x as real * xRatio), Ceil(x as real * xRatio);
    var yF, yC := Floor(y as real * yRatio), Ceil(y as real * yRatio);
    var xLerp := x as real * xRatio - xF as real;
    var yLerp := y as real * yRatio - yF as real;
    var top := input[yF][xF] + (input[yF][xC] - input[yF][xF]) * xLerp;
    var bottom := input[yC][xF] + (input[yC][xC] - input[yC][xF]) * xLerp;
    top + (bottom - top) * yLerp
  }

  predicate AllReadable(input: seq<seq<real>>, outW: nat, outH: nat, xRatio: real, yRatio: real)
  {
    forall y: nat, x: nat :: y < outH && x < outW ==> Readable(input, x, y, xRatio, yRatio)
  }

  /** What scaleDown returns: an outputHeight x outputWidth grid of bilinear
      samples. `input[0]` fails on an empty input, `new double[h][w]` on a
      negative size, and a sample on a cell that does not exist. */
  function Scaled(input: seq<seq<real>>, outW: int, outH: int): (r: Result<seq<seq<real>>>)
    ensures r.Ok? ==> |r.value| == outH && forall y :: 0 <= y < outH ==> |r.value[y]| == outW
  {
    if |input| == 0 then Err(IndexOutOfBounds)
    else if outH < 0 || outW < 0 then Err(NegativeArraySize)
    else
      var xRatio, yRatio := Ratio(|input[0]|, outW), Ratio(|input|, outH);
      if !AllReadable(input, outW, outH, xRatio, yRatio) then Err(IndexOutOfBounds)
      else Ok(seq(outH, y requires 0 <= y < outH =>
                seq(outW, x requires 0 <= x < outW => Bilinear(input, x, y, xRatio, yRatio))))
  }

  /** scaleDown: one row of the output at a time, one cell at a time. */
  method ScaleDown(input: seq<seq<real>>, outW: int, outH: int) returns (r: Result<seq<seq<real>>>)
    ensures r == Scaled(input, outW, outH)
  {
    if |input| == 0 {
      return Err(IndexOutOfBounds);
    }
    if outH < 0 || outW < 0 {
      return Err(NegativeArraySize);
    }
    var xRatio, yRatio := Ratio(|input[0]|, outW), Ratio(|input|, outH);
    var output: seq<seq<real>> := [];
    for y := 0 to outH
      invariant |output| == y
      invariant forall y', x :: 0 <= y' < y && 0 <= x < outW ==> Readable(input, x, y', xRatio, yRatio)
      invariant forall y' :: 0 <= y' < y ==> output[y'] == seq(outW, x requires 0 <= x < outW => Bilinear(input, x, y', xRatio, yRatio))
    {
      var row := new real[outW];
      for x := 0 to outW
        invariant forall x' :: 0 <= x' < x ==> Readable(input, x', y, xRatio, yRatio) && row[x'] == Bilinear(input, x', y, xRatio, yRatio)
      {
        if !Readable(input, x, y, xRatio, yRatio) {
          return Err(IndexOutOfBounds);
        }
        row[x] := Bilinear(input, x, y, xRatio, yRatio);
      }
      output := output + [row[..]];
    }
    assert AllReadable(input, outW, outH, xRatio, yRatio);
    assert output == Scaled(input, outW, outH).value;
    return Ok(output);
  }

  /** A sampled position x * (n - 1) / out with x < out lies in [0, n - 1],
      and so do its floor and ceiling. */
  lemma SampleInRange(x: nat, out: nat, n: nat, t: real)
    requires x < out && n >= 1 && t == x as real * Ratio(n, out)
    ensures 0.0 <= t <= (n - 1) as real && 0 <= Floor(t) <= Ceil(t) <= n - 1
  {
    var q := (n - 1) as real / out as real;
    assert q >= 0.0;
    assert out as real * q == (n - 1) as real;
    assert x as real * q <= out as real * q;
  }

  /** On a rectangular input with at least one cell, every sample exists:
      scaleDown succeeds for every non-negative output size. */
  lemma ScaledSucceeds(input: seq<seq<real>>, outW: int, outH: int)
    requires |input| > 0 && |input[0]| > 0 && forall k :: 0 <= k < |input| ==> |input[k]| == |input[0]|
    requires outW >= 0 && outH >= 0
    ensures Scaled(input, outW, outH).Ok?
  {
    var xRatio, yRatio := Ratio(|input[0]|, outW), Ratio(|input|, outH);
    forall y: nat, x: nat | y < outH && x < outW
      ensures Readable(input, x, y, xRatio, yRatio)
    {
      SampleReadable(input, x, y, outW, outH);
    }
    assert AllReadable(input, outW, outH, xRatio, yRatio);
  }

  lemma SampleReadable(input: seq<seq<real>>, x: nat, y: nat, outW: nat, outH: nat)
    requires |input| > 0 && |input[0]| > 0 && forall k :: 0 <= k < |input| ==> |input[k]| == |input[0]|
    requires x < outW && y < outH
    ensures Readable(input, x, y, Ratio(|input[0]|, outW), Ratio(|input|, outH))
  {
    hide Ratio, Floor, Ceil;
    var tx, ty := x as real * Ratio(|input[0]|, outW), y as real * Ratio(|input|, outH);
    SampleInRange(x, outW, |input[0]|, tx);
    SampleInRange(y, outH, |input|, ty);
    assert |input[Floor(ty)]| == |input[0]| && |input[Ceil(ty)]| == |input[0]|;
  }

  /** A linear interpolation between two values of [lo, hi] stays in it. */
  lemma Lerp(a: real, b: real, t: real, lo: real, hi: real)
    requires lo <= a <= hi && lo <= b <= hi && 0.0 <= t <= 1.0
    ensures lo <= a + (b - a) * t <= hi
  {
    var d := (b - a) * t;
    if a <= b {
      Fraction(b - a, t, d);
    } else {
      Fraction(a - b, t, -d);
    }
  }

  /** A fraction t in [0, 1] of a non-negative c lies between 0 and c. */
  lemma Fraction(c: real, t: real, p: real)
    requires c >= 0.0 && 0.0 <= t <= 1.0 && p == c * t
    ensures 0.0 <= p <= c
  {
    var q := c * (1.0 - t);
    assert p + q == c;
    if c > 0.0 && t > 0.0 {
      ProductPositive(p, c, t);
    }
    if c > 0.0 && t < 1.0 {
      ProductPositive(q, c, 1.0 - t);
    }
  }

  /** Every output of scaleDown is a convex combination of four inputs, so
      it lies between the least and the greatest input. */
  lemma ScaledBounded(input: seq<seq<real>>, outW: int, outH: int, lo: real, hi: real)
    requires Scaled(input, outW, outH).Ok?
    requires forall k, l :: 0 <= k < |input| && 0 <= l < |input[k]| ==> lo <= input[k][l] <= hi
    ensures var s := Scaled(input, outW, outH).value;
      forall y, x :: 0 <= y < outH && 0 <= x < outW ==> lo <= s[y][x] <= hi
  {
    var xRatio, yRatio := Ratio(|input[0]|, outW), Ratio(|input|, outH);
    var s := Scaled(input, outW, outH).value;
    forall y, x | 0 <= y < outH && 0 <= x < outW
      ensures lo <= s[y][x] <= hi
    {
      assert Readable(input, x, y, xRatio, yRatio);
      BilinearBounded(input, x, y, xRatio, yRatio, lo, hi);
    }
  }

  lemma BilinearBounded(input: seq<seq<real>>, x: nat, y: nat, xRatio: real, yRatio: real, lo: real, hi: real)
    requires Readable(input, x, y, xRatio, yRatio)
    requires forall k, l :: 0 <= k < |input| && 0 <= l < |input[k]| ==> lo <= input[k][l] <= hi
    ensures lo <= Bilinear(input, x, y, xRatio, yRatio) <= hi
  {
    var xF, xC := Floor(x as real * xRatio), Ceil(x as real * xRatio);
    var yF, yC := Floor(y as real * yRatio), Ceil(y as real * yRatio);
    var xLerp := x as real * xRatio - xF as real;
    var yLerp := y as real * yRatio - yF as real;
    var top := input[yF][xF] + (input[yF][xC] - input[yF][xF]) * xLerp;
    var bottom := input[yC][xF] + (input[yC][xC] - input[yC][xF]) * xLerp;
    Lerp(input[yF][xF], input[yF][xC], xLerp, lo, hi);
    Lerp(input[yC][xF], input[yC][xC], xLerp, lo, hi);
    Lerp(top, bottom, yLerp, lo, hi);
  }

  // ---------------------------------------------------------------------------
  // normalizeDigit

  /** A row of 28 zeros. */
  function Blank(): (z: seq<real>)
    ensures |z| == 28 && forall c :: 0 <= c < 28 ==> z[c] == 0.0
  {
    seq(28, c => 0.0)
  }

  /** Row r of the 28x28 grid with the 20x20 sample copied in at row 4,
      column 4 and zeros around it. */
  function CenteredRow(scaled: seq<seq<real>>, r: int): (row: seq<real>)
    requires |scaled| == 20 && forall i :: 0 <= i < 20 ==> |scaled[i]| == 20
    ensures |row| == 28
  {
    if 4 <= r < 24 then Blank()[..4] + scaled[r - 4] + Blank()[24..] else Blank()
  }

  function Centered(scaled: seq<seq<real>>): (g: seq<seq<real>>)
    requires |scaled| == 20 && forall i :: 0 <= i < 20 ==> |scaled[i]| == 20
  {
    seq(28, r requires 0 <= r < 28 => CenteredRow(scaled, r))
  }

  /** What normalizeDigit returns: the significant portion resampled to
      20x20 and centred in a 28x28 grid; it fails where either step fails. */
  function Normalized(digit: seq<seq<real>>): Result<seq<seq<real>>>
  {
    var portion :- SignificantPortion(digit);
    var scaled :- Scaled(portion, 20, 20);
    Ok(Centered(scaled))
  }

  /** The centred grid is 28x28, holds the sample at rows and columns 4..23
      and 0 everywhere else. */
  lemma CenteredCells(scaled: seq<seq<real>>)
    requires |scaled| == 20 && forall i :: 0 <= i < 20 ==> |scaled[i]| == 20
    ensures |Centered(scaled)| == 28
    ensures forall r, c :: 0 <= r < 28 && 0 <= c < 28 ==>
      |Centered(scaled)[r]| == 28 &&
      Centered(scaled)[r][c] == if 4 <= r < 24 && 4 <= c < 24 then scaled[r - 4][c - 4] else 0.0
  {
  }

  /** normalizeDigit: arraycopy of each of the 20 sampled rows into row
      4 + i of a zero grid, from column 4. */
  method NormalizeDigit(digit: seq<seq<real>>) returns (r: Result<seq<seq<real>>>)
    ensures r == Normalized(digit)
  {
    var portion :- GetSignificantPortion(digit);
    var scaled :- ScaleDown(portion, 20, 20);
    var centered := Center(scaled);
    return Ok(centered);
  }

  /** The copying part of normalizeDigit. */
  method Center(scaled: seq<seq<real>>) returns (g: seq<seq<real>>)
    requires |scaled| == 20 && forall i :: 0 <= i < 20 ==> |scaled[i]| == 20
    ensures g == Centered(scaled)
  {
    var centered := new seq<real>[28](k => Blank());
    for i := 0 to 20
      invariant forall r :: 0 <= r < 28 ==> centered[r] == if r < 4 + i then CenteredRow(scaled, r) else Blank()
    {
      centered[4 + i] := centered[4 + i][..4] + scaled[i] + centered[4 + i][24..];
    }
    return centered[..];
  }

  /** normalizeDigit succeeds exactly when the significant portion exists and
      is not empty: an empty portion fails at `input[0]` in scaleDown, as when
      a single cell is drawn. */
  lemma NormalizedSucceeds(digit: seq<seq<real>>)
    ensures Normalized(digit).Ok? <==>
      SignificantPortion(digit).Ok? && |SignificantPortion(digit).value| > 0
  {
    if SignificantPortion(digit).Ok? && |SignificantPortion(digit).value| > 0 {
      var p := SignificantPortion(digit).value;
      SignificantPortionCells(digit, p);
      ScaledSucceeds(p, 20, 20);
    }
  }

  /** A drawing whose cells lie in [lo, hi], with lo <= 0 <= hi, is
      normalized into the same range: the padding and the border are 0 and
      every sample is a convex combination of cells. */
  lemma NormalizedBounded(digit: seq<seq<real>>, lo: real, hi: real)
    requires Normalized(digit).Ok? && lo <= 0.0 <= hi
    requires forall k, l :: 0 <= k < |digit| && 0 <= l < |digit[k]| ==> lo <= digit[k][l] <= hi
    ensures var g := Normalized(digit).value;
      |g| == 28 && forall r, c :: 0 <= r < 28 && 0 <= c < |g[r]| ==> lo <= g[r][c] <= hi
  {
    var p := SignificantPortion(digit).value;
    SignificantPortionCells(digit, p);
    ScaledBounded(p, 20, 20, lo, hi);
  }

  // ---------------------------------------------------------------------------
  // blur2DArray

  /** Cell (k, l) is inside the grid (width rows, `height` columns) and its
      row holds it. */
  predicate InGrid(input: seq<seq<real>>, k: int, l: int, height: nat)
  {
    0 <= k < |input| && 0 <= l < height && l < |input[k]|
  }

  /** The cells l0..l0+n-1 of row k that are in the grid, in loop order. */
  function Strip(input: seq<seq<real>>, k: int, l0: int, n: nat, height: nat): seq<real>
  {
    if n == 0 then []
    else Strip(input, k, l0, n - 1, height) + if InGrid(input, k, l0 + n - 1, height) then [input[k][l0 + n - 1]] else []
  }

  /** The strips l0..l0+n-1 of rows k0..k0+m-1, in loop order. */
  function Window(input: seq<seq<real>>, k0: int, m: nat, l0: int, n: nat, height: nat): seq<real>
  {
    if m == 0 then [] else Window(input, k0, m - 1, l0, n, height) + Strip(input, k0 + m - 1, l0, n, height)
  }

  /** Row k holds a cell at column l. */
  predicate Holds(input: seq<seq<real>>, k: int, l: int)
  {
    0 <= k < |input| && l < |input[k]|
  }

  lemma WindowStep(input: seq<seq<real>>, k0: int, m: nat, l0: int, n: nat, height: nat)
    ensures Window(input, k0, 0, l0, n, height) == []
    ensures Window(input, k0, m + 1, l0, n, height) == Window(input, k0, m, l0, n, height) + Strip(input, k0 + m, l0, n, height)
  {
  }

  /** Every row holds `height` cells. */
  predicate LongRows(input: seq<seq<real>>, height: nat)
  {
    forall k :: 0 <= k < |input| ==> |input[k]| >= height
  }

  /** A strip that passes over a cell of the grid holds it. */
  lemma {:induction false} StripHas(input: seq<seq<real>>, k: int, l0: int, n: nat, height: nat, l: int)
    requires l0 <= l < l0 + n && InGrid(input, k, l, height)
    ensures |Strip(input, k, l0, n, height)| >= 1
  {
    if l < l0 + n - 1 {
      StripHas(input, k, l0, n - 1, height, l);
    }
  }

  /** A window that passes over a cell of the grid holds it. */
  lemma {:induction false} WindowHas(input: seq<seq<real>>, k0: int, m: nat, l0: int, n: nat, height: nat, k: int, l: int)
    requires k0 <= k < k0 + m && l0 <= l < l0 + n && InGrid(input, k, l, height)
    ensures |Window(input, k0, m, l0, n, height)| >= 1
  {
    if k < k0 + m - 1 {
      WindowHas(input, k0, m - 1, l0, n, height, k, l);
    } else {
      StripHas(input, k, l0, n, height, l);
    }
  }

  /** The cells a window holds are cells of the grid, so they lie between
      any bounds of the grid. */
  lemma {:induction false} StripBounded(input: seq<seq<real>>, k: int, l0: int, n: nat, height: nat, lo: real, hi: real)
    requires forall a, b :: 0 <= a < |input| && 0 <= b < |input[a]| ==> lo <= input[a][b] <= hi
    ensures forall t :: 0 <= t < |Strip(input, k, l0, n, height)| ==> lo <= Strip(input, k, l0, n, height)[t] <= hi
  {
    if n > 0 {
      StripBounded(input, k, l0, n - 1, height, lo, hi);
    }
  }

  lemma {:induction false} WindowBounded(input: seq<seq<real>>, k0: int, m: nat, l0: int, n: nat, height: nat, lo: real, hi: real)
    requires forall a, b :: 0 <= a < |input| && 0 <= b < |input[a]| ==> lo <= input[a][b] <= hi
    ensures forall t :: 0 <= t < |Window(input, k0, m, l0, n, height)| ==> lo <= Window(input, k0, m, l0, n, height)[t] <= hi
  {
    if m > 0 {
      WindowBounded(input, k0, m - 1, l0, n, height, lo, hi);
      StripBounded(input, k0 + m - 1, l0, n, height, lo, hi);
    }
  }

  /** The window of cell (i, j): rows i-r..i+r, columns j-r..j+r. */
  function WindowOf(input: seq<seq<real>>, i: nat, j: nat, r: nat, height: nat): seq<real>
  {
    Window(input, i - r, 2 * r + 1, j - r, 2 * r + 1, height)
  }

  /** Cell (i, j) of the blurred grid: the mean over the cells of the grid
      within r = radius - 1 rows and columns of it. */
  function BlurCell(input: seq<seq<real>>, i: nat, j: nat, r: nat, height: nat): real
    requires InGrid(input, i, j, height)
  {
    WindowHas(input, i - r, 2 * r + 1, j - r, 2 * r + 1, height, i, j);
    Mean(WindowOf(input, i, j, r, height))
  }

  /** The arithmetic mean of a non-empty sequence. */
  function Mean(s: seq<real>): real
    requires |s| >= 1
  {
    Sum(s) / |s| as real
  }

  /** What blur2DArray returns: a grid of the input's width and of the
      height of its first row, each cell the mean of its window. `input[0]`
      fails on an empty input and a row shorter than the first on its first
      missing cell. */
  function Blurred(input: seq<seq<real>>, radius: int): (b: Result<seq<seq<real>>>)
    requires radius >= 1
    ensures b.Ok? <==> |input| > 0 && LongRows(input, |input[0]|)
    ensures b.Ok? ==> |b.value| == |input| && forall i :: 0 <= i < |input| ==> |b.value[i]| == |input[0]|
  {
    if |input| == 0 || !LongRows(input, |input[0]|) then Err(IndexOutOfBounds)
    else
      var height := |input[0]|;
      Ok(seq(|input|, i requires 0 <= i < |input| => BlurRow(input, i, radius - 1, height)))
  }

  /** Row i of the blurred grid. */
  function BlurRow(input: seq<seq<real>>, i: nat, r: nat, height: nat): (row: seq<real>)
    requires i < |input| && |input[i]| >= height
    ensures |row| == height
  {
    seq(height, j requires 0 <= j < height => BlurCell(input, i, j, r, height))
  }

  /** Every blurred cell is a mean of cells, so it lies between the least and
      the greatest of them; a constant grid is left as it is. */
  lemma BlurredBounded(input: seq<seq<real>>, radius: int, lo: real, hi: real)
    requires radius >= 1 && Blurred(input, radius).Ok?
    requires forall a, b :: 0 <= a < |input| && 0 <= b < |input[a]| ==> lo <= input[a][b] <= hi
    ensures var b := Blurred(input, radius).value;
      forall i, j :: 0 <= i < |b| && 0 <= j < |b[i]| ==> lo <= b[i][j] <= hi
  {
    hide Window, Strip, Sum, Mean;
    var b := Blurred(input, radius).value;
    var height, r := |input[0]|, radius - 1;
    forall i, j | 0 <= i < |b| && 0 <= j < |b[i]|
      ensures lo <= b[i][j] <= hi
    {
      assert b[i] == BlurRow(input, i, r, height);
      BlurCellBounded(input, i, j, r, height, lo, hi);
    }
  }

  lemma BlurCellBounded(input: seq<seq<real>>, i: nat, j: nat, r: nat, height: nat, lo: real, hi: real)
    requires InGrid(input, i, j, height)
    requires forall a, b :: 0 <= a < |input| && 0 <= b < |input[a]| ==> lo <= input[a][b] <= hi
    ensures lo <= BlurCell(input, i, j, r, height) <= hi
  {
    hide BlurCell, Mean, Sum, WindowOf, Window, Strip;
    var w := Window(input, i - r, 2 * r + 1, j - r, 2 * r + 1, height);
    WindowHas(input, i - r, 2 * r + 1, j - r, 2 * r + 1, height, i, j);
    WindowBounded(input, i - r, 2 * r + 1, j - r, 2 * r + 1, height, lo, hi);
    MeanBounded(w, lo, hi);
    BlurCellIsMean(input, i, j, r, height);
  }

  lemma BlurCellIsMean(input: seq<seq<real>>, i: nat, j: nat, r: nat, height: nat)
    requires InGrid(input, i, j, height)
    ensures |Window(input, i - r, 2 * r + 1, j - r, 2 * r + 1, height)| >= 1
    ensures BlurCell(input, i, j, r, height) == Mean(Window(input, i - r, 2 * r + 1, j - r, 2 * r + 1, height))
  {
    hide Mean, Sum, Window, Strip;
    WindowHas(input, i - r, 2 * r + 1, j - r, 2 * r + 1, height, i, j);
  }

  /** The mean of values in [lo, hi] is in [lo, hi]. */
  lemma MeanBounded(s: seq<real>, lo: real, hi: real)
    requires |s| >= 1 && forall t :: 0 <= t < |s| ==> lo <= s[t] <= hi
    ensures lo <= Mean(s) <= hi
  {
    SumBounded(s, lo, hi);
    QuotientBounded(Sum(s), |s| as real, lo, hi);
  }

  lemma QuotientBounded(sum: real, count: real, lo: real, hi: real)
    requires count >= 1.0 && count * lo <= sum <= count * hi
    ensures lo <= sum / count <= hi
  {
  }

  /** The mean over the window of cell (i, j). The centre cell is read on
      the way, so an Ok result shows that row i is long enough. */
  method WindowMean(input: seq<seq<real>>, i: nat, j: nat, r: nat, height: nat) returns (m: Result<real>)
    requires i < |input| && j < height
    ensures m.Ok? ==> InGrid(input, i, j, height) && m.value == BlurCell(input, i, j, r, height)
    ensures m.Err? ==> m.error == IndexOutOfBounds && !LongRows(input, height)
  {
    hide Window, Strip, Sum;
    var ok, sum, count := WindowSum(input, i, j, r, height);
    if !ok {
      return Err(IndexOutOfBounds);
    }
    WindowHas(input, i - r, 2 * r + 1, j - r, 2 * r + 1, height, i, j);
    return Ok(sum / count as real);
  }

  /** The two outer loops of the window: rows i-r..i+r, adding up the cells
      of each row that are in the grid. */
  method WindowSum(input: seq<seq<real>>, i: nat, j: nat, r: nat, height: nat) returns (ok: bool, sum: real, count: nat)
    requires i < |input| && j < height
    ensures ok ==> j < |input[i]| && sum == Sum(WindowOf(input, i, j, r, height)) && count == |WindowOf(input, i, j, r, height)|
    ensures !ok ==> !LongRows(input, height)
  {
    hide Accumulated, Window, Strip, Sum, WindowOf;
    sum, count := 0.0, 0;
    var k := i - r;
    AccumulatedStart(input, i, j, r, height);
    while k <= i + r
      invariant i - r <= k <= i + r + 1
      invariant Accumulated(input, i, j, r, height, k, sum, count)
      invariant k > i ==> j < |input[i]|
    {
      var rowOk, s, c := StripSum(input, k, j, r, height);
      if !rowOk {
        return false, sum, count;
      }
      if k == i {
        assert Holds(input, i, j);
      }
      AccumulatedStep(input, i, j, r, height, k, sum, count, s, c);
      sum := sum + s;
      count := count + c;
      k := k + 1;
    }
    AccumulatedDone(input, i, j, r, height, sum, count);
    return true, sum, count;
  }

  /** sum and count are those of the rows of the window of (i, j) above row
      k. */
  ghost predicate Accumulated(input: seq<seq<real>>, i: int, j: int, r: nat, height: nat, k: int, sum: real, count: int)
  {
    i - r <= k &&
    var w := Window(input, i - r, k - (i - r), j - r, 2 * r + 1, height);
    sum == Sum(w) && count == |w|
  }

  lemma AccumulatedStart(input: seq<seq<real>>, i: int, j: int, r: nat, height: nat)
    ensures Accumulated(input, i, j, r, height, i - r, 0.0, 0)
  {
  }

  /** Adding the strip of row k to the rows above it gives the rows down to
      k. */
  lemma AccumulatedStep(input: seq<seq<real>>, i: int, j: int, r: nat, height: nat, k: int, sum: real, count: int, s: real, c: int)
    requires Accumulated(input, i, j, r, height, k, sum, count)
    requires s == Sum(Strip(input, k, j - r, 2 * r + 1, height)) && c == |Strip(input, k, j - r, 2 * r + 1, height)|
    ensures Accumulated(input, i, j, r, height, k + 1, sum + s, count + c)
  {
    SumConcat(Window(input, i - r, k - (i - r), j - r, 2 * r + 1, height), Strip(input, k, j - r, 2 * r + 1, height));
  }

  lemma AccumulatedDone(input: seq<seq<real>>, i: nat, j: nat, r: nat, height: nat, sum: real, count: int)
    requires Accumulated(input, i, j, r, height, i + r + 1, sum, count)
    ensures sum == Sum(WindowOf(input, i, j, r, height)) && count == |WindowOf(input, i, j, r, height)|
  {
  }

  /** The inner loop of the window: columns j-r..j+r of row k. It fails on
      the first cell inside the grid's bounds that row k does not hold. */
  method StripSum(input: seq<seq<real>>, k: int, j: int, r: nat, height: nat) returns (ok: bool, sum: real, count: nat)
    ensures ok ==> sum == Sum(Strip(input, k, j - r, 2 * r + 1, height)) && count == |Strip(input, k, j - r, 2 * r + 1, height)|
    ensures ok && 0 <= k < |input| ==> forall l :: j - r <= l <= j + r && 0 <= l < height ==> Holds(input, k, l)
    ensures !ok ==> 0 <= k < |input| && |input[k]| < height
  {
    sum, count := 0.0, 0;
    var l := j - r;
    ghost var strip: seq<real> := [];
    while l <= j + r
      invariant j - r <= l <= j + r + 1
      invariant strip == Strip(input, k, j - r, l - (j - r), height)
      invariant sum == Sum(strip) && count == |strip|
      invariant 0 <= k < |input| ==> forall l' :: j - r <= l' < l && 0 <= l' < height ==> Holds(input, k, l')
      decreases j + r - l
    {
      if 0 <= k < |input| && 0 <= l < height {
        if l >= |input[k]| {
          return false, sum, count;
        }
        SumAppend(strip, input[k][l]);
        sum := sum + input[k][l];
        count := count + 1;
        strip := strip + [input[k][l]];
      }
      l := l + 1;
    }
    return true, sum, count;
  }

  /** One row of blur2DArray's result. */
  method BlurRowOf(input: seq<seq<real>>, i: nat, r: nat, height: nat) returns (b: Result<seq<real>>)
    requires i < |input|
    ensures b.Ok? ==> |input[i]| >= height && b.value == BlurRow(input, i, r, height)
    ensures b.Err? ==> b.error == IndexOutOfBounds && !LongRows(input, height)
  {
    hide Window, Strip, Sum, Mean;
    var row := new real[height];
    for j := 0 to height
      invariant j > 0 ==> |input[i]| >= j
      invariant forall j' :: 0 <= j' < j ==> InGrid(input, i, j', height) && row[j'] == BlurCell(input, i, j', r, height)
    {
      var m := WindowMean(input, i, j, r, height);
      if m.Err? {
        return Err(IndexOutOfBounds);
      }
      row[j] := m.value;
    }
    return Ok(row[..]);
  }

  /** blur2DArray: radius - 1, then every cell of the result from its window. */
  method Blur2DArray(input: seq<seq<real>>, radius: int) returns (b: Result<seq<seq<real>>>)
    requires radius >= 1
    ensures b == Blurred(input, radius)
  {
    hide Window, Strip, Sum, Mean;
    if |input| == 0 {
      return Err(IndexOutOfBounds);
    }
    var r := radius - 1;
    var width, height := |input|, |input[0]|;
    var blurred: seq<seq<real>> := [];
    for i := 0 to width
      invariant |blurred| == i
      invariant forall k :: 0 <= k < i ==> |input[k]| >= height && blurred[k] == BlurRow(input, k, r, height)
    {
      var row := BlurRowOf(input, i, r, height);
      if row.Err? {
        return Err(IndexOutOfBounds);
      }
      blurred := blurred + [row.value];
    }
    assert LongRows(input, height);
    assert blurred == Blurred(input, radius).value;
    return Ok(blurred);
  }
}
