/** MnistDataReader: the decoders of IDX image files (magic, count, rows,
    columns, then one unsigned byte per pixel) and IDX label files (magic,
    count, then one unsigned byte per label), over the bytes of the stream. */
module MnistDataReader {
  import opened Outcomes
  import opened Idx

  /** `new double[nRows*nCols]`: the product in int arithmetic. */
  function ImageSize(bs: seq<byte>): int32
    requires 16 <= |bs|
  {
    Wrap32(IntAt(bs, 8) * IntAt(bs, 12))
  }

  /** One image: `size` bytes from `start`, each divided by 255. */
  function Image(bs: seq<byte>, start: nat, size: nat): (img: seq<real>)
    requires start + size <= |bs|
    ensures |img| == size
  {
    seq(size, o requires 0 <= o < size => bs[start + o] as real / 255.0)
  }

  /** The bytes taken by n images of `size` bytes: n * size, written so that
      the proofs stay linear (SpanIsProduct). */
  function Span(n: nat, size: nat): nat
  {
    if n == 0 then 0 else Span(n - 1, size) + size
  }

  lemma {:induction false} SpanIsProduct(n: nat, size: nat)
    ensures Span(n, size) == n * size
  {
    if n > 0 {
      SpanIsProduct(n - 1, size);
      assert (n - 1) * size + size == n * size;
    }
  }

  lemma {:induction false} SpanGrows(i: nat, n: nat, size: nat)
    requires i <= n
    ensures Span(i, size) <= Span(n, size)
    decreases n - i
  {
    if i < n {
      SpanGrows(i, n - 1, size);
    }
  }

  /** n images stored one after another from `start`. */
  function Images(bs: seq<byte>, start: nat, n: nat, size: nat): (imgs: seq<seq<real>>)
    requires start + Span(n, size) <= |bs|
    ensures |imgs| == n
  {
    if n == 0 then []
    else
      SpanGrows(n - 1, n, size);
      Images(bs, start, n - 1, size) + [Image(bs, start + Span(n - 1, size), size)]
  }

  /** Image i of a run starts i images after the first. */
  lemma {:induction false} ImagesAt(bs: seq<byte>, start: nat, n: nat, size: nat, i: nat)
    requires start + Span(n, size) <= |bs| && i < n
    ensures start + Span(i, size) + size <= |bs|
    ensures Images(bs, start, n, size)[i] == Image(bs, start + Span(i, size), size)
    decreases n
  {
    SpanGrows(i + 1, n, size);
    if i < n - 1 {
      SpanGrows(n - 1, n, size);
      ImagesAt(bs, start, n - 1, size, i);
    }
  }

  /** What readImageData returns for a stream holding `bs`. The header is read
      in full first; a negative count fails at `new double[numberOfItems][]`,
      a negative image size at the first `new double[nRows*nCols]`, and a
      stream that ends before the last pixel with an EOFException. */
  function ImageData(bs: seq<byte>): Result<seq<seq<real>>>
  {
    if |bs| < 16 then Err(EndOfFile)
    else
      var n := IntAt(bs, 4);
      var size := ImageSize(bs);
      if n < 0 || (n > 0 && size < 0) then Err(NegativeArraySize)
      else if n == 0 then Ok([])
      else if |bs| < 16 + Span(n, size) then Err(EndOfFile)
      else Ok(Images(bs, 16, n, size))
  }

  /** readImageData: four header ints, then for each of the count images a
      fresh array filled byte by byte. */
  method ReadImageData(bs: seq<byte>) returns (r: Result<seq<seq<real>>>)
    ensures r == ImageData(bs)
  {
    var input := new DataInputStream(bs);
    var magic :- input.ReadInt();
    var numberOfItems :- input.ReadInt();
    var nRows :- input.ReadInt();
    var nCols :- input.ReadInt();
    assert input.pos == 16 && nRows == IntAt(bs, 8) && nCols == IntAt(bs, 12);
    if numberOfItems < 0 {
      return Err(NegativeArraySize);
    }
    var size := Wrap32(nRows as int * nCols as int);
    var data: seq<seq<real>> := [];
    for i := 0 to numberOfItems
      invariant input.Valid() && input.bytes == bs && size == ImageSize(bs) && (i == 0 || size >= 0)
      invariant input.pos == 16 + Span(i, Max(size, 0)) && data == Images(bs, 16, i, Max(size, 0))
    {
      if size < 0 {
        return Err(NegativeArraySize);
      }
      var image := ReadImage(input, size);
      if image.Err? {
        SpanGrows(i + 1, numberOfItems, size);
        return Err(EndOfFile);
      }
      data := data + [image.value];
    }
    return Ok(data);
  }

  /** The inner loop of readImageData: `size` unsigned bytes, each over 255. */
  method ReadImage(input: DataInputStream, size: nat) returns (r: Result<seq<real>>)
    requires input.Valid()
    modifies input
    ensures input.Valid()
    ensures old(input.pos) + size <= |input.bytes| ==>
      r == Ok(Image(input.bytes, old(input.pos), size)) && input.pos == old(input.pos) + size
    ensures old(input.pos) + size > |input.bytes| ==> r == Err(EndOfFile)
  {
    var start := input.pos;
    var image: seq<real> := [];
    for o := 0 to size
      invariant input.Valid() && input.pos == start + o
      invariant image == Image(input.bytes, start, o)
    {
      var b := input.ReadUnsignedByte();
      if b.Err? {
        return Err(b.error);
      }
      image := image + [b.value as real / 255.0];
    }
    return Ok(image);
  }

  /** The decoded images: count of them, each of rows*cols values in [0, 1],
      value o of image i being byte 16 + i*size + o over 255. */
  lemma ImageDataMeaning(bs: seq<byte>, i: nat, o: nat)
    requires ImageData(bs).Ok? && i < |ImageData(bs).value|
    ensures var d := ImageData(bs).value;
      |d| == IntAt(bs, 4) && |d[i]| == ImageSize(bs) &&
      (o < |d[i]| ==> 16 + i * |d[i]| + o < |bs| && d[i][o] == bs[16 + i * |d[i]| + o] as real / 255.0 && 0.0 <= d[i][o] <= 1.0)
  {
    var n := IntAt(bs, 4);
    var size := ImageSize(bs);
    ImagesAt(bs, 16, n, size, i);
    SpanIsProduct(i, size);
  }

  /** The decoder reads exactly 16 + count*size bytes: whatever follows them
      changes nothing. */
  lemma ImageDataIgnoresRest(bs: seq<byte>, rest: seq<byte>)
    requires ImageData(bs).Ok?
    ensures ImageData(bs + rest) == ImageData(bs)
  {
    var all := bs + rest;
    assert all[..|bs|] == bs;
    assert IntAt(all, 4) == IntAt(bs, 4) && IntAt(all, 8) == IntAt(bs, 8) && IntAt(all, 12) == IntAt(bs, 12);
    var n := IntAt(bs, 4);
    if n > 0 {
      ImagesPrefix(bs, rest, 16, n, ImageSize(bs));
    }
  }

  lemma {:induction false} ImagesPrefix(bs: seq<byte>, rest: seq<byte>, start: nat, n: nat, size: nat)
    requires start + Span(n, size) <= |bs|
    ensures Images(bs + rest, start, n, size) == Images(bs, start, n, size)
  {
    if n > 0 {
      SpanGrows(n - 1, n, size);
      ImagesPrefix(bs, rest, start, n - 1, size);
      assert Image(bs + rest, start + Span(n - 1, size), size) == Image(bs, start + Span(n - 1, size), size);
    }
  }

  /** A stream cut short before the last pixel fails with an EOFException. */
  lemma ImageDataTruncated(bs: seq<byte>, m: nat)
    requires ImageData(bs).Ok? && m < |bs| && IntAt(bs, 4) > 0
    requires m < 16 + IntAt(bs, 4) * ImageSize(bs)
    ensures ImageData(bs[..m]) == Err(EndOfFile)
  {
    if 16 <= m {
      var cut := bs[..m];
      assert IntAt(cut, 4) == IntAt(bs, 4) && IntAt(cut, 8) == IntAt(bs, 8) && IntAt(cut, 12) == IntAt(bs, 12);
      SpanIsProduct(IntAt(bs, 4), ImageSize(bs));
    }
  }

  // ---------------------------------------------------------------------------
  // Labels

  /** `labelArray[label] = 1` in a fresh `double[10]`. */
  function OneHot(digit: nat): (v: seq<real>)
    requires digit < 10
    ensures |v| == 10 && v[digit] == 1.0 && forall k :: 0 <= k < 10 && k != digit ==> v[k] == 0.0
  {
    seq(10, k => if k == digit then 1.0 else 0.0)
  }

  /** The labels loop from label i on, over the bytes after the header: the
      first label byte that is missing ends it with an EOFException, the first
      that is 10 or more with an ArrayIndexOutOfBoundsException. */
  function LabelScan(labels: seq<byte>, i: nat, n: nat): (r: Result<()>)
    requires i <= n
    ensures r.Ok? <==> forall k :: i <= k < n ==> Digit(labels, k)
    ensures r.Err? ==> r.error == EndOfFile || r.error == IndexOutOfBounds
    decreases n - i
  {
    if i == n then Ok(())
    else if |labels| <= i then assert !Digit(labels, i); Err(EndOfFile)
    else if labels[i] >= 10 then assert !Digit(labels, i); Err(IndexOutOfBounds)
    else LabelScan(labels, i + 1, n)
  }

  /** Label byte k is there and names a digit. */
  predicate Digit(labels: seq<byte>, k: nat)
  {
    k < |labels| && labels[k] < 10
  }

  /** What readLabelData returns for a stream holding `bs`. */
  function LabelData(bs: seq<byte>): Result<seq<seq<real>>>
  {
    if |bs| < 8 then Err(EndOfFile)
    else
      var n := IntAt(bs, 4);
      var labels := bs[8..];
      if n < 0 then Err(NegativeArraySize)
      else match LabelScan(labels, 0, n)
        case Err(e) => Err(e)
        case Ok(_) => Ok(seq(n, i requires 0 <= i < n && Digit(labels, i) => OneHot(labels[i] as nat)))
  }

  /** readLabelData: two header ints, then one byte per label. */
  method ReadLabelData(bs: seq<byte>) returns (r: Result<seq<seq<real>>>)
    ensures r == LabelData(bs)
  {
    var input := new DataInputStream(bs);
    var magic :- input.ReadInt();
    var numberOfLabels :- input.ReadInt();
    if numberOfLabels < 0 {
      return Err(NegativeArraySize);
    }
    ghost var labels := bs[8..];
    var data: seq<seq<real>> := [];
    for i := 0 to numberOfLabels
      invariant input.Valid() && input.bytes == bs && input.pos == 8 + i && |data| == i
      invariant LabelScan(labels, 0, numberOfLabels) == LabelScan(labels, i, numberOfLabels)
      invariant forall k :: 0 <= k < i ==> Digit(labels, k) && data[k] == OneHot(labels[k] as nat)
    {
      var digit :- input.ReadUnsignedByte();
      assert digit == labels[i];
      if digit >= 10 {
        return Err(IndexOutOfBounds);
      }
      data := data + [OneHot(digit as nat)];
    }
    assert data == seq(numberOfLabels, i requires 0 <= i < numberOfLabels && Digit(labels, i) => OneHot(labels[i] as nat));
    return Ok(data);
  }

  /** A label file decodes at all exactly when every label byte is present
      and below 10, and then to one one-hot row per label byte. */
  lemma LabelDataMeaning(bs: seq<byte>)
    requires 8 <= |bs| && IntAt(bs, 4) >= 0
    ensures LabelData(bs).Ok? <==> forall k :: 0 <= k < IntAt(bs, 4) ==> Digit(bs[8..], k)
    ensures LabelData(bs).Ok? ==> var d := LabelData(bs).value;
      |d| == IntAt(bs, 4) && forall k :: 0 <= k < |d| ==> Digit(bs[8..], k) && d[k] == OneHot(bs[8 + k] as nat)
  {
  }

  /** The first bad label byte decides the error. */
  lemma LabelDataFirstBad(bs: seq<byte>, j: nat)
    requires 8 <= |bs| && 0 <= j < IntAt(bs, 4)
    requires forall k :: 0 <= k < j ==> Digit(bs[8..], k)
    requires !Digit(bs[8..], j)
    ensures LabelData(bs) == Err(if 8 + j < |bs| then IndexOutOfBounds else EndOfFile)
  {
    LabelScanFrom(bs[8..], 0, j, IntAt(bs, 4));
  }

  lemma {:induction false} LabelScanFrom(labels: seq<byte>, i: nat, j: nat, n: nat)
    requires i <= j < n
    requires forall k :: i <= k < j ==> Digit(labels, k)
    ensures LabelScan(labels, i, n) == LabelScan(labels, j, n)
    decreases j - i
  {
    if i < j {
      assert Digit(labels, i);
      LabelScanFrom(labels, i + 1, j, n);
    }
  }
}
