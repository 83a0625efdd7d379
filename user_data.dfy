/** UserData: the writer of the user's own drawings as a pair of IDX files, an
    image file and a label file whose first dimension counts the entries. The
    two files are byte buffers standing in for the files on disk. */
module UserDataFiles {
  import opened Outcomes
  import opened Idx
  import opened MnistDataReader

  /** The 784 bytes of a 28x28 drawing, column x of row y at y*28 + x, taken
      from `pixels[x][y]`. */
  function PixelBytes(pixels: seq<seq<int>>): (data: seq<byte>)
    requires |pixels| >= 28 && forall x :: 0 <= x < 28 ==> |pixels[x]| >= 28
    ensures |data| == 784
  {
    seq(784, k requires 0 <= k < 784 => LowByte(pixels[k % 28][k / 28]))
  }

  /** Byte y*28 + x is the low byte of pixels[x][y]: the drawing is stored
      transposed, one column of the array per row of the image. */
  lemma PixelBytesTranspose(pixels: seq<seq<int>>, x: nat, y: nat)
    requires |pixels| >= 28 && forall x :: 0 <= x < 28 ==> |pixels[x]| >= 28
    requires x < 28 && y < 28
    ensures y * 28 + x < 784 && PixelBytes(pixels)[y * 28 + x] == LowByte(pixels[x][y])
    ensures (PixelBytes(pixels)[y * 28 + x] as int - pixels[x][y]) % 0x100 == 0
  {
    assert (y * 28 + x) % 28 == x && (y * 28 + x) / 28 == y;
  }

  /** pixelsToByteArray: a 784-byte buffer filled with `data[index++]`, rows
      of the image outermost. */
  method PixelsToByteArray(pixels: seq<seq<int>>) returns (data: seq<byte>)
    requires |pixels| >= 28 && forall x :: 0 <= x < 28 ==> |pixels[x]| >= 28
    ensures data == PixelBytes(pixels)
  {
    var buffer := new byte[784];
    var index := 0;
    for y := 0 to 28
      invariant index == y * 28
      invariant forall k :: 0 <= k < index ==> buffer[k] == PixelBytes(pixels)[k]
    {
      for x := 0 to 28
        invariant index == y * 28 + x
        invariant forall k :: 0 <= k < index ==> buffer[k] == PixelBytes(pixels)[k]
      {
        PixelBytesTranspose(pixels, x, y);
        buffer[index] := LowByte(pixels[x][y]);
        index := index + 1;
      }
    }
    data := buffer[..];
  }

  /** The header setupImageFile writes: magic 0x00000803, 0 images, 28 rows,
      28 columns. */
  const ImageHeader: seq<byte> := [0, 0, 8, 3, 0, 0, 0, 0, 0, 0, 0, 0x1C, 0, 0, 0, 0x1C]

  /** The header setupLabelFile writes: magic 0x00000801, then a zero int
      (commented as the number of dimensions) and a zero count. */
  const LabelHeader: seq<byte> := [0, 0, 8, 1, 0, 0, 0, 0, 0, 0, 0, 0]

  /** incrementFirstDimensionInFile: seek(4), readInt, seek(4), writeInt(n + 1);
      a file too short to hold the count is left as it is (the EOFException is
      printed and swallowed). */
  function Incremented(bs: seq<byte>): (r: seq<byte>)
  {
    if |bs| < 8 then bs else Overwrite(bs, 4, IntToBytes(Wrap32(IntAt(bs, 4) + 1)))
  }

  /** The count at bytes 4..7 goes up by one in int arithmetic, and no other
      byte and not the length changes. */
  lemma IncrementedMeaning(bs: seq<byte>)
    ensures |Incremented(bs)| == |bs|
    ensures |bs| >= 8 ==> IntAt(Incremented(bs), 4) == Wrap32(IntAt(bs, 4) + 1)
    ensures |bs| >= 8 ==> Incremented(bs)[..4] == bs[..4] && Incremented(bs)[8..] == bs[8..]
    ensures |bs| < 8 ==> Incremented(bs) == bs
  {
    if |bs| >= 8 {
      var r := Incremented(bs);
      assert r[4..8] == IntToBytes(Wrap32(IntAt(bs, 4) + 1));
      ReadIntToBytes(Wrap32(IntAt(bs, 4) + 1));
      IntAtSlice(r, 4);
      assert r[..4] == bs[..4];
      assert r[8..] == bs[8..];
    }
  }

  /** Bytes 4..7 after an append, as before it. */
  lemma CountAfterAppend(bs: seq<byte>, data: seq<byte>)
    requires |bs| >= 8
    ensures IntAt(bs + data, 4) == IntAt(bs, 4) && (bs + data)[8..] == bs[8..] + data
  {
    IntAtSlice(bs + data, 4);
    IntAtSlice(bs, 4);
    assert (bs + data)[4..8] == bs[4..8];
  }

  class UserData {
    const labelsFile: string
    const imagesFile: string
    /** The contents behind the two file names. */
    const labels: ByteFile
    const images: ByteFile

    ghost predicate Valid()
      reads this, labels, images
    {
      labels != images && labels.Valid() && images.Valid()
    }

    /** UserData(baseFileName): the two file names. */
    constructor (baseFileName: string, labels: ByteFile, images: ByteFile)
      requires labels != images && labels.Valid() && images.Valid()
      ensures Valid() && this.labels == labels && this.images == images
      ensures labelsFile == baseFileName + "-labels.idx1-ubyte" && imagesFile == baseFileName + "-images.idx3-ubyte"
    {
      labelsFile := baseFileName + "-labels.idx1-ubyte";
      imagesFile := baseFileName + "-images.idx3-ubyte";
      this.labels := labels;
      this.images := images;
    }

    /** setupImageFile: nothing if the file exists, else the 16-byte header. */
    method SetupImageFile()
      requires Valid()
      modifies images
      ensures Valid() && images.present
      ensures images.bytes == if old(images.present) then old(images.bytes) else ImageHeader
    {
      if images.present {
        return;
      }
      images.Create(ImageHeader);
    }

    /** setupLabelFile: nothing if the file exists, else the 12-byte header. */
    method SetupLabelFile()
      requires Valid()
      modifies labels
      ensures Valid() && labels.present
      ensures labels.bytes == if old(labels.present) then old(labels.bytes) else LabelHeader
    {
      if labels.present {
        return;
      }
      labels.Create(LabelHeader);
    }

    /** incrementFirstDimensionInFile on one of the two files; opening it in
        "rw" mode creates it when missing. */
    method IncrementFirstDimensionInFile(file: ByteFile)
      requires Valid() && (file == labels || file == images)
      modifies file
      ensures Valid() && file.present && file.bytes == Incremented(old(file.bytes))
    {
      var raf := new RandomAccessFile(file);
      raf.Seek(4);
      var count := raf.ReadInt();
      if count.Ok? {
        raf.Seek(4);
        raf.WriteInt(Wrap32(count.value as int + 1));
      }
    }

    /** addToLabels(data): count up, then append. */
    method AddToLabels(data: seq<byte>)
      requires Valid()
      modifies labels
      ensures Valid() && labels.present && labels.bytes == Incremented(old(labels.bytes)) + data
    {
      IncrementFirstDimensionInFile(labels);
      labels.Append(data);
    }

    /** addToImages(data): count up, then append. */
    method AddToImages(data: seq<byte>)
      requires Valid()
      modifies images
      ensures Valid() && images.present && images.bytes == Incremented(old(images.bytes)) + data
    {
      IncrementFirstDimensionInFile(images);
      images.Append(data);
    }
  }

  // ---------------------------------------------------------------------------
  // Round trips through MnistDataReader

  /** The label file after setupLabelFile and addToLabels(intToByteArray(l))
      for each label l in turn, as the drawing window saves a labelled drawing. */
  function LabelFile(ls: seq<int32>): (bs: seq<byte>)
  {
    if |ls| == 0 then LabelHeader
    else Incremented(LabelFile(ls[..|ls| - 1])) + IntToBytes(ls[|ls| - 1])
  }

  /** One saved label of 1 to 9 is read back as the label 0: the reader takes
      the first byte after an 8-byte header as the label, which is the first
      byte of the writer's third header int. */
  lemma LabelFileMisread(l: int32)
    requires 0 < l < 10
    ensures LabelData(LabelFile([l])) == Ok([OneHot(0)])
    ensures LabelData(LabelFile([l])) != Ok([OneHot(l)])
  {
    var bs := LabelFile([l]);
    assert [l][..0] == [] && LabelFile([]) == LabelHeader;
    IncrementedMeaning(LabelHeader);
    var after := Incremented(LabelHeader);
    assert bs == Incremented(LabelFile([])) + IntToBytes(l);
    hide Incremented, Overwrite, IntAt, IntToBytes;
    CountAfterAppend(after, IntToBytes(l));
    assert IntAt(bs, 4) == 1;
    assert bs[8..][0] == LabelHeader[8] == 0;
    assert LabelScan(bs[8..], 1, 1) == Ok(());
    assert LabelData(bs).value == [OneHot(0)];
    assert OneHot(0)[0] != OneHot(l)[0];
  }

  /** The header of an IDX label file as the reader expects it: magic
      0x00000801 and the count, then one byte per label. */
  const ReadableLabelHeader: seq<byte> := [0, 0, 8, 1, 0, 0, 0, 0]

  /** The label file written with that header and one byte per label. */
  function ReadableLabelFile(ds: seq<byte>): (bs: seq<byte>)
  {
    if |ds| == 0 then ReadableLabelHeader
    else Incremented(ReadableLabelFile(ds[..|ds| - 1])) + [ds[|ds| - 1]]
  }

  /** One addToImages or addToLabels on a file with a full header: the count
      goes up by one, the rest of the header stays, the data goes at the end. */
  lemma AddStep(before: seq<byte>, data: seq<byte>, header: nat)
    requires 8 <= header <= |before|
    ensures var bs := Incremented(before) + data;
      |bs| == |before| + |data| && IntAt(bs, 4) == Wrap32(IntAt(before, 4) + 1) &&
      bs[8..header] == before[8..header] && bs[header..] == before[header..] + data
  {
    IncrementedMeaning(before);
    var after := Incremented(before);
    CountAfterAppend(after, data);
    assert after[8..][..header - 8] == before[8..][..header - 8];
    assert after[8..][header - 8..] == before[8..][header - 8..];
  }

  /** The corrected writer: the count is the number of labels and the labels
      follow the 8-byte header byte for byte. */
  lemma {:induction false} ReadableLabelFileLayout(ds: seq<byte>)
    requires |ds| < 0x8000_0000
    ensures var bs := ReadableLabelFile(ds); |bs| == 8 + |ds| && IntAt(bs, 4) == |ds| && bs[8..] == ds
  {
    if |ds| > 0 {
      var prev, d := ds[..|ds| - 1], ds[|ds| - 1];
      assert ds == prev + [d];
      var before := ReadableLabelFile(prev);
      assert ReadableLabelFile(ds) == Incremented(before) + [d];
      hide Incremented, Overwrite, IntAt, ReadableLabelFile;
      ReadableLabelFileLayout(prev);
      AddStep(before, [d], 8);
    }
  }

  /** Labels written one byte each after the 8-byte header read back as the
      one-hot rows of the same labels. */
  lemma ReadableLabelRoundTrip(ds: seq<byte>)
    requires |ds| < 0x8000_0000 && forall k :: 0 <= k < |ds| ==> ds[k] < 10
    ensures LabelData(ReadableLabelFile(ds)).Ok?
    ensures var d := LabelData(ReadableLabelFile(ds)).value;
      |d| == |ds| && forall k :: 0 <= k < |ds| ==> d[k] == OneHot(ds[k] as nat)
  {
    var bs := ReadableLabelFile(ds);
    ReadableLabelFileLayout(ds);
    assert forall k :: 0 <= k < |ds| ==> Digit(bs[8..], k);
    LabelDataMeaning(bs);
  }

  /** The image file after setupImageFile and addToImages(d) for each drawing
      d in turn. */
  function ImageFile(imgs: seq<seq<byte>>): (bs: seq<byte>)
  {
    if |imgs| == 0 then ImageHeader
    else Incremented(ImageFile(imgs[..|imgs| - 1])) + imgs[|imgs| - 1]
  }

  /** Every drawing has the 784 bytes of a 28x28 image. */
  predicate Drawings(imgs: seq<seq<byte>>)
  {
    forall i :: 0 <= i < |imgs| ==> |imgs[i]| == 784
  }

  /** The drawings one after another. */
  function Concat(imgs: seq<seq<byte>>): seq<byte>
  {
    if |imgs| == 0 then [] else Concat(imgs[..|imgs| - 1]) + imgs[|imgs| - 1]
  }

  lemma {:induction false} ConcatLength(imgs: seq<seq<byte>>)
    requires Drawings(imgs)
    ensures |Concat(imgs)| == Span(|imgs|, 784)
  {
    if |imgs| > 0 {
      ConcatLength(imgs[..|imgs| - 1]);
    }
  }

  /** Byte o of drawing i sits i drawings into the concatenation. */
  lemma {:induction false} ConcatAt(imgs: seq<seq<byte>>, i: nat, o: nat)
    requires Drawings(imgs) && i < |imgs| && o < 784
    ensures Span(i, 784) + o < |Concat(imgs)| && Concat(imgs)[Span(i, 784) + o] == imgs[i][o]
  {
    var prev := imgs[..|imgs| - 1];
    ConcatLength(prev);
    if i < |prev| {
      ConcatAt(prev, i, o);
    }
  }

  /** The image file: the count of drawings, the two dimensions as written by
      setupImageFile, then the drawings. */
  lemma {:induction false} ImageFileLayout(imgs: seq<seq<byte>>)
    requires |imgs| < 0x8000_0000
    ensures var bs := ImageFile(imgs);
      |bs| >= 16 && IntAt(bs, 4) == |imgs| && bs[8..16] == ImageHeader[8..16] && bs[16..] == Concat(imgs)
  {
    if |imgs| > 0 {
      var prev := imgs[..|imgs| - 1];
      hide Incremented, Overwrite, IntAt;
      ImageFileLayout(prev);
      AddStep(ImageFile(prev), imgs[|imgs| - 1], 16);
    }
  }

  /** A file with the header setupImageFile writes, a positive count n and
      exactly n images of 784 bytes passes the reader's header checks. */
  lemma ReadsLaidOut(bs: seq<byte>, n: nat)
    requires |bs| >= 16 && 0 < n && IntAt(bs, 4) == n && bs[8..16] == ImageHeader[8..16]
    requires |bs| == 16 + Span(n, 784)
    ensures ImageData(bs) == Ok(Images(bs, 16, n, 784))
  {
    var dim: seq<byte> := [0, 0, 0, 0x1C];
    assert IntAt(dim, 0) == 28;
    assert bs[8..12] == bs[8..16][..4] == dim;
    assert bs[12..16] == bs[8..16][4..] == dim;
    IntAtSlice(bs, 8);
    IntAtSlice(bs, 12);
    hide IntAt, Images, Span;
    assert ImageSize(bs) == 784;
  }

  /** The image file passes the reader's header checks: every drawing in it
      is read, 784 bytes each. */
  lemma ImageFileReads(imgs: seq<seq<byte>>)
    requires Drawings(imgs) && 0 < |imgs| < 0x8000_0000
    ensures var bs := ImageFile(imgs);
      16 + Span(|imgs|, 784) == |bs| && ImageData(bs) == Ok(Images(bs, 16, |imgs|, 784))
  {
    ImageFileLayout(imgs);
    ConcatLength(imgs);
    ReadsLaidOut(ImageFile(imgs), |imgs|);
  }

  /** Drawings saved through setupImageFile and addToImages read back as the
      same drawings, each byte over 255. */
  lemma ImageRoundTrip(imgs: seq<seq<byte>>, i: nat, o: nat)
    requires Drawings(imgs) && |imgs| < 0x8000_0000 && i < |imgs| && o < 784
    ensures ImageData(ImageFile(imgs)).Ok?
    ensures var d := ImageData(ImageFile(imgs)).value;
      |d| == |imgs| && |d[i]| == 784 && d[i][o] == imgs[i][o] as real / 255.0
  {
    var bs := ImageFile(imgs);
    ImageFileReads(imgs);
    ImageFileLayout(imgs);
    ConcatAt(imgs, i, o);
    ConcatLength(imgs);
    hide ImageFile, Concat, Incremented, ImageData, Images;
    ImageAtConcat(bs, imgs, i, o);
  }

  lemma ImageAtConcat(bs: seq<byte>, imgs: seq<seq<byte>>, i: nat, o: nat)
    requires Drawings(imgs) && i < |imgs| && o < 784
    requires |bs| >= 16 && bs[16..] == Concat(imgs) && |bs| == 16 + Span(|imgs|, 784)
    requires Span(i, 784) + o < |Concat(imgs)| && Concat(imgs)[Span(i, 784) + o] == imgs[i][o]
    ensures |Images(bs, 16, |imgs|, 784)[i]| == 784
    ensures Images(bs, 16, |imgs|, 784)[i][o] == imgs[i][o] as real / 255.0
  {
    ImagesAt(bs, 16, |imgs|, 784, i);
    assert bs[16 + Span(i, 784) + o] == bs[16..][Span(i, 784) + o];
  }
}
