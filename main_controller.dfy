/** The drawing window's own writer of user drawings: a 28x28 grid of pixels
    and two IDX files, one of images and one of labels, each kept as a byte
    buffer standing in for the file on disk. Its headers and its counter
    update differ from UserData's: the first dimension is a single byte, and
    the incremented count is written after the count instead of over it. */
module MainControllerFiles {
  import opened Outcomes
  import opened Idx
  import opened MnistDataReader
  import opened UserDataFiles

  /** setupImageFile: magic 0x00000803, then `write(0)`, which writes the
      single byte 0, then 28 and 28 as four-byte ints: 13 bytes in all. */
  const MainImageHeader: seq<byte> := [0, 0, 8, 3, 0, 0, 0, 0, 0x1C, 0, 0, 0, 0x1C]

  /** setupLabelFile: magic 0x00000801, a single 0 byte, then a zero int:
      9 bytes in all. */
  const MainLabelHeader: seq<byte> := [0, 0, 8, 1, 0, 0, 0, 0, 0]

  /** incrementFirstDimensionInFile: seek(4), then writeInt(readInt() + 1).
      The read leaves the file pointer at 8, so the new count is written over
      bytes 8..11 (extending a shorter file) and the count at 4..7 is left as
      it was; a file shorter than 8 bytes fails the read and is not written. */
  function MainIncremented(bs: seq<byte>): (r: seq<byte>)
  {
    if |bs| < 8 then bs else Overwrite(bs, 8, IntToBytes(Wrap32(IntAt(bs, 4) + 1)))
  }

  /** What MainIncremented does to a file: the first eight bytes, and so the
      count, stay; bytes 8..11 become the count plus one; the file grows to at
      least 12 bytes. */
  lemma MainIncrementedMeaning(bs: seq<byte>)
    ensures |bs| < 8 ==> MainIncremented(bs) == bs
    ensures |bs| >= 8 ==> var r := MainIncremented(bs);
      |r| == Max(|bs|, 12) && r[..8] == bs[..8] && IntAt(r, 4) == IntAt(bs, 4) &&
      IntAt(r, 8) == Wrap32(IntAt(bs, 4) + 1) && (|bs| > 12 ==> r[12..] == bs[12..])
  {
    if |bs| >= 8 {
      var r := MainIncremented(bs);
      var v := Wrap32(IntAt(bs, 4) + 1);
      assert r[8..12] == IntToBytes(v);
      ReadIntToBytes(v);
      IntAtSlice(r, 8);
      assert r[..8] == bs[..8];
      IntAtSlice(r, 4);
      IntAtSlice(bs, 4);
      assert r[4..8] == bs[4..8];
      if |bs| > 12 {
        assert r[12..] == bs[12..];
      }
    }
  }

  /** The drawing window's controller: the pixels drawn so far and the two
      files it appends to. */
  class MainController {
    /** int[28][28] pixels, indexed [x][y]. */
    var pixels: seq<seq<int>>
    const imagesFilename: string
    const labelsFilename: string
    const images: ByteFile
    const labels: ByteFile

    ghost predicate Valid()
      reads this, images, labels
    {
      images != labels && images.Valid() && labels.Valid() &&
      |pixels| == 28 && forall x :: 0 <= x < 28 ==> |pixels[x]| == 28
    }

    /** A new controller: a blank grid and the two fixed file names; the
        files are whatever is on disk under those names. */
    constructor (images: ByteFile, labels: ByteFile)
      requires images != labels && images.Valid() && labels.Valid()
      ensures Valid() && this.images == images && this.labels == labels
      ensures pixels == seq(28, x => seq(28, y => 0))
      ensures imagesFilename == "user-images.idx3-ubyte" && labelsFilename == "user-labels.idx1-ubyte"
    {
      pixels := seq(28, x => seq(28, y => 0));
      imagesFilename := "user-images.idx3-ubyte";
      labelsFilename := "user-labels.idx1-ubyte";
      this.images := images;
      this.labels := labels;
    }

    /** setupFiles: each file that does not exist yet gets its header; an
        existing file is left alone. */
    method SetupFiles()
      requires Valid()
      modifies images, labels
      ensures Valid() && images.present && labels.present
      ensures images.bytes == if old(images.present) then old(images.bytes) else MainImageHeader
      ensures labels.bytes == if old(labels.present) then old(labels.bytes) else MainLabelHeader
    {
      if !images.present {
        SetupImageFile();
      }
      if !labels.present {
        SetupLabelFile();
      }
    }

    /** setupImageFile: the image file is created or truncated and gets the
        13-byte header. */
    method SetupImageFile()
      requires Valid()
      modifies images
      ensures Valid() && images.present && images.bytes == MainImageHeader
    {
      images.Create(MainImageHeader);
    }

    /** setupLabelFile: the label file is created or truncated and gets the
        9-byte header. */
    method SetupLabelFile()
      requires Valid()
      modifies labels
      ensures Valid() && labels.present && labels.bytes == MainLabelHeader
    {
      labels.Create(MainLabelHeader);
    }

    /** incrementFirstDimensionInFile on one of the two files; opening it in
        "rw" mode creates it when missing. */
    method IncrementFirstDimensionInFile(file: ByteFile)
      requires Valid() && (file == images || file == labels)
      modifies file
      ensures Valid() && file.present && file.bytes == MainIncremented(old(file.bytes))
    {
      var raf := new RandomAccessFile(file);
      raf.Seek(4);
      var count := raf.ReadInt();
      if count.Ok? {
        raf.WriteInt(Wrap32(count.value as int + 1));
      }
    }

    /** addToFile: increment, then append the data. */
    method AddToFile(file: ByteFile, data: seq<byte>)
      requires Valid() && (file == images || file == labels)
      modifies file
      ensures Valid() && file.present && file.bytes == MainIncremented(old(file.bytes)) + data
    {
      IncrementFirstDimensionInFile(file);
      file.Append(data);
    }

    /** appendUserDatapoint with the number typed in (already parsed): the
        drawing goes to the image file, the low byte of the number to the
        label file, each through addToFile. */
    method AppendUserDatapoint(number: int32)
      requires Valid()
      modifies images, labels
      ensures Valid() && images.present && labels.present && pixels == old(pixels)
      ensures images.bytes == MainIncremented(old(images.bytes)) + PixelBytes(pixels)
      ensures labels.bytes == MainIncremented(old(labels.bytes)) + [LowByte(number as int)]
    {
      var imageData := PixelsToByteArray(pixels);
      AddToFile(images, imageData);
      AddToFile(labels, [LowByte(number as int)]);
    }
  }

  /** A file after setup and then addToFile of each entry in turn. */
  function ControllerFile(header: seq<byte>, entries: seq<seq<byte>>): seq<byte>
  {
    if |entries| == 0 then header
    else MainIncremented(ControllerFile(header, entries[..|entries| - 1])) + entries[|entries| - 1]
  }

  /** However many entries are added, the first eight bytes of the file are
      the header's, so the count the readers see never moves. */
  lemma {:induction false} ControllerFileHeader(header: seq<byte>, entries: seq<seq<byte>>)
    requires |header| >= 8
    ensures |ControllerFile(header, entries)| >= |header|
    ensures ControllerFile(header, entries)[..8] == header[..8]
    ensures entries != [] ==> |ControllerFile(header, entries)| >= 12 + |entries[|entries| - 1]|
  {
    if |entries| > 0 {
      var prev := entries[..|entries| - 1];
      ControllerFileHeader(header, prev);
      var before := ControllerFile(header, prev);
      MainIncrementedMeaning(before);
      assert ControllerFile(header, entries) == MainIncremented(before) + entries[|entries| - 1];
    }
  }

  /** The count at bytes 4..7 of a file whose first eight bytes are those of
      one of the two headers is 0. */
  lemma CountIsZero(bs: seq<byte>, header: seq<byte>)
    requires |bs| >= 8 && |header| >= 8 && bs[..8] == header[..8] && header[4..8] == [0, 0, 0, 0]
    ensures IntAt(bs, 4) == 0
  {
    IntAtSlice(bs, 4);
    assert bs[4..8] == bs[..8][4..] == header[4..8];
  }

  /** As written, the image file read back holds no drawings however many
      were appended, and the freshly set-up 13-byte file is too short for the
      reader's 16-byte header. */
  lemma ControllerImagesLost(imgs: seq<seq<byte>>)
    ensures ImageData(ControllerFile(MainImageHeader, [])) == Err(EndOfFile)
    ensures imgs != [] && Drawings(imgs) ==> ImageData(ControllerFile(MainImageHeader, imgs)) == Ok([])
  {
    if imgs != [] && Drawings(imgs) {
      var bs := ControllerFile(MainImageHeader, imgs);
      ControllerFileHeader(MainImageHeader, imgs);
      CountIsZero(bs, MainImageHeader);
    }
  }

  /** As written, the label file read back holds no labels however many were
      appended. */
  lemma ControllerLabelsLost(ls: seq<seq<byte>>)
    ensures LabelData(ControllerFile(MainLabelHeader, ls)) == Ok([])
  {
    var bs := ControllerFile(MainLabelHeader, ls);
    ControllerFileHeader(MainLabelHeader, ls);
    CountIsZero(bs, MainLabelHeader);
    assert LabelScan(bs[8..], 0, 0) == Ok(());
    assert LabelData(bs).Ok? && |LabelData(bs).value| == 0;
  }
}
