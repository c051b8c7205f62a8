/** The length-prefixed build stream and git object ids (senecio_polymarket/backend/artifact_identity.py). */
module ArtifactIdentity {
  import opened Prelude

  type Bytes = seq<byte>

  // ---- The build stream ----

  datatype BuildFile = BuildFile(path: Bytes, data: Bytes)

  function Power(n: nat): nat { if n == 0 then 1 else 256 * Power(n - 1) }

  /** `n.to_bytes(width, "big")`; it overflows from 256 to the power of the width on. */
  function BigEndian(n: nat, width: nat): (r: Bytes)
    ensures |r| == width
  {
    if width == 0 then [] else BigEndian(n / 256, width - 1) + [(n % 256) as byte]
  }

  function FromBigEndian(s: Bytes): nat {
    if s == [] then 0 else 256 * FromBigEndian(s[..|s| - 1]) + s[|s| - 1] as nat
  }

  lemma {:induction false} BigEndianReadsBack(n: nat, width: nat)
    requires n < Power(width)
    ensures FromBigEndian(BigEndian(n, width)) == n
  {
    if width > 0 {
      assert n / 256 < Power(width - 1);
      BigEndianReadsBack(n / 256, width - 1);
      var r := BigEndian(n, width);
      assert r[..|r| - 1] == BigEndian(n / 256, width - 1);
    }
  }

  const PATH_WIDTH := 4
  const DATA_WIDTH := 8

  predicate Fits(f: BuildFile) { |f.path| < Power(PATH_WIDTH) && |f.data| < Power(DATA_WIDTH) }

  /** A path fits in four bytes of length and contents in eight. */
  lemma FitsIff(f: BuildFile)
    ensures Fits(f) <==> |f.path| < 0x1_0000_0000 && |f.data| < 0x1_0000_0000_0000_0000
  {
    assert Power(2) == 0x1_0000 && Power(3) == 0x100_0000;
    assert Power(5) == 0x100_0000_0000 && Power(6) == 0x1_0000_0000_0000 && Power(7) == 0x100_0000_0000_0000;
  }

  function Chunk(f: BuildFile): Bytes {
    BigEndian(|f.path|, PATH_WIDTH) + f.path + BigEndian(|f.data|, DATA_WIDTH) + f.data
  }

  /** What the digest is fed; None where a length prefix overflows. */
  function Stream(files: seq<BuildFile>): Option<Bytes> {
    if files == [] then Some([])
    else match Stream(files[..|files| - 1])
      case None => None
      case Some(s) => if Fits(files[|files| - 1]) then Some(s + Chunk(files[|files| - 1])) else None
  }

  /** A counted string and what follows it. */
  function Counted(s: Bytes, width: nat): Option<(Bytes, Bytes)> {
    if |s| < width then None
    else
      var n := FromBigEndian(s[..width]);
      if |s| < width + n then None else Some((s[width..width + n], s[width + n..]))
  }

  /** Reading the stream back. */
  function Parse(s: Bytes): Option<seq<BuildFile>>
    decreases |s|
  {
    if s == [] then Some([])
    else match Counted(s, PATH_WIDTH)
      case None => None
      case Some((path, afterPath)) =>
        match Counted(afterPath, DATA_WIDTH)
        case None => None
        case Some((data, rest)) =>
          if |rest| >= |s| then None
          else match Parse(rest)
            case None => None
            case Some(files) => Some([BuildFile(path, data)] + files)
  }

  lemma CountedReadsBack(x: Bytes, width: nat, rest: Bytes)
    requires |x| < Power(width)
    ensures Counted(BigEndian(|x|, width) + x + rest, width) == Some((x, rest))
  {
    BigEndianReadsBack(|x|, width);
    var s := BigEndian(|x|, width) + x + rest;
    assert s[..width] == BigEndian(|x|, width);
    assert s[width..width + |x|] == x && s[width + |x|..] == rest;
  }

  /** A chunk is the length of the path in four bytes, the path, the length of the contents in eight and the contents, the
      highest byte of a length first. */
  lemma ChunkParts(f: BuildFile)
    requires Fits(f)
    ensures var c, p, d := Chunk(f), |f.path|, |f.data|;
            && |c| == 4 + p + 8 + d && c[4..4 + p] == f.path && c[12 + p..] == f.data
            && p == FromBigEndian(c[..4]) && d == FromBigEndian(c[4 + p..12 + p])
  {
    var c, p := Chunk(f), |f.path|;
    BigEndianReadsBack(|f.path|, PATH_WIDTH);
    BigEndianReadsBack(|f.data|, DATA_WIDTH);
    assert c[..4] == BigEndian(|f.path|, PATH_WIDTH) && c[4 + p..12 + p] == BigEndian(|f.data|, DATA_WIDTH);
  }

  /** Each byte counts 256 times the one behind it. */
  lemma HighestFirst(s: Bytes, b: byte)
    ensures FromBigEndian([b]) == b as nat && FromBigEndian(s + [b]) == 256 * FromBigEndian(s) + b as nat
  {
    assert (s + [b])[..|s|] == s && [b][..0] == [];
  }

  function Chunks(files: seq<BuildFile>): Bytes { if files == [] then [] else Chunk(files[0]) + Chunks(files[1..]) }

  lemma {:induction false} ChunksSnoc(files: seq<BuildFile>, f: BuildFile)
    ensures Chunks(files + [f]) == Chunks(files) + Chunk(f)
  {
    hide Chunk;
    if files == [] {
      assert [] + [f] == [f] && [f][1..] == [];
    } else {
      assert (files + [f])[1..] == files[1..] + [f];
      ChunksSnoc(files[1..], f);
    }
  }

  lemma {:induction false} StreamIsChunks(files: seq<BuildFile>)
    ensures Stream(files).Some? <==> forall f <- files :: Fits(f)
    ensures Stream(files).Some? ==> Stream(files).value == Chunks(files)
  {
    hide Chunk, Fits;
    if files != [] {
      var init, last := files[..|files| - 1], files[|files| - 1];
      StreamIsChunks(init);
      ChunksSnoc(init, last);
      assert files == init + [last];
    }
  }

  lemma NothingParses()
    ensures Parse([]) == Some([])
  {
  }

  lemma ChunkReadsBack(f: BuildFile, rest: Bytes, files: seq<BuildFile>)
    requires Fits(f) && Parse(rest) == Some(files)
    ensures Parse(Chunk(f) + rest) == Some([f] + files)
  {
    hide Power, BigEndian, FromBigEndian, Counted;
    var afterPath := BigEndian(|f.data|, DATA_WIDTH) + f.data + rest;
    var s := BigEndian(|f.path|, PATH_WIDTH) + f.path + afterPath;
    assert Chunk(f) + rest == s;
    CountedReadsBack(f.path, PATH_WIDTH, afterPath);
    CountedReadsBack(f.data, DATA_WIDTH, rest);
    assert s != [] && |rest| < |s|;
  }

  lemma {:induction false} ChunksReadBack(files: seq<BuildFile>)
    requires forall f <- files :: Fits(f)
    ensures Parse(Chunks(files)) == Some(files)
  {
    hide Chunk, Fits, Parse;
    NothingParses();
    if files != [] {
      var f, rest := files[0], Chunks(files[1..]);
      assert f in files && forall g <- files[1..] :: g in files;
      ChunksReadBack(files[1..]);
      ChunkReadsBack(f, rest, files[1..]);
      assert [f] + files[1..] == files;
    }
  }

  /** The stream decodes to exactly the files it was built from, in order, so different builds feed different streams. */
  lemma StreamDecodes(files: seq<BuildFile>)
    requires Stream(files).Some?
    ensures Parse(Stream(files).value) == Some(files)
  {
    StreamIsChunks(files);
    ChunksReadBack(files);
  }

  lemma StreamsDiffer(a: seq<BuildFile>, b: seq<BuildFile>)
    requires Stream(a).Some? && Stream(a) == Stream(b)
    ensures a == b
  {
    StreamDecodes(a);
    StreamDecodes(b);
  }

  /** `canonical_build_digest`, up to the hash it feeds. */
  method FeedDigest(files: seq<BuildFile>) returns (fed: Option<Bytes>)
    ensures fed == Stream(files)
  {
    hide Chunk, Fits;
    var s, i := [], 0;
    while i < |files|
      invariant i <= |files| && Stream(files[..i]) == Some(s)
    {
      assert files[..i + 1][..i] == files[..i];
      if !Fits(files[i]) {
        StreamIsChunks(files);
        return None;
      }
      s := s + Chunk(files[i]);
      i := i + 1;
    }
    assert files[..|files|] == files;
    return Some(s);
  }
}
