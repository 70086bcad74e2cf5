/**
 The ZIP writer of src-tauri/src/log_files.rs and a reader written from PKWARE APPNOTE.TXT,
 sections 4.3.7 (local file header), 4.3.12 (central directory) and 4.3.16 (end record).

 Deflate and the checksum are parameters; the clock is part of each file.
 */
module Zip {
  import opened Wrappers

  type byte = b: int | 0 <= b < 256

  type Bytes = seq<byte>

  datatype Codec = Codec(deflate: Bytes -> Bytes, inflate: Bytes -> Option<Bytes>, crc: Bytes -> nat)

  datatype Entry = Entry(name: Bytes, data: Bytes)

  datatype File = File(entry: Entry, time: nat, date: nat)

  const TWO_16: nat := 0x1_0000
  const TWO_32: nat := 0x1_0000_0000
  const LOCAL_SIGNATURE: nat := 0x0403_4b50
  const CENTRAL_SIGNATURE: nat := 0x0201_4b50
  const END_SIGNATURE: nat := 0x0605_4b50
  const UTF8_NAMES: nat := 0x0800
  const DEFLATED: nat := 8

  // ---------------------------------------------------------------------------
  // Little-endian fields; a value that does not fit is truncated
  // ---------------------------------------------------------------------------

  function Low(n: nat): byte {
    n % 256
  }

  function Rest(n: nat): nat {
    n / 256
  }

  function U16(n: nat): (r: Bytes)
    ensures |r| == 2
  {
    [Low(n), Low(Rest(n))]
  }

  function U32(n: nat): (r: Bytes)
    ensures |r| == 4
  {
    [Low(n), Low(Rest(n)), Low(Rest(Rest(n))), Low(Rest(Rest(Rest(n))))]
  }

  function Get16(s: Bytes, at: nat): nat
    requires at + 2 <= |s|
  {
    s[at] as int + 256 * (s[at + 1] as int)
  }

  function Get32(s: Bytes, at: nat): nat
    requires at + 4 <= |s|
  {
    s[at] as int + 256 * (s[at + 1] as int + 256 * (s[at + 2] as int + 256 * (s[at + 3] as int)))
  }

  // ---------------------------------------------------------------------------
  // The records the writer appends
  // ---------------------------------------------------------------------------

  function LocalHeader(c: Codec, f: File): (r: Bytes)
    ensures |r| == 30
  {
    U32(LOCAL_SIGNATURE) + U16(20) + U16(UTF8_NAMES) + U16(DEFLATED) + U16(f.time) + U16(f.date)
    + U32(c.crc(f.entry.data)) + U32(|c.deflate(f.entry.data)|) + U32(|f.entry.data|)
    + U16(|f.entry.name|) + U16(0)
  }

  function LocalRecord(c: Codec, f: File): Bytes {
    LocalHeader(c, f) + f.entry.name + c.deflate(f.entry.data)
  }

  function CentralHeader(c: Codec, f: File, offset: nat): (r: Bytes)
    ensures |r| == 46
  {
    U32(CENTRAL_SIGNATURE) + U16(20) + U16(20) + U16(UTF8_NAMES) + U16(DEFLATED) + U16(f.time) + U16(f.date)
    + U32(c.crc(f.entry.data)) + U32(|c.deflate(f.entry.data)|) + U32(|f.entry.data|)
    + U16(|f.entry.name|) + U16(0) + U16(0) + U16(0) + U16(0) + U32(0) + U32(offset)
  }

  function CentralRecord(c: Codec, f: File, offset: nat): Bytes {
    CentralHeader(c, f, offset) + f.entry.name
  }

  function EndRecord(count: nat, centralSize: nat, centralOffset: nat): (r: Bytes)
    ensures |r| == 22
  {
    U32(END_SIGNATURE) + U16(0) + U16(0) + U16(count) + U16(count) + U32(centralSize) + U32(centralOffset) + U16(0)
  }

  // ---------------------------------------------------------------------------
  // The writer
  // ---------------------------------------------------------------------------

  class ZipWriter {
    const codec: Codec
    var out: Bytes
    var central: Bytes
    var count: nat

    constructor (codec: Codec)
      ensures this.codec == codec && out == [] && central == [] && count == 0
    {
      this.codec := codec;
      out, central, count := [], [], 0;
    }

    method Add(file: File)
      modifies this
      ensures out == old(out) + LocalPart(codec)(file)
      ensures central == old(central) + CentralPart(codec)(file, |old(out)|)
      ensures count == (old(count) + 1) % TWO_16
    {
      var compressed := codec.deflate(file.entry.data);
      var crc := codec.crc(file.entry.data);
      var offset := |out|;
      out := out + (LocalHeader(codec, file) + file.entry.name + compressed);
      central := central + (CentralHeader(codec, file, offset) + file.entry.name);
      count := (count + 1) % TWO_16;
    }

    method Finish() returns (archive: Bytes)
      ensures archive == out + central + EndRecord(count, |central|, |out|)
    {
      archive := out;
      archive := archive + central;
      archive := archive + EndRecord(count, |central|, |out|);
    }
  }

  /** The parts of all files one after the other. */
  function Concat(part: File -> Bytes, files: seq<File>): Bytes {
    if files == [] then [] else part(files[0]) + Concat(part, files[1..])
  }

  /** One index entry per file, each with the offset at which the file's part starts. */
  function Index(part: File -> Bytes, entry: (File, nat) -> Bytes, files: seq<File>, offset: nat): Bytes
    decreases |files|
  {
    if files == [] then []
    else entry(files[0], offset) + Index(part, entry, files[1..], offset + |part(files[0])|)
  }

  function LocalPart(c: Codec): File -> Bytes {
    f => LocalRecord(c, f)
  }

  function CentralPart(c: Codec): (File, nat) -> Bytes {
    (f, offset) => CentralRecord(c, f, offset)
  }

  function Locals(c: Codec, files: seq<File>): Bytes {
    Concat(LocalPart(c), files)
  }

  function Centrals(c: Codec, files: seq<File>): Bytes {
    Index(LocalPart(c), CentralPart(c), files, 0)
  }

  function Assembled(locals: Bytes, centrals: Bytes, count: nat): Bytes {
    locals + centrals + EndRecord(count % TWO_16, |centrals|, |locals|)
  }

  function ArchiveOf(part: File -> Bytes, entry: (File, nat) -> Bytes, files: seq<File>): Bytes {
    Assembled(Concat(part, files), Index(part, entry, files, 0), |files|)
  }

  function Archive(c: Codec, files: seq<File>): Bytes {
    ArchiveOf(LocalPart(c), CentralPart(c), files)
  }

  lemma {:induction false} PartsSnoc(part: File -> Bytes, entry: (File, nat) -> Bytes, files: seq<File>, f: File, offset: nat)
    ensures Concat(part, files + [f]) == Concat(part, files) + part(f)
    ensures Index(part, entry, files + [f], offset) ==
            Index(part, entry, files, offset) + entry(f, offset + |Concat(part, files)|)
    decreases |files|
  {
    if files == [] {
      assert [] + [f] == [f] && [f][1..] == [];
    } else {
      assert (files + [f])[1..] == files[1..] + [f];
      PartsSnoc(part, entry, files[1..], f, offset + |part(files[0])|);
      Assoc(part(files[0]), Concat(part, files[1..]), part(f));
      Assoc(entry(files[0], offset), Index(part, entry, files[1..], offset + |part(files[0])|),
            entry(f, offset + |Concat(part, files)|));
    }
  }

  lemma Assoc(a: Bytes, b: Bytes, c: Bytes)
    ensures (a + b) + c == a + (b + c)
  {
  }

  /** The writer's buffers after adding `files` in order. */
  ghost predicate Wrote(c: Codec, files: seq<File>, out: Bytes, central: Bytes, count: nat) {
    && out == Locals(c, files)
    && central == Centrals(c, files)
    && count == |files| % TWO_16
  }

  lemma WroteOneMore(c: Codec, files: seq<File>, f: File, out: Bytes, central: Bytes, count: nat)
    requires Wrote(c, files, out, central, count)
    ensures Wrote(c, files + [f], out + LocalPart(c)(f), central + CentralPart(c)(f, |out|), (count + 1) % TWO_16)
  {
    PartsSnoc(LocalPart(c), CentralPart(c), files, f, 0);
    CountWraps(|files|);
  }

  lemma CountWraps(n: nat)
    ensures (n % TWO_16 + 1) % TWO_16 == (n + 1) % TWO_16
  {
  }

  /** `add` for each file in order, then `finish`. */
  method WriteArchive(c: Codec, files: seq<File>) returns (archive: Bytes)
    ensures archive == Archive(c, files)
  {
    var writer := new ZipWriter(c);
    for i := 0 to |files|
      invariant writer.codec == c && fresh(writer)
      invariant Wrote(c, files[..i], writer.out, writer.central, writer.count)
    {
      WroteOneMore(c, files[..i], files[i], writer.out, writer.central, writer.count);
      writer.Add(files[i]);
      assert files[..i] + [files[i]] == files[..i + 1];
    }
    assert files[..|files|] == files;
    archive := writer.Finish();
  }

  // ---------------------------------------------------------------------------
  // The reader
  // ---------------------------------------------------------------------------

  /** The end record: the last place where its signature stands and its comment reaches the end. */
  function FindEnd(s: Bytes, at: nat): (r: Option<nat>)
    requires at + 22 <= |s|
    ensures r.Some? ==> r.value + 22 <= |s|
  {
    if Get32(s, at) == 0x0605_4b50 && at + 22 + Get16(s, at + 20) == |s| then Some(at)
    else if at == 0 then None
    else FindEnd(s, at - 1)
  }

  /** What both headers of a file say: section 4.4 of the note. */
  datatype Meta = Meta(
    version: nat, flags: nat, packing: nat, time: nat, date: nat, crc: nat, packed: nat, size: nat, nameLength: nat)

  /** It begins 4 bytes into a local header and 6 bytes into a central one. */
  function MetaAt(s: Bytes, at: nat): Meta
    requires at + 24 <= |s|
  {
    Meta(Get16(s, at), Get16(s, at + 2), Get16(s, at + 4), Get16(s, at + 6), Get16(s, at + 8), Get32(s, at + 10),
         Get32(s, at + 14), Get32(s, at + 18), Get16(s, at + 22))
  }

  /** A deflated file with a name in UTF-8, its sizes in the headers, for a reader of version 2.0. */
  predicate IsReadable(m: Meta) {
    m.version <= 20 && m.flags == 0x0800 && m.packing == 8
  }

  /** The file behind a central header that says `m`, read from its local header, which must say the same. */
  function ReadLocal(c: Codec, s: Bytes, at: nat, name: Bytes, m: Meta): Option<File> {
    if at + 30 > |s| || Get32(s, at) != 0x0403_4b50 || MetaAt(s, at + 4) != m || !IsReadable(m) then None
    else
      var start := at + 30 + m.nameLength + Get16(s, at + 28);
      if start + m.packed > |s| || s[at + 30..at + 30 + m.nameLength] != name then None
      else
        match c.inflate(s[start..start + m.packed])
        case None => None
        case Some(data) =>
          if |data| != m.size || c.crc(data) != m.crc then None else Some(File(Entry(name, data), m.time, m.date))
  }

  /** One central header: the file it leads to and the place behind it. */
  function ReadEntry(c: Codec, s: Bytes, at: nat): Option<(File, nat)> {
    if at + 46 > |s| || Get32(s, at) != 0x0201_4b50 then None
    else
      var m := MetaAt(s, at + 6);
      var nameEnd := at + 46 + m.nameLength;
      if nameEnd > |s| then None
      else
        match ReadLocal(c, s, Get32(s, at + 42), s[at + 46..nameEnd], m)
        case None => None
        case Some(file) => Some((file, nameEnd + Get16(s, at + 30) + Get16(s, at + 32)))
  }

  /** `count` headers one after the other, read by `read`. */
  function ReadAll(read: nat -> Option<(File, nat)>, at: nat, count: nat): Option<seq<File>>
    decreases count
  {
    if count == 0 then Some([])
    else
      match read(at)
      case None => None
      case Some(found) =>
        match ReadAll(read, found.1, count - 1)
        case None => None
        case Some(rest) => Some([found.0] + rest)
  }

  function EntryReader(c: Codec, s: Bytes): nat -> Option<(File, nat)> {
    at => ReadEntry(c, s, at)
  }

  function ReadCentral(c: Codec, s: Bytes, at: nat, count: nat): Option<seq<File>> {
    ReadAll(EntryReader(c, s), at, count)
  }

  /** The central directory announced by the end record at `at`. */
  function ReadDirectory(c: Codec, s: Bytes, at: nat, size: nat, offset: nat, count: nat): Option<seq<File>> {
    if offset + size > at then None else ReadCentral(c, s, offset, count)
  }

  /** The entries that the end record at `at` announces, all of them on this disk. */
  function ReadAnnounced(c: Codec, s: Bytes, at: nat): Option<seq<File>>
    requires at + 22 <= |s|
  {
    if Get16(s, at + 4) != 0 || Get16(s, at + 6) != 0 || Get16(s, at + 8) != Get16(s, at + 10) then None
    else ReadDirectory(c, s, at, Get32(s, at + 12), Get32(s, at + 16), Get16(s, at + 10))
  }

  function ReadArchive(c: Codec, s: Bytes): Option<seq<File>> {
    if |s| < 22 then None else ReadFrom(c, s, FindEnd(s, |s| - 22))
  }

  function ReadFrom(c: Codec, s: Bytes, end: Option<nat>): Option<seq<File>>
    requires end.Some? ==> end.value + 22 <= |s|
  {
    if end.None? then None else ReadAnnounced(c, s, end.value)
  }

  // ---------------------------------------------------------------------------
  // Round trip
  // ---------------------------------------------------------------------------

  ghost predicate Lawful(c: Codec) {
    forall data :: c.inflate(c.deflate(data)) == Some(data) && c.crc(data) < TWO_32
  }

  /** Every size of the file fits its field. */
  predicate Fits(c: Codec, f: File) {
    && |f.entry.name| < TWO_16 && |f.entry.data| < TWO_32 && |c.deflate(f.entry.data)| < TWO_32
    && f.time < TWO_16 && f.date < TWO_16
  }

  /** What the headers of a file are to say. */
  function MetaOf(c: Codec, f: File): Meta {
    Meta(20, 0x0800, 8, f.time, f.date, c.crc(f.entry.data), |c.deflate(f.entry.data)|, |f.entry.data|, |f.entry.name|)
  }

  lemma Get16AfterPut(n: nat, s: Bytes, at: nat)
    requires n < TWO_16 && at + 2 <= |s| && s[at..at + 2] == U16(n)
    ensures Get16(s, at) == n
  {
    assert s[at] == s[at..at + 2][0] && s[at + 1] == s[at..at + 2][1];
  }

  lemma Get32AfterPut(n: nat, s: Bytes, at: nat)
    requires n < TWO_32 && at + 4 <= |s| && s[at..at + 4] == U32(n)
    ensures Get32(s, at) == n
  {
    var field := s[at..at + 4];
    assert s[at] == field[0] && s[at + 1] == field[1] && s[at + 2] == field[2] && s[at + 3] == field[3];
    var q := n / 256;
    var r := q / 256;
    assert n == Low(n) + 256 * q && q == Low(q) + 256 * r && r == Low(r) + 256 * (r / 256);
  }

  /** The part of a header that `MetaAt` reads. */
  function MetaBytes(m: Meta): (r: Bytes)
    ensures |r| == 24
  {
    U16(m.version) + U16(m.flags) + U16(m.packing) + U16(m.time) + U16(m.date)
    + U32(m.crc) + U32(m.packed) + U32(m.size) + U16(m.nameLength)
  }

  predicate MetaFits(m: Meta) {
    && m.version < TWO_16 && m.flags < TWO_16 && m.packing < TWO_16 && m.time < TWO_16 && m.date < TWO_16
    && m.crc < TWO_32 && m.packed < TWO_32 && m.size < TWO_32 && m.nameLength < TWO_16
  }

  lemma MetaLayout(m: Meta)
    ensures
      var h := MetaBytes(m);
      && h[0..2] == U16(m.version) && h[2..4] == U16(m.flags) && h[4..6] == U16(m.packing)
      && h[6..8] == U16(m.time) && h[8..10] == U16(m.date)
      && h[10..14] == U32(m.crc) && h[14..18] == U32(m.packed) && h[18..22] == U32(m.size)
      && h[22..24] == U16(m.nameLength)
  {
  }

  lemma MetaReadsBack(m: Meta, s: Bytes, at: nat)
    requires MetaFits(m) && StandsAt(s, at, MetaBytes(m))
    ensures MetaAt(s, at) == m
  {
    var h := MetaBytes(m);
    MetaLayout(m);
    Field16(s, at, h, 0, m.version);
    Field16(s, at, h, 2, m.flags);
    Field16(s, at, h, 4, m.packing);
    Field16(s, at, h, 6, m.time);
    Field16(s, at, h, 8, m.date);
    Field32(s, at, h, 10, m.crc);
    Field32(s, at, h, 14, m.packed);
    Field32(s, at, h, 18, m.size);
    Field16(s, at, h, 22, m.nameLength);
  }

  lemma LocalLayout(c: Codec, f: File)
    ensures
      var h := LocalHeader(c, f);
      && h[0..4] == U32(0x0403_4b50)
      && h[4..28] == MetaBytes(MetaOf(c, f))
      && h[28..30] == U16(0)
  {
  }

  lemma CentralLayout(c: Codec, f: File, offset: nat)
    ensures
      var h := CentralHeader(c, f, offset);
      && h[0..4] == U32(0x0201_4b50)
      && h[6..30] == MetaBytes(MetaOf(c, f))
      && h[30..32] == U16(0)
      && h[32..34] == U16(0)
      && h[42..46] == U32(offset)
  {
  }

  lemma EndLayout(count: nat, centralSize: nat, centralOffset: nat)
    ensures
      var h := EndRecord(count, centralSize, centralOffset);
      && h[0..4] == U32(0x0605_4b50)
      && h[4..6] == U16(0)
      && h[6..8] == U16(0)
      && h[8..10] == U16(count)
      && h[10..12] == U16(count)
      && h[12..16] == U32(centralSize)
      && h[16..20] == U32(centralOffset)
      && h[20..22] == U16(0)
  {
  }

  /** `part` stands in `s` at `at`. */
  predicate StandsAt(s: Bytes, at: nat, part: Bytes) {
    at + |part| <= |s| && s[at..at + |part|] == part
  }

  lemma SliceOfPart(s: Bytes, at: nat, part: Bytes, i: nat, j: nat)
    requires StandsAt(s, at, part) && i <= j <= |part|
    ensures s[at + i..at + j] == part[i..j]
  {
    forall k | 0 <= k < j - i ensures s[at + i..at + j][k] == part[i..j][k] {
      assert s[at + i + k] == s[at..at + |part|][i + k];
    }
  }

  lemma PartsOfPair(s: Bytes, at: nat, a: Bytes, b: Bytes)
    requires StandsAt(s, at, a + b)
    ensures StandsAt(s, at, a) && StandsAt(s, at + |a|, b)
  {
    assert (a + b)[0..|a|] == a;
    assert (a + b)[|a|..|a| + |b|] == b;
    SliceOfPart(s, at, a + b, 0, |a|);
    assert s[at..at + |a|] == s[at + 0..at + |a|];
    SliceOfPart(s, at, a + b, |a|, |a| + |b|);
    assert s[at + |a|..at + |a| + |b|] == s[at + |a|..at + (|a| + |b|)];
  }

  lemma Field16(s: Bytes, at: nat, header: Bytes, i: nat, n: nat)
    requires StandsAt(s, at, header) && i + 2 <= |header| && header[i..i + 2] == U16(n) && n < TWO_16
    ensures Get16(s, at + i) == n
  {
    SliceOfPart(s, at, header, i, i + 2);
    Get16AfterPut(n, s, at + i);
  }

  lemma Field32(s: Bytes, at: nat, header: Bytes, i: nat, n: nat)
    requires StandsAt(s, at, header) && i + 4 <= |header| && header[i..i + 4] == U32(n) && n < TWO_32
    ensures Get32(s, at + i) == n
  {
    SliceOfPart(s, at, header, i, i + 4);
    Get32AfterPut(n, s, at + i);
  }

  lemma FitsMeta(c: Codec, f: File)
    requires Lawful(c) && Fits(c, f)
    ensures MetaFits(MetaOf(c, f)) && IsReadable(MetaOf(c, f))
  {
    assert c.inflate(c.deflate(f.entry.data)) == Some(f.entry.data);
  }

  lemma LocalFields(c: Codec, f: File, s: Bytes, at: nat)
    requires Lawful(c) && Fits(c, f) && StandsAt(s, at, LocalHeader(c, f))
    ensures Get32(s, at) == 0x0403_4b50 && MetaAt(s, at + 4) == MetaOf(c, f) && Get16(s, at + 28) == 0
  {
    var h := LocalHeader(c, f);
    LocalLayout(c, f);
    FitsMeta(c, f);
    Field32(s, at, h, 0, 0x0403_4b50);
    SliceOfPart(s, at, h, 4, 28);
    MetaReadsBack(MetaOf(c, f), s, at + 4);
    Field16(s, at, h, 28, 0);
  }

  lemma CentralFields(c: Codec, f: File, offset: nat, s: Bytes, at: nat)
    requires Lawful(c) && Fits(c, f) && offset < TWO_32 && StandsAt(s, at, CentralHeader(c, f, offset))
    ensures Get32(s, at) == 0x0201_4b50 && MetaAt(s, at + 6) == MetaOf(c, f)
    ensures Get16(s, at + 30) == 0 && Get16(s, at + 32) == 0 && Get32(s, at + 42) == offset
  {
    var h := CentralHeader(c, f, offset);
    CentralLayout(c, f, offset);
    FitsMeta(c, f);
    Field32(s, at, h, 0, 0x0201_4b50);
    SliceOfPart(s, at, h, 6, 30);
    MetaReadsBack(MetaOf(c, f), s, at + 6);
    Field16(s, at, h, 30, 0);
    Field16(s, at, h, 32, 0);
    Field32(s, at, h, 42, offset);
  }

  lemma LocalReadsBack(c: Codec, f: File, s: Bytes, at: nat)
    requires Lawful(c) && Fits(c, f) && StandsAt(s, at, LocalRecord(c, f))
    ensures ReadLocal(c, s, at, f.entry.name, MetaOf(c, f)) == Some(f)
  {
    PartsOfPair(s, at, LocalHeader(c, f) + f.entry.name, c.deflate(f.entry.data));
    PartsOfPair(s, at, LocalHeader(c, f), f.entry.name);
    LocalFields(c, f, s, at);
    FitsMeta(c, f);
  }

  /** The reader finds `f` at `at`, in a record of `size` bytes. */
  predicate LeadsTo(read: nat -> Option<(File, nat)>, at: nat, size: nat, f: File) {
    read(at) == Some((f, at + size))
  }

  lemma OneReadsBack(c: Codec, f: File, s: Bytes, at: nat, offset: nat)
    requires Lawful(c) && Fits(c, f) && offset < TWO_32
    requires StandsAt(s, at, CentralRecord(c, f, offset)) && StandsAt(s, offset, LocalRecord(c, f))
    ensures LeadsTo(EntryReader(c, s), at, |CentralRecord(c, f, offset)|, f)
  {
    LocalReadsBack(c, f, s, offset);
    CentralReadsBack(c, f, s, at, offset);
  }

  lemma CentralReadsBack(c: Codec, f: File, s: Bytes, at: nat, offset: nat)
    requires Lawful(c) && Fits(c, f) && offset < TWO_32 && StandsAt(s, at, CentralRecord(c, f, offset))
    requires ReadLocal(c, s, offset, f.entry.name, MetaOf(c, f)) == Some(f)
    ensures LeadsTo(EntryReader(c, s), at, |CentralRecord(c, f, offset)|, f)
  {
    CentralParts(c, f, s, at, offset);
    EntryFromHeader(c, f, s, at, offset);
    SameSize(EntryReader(c, s), at, 46 + |f.entry.name|, |CentralRecord(c, f, offset)|, f);
  }

  lemma SameSize(read: nat -> Option<(File, nat)>, at: nat, size: nat, other: nat, f: File)
    requires size == other && LeadsTo(read, at, size, f)
    ensures LeadsTo(read, at, other, f)
  {
  }

  lemma EntryFromHeader(c: Codec, f: File, s: Bytes, at: nat, offset: nat)
    requires Lawful(c) && Fits(c, f) && offset < TWO_32 && at + 46 <= |s|
    requires StandsAt(s, at, CentralHeader(c, f, offset)) && StandsAt(s, at + 46, f.entry.name)
    requires ReadLocal(c, s, offset, f.entry.name, MetaOf(c, f)) == Some(f)
    ensures LeadsTo(EntryReader(c, s), at, 46 + |f.entry.name|, f)
  {
    CentralFields(c, f, offset, s, at);
    EntryFromFields(c, f, s, at, offset);
  }

  lemma CentralParts(c: Codec, f: File, s: Bytes, at: nat, offset: nat)
    requires StandsAt(s, at, CentralRecord(c, f, offset))
    ensures |CentralRecord(c, f, offset)| == 46 + |f.entry.name| && at + 46 <= |s|
    ensures StandsAt(s, at, CentralHeader(c, f, offset)) && StandsAt(s, at + 46, f.entry.name)
  {
    PartsOfPair(s, at, CentralHeader(c, f, offset), f.entry.name);
  }

  lemma EntryFromFields(c: Codec, f: File, s: Bytes, at: nat, offset: nat)
    requires at + 46 <= |s| && StandsAt(s, at + 46, f.entry.name)
    requires Get32(s, at) == 0x0201_4b50 && MetaAt(s, at + 6) == MetaOf(c, f)
    requires Get16(s, at + 30) == 0 && Get16(s, at + 32) == 0 && Get32(s, at + 42) == offset
    requires ReadLocal(c, s, offset, f.entry.name, MetaOf(c, f)) == Some(f)
    ensures ReadEntry(c, s, at) == Some((f, at + 46 + |f.entry.name|))
  {
    assert s[at + 46..at + 46 + |f.entry.name|] == f.entry.name;
  }

  /** Every index entry leads to its file, wherever the two stand. */
  ghost predicate EntryLeads(
    read: nat -> Option<(File, nat)>, part: File -> Bytes, entry: (File, nat) -> Bytes, f: File, s: Bytes)
  {
    forall a: nat, o: nat | o < TWO_32 && StandsAt(s, a, entry(f, o)) && StandsAt(s, o, part(f)) ::
      LeadsTo(read, a, |entry(f, o)|, f)
  }

  lemma IndexParts(part: File -> Bytes, entry: (File, nat) -> Bytes, files: seq<File>, s: Bytes, at: nat, offset: nat)
    requires files != []
    requires StandsAt(s, at, Index(part, entry, files, offset)) && StandsAt(s, offset, Concat(part, files))
    ensures
      var p, e := part(files[0]), entry(files[0], offset);
      && StandsAt(s, offset, p) && StandsAt(s, offset + |p|, Concat(part, files[1..]))
      && StandsAt(s, at, e) && StandsAt(s, at + |e|, Index(part, entry, files[1..], offset + |p|))
      && |Concat(part, files)| == |p| + |Concat(part, files[1..])|
  {
    var p, e := part(files[0]), entry(files[0], offset);
    PartsOfPair(s, offset, p, Concat(part, files[1..]));
    PartsOfPair(s, at, e, Index(part, entry, files[1..], offset + |p|));
  }

  lemma {:induction false} IndexReadsBack(
    read: nat -> Option<(File, nat)>, part: File -> Bytes, entry: (File, nat) -> Bytes, files: seq<File>,
    s: Bytes, at: nat, offset: nat)
    requires forall f <- files :: EntryLeads(read, part, entry, f, s)
    requires StandsAt(s, at, Index(part, entry, files, offset)) && StandsAt(s, offset, Concat(part, files))
    requires offset + |Concat(part, files)| < TWO_32
    ensures ReadAll(read, at, |files|) == Some(files)
    decreases |files|
  {
    if files != [] {
      var f := files[0];
      IndexParts(part, entry, files, s, at, offset);
      assert EntryLeads(read, part, entry, f, s);
      assert LeadsTo(read, at, |entry(f, offset)|, f);
      assert files == [f] + files[1..];
      IndexReadsBack(read, part, entry, files[1..], s, at + |entry(f, offset)|, offset + |part(f)|);
    }
  }

  lemma EndReadsBack(s: Bytes, at: nat, count: nat, centralSize: nat, centralOffset: nat)
    requires count < TWO_16 && centralSize < TWO_32 && centralOffset < TWO_32
    requires StandsAt(s, at, EndRecord(count, centralSize, centralOffset)) && at + 22 == |s|
    ensures FindEnd(s, at) == Some(at) && Get16(s, at + 8) == Get16(s, at + 10) == count
    ensures Get16(s, at + 4) == Get16(s, at + 6) == 0
    ensures Get32(s, at + 12) == centralSize && Get32(s, at + 16) == centralOffset
  {
    var end := EndRecord(count, centralSize, centralOffset);
    EndLayout(count, centralSize, centralOffset);
    Field32(s, at, end, 0, 0x0605_4b50);
    Field16(s, at, end, 4, 0);
    Field16(s, at, end, 6, 0);
    Field16(s, at, end, 8, count);
    Field16(s, at, end, 10, count);
    Field32(s, at, end, 12, centralSize);
    Field32(s, at, end, 16, centralOffset);
    Field16(s, at, end, 20, 0);
  }

  lemma DirectoryFound(c: Codec, s: Bytes, end: Option<nat>, at: nat, count: nat, size: nat, offset: nat)
    requires end == Some(at) && at + 22 <= |s|
    requires Get16(s, at + 4) == Get16(s, at + 6) == 0 && Get16(s, at + 8) == Get16(s, at + 10) == count
    requires Get32(s, at + 12) == size && Get32(s, at + 16) == offset
    ensures ReadFrom(c, s, end) == ReadDirectory(c, s, at, size, offset, count)
  {
  }

  lemma PartsReadBack(c: Codec, part: File -> Bytes, entry: (File, nat) -> Bytes, files: seq<File>, s: Bytes, at: nat, count: nat)
    requires forall f <- files :: EntryLeads(EntryReader(c, s), part, entry, f, s)
    requires count == |files| < TWO_16 && |Concat(part, files)| < TWO_32 && |Index(part, entry, files, 0)| < TWO_32
    requires StandsAt(s, 0, Concat(part, files)) && StandsAt(s, |Concat(part, files)|, Index(part, entry, files, 0))
    requires at == |Concat(part, files)| + |Index(part, entry, files, 0)| && at + 22 == |s|
    requires StandsAt(s, at, EndRecord(count, |Index(part, entry, files, 0)|, |Concat(part, files)|))
    ensures ReadArchive(c, s) == Some(files)
  {
    EndFound(c, s, at, count, |Index(part, entry, files, 0)|, |Concat(part, files)|);
    IndexReadsBack(EntryReader(c, s), part, entry, files, s, |Concat(part, files)|, 0);
  }

  lemma ArchiveReadsBack(c: Codec, part: File -> Bytes, entry: (File, nat) -> Bytes, files: seq<File>)
    requires
      var s := ArchiveOf(part, entry, files);
      forall f <- files :: EntryLeads(EntryReader(c, s), part, entry, f, s)
    requires |files| < TWO_16 && |Concat(part, files)| < TWO_32 && |Index(part, entry, files, 0)| < TWO_32
    ensures ReadArchive(c, ArchiveOf(part, entry, files)) == Some(files)
  {
    var locals, centrals := Concat(part, files), Index(part, entry, files, 0);
    AssembledParts(locals, centrals, |files|);
    PartsReadBack(c, part, entry, files, ArchiveOf(part, entry, files), |locals| + |centrals|, |files|);
  }

  lemma AssembledParts(locals: Bytes, centrals: Bytes, count: nat)
    requires count < TWO_16
    ensures
      var s := Assembled(locals, centrals, count);
      && |s| == |locals| + |centrals| + 22
      && StandsAt(s, 0, locals)
      && StandsAt(s, |locals|, centrals)
      && StandsAt(s, |locals| + |centrals|, EndRecord(count, |centrals|, |locals|))
  {
    assert count % TWO_16 == count;
    ThreeParts(locals, centrals, EndRecord(count, |centrals|, |locals|));
  }

  lemma EndFound(c: Codec, s: Bytes, at: nat, count: nat, size: nat, offset: nat)
    requires count < TWO_16 && size < TWO_32 && offset < TWO_32 && offset + size <= at
    requires StandsAt(s, at, EndRecord(count, size, offset)) && at + 22 == |s|
    ensures ReadArchive(c, s) == ReadCentral(c, s, offset, count)
  {
    EndReadsBack(s, at, count, size, offset);
    DirectoryFound(c, s, FindEnd(s, |s| - 22), at, count, size, offset);
    DirectoryFits(c, s, at, size, offset, count);
  }

  lemma DirectoryFits(c: Codec, s: Bytes, at: nat, size: nat, offset: nat, count: nat)
    requires offset + size <= at
    ensures ReadDirectory(c, s, at, size, offset, count) == ReadCentral(c, s, offset, count)
  {
  }

  lemma FileLeads(c: Codec, f: File, s: Bytes)
    requires Lawful(c) && Fits(c, f)
    ensures EntryLeads(EntryReader(c, s), LocalPart(c), CentralPart(c), f, s)
  {
    var part, entry := LocalPart(c), CentralPart(c);
    forall a: nat, o: nat | o < TWO_32 && StandsAt(s, a, entry(f, o)) && StandsAt(s, o, part(f))
      ensures LeadsTo(EntryReader(c, s), a, |entry(f, o)|, f)
    {
      OneReadsBack(c, f, s, a, o);
    }
  }

  /**
   Reading an archive back yields the files in order, with their times, given that inflate inverts deflate and that
   sizes, offsets, name lengths and the count fit their fields.
   */
  lemma RoundTrip(c: Codec, files: seq<File>)
    requires Lawful(c) && (forall f <- files :: Fits(c, f))
    requires |files| < TWO_16 && |Locals(c, files)| < TWO_32 && |Centrals(c, files)| < TWO_32
    ensures ReadArchive(c, Archive(c, files)) == Some(files)
  {
    var part, entry, s := LocalPart(c), CentralPart(c), Archive(c, files);
    forall f <- files ensures EntryLeads(EntryReader(c, s), part, entry, f, s) {
      FileLeads(c, f, s);
    }
    ArchiveReadsBack(c, part, entry, files);
  }

  lemma ThreeParts(a: Bytes, b: Bytes, e: Bytes)
    ensures StandsAt(a + b + e, 0, a) && StandsAt(a + b + e, |a|, b) && StandsAt(a + b + e, |a| + |b|, e)
  {
  }
}
