/**
 * The reader of LOAD segment alignments in an Android shared library, and the
 * files it reads: an ELF header and a program header table laid out by the
 * System V gABI ("ELF Header" and "Program Header"), for both classes and both
 * byte orders.
 */
module ElfAlignment {
  import opened Wrappers
  import opened Bytes

  const PT_LOAD := 1

  datatype ElfError = NotElf | UnsupportedEndianness | UnsupportedClass | Truncated | InvalidEntrySize | NoLoadSegments

  /** Where a class keeps the fields the reader needs, and how wide an address is. */
  datatype Class = Elf32 | Elf64 {
    function Word(): nat { if Elf32? then 4 else 8 }
    function PhoffAt(): nat { if Elf32? then 28 else 32 }
    function PhentsizeAt(): nat { if Elf32? then 42 else 54 }
    function PhnumAt(): nat { if Elf32? then 44 else 56 }
    function AlignAt(): nat { if Elf32? then 28 else 48 }
  }

  function ReadInt(data: seq<byte>, offset: nat, size: nat, e: Endian): Result<nat, ElfError> {
    if offset + size > |data| then Err(Truncated) else Ok(FromBytes(e, data[offset..offset + size]))
  }

  /** The alignments of the LOAD entries among `count` entries starting at `offset`. */
  function Collect(data: seq<byte>, c: Class, e: Endian, offset: nat, size: nat, count: nat): Result<seq<nat>, ElfError>
    decreases count
  {
    if count == 0 then Ok([])
    else match ReadInt(data, offset, 4, e)
      case Err(error) => Err(error)
      case Ok(kind) =>
        if kind != PT_LOAD then Collect(data, c, e, offset + size, size, count - 1)
        else match ReadInt(data, offset + c.AlignAt(), c.Word(), e)
          case Err(error) => Err(error)
          case Ok(align) => Following([align], Collect(data, c, e, offset + size, size, count - 1))
  }

  function Following(xs: seq<nat>, r: Result<seq<nat>, ElfError>): Result<seq<nat>, ElfError> {
    match r
    case Err(error) => Err(error)
    case Ok(more) => Ok(xs + more)
  }

  /** `load_segment_alignments`. */
  method LoadSegmentAlignments(data: seq<byte>) returns (r: Result<seq<nat>, ElfError>)
    ensures r == SegmentAlignments(data)
  {
    if |data| < 16 || data[..4] != [0x7f, 0x45, 0x4c, 0x46] {
      return Err(NotElf);
    }
    var e := Little;
    if data[5] == 2 {
      e := Big;
    } else if data[5] != 1 {
      return Err(UnsupportedEndianness);
    }
    var c := Elf32;
    if data[4] == 2 {
      c := Elf64;
    } else if data[4] != 1 {
      return Err(UnsupportedClass);
    }
    var phoff := ReadInt(data, c.PhoffAt(), c.Word(), e);
    if phoff.Err? { return Err(phoff.error); }
    var size := ReadInt(data, c.PhentsizeAt(), 2, e);
    if size.Err? { return Err(size.error); }
    var count := ReadInt(data, c.PhnumAt(), 2, e);
    if count.Err? { return Err(count.error); }
    if size.value <= c.AlignAt() {
      return Err(InvalidEntrySize);
    }
    r := CollectAlignments(data, c, e, phoff.value, size.value, count.value);
    if r == Ok([]) {
      r := Err(NoLoadSegments);
    }
  }

  /** The loop over the program header table. */
  method CollectAlignments(data: seq<byte>, c: Class, e: Endian, phoff: nat, size: nat, count: nat)
    returns (r: Result<seq<nat>, ElfError>)
    ensures r == Collect(data, c, e, phoff, size, count)
  {
    var alignments: seq<nat> := [];
    ghost var all := Collect(data, c, e, phoff, size, count);
    assert all.Ok? ==> [] + all.value == all.value;
    ghost var at := phoff;
    for index := 0 to count
      invariant at == phoff + index * size
      invariant all == Following(alignments, Collect(data, c, e, at, size, count - index))
    {
      var offset := phoff + index * size;
      at := offset + size;
      assert at == phoff + (index + 1) * size;
      var kind := ReadInt(data, offset, 4, e);
      if kind.Err? { return Err(kind.error); }
      if kind.value == PT_LOAD {
        var align := ReadInt(data, offset + c.AlignAt(), c.Word(), e);
        if align.Err? { return Err(align.error); }
        ghost var more := Collect(data, c, e, at, size, count - index - 1);
        assert more.Ok? ==> alignments + ([align.value] + more.value) == (alignments + [align.value]) + more.value;
        alignments := alignments + [align.value];
      }
    }
    assert alignments + [] == alignments;
    r := Ok(alignments);
  }

  function SegmentAlignments(data: seq<byte>): Result<seq<nat>, ElfError> {
    if |data| < 16 || data[..4] != [0x7f, 0x45, 0x4c, 0x46] then Err(NotElf)
    else if data[5] != 1 && data[5] != 2 then Err(UnsupportedEndianness)
    else if data[4] != 1 && data[4] != 2 then Err(UnsupportedClass)
    else
      var e := if data[5] == 1 then Little else Big;
      var c := if data[4] == 1 then Elf32 else Elf64;
      match (ReadInt(data, c.PhoffAt(), c.Word(), e), ReadInt(data, c.PhentsizeAt(), 2, e), ReadInt(data, c.PhnumAt(), 2, e))
      case (Ok(phoff), Ok(size), Ok(count)) =>
        if size <= c.AlignAt() then Err(InvalidEntrySize)
        else (match Collect(data, c, e, phoff, size, count)
              case Err(error) => Err(error)
              case Ok(alignments) => if alignments == [] then Err(NoLoadSegments) else Ok(alignments))
      case _ => Err(Truncated)
  }

  // ------------------------------------------------------------ files by the gABI

  /** ELFCLASS32 and ELFCLASS64. */
  function Marker(c: Class): byte {
    match c
    case Elf32 => 1
    case Elf64 => 2
  }

  /** The size of an address or offset. */
  function Addr(c: Class): nat {
    match c
    case Elf32 => 4
    case Elf64 => 8
  }

  /** e_type, e_machine, e_version and e_entry. */
  function BeforePhoff(c: Class): nat {
    2 + 2 + 4 + Addr(c)
  }

  /** e_shoff, e_flags and e_ehsize. */
  function BeforePhentsize(c: Class): nat {
    Addr(c) + 4 + 2
  }

  /** e_ident, the fields up to e_phoff, e_phoff, the fields up to e_phentsize, and five half-words. */
  function HeaderSize(c: Class): nat {
    16 + BeforePhoff(c) + Addr(c) + BeforePhentsize(c) + 5 * 2
  }

  /** p_flags, p_offset, p_vaddr, p_paddr, p_filesz and p_memsz; the classes order them differently. */
  function BeforeAlign(c: Class): nat {
    4 + 5 * Addr(c)
  }

  /** p_type, the fields up to p_align, and p_align. */
  function EntrySize(c: Class): nat {
    4 + BeforeAlign(c) + Addr(c)
  }

  /** A program header: its type, the fields between type and alignment, its alignment. */
  datatype ProgramHeader = ProgramHeader(kind: nat, between: seq<byte>, align: nat)

  /**
   * An ELF file: the header fields the reader skips as raw bytes of their size, a
   * gap before the program header table, padding after each entry, and a tail.
   */
  datatype ElfFile = ElfFile(
    class_: Class, endian: Endian, identRest: seq<byte>, beforePhoff: seq<byte>, beforePhentsize: seq<byte>,
    afterPhnum: seq<byte>, gap: seq<byte>, headers: seq<ProgramHeader>, padding: seq<byte>, tail: seq<byte>)

  ghost predicate WellFormed(f: ElfFile) {
    var c := f.class_;
    && |f.identRest| == 10
    && |f.beforePhoff| == BeforePhoff(c) && |f.beforePhentsize| == BeforePhentsize(c) && |f.afterPhnum| == 3 * 2
    && HeaderSize(c) + |f.gap| < Pow256(Addr(c))
    && EntrySize(c) + |f.padding| < 0x1_0000
    && |f.headers| < 0x1_0000
    && forall h :: h in f.headers ==> HeaderFits(c, h)
  }

  predicate HeaderFits(c: Class, h: ProgramHeader) {
    h.kind < 0x1_0000_0000 && |h.between| == BeforeAlign(c) && h.align < Pow256(Addr(c))
  }

  function EntryBytes(f: ElfFile, h: ProgramHeader): seq<byte> {
    ToBytes(f.endian, h.kind, 4) + (h.between + (ToBytes(f.endian, h.align, Addr(f.class_)) + f.padding))
  }

  function TableBytes(f: ElfFile, headers: seq<ProgramHeader>): seq<byte> {
    if headers == [] then f.tail else EntryBytes(f, headers[0]) + TableBytes(f, headers[1..])
  }

  function IdentBytes(f: ElfFile): seq<byte> {
    [0x7f, 0x45, 0x4c, 0x46, Marker(f.class_), if f.endian.Little? then 1 else 2] + f.identRest
  }

  /** Everything before the program header table, which starts at the offset the header gives. */
  function FrontBytes(f: ElfFile): seq<byte> {
    var c, e := f.class_, f.endian;
    IdentBytes(f) + (f.beforePhoff + (ToBytes(e, HeaderSize(c) + |f.gap|, Addr(c)) + (f.beforePhentsize
      + (ToBytes(e, EntrySize(c) + |f.padding|, 2) + (ToBytes(e, |f.headers|, 2) + (f.afterPhnum + f.gap))))))
  }

  function FileBytes(f: ElfFile): seq<byte> {
    FrontBytes(f) + TableBytes(f, f.headers)
  }

  /** The alignments of the LOAD headers, in table order. */
  function LoadAlignments(headers: seq<ProgramHeader>): seq<nat> {
    if headers == [] then []
    else (if headers[0].kind == PT_LOAD then [headers[0].align] else []) + LoadAlignments(headers[1..])
  }

  /** The offsets the reader uses are those of the layout. */
  lemma OffsetsFit(c: Class)
    ensures c.Word() == Addr(c)
    ensures c.PhoffAt() == 16 + BeforePhoff(c)
    ensures c.PhentsizeAt() == c.PhoffAt() + Addr(c) + BeforePhentsize(c) && c.PhnumAt() == c.PhentsizeAt() + 2
    ensures c.AlignAt() == 4 + BeforeAlign(c)
  {
  }

  /** Dropping a known front moves every later offset. */
  lemma SkipFront(front: seq<byte>, rest: seq<byte>, offset: nat, size: nat, e: Endian)
    requires offset >= |front|
    ensures ReadInt(front + rest, offset, size, e) == ReadInt(rest, offset - |front|, size, e)
  {
    if offset + size <= |front + rest| {
      assert (front + rest)[offset..offset + size] == rest[offset - |front|..offset - |front| + size];
    }
  }

  lemma ReadFront(n: nat, size: nat, rest: seq<byte>, e: Endian)
    requires n < Pow256(size)
    ensures ReadInt(ToBytes(e, n, size) + rest, 0, size, e) == Ok(n)
  {
    BytesRoundTrip(e, n, size);
    assert (ToBytes(e, n, size) + rest)[0..size] == ToBytes(e, n, size);
  }

  lemma ReadBehindTwo(a: seq<byte>, b: seq<byte>, n: nat, size: nat, rest: seq<byte>, e: Endian)
    requires n < Pow256(size)
    ensures ReadInt(a + (b + (ToBytes(e, n, size) + rest)), |a| + |b|, size, e) == Ok(n)
  {
    var field := ToBytes(e, n, size) + rest;
    SkipFront(a, b + field, |a| + |b|, size, e);
    SkipFront(b, field, |b|, size, e);
    ReadFront(n, size, rest, e);
  }

  lemma ReadEntry(f: ElfFile, h: ProgramHeader, rest: seq<byte>)
    requires HeaderFits(f.class_, h)
    ensures ReadInt(EntryBytes(f, h) + rest, 0, 4, f.endian) == Ok(h.kind)
    ensures ReadInt(EntryBytes(f, h) + rest, f.class_.AlignAt(), f.class_.Word(), f.endian) == Ok(h.align)
    ensures |EntryBytes(f, h)| == EntrySize(f.class_) + |f.padding|
  {
    OffsetsFit(f.class_);
    FourBytesHold(h.kind);
    var e, w := f.endian, Addr(f.class_);
    var kind, align := ToBytes(e, h.kind, 4), ToBytes(e, h.align, w);
    var afterAlign := f.padding + rest;
    EntryRegroup(kind, h.between, align, f.padding, rest);
    ReadFront(h.kind, 4, h.between + (align + afterAlign), e);
    ReadBehindTwo(kind, h.between, h.align, w, afterAlign, e);
  }

  lemma FourBytesHold(n: nat)
    requires n < 0x1_0000_0000
    ensures n < Pow256(4)
  {
    Pow256Values();
  }

  lemma EntryRegroup(kind: seq<byte>, between: seq<byte>, align: seq<byte>, padding: seq<byte>, rest: seq<byte>)
    ensures (kind + (between + (align + padding))) + rest == kind + (between + (align + (padding + rest)))
  {
  }

  lemma ReadEntryBehind(f: ElfFile, front: seq<byte>, h: ProgramHeader, rest: seq<byte>)
    requires HeaderFits(f.class_, h)
    ensures var data := front + (EntryBytes(f, h) + rest);
            && ReadInt(data, |front|, 4, f.endian) == Ok(h.kind)
            && ReadInt(data, |front| + f.class_.AlignAt(), f.class_.Word(), f.endian) == Ok(h.align)
            && data == (front + EntryBytes(f, h)) + rest
  {
    ReadEntry(f, h, rest);
    SkipFront(front, EntryBytes(f, h) + rest, |front|, 4, f.endian);
    SkipFront(front, EntryBytes(f, h) + rest, |front| + f.class_.AlignAt(), f.class_.Word(), f.endian);
  }

  /** Collecting from a table that sits behind `front` gives the LOAD alignments in order. */
  lemma {:induction false} CollectTable(f: ElfFile, front: seq<byte>, headers: seq<ProgramHeader>)
    requires forall h :: h in headers ==> HeaderFits(f.class_, h)
    ensures Collect(front + TableBytes(f, headers), f.class_, f.endian, |front|, EntrySize(f.class_) + |f.padding|, |headers|)
         == Ok(LoadAlignments(headers))
    decreases |headers|
  {
    if headers != [] {
      var h := headers[0];
      assert h in headers;
      ReadEntryBehind(f, front, h, TableBytes(f, headers[1..]));
      ReadEntry(f, h, []);
      CollectTable(f, front + EntryBytes(f, h), headers[1..]);
      assert [] + LoadAlignments(headers[1..]) == LoadAlignments(headers[1..]);
    }
  }

  lemma ReadWithin(front: seq<byte>, rest: seq<byte>, offset: nat, size: nat, e: Endian)
    requires offset + size <= |front|
    ensures ReadInt(front + rest, offset, size, e) == ReadInt(front, offset, size, e)
  {
    assert (front + rest)[offset..offset + size] == front[offset..offset + size];
  }

  /**
   * For every file built by the gABI layout, of either class and byte order, the
   * reader returns exactly the alignments of its LOAD headers, in order, and
   * reports a file without any.
   */
  lemma ReadsEveryFile(f: ElfFile)
    requires WellFormed(f)
    ensures var loads := LoadAlignments(f.headers);
            SegmentAlignments(FileBytes(f)) == if loads == [] then Err(NoLoadSegments) else Ok(loads)
  {
    var c, e := f.class_, f.endian;
    var front, table := FrontBytes(f), TableBytes(f, f.headers);
    FrontRead(f);
    ReadWithin(front, table, c.PhoffAt(), c.Word(), e);
    ReadWithin(front, table, c.PhentsizeAt(), 2, e);
    ReadWithin(front, table, c.PhnumAt(), 2, e);
    MagicWithin(front, table);
    TableDecides(FileBytes(f), c, e, |front|, EntrySize(c) + |f.padding|, |f.headers|);
    CollectTable(f, front, f.headers);
  }

  lemma MagicWithin(front: seq<byte>, rest: seq<byte>)
    requires |front| >= 16
    ensures (front + rest)[..4] == front[..4] && (front + rest)[4] == front[4] && (front + rest)[5] == front[5]
  {
  }

  /** Once the header is read, the table decides. */
  lemma TableDecides(data: seq<byte>, c: Class, e: Endian, phoff: nat, size: nat, count: nat)
    requires |data| >= 16 && size > c.AlignAt()
    requires data[..4] == [0x7f, 0x45, 0x4c, 0x46] && data[4] == Marker(c) && data[5] == (if e.Little? then 1 else 2)
    requires ReadInt(data, c.PhoffAt(), c.Word(), e) == Ok(phoff)
    requires ReadInt(data, c.PhentsizeAt(), 2, e) == Ok(size)
    requires ReadInt(data, c.PhnumAt(), 2, e) == Ok(count)
    ensures var r := Collect(data, c, e, phoff, size, count);
            SegmentAlignments(data) == if r == Ok([]) then Err(NoLoadSegments) else r
  {
  }

  /** The front holds the magic, the markers and the three fields where the reader looks. */
  lemma FrontRead(f: ElfFile)
    requires WellFormed(f)
    ensures var front, c, e := FrontBytes(f), f.class_, f.endian;
            && |front| == HeaderSize(c) + |f.gap|
            && front[..4] == [0x7f, 0x45, 0x4c, 0x46] && front[4] == Marker(c) && front[5] == (if e.Little? then 1 else 2)
            && ReadInt(front, c.PhoffAt(), c.Word(), e) == Ok(HeaderSize(c) + |f.gap|)
            && ReadInt(front, c.PhentsizeAt(), 2, e) == Ok(EntrySize(c) + |f.padding|)
            && ReadInt(front, c.PhnumAt(), 2, e) == Ok(|f.headers|)
  {
    var c, e := f.class_, f.endian;
    var rest5 := f.afterPhnum + f.gap;
    var rest4 := ToBytes(e, |f.headers|, 2) + rest5;
    var rest3 := ToBytes(e, EntrySize(c) + |f.padding|, 2) + rest4;
    var rest2 := f.beforePhentsize + rest3;
    var rest1 := ToBytes(e, HeaderSize(c) + |f.gap|, c.Word()) + rest2;
    HeaderFieldsRead(f, FrontBytes(f), f.beforePhoff + rest1, rest1, rest2, rest3, rest4, rest5);
  }

  lemma HeaderFieldsRead(f: ElfFile, data: seq<byte>, rest0: seq<byte>, rest1: seq<byte>, rest2: seq<byte>,
                         rest3: seq<byte>, rest4: seq<byte>, rest5: seq<byte>)
    requires WellFormed(f)
    requires data == IdentBytes(f) + rest0 && rest0 == f.beforePhoff + rest1
    requires rest1 == ToBytes(f.endian, HeaderSize(f.class_) + |f.gap|, f.class_.Word()) + rest2
    requires rest2 == f.beforePhentsize + rest3
    requires rest3 == ToBytes(f.endian, EntrySize(f.class_) + |f.padding|, 2) + rest4
    requires rest4 == ToBytes(f.endian, |f.headers|, 2) + rest5
    ensures ReadInt(data, f.class_.PhoffAt(), f.class_.Word(), f.endian) == Ok(HeaderSize(f.class_) + |f.gap|)
    ensures ReadInt(data, f.class_.PhentsizeAt(), 2, f.endian) == Ok(EntrySize(f.class_) + |f.padding|)
    ensures ReadInt(data, f.class_.PhnumAt(), 2, f.endian) == Ok(|f.headers|)
  {
    PhoffRead(f, data, rest0, rest1, rest2);
    var c, e := f.class_, f.endian;
    SkipTo(f, data, rest0, rest1, rest2, rest3, c.PhentsizeAt());
    SkipTo(f, data, rest0, rest1, rest2, rest3, c.PhnumAt());
    CountsRead(f, rest3, rest4, rest5);
  }

  lemma PhoffRead(f: ElfFile, data: seq<byte>, rest0: seq<byte>, rest1: seq<byte>, rest2: seq<byte>)
    requires WellFormed(f)
    requires data == IdentBytes(f) + rest0 && rest0 == f.beforePhoff + rest1
    requires rest1 == ToBytes(f.endian, HeaderSize(f.class_) + |f.gap|, f.class_.Word()) + rest2
    ensures ReadInt(data, f.class_.PhoffAt(), f.class_.Word(), f.endian) == Ok(HeaderSize(f.class_) + |f.gap|)
  {
    OffsetsFit(f.class_);
    ReadBehindTwo(IdentBytes(f), f.beforePhoff, HeaderSize(f.class_) + |f.gap|, Addr(f.class_), rest2, f.endian);
  }

  lemma CountsRead(f: ElfFile, rest3: seq<byte>, rest4: seq<byte>, rest5: seq<byte>)
    requires WellFormed(f)
    requires rest3 == ToBytes(f.endian, EntrySize(f.class_) + |f.padding|, 2) + rest4
    requires rest4 == ToBytes(f.endian, |f.headers|, 2) + rest5
    ensures ReadInt(rest3, 0, 2, f.endian) == Ok(EntrySize(f.class_) + |f.padding|)
    ensures ReadInt(rest3, 2, 2, f.endian) == Ok(|f.headers|)
  {
    Pow256Values();
    var size := EntrySize(f.class_) + |f.padding|;
    ReadFront(size, 2, rest4, f.endian);
    SkipFront(ToBytes(f.endian, size, 2), rest4, 2, 2, f.endian);
    ReadFront(|f.headers|, 2, rest5, f.endian);
  }

  lemma SkipTo(f: ElfFile, data: seq<byte>, rest0: seq<byte>, rest1: seq<byte>, rest2: seq<byte>, rest3: seq<byte>, at: nat)
    requires WellFormed(f)
    requires data == IdentBytes(f) + rest0 && rest0 == f.beforePhoff + rest1
    requires rest1 == ToBytes(f.endian, HeaderSize(f.class_) + |f.gap|, f.class_.Word()) + rest2
    requires rest2 == f.beforePhentsize + rest3
    requires at >= f.class_.PhentsizeAt()
    ensures ReadInt(data, at, 2, f.endian) == ReadInt(rest3, at - f.class_.PhentsizeAt(), 2, f.endian)
  {
    var c, e := f.class_, f.endian;
    SkipFront(IdentBytes(f), rest0, at, 2, e);
    SkipFront(f.beforePhoff, rest1, at - 16, 2, e);
    SkipFront(ToBytes(e, HeaderSize(c) + |f.gap|, c.Word()), rest2, at - c.PhoffAt(), 2, e);
    SkipFront(f.beforePhentsize, rest3, at - c.PhoffAt() - c.Word(), 2, e);
  }
}
