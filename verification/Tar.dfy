/**
 The hand-written tar archive of the promotion bundle.

 The writer side follows `tarHeader` and `createTarGz`; the reader side is an
 independent reader of the "ustar Interchange Format" section of the POSIX `pax`
 utility (IEEE Std 1003.1), restricted to regular files.
 */
module Tar {
  import opened Wrappers

  datatype File = File(name: seq<Byte>, body: seq<Byte>)

  datatype TarError = NameTooLong(name: seq<Byte>)

  const BLOCK: nat := 512
  const SIZE_LIMIT: nat := 0x2_0000_0000  // 8^11
  const ZERO: Byte := 48    // '0'
  const SPACE: Byte := 0x20

  function Zeros(n: nat): (z: seq<Byte>)
    ensures |z| == n && forall i :: 0 <= i < n ==> z[i] == 0
  {
    seq(n, _ => 0)
  }

  // ---------------------------------------------------------------- octal numbers

  function Pow8(k: nat): (p: nat)
    ensures p > 0
  {
    if k == 0 then 1 else 8 * Pow8(k - 1)
  }

  /** `n.toString(8)` */
  function Octal(n: nat): (s: seq<Byte>)
    ensures |s| > 0
  {
    if n < 8 then [ZERO + n] else Octal(n / 8) + [ZERO + n % 8]
  }

  /** `s.padStart(width, '0')` */
  function PadStart(s: seq<Byte>, width: nat): (r: seq<Byte>)
  {
    if |s| >= width then s else seq(width - |s|, _ => ZERO) + s
  }

  predicate IsOctalDigits(s: seq<Byte>) {
    forall i :: 0 <= i < |s| ==> ZERO <= s[i] < ZERO + 8
  }

  function OctalValue(s: seq<Byte>): (n: nat)
    requires IsOctalDigits(s)
  {
    if s == [] then 0 else 8 * OctalValue(s[..|s| - 1]) + (s[|s| - 1] - ZERO)
  }

  lemma {:induction false} OctalRoundTrip(n: nat)
    ensures IsOctalDigits(Octal(n)) && OctalValue(Octal(n)) == n
  {
    if n >= 8 {
      OctalRoundTrip(n / 8);
      assert Octal(n)[..|Octal(n)| - 1] == Octal(n / 8);
    } else {
      assert Octal(n)[..0] == [];
    }
  }

  /** A number has at most `k` octal digits exactly when it is below 8^k. */
  lemma {:induction false} OctalLength(n: nat, k: nat)
    requires k > 0
    ensures |Octal(n)| <= k <==> n < Pow8(k)
  {
    assert Pow8(1) == 8;
    if n >= 8 {
      if k > 1 {
        OctalLength(n / 8, k - 1);
      } 
    } else {
      PowGrows(k);
    }
  }

  lemma {:induction false} PowGrows(k: nat)
    requires k > 0
    ensures Pow8(k) >= 8
  {
    if k > 1 { PowGrows(k - 1); }
  }

  lemma {:induction false} PaddedValue(s: seq<Byte>, width: nat)
    requires IsOctalDigits(s)
    ensures IsOctalDigits(PadStart(s, width))
    ensures OctalValue(PadStart(s, width)) == OctalValue(s)
  {
    var z := if |s| >= width then [] else seq(width - |s|, _ => ZERO);
    assert PadStart(s, width) == z + s;
    LeadingZeros(z, s);
  }

  lemma {:induction false} LeadingZeros(z: seq<Byte>, s: seq<Byte>)
    requires forall i :: 0 <= i < |z| ==> z[i] == ZERO
    requires IsOctalDigits(s)
    ensures IsOctalDigits(z + s) && OctalValue(z + s) == OctalValue(s)
    decreases |z| + |s|
  {
    if s != [] {
      LeadingZeros(z, s[..|s| - 1]);
      assert (z + s)[..|z + s| - 1] == z + s[..|s| - 1];
    } else if z != [] {
      LeadingZeros(z[..|z| - 1], []);
      assert z + [] == z && z[..|z| - 1] + [] == z[..|z| - 1];
    } else {
      assert z + s == [];
    }
  }

  // ---------------------------------------------------------------- header layout

  const MODE: seq<Byte> := [48, 48, 48, 48, 54, 52, 52, 0]                    // '0000644\0'
  const OWNER: seq<Byte> := [48, 48, 48, 48, 48, 48, 48, 0]                   // '0000000\0'
  const MTIME: seq<Byte> := [48, 48, 48, 48, 48, 48, 48, 48, 48, 48, 48, 0]   // '00000000000\0'
  const BLANKS: seq<Byte> := [32, 32, 32, 32, 32, 32, 32, 32]
  const MAGIC: seq<Byte> := [117, 115, 116, 97, 114, 0]                       // 'ustar\0'
  const VERSION: seq<Byte> := [48, 48]                                        // '00'

  /** What `buffer.write(text, offset, length)` leaves in a zeroed field of `width` bytes. */
  function Field(text: seq<Byte>, width: nat): (f: seq<Byte>)
    ensures |f| == width
  {
    var n := if |text| < width then |text| else width;
    text[..n] + Zeros(width - n)
  }

  function SizeField(size: nat): (f: seq<Byte>)
    ensures |f| == 12
  {
    Field(PadStart(Octal(size), 11) + [0], 12)
  }

  function HeaderFront(name: seq<Byte>, size: nat): (f: seq<Byte>)
    ensures |f| == 148
  {
    Field(name, 100) + MODE + OWNER + OWNER + SizeField(size) + MTIME
  }

  function HeaderBack(): (b: seq<Byte>)
    ensures |b| == 356
  {
    [ZERO] + Zeros(100) + MAGIC + VERSION + Zeros(247)
  }

  function Sum(bytes: seq<Byte>): (s: nat)
  {
    if bytes == [] then 0 else Sum(bytes[..|bytes| - 1]) + bytes[|bytes| - 1]
  }

  function ChecksumField(sum: nat): (f: seq<Byte>)
    ensures |f| == 8
  {
    Field(PadStart(Octal(sum), 6) + [0, SPACE], 8)
  }

  function Header(name: seq<Byte>, size: nat): (h: seq<Byte>)
    ensures |h| == BLOCK
  {
    var front, back := HeaderFront(name, size), HeaderBack();
    front + ChecksumField(Sum(front + BLANKS + back)) + back
  }

  /** `header.write(text, offset, length)` on a buffer. */
  method WriteAt(buffer: array<Byte>, text: seq<Byte>, offset: nat, length: nat)
    requires offset + length <= buffer.Length
    modifies buffer
    ensures forall i :: 0 <= i < buffer.Length ==>
      buffer[i] == if offset <= i < offset + length && i - offset < |text|
                   then text[i - offset] else old(buffer[i])
  {
    var n := if |text| < length then |text| else length;
    for k := 0 to n
      invariant forall i :: 0 <= i < buffer.Length ==>
        buffer[i] == if offset <= i < offset + k then text[i - offset] else old(buffer[i])
    {
      buffer[offset + k] := text[k];
    }
  }

  method SumBuffer(buffer: array<Byte>) returns (checksum: nat)
    ensures checksum == Sum(buffer[..])
  {
    checksum := 0;
    for i := 0 to buffer.Length
      invariant checksum == Sum(buffer[..i])
    {
      assert buffer[..i + 1][..i] == buffer[..i];
      checksum := checksum + buffer[i];
    }
    assert buffer[..buffer.Length] == buffer[..];
  }

  /** The byte of the header buffer before the checksum has been written over the blanks. */
  function DraftByte(name: seq<Byte>, size: nat, i: nat): Byte
    requires i < BLOCK
  {
    (HeaderFront(name, size) + BLANKS + HeaderBack())[i]
  }

  /** Each field write lands where the layout has that field. */
  lemma DraftLayout(name: seq<Byte>, size: nat, i: nat)
    requires i < BLOCK
    ensures DraftByte(name, size, i) ==
      if i < 100 then Field(name, 100)[i]
      else if i < 108 then MODE[i - 100]
      else if i < 116 then OWNER[i - 108]
      else if i < 124 then OWNER[i - 116]
      else if i < 136 then SizeField(size)[i - 124]
      else if i < 148 then MTIME[i - 136]
      else if i < 156 then SPACE
      else if i == 156 then ZERO
      else if 257 <= i < 263 then MAGIC[i - 257]
      else if 263 <= i < 265 then VERSION[i - 263]
      else 0
  {
  }

  /** All fields but the checksum, whose place is filled with blanks. */
  method WriteFields(header: array<Byte>, name: seq<Byte>, size: nat)
    requires header.Length == 512 && forall i :: 0 <= i < 512 ==> header[i] == 0
    modifies header
    ensures header[..] == HeaderFront(name, size) + BLANKS + HeaderBack()
  {
    WriteAt(header, name, 0, 100);
    WriteAt(header, MODE, 100, 8);
    WriteAt(header, OWNER, 108, 8);
    WriteAt(header, OWNER, 116, 8);
    WriteAt(header, PadStart(Octal(size), 11) + [0], 124, 12);
    WriteAt(header, MTIME, 136, 12);
    WriteAt(header, BLANKS, 148, 8);
    WriteAt(header, [ZERO], 156, 1);
    WriteAt(header, MAGIC, 257, 6);
    WriteAt(header, VERSION, 263, 2);
    forall i | 0 <= i < 512 ensures header[i] == DraftByte(name, size, i) {
      DraftLayout(name, size, i);
    }
  }

  /** The checksum goes over the blanks and touches nothing else. */
  method WriteChecksum(header: array<Byte>, checksum: nat, ghost front: seq<Byte>, ghost back: seq<Byte>)
    requires header.Length == 512 && |front| == 148 && |back| == 356 && header[..] == front + BLANKS + back
    requires |PadStart(Octal(checksum), 6)| == 6
    modifies header
    ensures header[..] == front + ChecksumField(checksum) + back
  {
    hide PadStart, Octal, Zeros;
    var digits := PadStart(Octal(checksum), 6) + [0, SPACE];
    assert forall i :: 0 <= i < 148 ==> header[i] == header[..][i] == front[i];
    assert forall i :: 156 <= i < 512 ==> header[i] == header[..][i] == back[i - 156];
    WriteAt(header, digits, 148, 8);
    assert ChecksumField(checksum) == digits;
  }

  method TarHeader(name: seq<Byte>, size: nat) returns (r: Result<seq<Byte>, TarError>)
    ensures |name| > 100 ==> r == Err(NameTooLong(name))
    ensures |name| <= 100 ==> r == Ok(Header(name, size))
  {
    if |name| > 100 {
      return Err(NameTooLong(name));
    }
    hide HeaderFront, HeaderBack, PadStart, Octal, Sum, Zeros, ChecksumField;
    var header := new Byte[512](_ => 0);
    WriteFields(header, name, size);
    var checksum := SumBuffer(header);
    ChecksumFits(header[..]);
    WriteChecksum(header, checksum, HeaderFront(name, size), HeaderBack());
    return Ok(header[..]);
  }

  lemma {:induction false} SumBound(bytes: seq<Byte>)
    ensures Sum(bytes) <= 255 * |bytes|
  {
    if bytes != [] { SumBound(bytes[..|bytes| - 1]); }
  }

  /** A block of 512 bytes sums to at most 130560, which six octal digits can hold. */
  lemma ChecksumFits(block: seq<Byte>)
    requires |block| == BLOCK
    ensures Sum(block) <= 130560
    ensures |PadStart(Octal(Sum(block)), 6)| == 6
  {
    SumBound(block);
    assert Pow8(2) == 64 && Pow8(4) == 4096 && Pow8(6) == 262144;
    OctalLength(Sum(block), 6);
  }

  // ---------------------------------------------------------------- reader

  /** The text of a field: everything before the first NUL. */
  function CString(field: seq<Byte>): (s: seq<Byte>)
  {
    if field == [] || field[0] == 0 then [] else [field[0]] + CString(field[1..])
  }

  function DigitRun(field: seq<Byte>): (k: nat)
    ensures k <= |field| && IsOctalDigits(field[..k])
    ensures k < |field| ==> !(ZERO <= field[k] < ZERO + 8)
  {
    if field == [] || !(ZERO <= field[0] < ZERO + 8) then 0
    else
      var k := 1 + DigitRun(field[1..]);
      assert forall i :: 1 <= i < k ==> field[i] == field[1..][..k - 1][i - 1];
      k
  }

  /** A numeric field: octal digits, then one or more NUL or space terminators. */
  function ReadOctal(field: seq<Byte>): Option<nat>
  {
    var k := DigitRun(field);
    if 0 < k < |field| && forall i :: k <= i < |field| ==> field[i] == 0 || field[i] == SPACE
    then Some(OctalValue(field[..k])) else None
  }

  /** The header checksum: the block summed with its checksum field read as blanks. */
  predicate ChecksumHolds(block: seq<Byte>)
    requires |block| == BLOCK
  {
    ReadOctal(block[148..156]) == Some(Sum(block[..148] + BLANKS + block[156..]))
  }

  datatype Heading = Heading(name: seq<Byte>, size: nat)

  function ReadHeader(block: seq<Byte>): Option<Heading>
    requires |block| == BLOCK
  {
    if block[257..263] == MAGIC && block[263..265] == VERSION && block[156] == ZERO && ChecksumHolds(block) then
      match ReadOctal(block[124..136])
      case Some(size) => Some(Heading(CString(block[..100]), size))
      case None => None
    else None
  }

  function Padding(size: nat): (p: nat)
    ensures p < BLOCK && (size + p) % 512 == 0
  {
    (512 - size % 512) % 512
  }

  datatype Contents = Contents(files: seq<File>, unread: seq<Byte>)

  /** Reads entries up to and including the two zero blocks that end the archive. */
  function ReadArchive(bytes: seq<Byte>): Option<Contents>
    decreases |bytes|
  {
    if |bytes| < 2 * BLOCK then None
    else if bytes[..2 * BLOCK] == Zeros(2 * BLOCK) then Some(Contents([], bytes[2 * BLOCK..]))
    else
      match ReadHeader(bytes[..BLOCK])
      case None => None
      case Some(h) =>
        var next := BLOCK + h.size + Padding(h.size);
        if |bytes| < next then None
        else
          match ReadArchive(bytes[next..])
          case None => None
          case Some(c) => Some(Contents([File(h.name, bytes[BLOCK..BLOCK + h.size])] + c.files, c.unread))
  }

  // ---------------------------------------------------------------- writer

  function Entry(f: File): (e: seq<Byte>)
  {
    Header(f.name, |f.body|) + f.body + Zeros(Padding(|f.body|))
  }

  function Entries(files: seq<File>): (bytes: seq<Byte>)
  {
    if files == [] then [] else Entries(files[..|files| - 1]) + Entry(files[|files| - 1])
  }

  function Archive(files: seq<File>): (bytes: seq<Byte>)
  {
    Entries(files) + Zeros(2 * BLOCK)
  }

  /** The uncompressed bytes that `createTarGz` hands to gzip. */
  method CreateTar(files: seq<File>) returns (r: Result<seq<Byte>, TarError>)
    ensures (forall f :: f in files ==> |f.name| <= 100) ==> r == Ok(Archive(files))
    ensures (exists f :: f in files && |f.name| > 100) ==>
      r.Err? && |r.error.name| > 100 && exists f :: f in files && f.name == r.error.name
  {
    hide Header;
    var chunks: seq<Byte> := [];
    for i := 0 to |files|
      invariant chunks == Entries(files[..i])
      invariant forall j :: 0 <= j < i ==> |files[j].name| <= 100
    {
      var header := TarHeader(files[i].name, |files[i].body|);
      if header.Err? {
        return Err(header.error);
      }
      chunks := chunks + header.value;
      chunks := chunks + files[i].body;
      var padding := (512 - |files[i].body| % 512) % 512;
      if padding > 0 {
        chunks := chunks + Zeros(padding);
      }
      assert files[..i + 1][..i] == files[..i];
      assert chunks == Entries(files[..i]) + Entry(files[i]);
    }
    assert files[..|files|] == files;
    return Ok(chunks + Zeros(1024));
  }

  // ---------------------------------------------------------------- theorems

  /** Re-summing a written header with its checksum field blanked gives the stored value. */
  lemma HeaderSelfCheck(name: seq<Byte>, size: nat)
    ensures ChecksumHolds(Header(name, size))
    ensures Sum(HeaderFront(name, size) + BLANKS + HeaderBack()) <= 130560
  {
    var front, back := HeaderFront(name, size), HeaderBack();
    var block := Header(name, size);
    var sum := Sum(front + BLANKS + back);
    ChecksumFits(front + BLANKS + back);
    assert block[..148] == front && block[156..] == back;
    var digits := PadStart(Octal(sum), 6);
    assert block[148..156] == ChecksumField(sum) == digits + [0, SPACE];
    OctalRoundTrip(sum);
    PaddedValue(Octal(sum), 6);
    ReadTerminated(digits, [0, SPACE]);
  }

  lemma ReadTerminated(digits: seq<Byte>, end: seq<Byte>)
    requires digits != [] && IsOctalDigits(digits)
    requires end != [] && forall i :: 0 <= i < |end| ==> end[i] == 0 || end[i] == SPACE
    ensures ReadOctal(digits + end) == Some(OctalValue(digits))
  {
    RunOfDigits(digits, end);
    assert (digits + end)[..|digits|] == digits;
  }

  lemma {:induction false} RunOfDigits(digits: seq<Byte>, end: seq<Byte>)
    requires IsOctalDigits(digits)
    requires end == [] || end[0] == 0 || end[0] == SPACE
    ensures DigitRun(digits + end) == |digits|
  {
    if digits == [] {
      assert digits + end == end;
    } else {
      RunOfDigits(digits[1..], end);
      assert (digits + end)[1..] == digits[1..] + end;
    }
  }

  /** The 11-digit size field can be read back exactly when the size is below 8^11. */
  lemma SizeFieldReads(size: nat)
    ensures ReadOctal(SizeField(size)) == if size < SIZE_LIMIT then Some(size) else None
  {
    assert Pow8(3) == 512 && Pow8(6) == 262144 && Pow8(9) == 134217728 && Pow8(11) == SIZE_LIMIT;
    OctalLength(size, 11);
    OctalRoundTrip(size);
    PaddedValue(Octal(size), 11);
    var digits := PadStart(Octal(size), 11);
    if size < SIZE_LIMIT {
      assert SizeField(size) == digits + [0];
      ReadTerminated(digits, [0]);
    } else {
      var field := digits[..12];
      assert SizeField(size) == field;
      assert field + [] == field;
      RunOfDigits(field, []);
    }
  }

  lemma {:induction false} CStringOfField(name: seq<Byte>, pad: nat)
    ensures CString(name + Zeros(pad)) == CString(name)
  {
    if name == [] {
      assert name + Zeros(pad) == Zeros(pad);
    } else {
      CStringOfField(name[1..], pad);
      assert (name + Zeros(pad))[1..] == name[1..] + Zeros(pad);
    }
  }

  lemma {:induction false} CStringIsName(name: seq<Byte>)
    ensures CString(name) == name <==> 0 !in name
  {
    if name != [] {
      CStringIsName(name[1..]);
      assert name == [name[0]] + name[1..];
      assert 0 in name <==> name[0] == 0 || 0 in name[1..];
    }
  }

  /** Where the layout puts each field that the reader looks at. */
  lemma HeaderFields(name: seq<Byte>, size: nat)
    ensures var block := Header(name, size);
      && block[..100] == Field(name, 100)
      && block[124..136] == SizeField(size)
      && block[156] == ZERO
      && block[257..263] == MAGIC
      && block[263..265] == VERSION
      && block[257] != 0
  {
    var front, back := HeaderFront(name, size), HeaderBack();
    var middle := ChecksumField(Sum(front + BLANKS + back));
    assert front[..100] == Field(name, 100);
    assert front[124..136] == SizeField(size);
    assert back[101..107] == MAGIC && back[107..109] == VERSION;
    Slices(front, middle, back);
    assert back[101] == MAGIC[0];
  }

  lemma Slices(front: seq<Byte>, middle: seq<Byte>, back: seq<Byte>)
    requires |front| == 148 && |middle| == 8 && |back| == 356
    ensures var block := front + middle + back;
      && block[..100] == front[..100]
      && block[124..136] == front[124..136]
      && block[156] == back[0]
      && block[257] == back[101]
      && block[257..263] == back[101..107]
      && block[263..265] == back[107..109]
  {
  }

  lemma NameFieldReads(name: seq<Byte>, width: nat)
    requires |name| <= width
    ensures CString(Field(name, width)) == CString(name)
  {
    hide CString, Zeros;
    CStringOfField(name, width - |name|);
    assert name[..|name|] == name;
  }

  lemma HeaderReads(name: seq<Byte>, size: nat)
    requires |name| <= 100
    ensures Header(name, size)[257] != 0
    ensures ReadHeader(Header(name, size)) ==
      if size < SIZE_LIMIT then Some(Heading(CString(name), size)) else None
  {
    hide Header, ChecksumHolds, ReadOctal, SizeField, CString, Field;
    HeaderFields(name, size);
    HeaderSelfCheck(name, size);
    NameFieldReads(name, 100);
    SizeFieldReads(size);
  }

  lemma EntrySlices(block: seq<Byte>, body: seq<Byte>, pad: seq<Byte>, rest: seq<Byte>)
    requires |block| == 512
    ensures var bytes := block + body + pad + rest;
      && bytes[..512] == block
      && bytes[512..512 + |body|] == body
      && bytes[512 + |body| + |pad|..] == rest
  {
  }

  /** One step of the reader over any block that reads as a heading. */
  lemma StepReads(block: seq<Byte>, name: seq<Byte>, body: seq<Byte>, rest: seq<Byte>)
    requires |block| == BLOCK && block[257] != 0 && |rest| >= 2 * BLOCK
    ensures var bytes := block + body + Zeros(Padding(|body|)) + rest;
      && (ReadHeader(block).None? ==> ReadArchive(bytes).None?)
      && (ReadHeader(block) == Some(Heading(name, |body|)) ==>
           match ReadArchive(rest)
           case None => ReadArchive(bytes).None?
           case Some(c) => ReadArchive(bytes) == Some(Contents([File(name, body)] + c.files, c.unread)))
  {
    hide ReadHeader, Padding, Zeros;
    var bytes := block + body + Zeros(Padding(|body|)) + rest;
    EntrySlices(block, body, Zeros(Padding(|body|)), rest);
    assert bytes[..2 * BLOCK][257] != Zeros(2 * BLOCK)[257];
  }

  function Prepend(f: File, c: Option<Contents>): Option<Contents> {
    match c
    case None => None
    case Some(c) => Some(Contents([f] + c.files, c.unread))
  }

  lemma EntryReads(f: File, rest: seq<Byte>)
    requires |f.name| <= 100
    requires |rest| >= 2 * BLOCK
    ensures |Entry(f)| % 512 == 0
    ensures ReadArchive(Entry(f) + rest) ==
      if |f.body| >= SIZE_LIMIT then None else Prepend(File(CString(f.name), f.body), ReadArchive(rest))
  {
    hide Header, ReadArchive, Zeros, CString, ReadHeader, Padding;
    WholeBlocks(|f.body|);
    HeaderReads(f.name, |f.body|);
    StepReads(Header(f.name, |f.body|), CString(f.name), f.body, rest);
  }

  lemma WholeBlocks(size: nat)
    ensures (512 + size + Padding(size)) % 512 == 0
  {
  }

  /** What the reader recovers from the entries of a whole list, whatever follows them. */
  lemma {:induction false} EntriesRead(files: seq<File>, rest: seq<Byte>)
    requires forall f :: f in files ==> |f.name| <= 100
    requires |rest| >= 2 * BLOCK
    ensures |Entries(files)| % 512 == 0
    ensures ReadArchive(Entries(files) + rest) == Recovered(files, ReadArchive(rest))
  {
    hide Entry, ReadArchive;
    if files == [] {
      assert Entries(files) + rest == rest;
    } else {
      var init, last := files[..|files| - 1], files[|files| - 1];
      var rest' := Entry(last) + rest;
      EntriesRead(init, rest');
      EntryReads(last, rest);
      assert Entries(files) + rest == Entries(init) + rest';
    }
  }

  /** The reader's view of a list of files put in front of `tail`. */
  function Recovered(files: seq<File>, tail: Option<Contents>): Option<Contents>
  {
    if files == [] then tail
    else
      var init, last := files[..|files| - 1], files[|files| - 1];
      Recovered(init, if |last.body| >= SIZE_LIMIT then None else Prepend(File(CString(last.name), last.body), tail))
  }

  lemma PortableReads(f: File)
    ensures Portable(f) <==> File(CString(f.name), f.body) == f && |f.body| < SIZE_LIMIT
  {
    CStringIsName(f.name);
  }

  lemma {:induction false} RecoveredFiles(files: seq<File>, tail: Option<Contents>)
    ensures tail.None? ==> Recovered(files, tail).None?
    ensures tail.Some? ==>
      (Recovered(files, tail) == Some(Contents(files + tail.value.files, tail.value.unread))
       <==> forall f :: f in files ==> Portable(f))
    ensures Recovered(files, tail).Some? ==>
      && tail.Some?
      && |Recovered(files, tail).value.files| == |files| + |tail.value.files|
      && Recovered(files, tail).value.files[|files|..] == tail.value.files
  {
    hide Portable, CString;
    if files == [] {
      if tail.Some? {
        assert files + tail.value.files == tail.value.files;
      }
    } else {
      var init, last := files[..|files| - 1], files[|files| - 1];
      assert files == init + [last];
      assert (forall f :: f in files ==> Portable(f)) <==> Portable(last) && forall f :: f in init ==> Portable(f);
      var read := File(CString(last.name), last.body);
      var tail' := if |last.body| >= SIZE_LIMIT then None else Prepend(read, tail);
      RecoveredFiles(init, tail');
      assert Portable(last) <==> read == last && |last.body| < SIZE_LIMIT by { PortableReads(last); }
      if tail'.Some? {
        assert init + tail'.value.files == (init + [read]) + tail.value.files;
        if read == last {
          assert init + tail'.value.files == files + tail.value.files;
        }
        if Recovered(files, tail).Some? {
          var all := Recovered(files, tail).value.files;
          assert all[|init|] == all[|init|..][0] == read;
          assert all[|files|..] == all[|init|..][1..] == tail.value.files;
          assert (files + tail.value.files)[|init|] == last;
        }
      }
    }
  }

  predicate Portable(f: File) {
    0 !in f.name && |f.body| < SIZE_LIMIT
  }

  lemma EndReads()
    ensures ReadArchive(Zeros(2 * BLOCK)) == Some(Contents([], []))
  {
    hide ReadHeader;
    var end := Zeros(2 * BLOCK);
    assert end[..2 * BLOCK] == end && end[2 * BLOCK..] == [];
  }

  /**
   For every list the writer accepts: the archive is a whole number of blocks, and reading it
   back gives exactly the same files, nothing left over, if and only if no name holds a NUL and
   no body reaches 8^11 bytes.
   */
  lemma TarRoundTrip(files: seq<File>)
    requires forall f :: f in files ==> |f.name| <= 100
    ensures |Archive(files)| % 512 == 0
    ensures ReadArchive(Archive(files)) == Some(Contents(files, [])) <==> forall f :: f in files ==> Portable(f)
  {
    hide ReadArchive, Entries, Recovered, Portable;
    EndReads();
    EntriesRead(files, Zeros(2 * BLOCK));
    RecoveredFiles(files, Some(Contents([], [])));
    assert files + [] == files;
  }

  /** Every byte of a header, by its place: the fields of the ustar format with the values this writer gives them. */
  lemma HeaderBytes(name: seq<Byte>, size: nat)
    requires |name| <= 100
    ensures
      var h := Header(name, size);
      && |h| == 512
      && h[..|name|] == name && (forall i :: |name| <= i < 100 ==> h[i] == 0)
      && h[100..108] == [48, 48, 48, 48, 54, 52, 52, 0]
      && h[108..116] == [48, 48, 48, 48, 48, 48, 48, 0] && h[116..124] == [48, 48, 48, 48, 48, 48, 48, 0]
      && h[136..148] == [48, 48, 48, 48, 48, 48, 48, 48, 48, 48, 48, 0]
      && h[154] == 0 && h[155] == 32
      && h[156] == 48 && (forall i :: 157 <= i < 257 ==> h[i] == 0)
      && h[257..265] == [117, 115, 116, 97, 114, 0, 48, 48] && (forall i :: 265 <= i < 512 ==> h[i] == 0)
  {
    hide Octal, Sum, PadStart;
    var front, back := HeaderFront(name, size), HeaderBack();
    var sum := Sum(front + BLANKS + back);
    var h := Header(name, size);
    FrontBytes(name, size);
    BackBytes();
    ChecksumTail(name, size);
    assert h == front + ChecksumField(sum) + back;
    assert h[..148] == front && h[156..] == back;
    assert forall i :: 0 <= i < 148 ==> h[i] == front[i];
    assert forall i :: 156 <= i < 512 ==> h[i] == back[i - 156];
    assert h[100..108] == front[100..108] && h[108..116] == front[108..116] && h[116..124] == front[116..124] && h[136..148] == front[136..148];
    assert h[257..265] == back[101..109];
    assert h[..|name|] == front[..|name|];
    assert h[154] == ChecksumField(sum)[6] && h[155] == ChecksumField(sum)[7];
  }

  lemma FrontBytes(name: seq<Byte>, size: nat)
    requires |name| <= 100
    ensures
      var f := HeaderFront(name, size);
      && f[..|name|] == name && (forall i :: |name| <= i < 100 ==> f[i] == 0)
      && f[100..108] == [48, 48, 48, 48, 54, 52, 52, 0]
      && f[108..116] == [48, 48, 48, 48, 48, 48, 48, 0] && f[116..124] == [48, 48, 48, 48, 48, 48, 48, 0]
      && f[136..148] == [48, 48, 48, 48, 48, 48, 48, 48, 48, 48, 48, 0]
  {
    hide SizeField;
    var field, rest := Field(name, 100), MODE + OWNER + OWNER + SizeField(size) + MTIME;
    assert HeaderFront(name, size) == field + rest;
    assert field[..|name|] == name;
  }

  lemma BackBytes()
    ensures
      var b := HeaderBack();
      && b[0] == 48 && (forall i :: 1 <= i < 101 ==> b[i] == 0)
      && b[101..109] == [117, 115, 116, 97, 114, 0, 48, 48] && (forall i :: 109 <= i < 356 ==> b[i] == 0)
  {
  }

  lemma ChecksumTail(name: seq<Byte>, size: nat)
    ensures
      var sum := Sum(HeaderFront(name, size) + BLANKS + HeaderBack());
      ChecksumField(sum)[6] == 0 && ChecksumField(sum)[7] == 32
  {
    hide Octal, Sum;
    var all := HeaderFront(name, size) + BLANKS + HeaderBack();
    ChecksumFits(all);
  }

  lemma {:induction false} FirstEntry(f: File, rest: seq<File>)
    ensures Entries([f] + rest) == Entry(f) + Entries(rest)
  {
    hide Entry;
    var files := [f] + rest;
    if rest == [] {
      assert files[..0] == [] && Entries(files[..0]) == [];
    } else {
      FirstEntry(f, rest[..|rest| - 1]);
      assert files[..|files| - 1] == [f] + rest[..|rest| - 1];
    }
  }

  /** The bytes of an archive: for each file its header, its body and less than a block of zeros, and two blocks of zeros at the end. */
  lemma ArchiveMeans(f: File, rest: seq<File>) returns (p: nat)
    ensures |Archive([])| == 1024 && forall i :: 0 <= i < 1024 ==> Archive([])[i] == 0
    ensures
      var bytes, n := Archive([f] + rest), 512 + |f.body|;
      && p < 512 && (n + p) % 512 == 0 && n + p <= |bytes|
      && bytes[..512] == Header(f.name, |f.body|) && bytes[512..n] == f.body
      && (forall i :: n <= i < n + p ==> bytes[i] == 0) && bytes[n + p..] == Archive(rest)
  {
    hide Header, Padding, Zeros, Entries;
    assert Entries([]) == [] by { NoEntries(); }
    FirstEntry(f, rest);
    p := Padding(|f.body|);
    var bytes, n := Archive([f] + rest), 512 + |f.body|;
    var zeros := Zeros(p);
    assert bytes == Header(f.name, |f.body|) + (f.body + (zeros + Archive(rest)));
    assert forall i :: n <= i < n + p ==> bytes[i] == zeros[i - n];
  }

  lemma NoEntries()
    ensures Entries([]) == []
  {
  }
}
