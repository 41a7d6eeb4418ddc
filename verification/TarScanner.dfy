/**
 Recognising the end of a tar archive (ustar, IEEE Std 1003.1) in a growing buffer, and the
 reader that stops there.
 */
module TarScanner {
  import opened Collections

  const BLOCK: nat := 512
  const SPACE: Byte := 0x20
  const PLUS: Byte := 0x2B
  const ZERO_DIGIT: Byte := 0x30

  predicate AllZero(s: seq<Byte>) {
    forall i :: 0 <= i < |s| ==> s[i] == 0
  }

  // ----- the size field -----

  predicate IsPadding(b: Byte) {
    b == 0 || b == SPACE
  }

  function TrimStart(s: seq<Byte>): (r: seq<Byte>)
    ensures |r| <= |s| && (r != [] ==> !IsPadding(r[0]))
  {
    if s != [] && IsPadding(s[0]) then TrimStart(s[1..]) else s
  }

  function TrimEnd(s: seq<Byte>): (r: seq<Byte>)
    ensures r <= s && (r != [] ==> !IsPadding(r[|r| - 1]))
  {
    if s != [] && IsPadding(s[|s| - 1]) then TrimEnd(s[..|s| - 1]) else s
  }

  predicate IsOctalDigit(b: Byte) {
    ZERO_DIGIT <= b < ZERO_DIGIT + 8
  }

  function OctalDigits(s: seq<Byte>): Option<nat> {
    if s == [] then Some(0)
    else
      var last := s[|s| - 1];
      var front := OctalDigits(s[..|s| - 1]);
      if front.None? || !IsOctalDigit(last) then None else Some(front.value * 8 + (last - ZERO_DIGIT))
  }

  /** The number in a size field: blank means zero, a leading plus sign is accepted, anything else must be octal. */
  function ParseSize(field: seq<Byte>): Option<nat> {
    var text := TrimEnd(TrimStart(field));
    if text == [] then Some(0)
    else if text[0] == PLUS then (if |text| == 1 then None else OctalDigits(text[1..]))
    else OctalDigits(text)
  }

  function Padded(size: nat): nat {
    (size + BLOCK - 1) / BLOCK * BLOCK
  }

  // ----- the scanner -----

  /** What the block at an offset is to the scanner. */
  datatype Block = Missing | Zero | Malformed | Header(length: nat)

  function BlockAt(bytes: seq<Byte>, offset: nat): Block {
    if offset + BLOCK > |bytes| then Missing
    else
      var header := bytes[offset..offset + BLOCK];
      if AllZero(header) then Zero
      else
        var size := ParseSize(header[124..136]);
        if size.None? then Malformed else Header(Padded(size.value))
  }

  /** The length of the archive that starts at `offset` in a row of blocks that ends at `end`, once it is complete. */
  function ScanBlocks(at: nat -> Block, end: nat, offset: nat): (r: Option<nat>)
    ensures r.Some? ==> offset + 2 * BLOCK <= r.value <= end
    decreases end - offset
  {
    if offset + BLOCK > end then None
    else match at(offset)
      case Missing => None
      case Malformed => None
      case Zero => if offset + 2 * BLOCK <= end && at(offset + BLOCK).Zero? then Some(offset + 2 * BLOCK) else None
      case Header(length) => ScanBlocks(at, end, offset + BLOCK + length)
  }

  function Blocks(bytes: seq<Byte>): nat -> Block {
    (offset: nat) => BlockAt(bytes, offset)
  }

  /** An offset beyond the buffer, including one that would overflow a machine word, gives nothing. */
  function ScanFrom(bytes: seq<Byte>, offset: nat): (r: Option<nat>)
    ensures r.Some? ==> offset + 2 * BLOCK <= r.value <= |bytes|
  {
    ScanBlocks(Blocks(bytes), |bytes|, offset)
  }

  method CompleteTarLength(bytes: seq<Byte>) returns (r: Option<nat>)
    ensures r == ScanFrom(bytes, 0)
  {
    var offset := 0;
    while true
      invariant ScanFrom(bytes, 0) == ScanFrom(bytes, offset)
      decreases |bytes| - offset
    {
      var headerEnd := offset + BLOCK;
      if headerEnd > |bytes| { return None; }
      var header := bytes[offset..headerEnd];
      if AllZero(header) {
        var end := headerEnd + BLOCK;
        if end > |bytes| { return None; }
        return if AllZero(bytes[headerEnd..end]) then Some(end) else None;
      }
      var size := ParseSize(header[124..136]);
      if size.None? { return None; }
      offset := headerEnd + Padded(size.value);
    }
  }

  lemma BlockOfPrefix(bytes: seq<Byte>, k: nat, offset: nat)
    requires k <= |bytes|
    ensures BlockAt(bytes[..k], offset) == if offset + BLOCK <= k then BlockAt(bytes, offset) else Missing
  {
    if offset + BLOCK <= k {
      assert bytes[..k][offset..offset + BLOCK] == bytes[offset..offset + BLOCK];
    }
  }

  ghost predicate AgreeUpTo(at: nat -> Block, at': nat -> Block, k: nat) {
    forall o: nat :: o + BLOCK <= k ==> at'(o) == at(o)
  }

  lemma BlocksOfPrefix(bytes: seq<Byte>, k: nat)
    requires k <= |bytes|
    ensures AgreeUpTo(Blocks(bytes), Blocks(bytes[..k]), k)
  {
    forall o: nat | o + BLOCK <= k ensures Blocks(bytes[..k])(o) == Blocks(bytes)(o) { BlockOfPrefix(bytes, k, o); }
  }

  lemma {:induction false} ScanShortened(at: nat -> Block, end: nat, at': nat -> Block, k: nat, offset: nat)
    requires k <= end && AgreeUpTo(at, at', k)
    ensures var whole := ScanBlocks(at, end, offset);
            ScanBlocks(at', k, offset) == if whole.Some? && whole.value <= k then whole else None
    decreases end - offset
  {
    if offset + BLOCK <= k && at(offset).Header? {
      ScanShortened(at, end, at', k, offset + BLOCK + at(offset).length);
    }
  }

  /** A prefix is complete exactly when it reaches the end found in the whole: never earlier, never elsewhere. */
  lemma PrefixExact(bytes: seq<Byte>, k: nat, offset: nat)
    requires k <= |bytes|
    ensures var whole := ScanFrom(bytes, offset);
            ScanFrom(bytes[..k], offset) == if whole.Some? && whole.value <= k then whole else None
  {
    BlocksOfPrefix(bytes, k);
    ScanShortened(Blocks(bytes), |bytes|, Blocks(bytes[..k]), k, offset);
  }

  // ----- well-formed archives -----

  datatype Entry = Entry(header: seq<Byte>, data: seq<Byte>, padding: seq<Byte>)

  ghost predicate WellFormed(e: Entry) {
    && |e.header| == BLOCK && !AllZero(e.header)
    && ParseSize(e.header[124..136]) == Some(|e.data|)
    && |e.data| + |e.padding| == Padded(|e.data|)
  }

  ghost function Zeros(n: nat): (r: seq<Byte>)
    ensures |r| == n && AllZero(r)
  {
    seq(n, _ => 0)
  }

  ghost function Archive(entries: seq<Entry>): seq<Byte> {
    if entries == [] then Zeros(2 * BLOCK)
    else EntryBytes(entries[0]) + Archive(entries[1..])
  }

  function Later(r: Option<nat>, n: nat): Option<nat> {
    if r.Some? then Some(r.value + n) else None
  }

  lemma BlockShift(before: seq<Byte>, bytes: seq<Byte>, offset: nat)
    ensures BlockAt(before + bytes, |before| + offset) == BlockAt(bytes, offset)
  {
    var base := |before| + offset;
    if offset + BLOCK <= |bytes| {
      assert (before + bytes)[base..base + BLOCK] == bytes[offset..offset + BLOCK];
    }
  }

  ghost predicate MovedAt(at: nat -> Block, at': nat -> Block, d: nat, o: nat) {
    at(o) == at'(d + o)
  }

  ghost predicate Moved(at: nat -> Block, at': nat -> Block, d: nat) {
    forall o: nat :: MovedAt(at, at', d, o)
  }

  lemma BlocksMoved(before: seq<Byte>, bytes: seq<Byte>)
    ensures Moved(Blocks(bytes), Blocks(before + bytes), |before|)
  {
    forall o: nat ensures MovedAt(Blocks(bytes), Blocks(before + bytes), |before|, o) { BlockShift(before, bytes, o); }
  }

  lemma {:induction false} ScanMoved(at: nat -> Block, end: nat, at': nat -> Block, d: nat, offset: nat)
    requires Moved(at, at', d)
    ensures ScanBlocks(at', d + end, d + offset) == Later(ScanBlocks(at, end, offset), d)
    decreases end - offset
  {
    if offset + BLOCK <= end {
      assert MovedAt(at, at', d, offset) && MovedAt(at, at', d, offset + BLOCK);
      if at(offset).Header? {
        ScanMoved(at, end, at', d, offset + BLOCK + at(offset).length);
      }
    }
  }

  /** Scanning does not look back. */
  lemma ScanShift(before: seq<Byte>, bytes: seq<Byte>, offset: nat)
    ensures ScanFrom(before + bytes, |before| + offset) == Later(ScanFrom(bytes, offset), |before|)
  {
    BlocksMoved(before, bytes);
    ScanMoved(Blocks(bytes), |bytes|, Blocks(before + bytes), |before|, offset);
  }

  lemma ScanEnd(trailing: seq<Byte>)
    ensures ScanFrom(Zeros(2 * BLOCK) + trailing, 0) == Some(2 * BLOCK)
  {
    var zeros := Zeros(2 * BLOCK);
    var all := zeros + trailing;
    assert all[0..BLOCK] == zeros[0..BLOCK] && AllZero(zeros[0..BLOCK]);
    assert all[BLOCK..2 * BLOCK] == zeros[BLOCK..2 * BLOCK] && AllZero(zeros[BLOCK..2 * BLOCK]);
  }

  ghost function EntryBytes(e: Entry): seq<Byte> {
    e.header + e.data + e.padding
  }

  lemma ScanEntry(e: Entry, rest: seq<Byte>)
    requires WellFormed(e)
    ensures ScanFrom(EntryBytes(e) + rest, 0) == Later(ScanFrom(rest, 0), |EntryBytes(e)|)
  {
    var all := EntryBytes(e) + rest;
    assert all[0..BLOCK] == e.header;
    assert ScanFrom(all, 0) == ScanFrom(all, |EntryBytes(e)| + 0);
    ScanShift(EntryBytes(e), rest, 0);
  }

  /** On any list of well-formed entries, whatever follows them, the scanner finds exactly the archive. */
  lemma {:induction false} ScanFindsArchive(entries: seq<Entry>, trailing: seq<Byte>)
    requires forall i :: 0 <= i < |entries| ==> WellFormed(entries[i])
    ensures ScanFrom(Archive(entries) + trailing, 0) == Some(|Archive(entries)|)
  {
    if entries == [] {
      ScanEnd(trailing);
    } else {
      var rest := Archive(entries[1..]) + trailing;
      Associative(EntryBytes(entries[0]), Archive(entries[1..]), trailing);
      ScanEntry(entries[0], rest);
      ScanFindsArchive(entries[1..], trailing);
    }
  }

  /** No shorter prefix of the archive is taken for complete. */
  lemma NothingShorter(entries: seq<Entry>, trailing: seq<Byte>, k: nat)
    requires forall i :: 0 <= i < |entries| ==> WellFormed(entries[i])
    requires k < |Archive(entries)|
    ensures ScanFrom((Archive(entries) + trailing)[..k], 0) == None
  {
    ScanFindsArchive(entries, trailing);
    PrefixExact(Archive(entries) + trailing, k, 0);
  }

  // ----- octal fields as ustar writes them -----

  /** `width` octal digits, most significant first. */
  function Octal(n: nat, width: nat): (r: seq<Byte>)
    ensures |r| == width && forall i :: 0 <= i < width ==> IsOctalDigit(r[i])
  {
    if width == 0 then [] else Octal(n / 8, width - 1) + [ZERO_DIGIT + n % 8]
  }

  function Power8(k: nat): nat {
    if k == 0 then 1 else 8 * Power8(k - 1)
  }

  lemma {:induction false} OctalRoundTrip(n: nat, width: nat)
    requires n < Power8(width)
    ensures OctalDigits(Octal(n, width)) == Some(n)
  {
    if width > 0 {
      OctalRoundTrip(n / 8, width - 1);
      var s := Octal(n, width);
      assert s[..|s| - 1] == Octal(n / 8, width - 1) && s[|s| - 1] == ZERO_DIGIT + n % 8;
    }
  }

  /** Eleven octal digits and a terminator, the form ustar uses, read back as the number they stand for. */
  lemma SizeFieldRoundTrip(n: nat, terminator: Byte)
    requires n < Power8(11) && IsPadding(terminator)
    ensures ParseSize(Octal(n, 11) + [terminator]) == Some(n)
  {
    var digits := Octal(n, 11);
    var field := digits + [terminator];
    assert IsOctalDigit(field[0]) && TrimStart(field) == field;
    assert field[..|field| - 1] == digits;
    assert TrimEnd(field) == TrimEnd(digits) == digits;
    OctalRoundTrip(n, 11);
  }

  // ----- the reader -----

  datatype ReadError = OutputLimitExceeded | ArchiveIo

  /**
   Read chunks until the archive is complete. `chunks` ends where the stream ends or where it
   first carries anything but data. Whatever the chunking, a success is the archive at the start
   of the stream, and a stream within the limit succeeds whenever it holds one.
   */
  method ReadArchive(chunks: seq<seq<Byte>>, limit: nat) returns (r: Result<seq<Byte>, ReadError>)
    ensures r.Ok? ==> ScanFrom(Flatten(chunks), 0) == Some(|r.value|) && r.value == Flatten(chunks)[..|r.value|] && |r.value| <= limit
    ensures r == Err(ArchiveIo) ==> ScanFrom(Flatten(chunks), 0) == None
    ensures r == Err(OutputLimitExceeded) ==> |Flatten(chunks)| > limit
  {
    var bytes: seq<Byte> := [];
    for i := 0 to |chunks|
      invariant bytes == Flatten(chunks[..i]) && |bytes| <= limit
      invariant ScanFrom(bytes, 0) == None
    {
      FlattenStep(chunks, i);
      if |bytes| + |chunks[i]| > limit { return Err(OutputLimitExceeded); }
      bytes := bytes + chunks[i];
      assert bytes == Flatten(chunks)[..|bytes|];
      PrefixExact(Flatten(chunks), |bytes|, 0);
      var complete := CompleteTarLength(bytes);
      if complete.Some? {
        return Ok(bytes[..complete.value]);
      }
    }
    assert chunks[..|chunks|] == chunks;
    r := Err(ArchiveIo);
  }
}
