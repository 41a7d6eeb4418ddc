/**
 * Newline-terminated frames between the plugins' proxy gateway and the Core: both readers. A stream is the
 * list of non-empty chunks that successive reads return before end of file; a failed read ends it like end
 * of file, as both readers treat it alike.
 */
module WireFrames {
  import opened Collections

  const MAX_FRAME: nat := 1024 * 1024
  const NEWLINE: Byte := 10
  const RETURN: Byte := 13

  datatype FrameError = Invalid | TooLarge

  // ---- Both readers ----

  /** Index of the first newline, or the length of `s` when it has none. */
  function Line(s: seq<Byte>): (n: nat)
    ensures n <= |s|
    ensures NEWLINE !in s[..n]
    ensures n < |s| ==> s[n] == NEWLINE
  {
    if s == [] || s[0] == NEWLINE then 0
    else
      var n := Line(s[1..]);
      assert s[..n + 1] == [s[0]] + s[1..][..n];
      n + 1
  }

  lemma {:induction false} LineOfPrefix(p: seq<Byte>, s: seq<Byte>)
    requires p <= s
    ensures Line(p) < |p| ==> Line(s) == Line(p)
    ensures Line(p) == |p| ==> Line(s) >= |p|
  {
    if p != [] && p[0] != NEWLINE {
      LineOfPrefix(p[1..], s[1..]);
    }
  }

  lemma {:induction false} LineAfter(p: seq<Byte>, s: seq<Byte>)
    requires NEWLINE !in p
    ensures Line(p + s) == |p| + Line(s)
  {
    if p == [] {
      assert p + s == s;
    } else {
      assert p[0] in p && forall b :: b in p[1..] ==> b in p;
      LineAfter(p[1..], s);
      assert (p + s)[1..] == p[1..] + s;
    }
  }

  /** Some read ends exactly after `n` bytes of the stream. */
  ghost predicate ReadEndsAt(chunks: seq<seq<Byte>>, n: nat) {
    exists k :: 0 <= k <= |chunks| && |Flatten(chunks[..k])| == n
  }

  ghost predicate Reads(chunks: seq<seq<Byte>>) {
    forall i :: 0 <= i < |chunks| ==> chunks[i] != []
  }

  /** What reading a stream up to its first newline gives, `boundary` saying that a read ends right after it. */
  function FrameOf(s: seq<Byte>, boundary: bool): (r: Result<seq<Byte>, FrameError>) {
    var n := Line(s);
    if n > MAX_FRAME then Err(TooLarge)
    else if n == |s| then Err(Invalid)
    else if !boundary || n == 0 then Err(Invalid)
    else Ok(s[..n])
  }

  /** What the Core's reader makes of these reads. */
  ghost function CoreResult(chunks: seq<seq<Byte>>): (r: Result<seq<Byte>, FrameError>) {
    FrameOf(Flatten(chunks), ReadEndsAt(chunks, Line(Flatten(chunks)) + 1))
  }

  lemma FlattenMonotone(chunks: seq<seq<Byte>>, i: nat, j: nat)
    requires i <= j <= |chunks|
    ensures |Flatten(chunks[..i])| <= |Flatten(chunks[..j])|
  {
    FlattenPrefix(chunks[..j], i);
    assert chunks[..j][..i] == chunks[..i];
  }

  /** A read that goes past `n` bytes from before `n` bytes leaves no read ending at `n`. */
  lemma NoReadEndsInside(chunks: seq<seq<Byte>>, i: nat, n: nat)
    requires i < |chunks| && |Flatten(chunks[..i])| < n < |Flatten(chunks[..i + 1])|
    ensures !ReadEndsAt(chunks, n)
  {
    forall k | 0 <= k <= |chunks| ensures |Flatten(chunks[..k])| != n {
      if k <= i { FlattenMonotone(chunks, k, i); } else { FlattenMonotone(chunks, i + 1, k); }
    }
  }

  /** Where the first newline of the stream is, once it has been seen at `at` in chunk `i`. */
  lemma NewlineSeen(chunks: seq<seq<Byte>>, i: nat, frame: seq<Byte>)
    requires i < |chunks| && frame == Flatten(chunks[..i]) && NEWLINE !in frame
    ensures Line(chunks[i]) < |chunks[i]| ==> Line(Flatten(chunks)) == |frame| + Line(chunks[i]) < |Flatten(chunks)|
    ensures Line(chunks[i]) == |chunks[i]| ==> Line(Flatten(chunks)) >= |frame| + |chunks[i]| && NEWLINE !in frame + chunks[i]
    ensures Flatten(chunks[..i + 1]) == frame + chunks[i] <= Flatten(chunks)
  {
    FlattenStep(chunks, i);
    LineAfter(frame, chunks[i]);
    LineOfPrefix(frame + chunks[i], Flatten(chunks));
    if Line(chunks[i]) == |chunks[i]| {
      assert chunks[i][..Line(chunks[i])] == chunks[i];
    }
  }

  /** A chunk ending in the first newline of the stream completes a frame. */
  lemma FrameEndsHere(chunks: seq<seq<Byte>>, i: nat, frame: seq<Byte>, line: seq<Byte>)
    requires i < |chunks| && frame == Flatten(chunks[..i]) && NEWLINE !in frame
    requires Line(chunks[i]) + 1 == |chunks[i]| && line == frame + chunks[i][..Line(chunks[i])]
    ensures Line(Flatten(chunks)) == |line| < |Flatten(chunks)| && line == Flatten(chunks)[..|line|]
    ensures ReadEndsAt(chunks, |line| + 1) && |Flatten(chunks[..i + 1])| == |line| + 1
  {
    NewlineSeen(chunks, i, frame);
    var ahead := frame + chunks[i];
    assert line == ahead[..|line|] == Flatten(chunks)[..|line|];
  }

  // ---- The buffer ----

  function Least(a: nat, b: nat): (r: nat) {
    if a < b then a else b
  }

  /** What a reader holds once it has taken in `t` bytes: never past the line, never past the limit and one byte more. */
  function Kept(s: seq<Byte>, t: nat): (r: seq<Byte>)
    requires t <= |s|
    ensures |r| <= MAX_FRAME + 1 && r <= s
  {
    s[..Least(t, Least(Line(s), MAX_FRAME + 1))]
  }

  ghost function ReadSoFar(chunks: seq<seq<Byte>>, k: nat): (t: nat)
    requires k <= |chunks|
    ensures t <= |Flatten(chunks)|
  {
    FlattenPrefix(chunks, k);
    |Flatten(chunks[..k])|
  }

  /** `buffer` is what is held after read `k`. */
  ghost predicate HeldAfter(chunks: seq<seq<Byte>>, buffer: seq<Byte>, k: nat)
    requires k < |chunks|
  {
    buffer == Kept(Flatten(chunks), ReadSoFar(chunks, k + 1))
  }

  /** Read `k` begins within the limit and ends within the line. */
  ghost predicate Needed(chunks: seq<seq<Byte>>, k: nat)
    requires k < |chunks|
  {
    ReadSoFar(chunks, k) <= MAX_FRAME && ReadSoFar(chunks, k + 1) <= Line(Flatten(chunks))
  }

  /** `held` are the buffer's contents after each read that was taken in, from the first on. */
  ghost predicate Holds(chunks: seq<seq<Byte>>, held: seq<seq<Byte>>) {
    && |held| <= |chunks|
    && forall k :: 0 <= k < |held| ==> HeldAfter(chunks, held[k], k)
  }

  /** A read that begins within the limit and brings no newline is taken in. */
  ghost predicate HoldsAll(chunks: seq<seq<Byte>>, held: seq<seq<Byte>>) {
    forall k :: 0 <= k < |chunks| && Needed(chunks, k) ==> k < |held|
  }

  lemma HoldsMore(chunks: seq<seq<Byte>>, held: seq<seq<Byte>>, frame: seq<Byte>)
    requires Holds(chunks, held) && |held| < |chunks| && HeldAfter(chunks, frame, |held|)
    ensures Holds(chunks, held + [frame])
  {
    var more := held + [frame];
    forall k | 0 <= k < |more| ensures HeldAfter(chunks, more[k], k) {
      if k < |held| { assert more[k] == held[k]; }
    }
  }

  /** A read without newline extends the buffer up to one byte over the limit. */
  lemma ReadTakenIn(chunks: seq<seq<Byte>>, i: nat, frame: seq<Byte>, kept: nat)
    requires i < |chunks| && frame == Flatten(chunks[..i]) && NEWLINE !in frame && |frame| <= MAX_FRAME
    requires Line(chunks[i]) == |chunks[i]| && kept == Least(|chunks[i]|, MAX_FRAME + 1 - |frame|)
    ensures frame + chunks[i][..kept] == Kept(Flatten(chunks), ReadSoFar(chunks, i + 1))
  {
    NewlineSeen(chunks, i, frame);
    var ahead := frame + chunks[i];
    assert frame + chunks[i][..kept] == ahead[..|frame| + kept] == Flatten(chunks)[..|frame| + kept];
  }

  /** Reads after the line or after the limit need not be taken in. */
  lemma HoldsEnough(chunks: seq<seq<Byte>>, held: seq<seq<Byte>>)
    requires |held| < |chunks| ==> !Needed(chunks, |held|)
    ensures HoldsAll(chunks, held)
  {
    forall k | |held| <= k < |chunks| ensures !Needed(chunks, k) {
      FlattenMonotone(chunks, |held|, k);
      FlattenMonotone(chunks, |held| + 1, k + 1);
    }
  }

  /**
   * The loop the two readers share: everything up to the first newline, if a read ends there, and the
   * number of reads consumed. The result is decided by the stream and by whether a read ends right
   * after the newline; at no time does the buffer hold more than one byte over the limit.
   */
  method ReadLine(chunks: seq<seq<Byte>>) returns (r: Result<seq<Byte>, FrameError>, used: nat, ghost held: seq<seq<Byte>>)
    requires Reads(chunks)
    ensures r == FrameOf(Flatten(chunks), ReadEndsAt(chunks, Line(Flatten(chunks)) + 1))
    ensures r.Ok? ==> used <= |chunks| && |Flatten(chunks[..used])| == |r.value| + 1
    ensures Holds(chunks, held) && HoldsAll(chunks, held)
    ensures r.Ok? ==> held != [] && held[|held| - 1] == r.value
  {
    var frame: seq<Byte> := [];
    held := [];
    used := 0;
    while used < |chunks|
      invariant used <= |chunks| && |held| == used
      invariant frame == Flatten(chunks[..used]) && NEWLINE !in frame && |frame| <= MAX_FRAME
      invariant Holds(chunks, held)
    {
      var read := chunks[used];
      NewlineSeen(chunks, used, frame);
      var newline := Line(read);
      if newline < |read| {
        HoldsEnough(chunks, held);
        if |frame| + newline > MAX_FRAME {
          return Err(TooLarge), used, held;
        }
        if newline + 1 != |read| {
          NoReadEndsInside(chunks, used, |frame| + newline + 1);
          return Err(Invalid), used, held;
        }
        FrameEndsHere(chunks, used, frame, frame + read[..newline]);
        frame := frame + read[..newline];
        HoldsMore(chunks, held, frame);
        held := held + [frame];
        used := used + 1;
        if frame == [] {
          return Err(Invalid), used, held;
        }
        return Ok(frame), used, held;
      }
      var remaining := MAX_FRAME + 1 - |frame|;
      var kept := Least(|read|, remaining);
      ReadTakenIn(chunks, used, frame, kept);
      frame := frame + read[..kept];
      HoldsMore(chunks, held, frame);
      held := held + [frame];
      if |frame| > MAX_FRAME || |read| > remaining {
        HoldsEnough(chunks, held);
        return Err(TooLarge), used, held;
      }
      assert read[..kept] == read;
      used := used + 1;
    }
    assert chunks[..used] == chunks;
    LineAfter(frame, []);
    assert frame + [] == frame;
    r := Err(Invalid);
  }

  /** The Core's reader. */
  method ReadFrame(chunks: seq<seq<Byte>>) returns (r: Result<seq<Byte>, FrameError>, ghost held: seq<seq<Byte>>)
    requires Reads(chunks)
    ensures r == CoreResult(chunks)
    ensures Holds(chunks, held) && HoldsAll(chunks, held)
    ensures r.Ok? ==> held != [] && held[|held| - 1] == r.value
  {
    var used;
    r, used, held := ReadLine(chunks);
  }

  /** What the gateway makes of a whole stream: one line of JSON without carriage returns and nothing after it. */
  function ReplyOf(s: seq<Byte>, isJson: seq<Byte> -> bool): (r: Result<seq<Byte>, FrameError>) {
    var n := Line(s);
    if n > MAX_FRAME then Err(TooLarge)
    else if n + 1 != |s| || n == 0 || RETURN in s[..n] || !isJson(s[..n]) then Err(Invalid)
    else Ok(s[..n])
  }

  lemma OnlyWholeStream(chunks: seq<seq<Byte>>, used: nat)
    requires Reads(chunks) && used <= |chunks|
    ensures |Flatten(chunks[..used])| == |Flatten(chunks)| <==> used == |chunks|
  {
    if used < |chunks| {
      FlattenStep(chunks, used);
    } else {
      assert chunks[..used] == chunks;
    }
  }

  /** The gateway's reader: its result is a function of the stream, whatever the chunking. */
  method ReadReply(chunks: seq<seq<Byte>>, isJson: seq<Byte> -> bool)
    returns (r: Result<seq<Byte>, FrameError>, ghost held: seq<seq<Byte>>)
    requires Reads(chunks)
    ensures r == ReplyOf(Flatten(chunks), isJson)
    ensures Holds(chunks, held) && HoldsAll(chunks, held)
    ensures r.Ok? ==> held != [] && held[|held| - 1] == r.value
  {
    var line, used;
    line, used, held := ReadLine(chunks);
    ghost var s := Flatten(chunks);
    WholeStreamIsBoundary(chunks);
    if line.Err? {
      return Err(line.error), held;
    }
    OnlyWholeStream(chunks, used);
    assert line.value == s[..Line(s)];
    if RETURN in line.value || !isJson(line.value) {
      return Err(Invalid), held;
    }
    if used < |chunks| {
      return Err(Invalid), held;
    }
    return line, held;
  }

  lemma WholeStreamIsBoundary(chunks: seq<seq<Byte>>)
    ensures ReadEndsAt(chunks, |Flatten(chunks)|)
  {
    assert chunks[..|chunks|] == chunks;
  }

  /** A single frame is read identically from every chunking. */
  lemma FrameChunkingIrrelevant(chunks: seq<seq<Byte>>, body: seq<Byte>)
    requires Flatten(chunks) == body + [NEWLINE] && NEWLINE !in body
    ensures CoreResult(chunks)
         == if |body| > MAX_FRAME then Err(TooLarge) else if body == [] then Err(Invalid) else Ok(body)
  {
    LineAfter(body, [NEWLINE]);
    assert Line([NEWLINE]) == 0;
    WholeStreamIsBoundary(chunks);
    assert Flatten(chunks)[..|body|] == body;
  }

  /** With more bytes behind the frame, the Core's reader succeeds exactly when a read happens to end at the newline. */
  lemma TrailingBytesNeedBoundary(chunks: seq<seq<Byte>>, body: seq<Byte>, rest: seq<Byte>)
    requires Flatten(chunks) == body + [NEWLINE] + rest && NEWLINE !in body && 1 <= |body| <= MAX_FRAME
    ensures CoreResult(chunks) == Ok(body) <==> ReadEndsAt(chunks, |body| + 1)
  {
    Associative(body, [NEWLINE], rest);
    LineAfter(body, [NEWLINE] + rest);
    assert Flatten(chunks)[..|body|] == body;
  }

  // ---- When the chunking does not matter ----

  ghost predicate ChunksOf(chunks: seq<seq<Byte>>, s: seq<Byte>) {
    Reads(chunks) && Flatten(chunks) == s
  }

  /** Every way of cutting the stream into reads gives the Core's reader the same result. */
  ghost predicate ReadAlike(s: seq<Byte>) {
    forall a, b :: ChunksOf(a, s) && ChunksOf(b, s) ==> CoreResult(a) == CoreResult(b)
  }

  /** The line is empty or too long, or it has no newline, or nothing comes after its newline. */
  predicate Decided(s: seq<Byte>) {
    Line(s) == 0 || Line(s) > MAX_FRAME || Line(s) == |s| || Line(s) + 1 == |s|
  }

  lemma DecidedAlike(s: seq<Byte>, chunks: seq<seq<Byte>>)
    requires Decided(s) && ChunksOf(chunks, s)
    ensures CoreResult(chunks) == FrameOf(s, true)
  {
    WholeStreamIsBoundary(chunks);
  }

  /** Any other stream is refused when it comes in one read. */
  lemma InOneRead(s: seq<Byte>, whole: seq<seq<Byte>>)
    requires !Decided(s) && whole == [s]
    ensures ChunksOf(whole, s) && CoreResult(whole) == Err(Invalid)
  {
    FlattenTwo(s, []);
    assert whole[..0] == [] && whole[..1] == whole;
    NoReadEndsInside(whole, 0, Line(s) + 1);
  }

  /** It is accepted when a read ends at its newline. */
  lemma InTwoReads(s: seq<Byte>, head: seq<Byte>, tail: seq<Byte>)
    requires !Decided(s) && s == head + tail && |head| == Line(s) + 1
    ensures ChunksOf([head, tail], s) && CoreResult([head, tail]) == Ok(s[..Line(s)])
  {
    FlattenTwo(head, tail);
    assert ReadEndsAt([head, tail], Line(s) + 1);
  }

  /** The result is independent of the chunking exactly for these streams. */
  lemma ChunkingIrrelevant(s: seq<Byte>)
    ensures ReadAlike(s) <==> Decided(s)
  {
    if Decided(s) {
      forall a, b | ChunksOf(a, s) && ChunksOf(b, s) ensures CoreResult(a) == CoreResult(b) {
        DecidedAlike(s, a);
        DecidedAlike(s, b);
      }
    } else {
      var head, tail := s[..Line(s) + 1], s[Line(s) + 1..];
      InOneRead(s, [s]);
      assert s == head + tail;
      InTwoReads(s, head, tail);
    }
  }
}
