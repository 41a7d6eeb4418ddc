/**
 * The response the Core's proxy gateway sends back to a plugin: conversion with its size prediction, and
 * encoding. The order in which a hash map lists its entries is a parameter (`arrange`), and so is the
 * way the serializer cuts its output into writes (`cut`).
 */
module WireResponses {
  import opened Collections
  import opened Base64
  import opened JsonText
  import opened WireFrames

  type Name = seq<Byte>
  type Headers = map<Name, seq<Byte>>
  type Arrange = Headers -> seq<Name>

  datatype Header = Header(name: Name, value: seq<Byte>)

  datatype CoreResponse = CoreResponse(status: nat, headers: seq<Header>, body: seq<Byte>)

  datatype WireError = WireError(code: seq<Byte>, summary: seq<Byte>, retryAfterSeconds: Option<nat>)

  datatype Wire = Wire(status: nat, headers: Headers, bodyBase64: Option<seq<Byte>>, error: Option<WireError>)

  // ---- The JSON frame ----

  function HeaderFields(headers: Headers, names: seq<Name>): (r: seq<Byte>)
    ensures Unbroken(r)
  {
    if names == [] then []
    else
      var value := if names[0] in headers then headers[names[0]] else [];
      Quote(names[0]) + Ascii(":") + Quote(value)
      + (if |names| == 1 then [] else Ascii(",") + HeaderFields(headers, names[1..]))
  }

  function ErrorField(error: Option<WireError>): (r: seq<Byte>)
    ensures Unbroken(r)
  {
    match error
    case None => Ascii("null")
    case Some(e) =>
      Ascii("{\"code\":") + Quote(e.code) + Ascii(",\"summary\":") + Quote(e.summary)
      + (if e.retryAfterSeconds.None? then [] else Ascii(",\"retryAfterSeconds\":") + Decimal(e.retryAfterSeconds.value))
      + Ascii("}")
  }

  function BodyField(body: Option<seq<Byte>>): (r: seq<Byte>)
    ensures Unbroken(r)
  {
    if body.None? then Ascii("null") else Quote(body.value)
  }

  function Head(w: Wire, arrange: Arrange): (r: seq<Byte>)
    ensures r != [] && Unbroken(r)
  {
    Ascii("{\"status\":") + Decimal(w.status) + Ascii(",\"headers\":{")
    + HeaderFields(w.headers, arrange(w.headers)) + Ascii("},\"bodyBase64\":")
  }

  function Json(w: Wire, arrange: Arrange): (r: seq<Byte>)
    ensures r != [] && Unbroken(r)
  {
    Head(w, arrange) + BodyField(w.bodyBase64) + Ascii(",\"error\":") + ErrorField(w.error) + Ascii("}")
  }

  // ---- Predicting the size ----

  /** The counting writer: it takes a write whole or refuses it and stays as it is. */
  class FrameSizeCounter {
    var bytes: nat
    var exceeded: bool

    constructor ()
      ensures bytes == 0 && !exceeded
    {
      bytes := 0;
      exceeded := false;
    }

    method Write(buffer: seq<Byte>) returns (ok: bool)
      modifies this
      ensures ok <==> old(bytes) + |buffer| <= MAX_FRAME
      ensures ok ==> bytes == old(bytes) + |buffer| && exceeded == old(exceeded)
      ensures !ok ==> bytes == old(bytes) && exceeded
    {
      var total := bytes + |buffer|;
      if total <= MAX_FRAME {
        bytes := total;
        return true;
      }
      exceeded := true;
      return false;
    }
  }

  /** However the serializer cuts its output, the counter reports its size exactly when it fits. */
  method SerializedFrameBytes(writes: seq<seq<Byte>>) returns (r: Result<nat, FrameError>)
    ensures r == if |Flatten(writes)| <= MAX_FRAME then Ok(|Flatten(writes)|) else Err(TooLarge)
  {
    var counter := new FrameSizeCounter();
    for i := 0 to |writes|
      invariant counter.bytes == |Flatten(writes[..i])| <= MAX_FRAME && !counter.exceeded
    {
      FlattenStep(writes, i);
      var ok := counter.Write(writes[i]);
      if !ok {
        return Err(if counter.exceeded then TooLarge else Invalid);
      }
    }
    assert writes[..|writes|] == writes;
    return Ok(counter.bytes);
  }

  /** Header text: visible ASCII and tabs. */
  predicate Textual(value: seq<Byte>) {
    forall b :: b in value ==> 0x20 <= b < 0x7F || b == 9
  }

  ghost predicate ValidHeaders(headers: seq<Header>) {
    && (forall h :: h in headers ==> Textual(h.value))
    && (forall i, j :: 0 <= i < j < |headers| ==> headers[i].name != headers[j].name)
  }

  function Collected(headers: seq<Header>): (m: Headers)
    ensures m.Keys == set h | h in headers :: h.name
  {
    if headers == [] then map[]
    else
      var last := |headers| - 1;
      assert headers == headers[..last] + [headers[last]];
      Collected(headers[..last])[headers[last].name := headers[last].value]
  }

  /** The response as it is meant to travel. */
  function Complete(response: CoreResponse): (w: Wire) {
    Wire(response.status, Collected(response.headers), Some(EncodeStandard(response.body)), None)
  }

  /** Filling in the body adds exactly the bytes of its base64 text: none of them is escaped. */
  lemma BodyAddsItsLength(w: Wire, body: seq<Byte>, arrange: Arrange)
    requires w.bodyBase64 == Some([])
    ensures |Json(w.(bodyBase64 := Some(EncodeStandard(body))), arrange)| == |Json(w, arrange)| + (|body| + 2) / 3 * 4
  {
    var text := EncodeStandard(body);
    forall i | 0 <= i < |text| ensures 0x20 <= text[i] && text[i] != QUOTE && text[i] != BACKSLASH {
      StandardIsPlain(body, text[i]);
    }
    EscapePlain(text);
    StandardLength(body);
    assert |BodyField(Some(text))| == |BodyField(Some([]))| + |text|;
  }

  ghost predicate CutsOnly(cut: seq<Byte> -> seq<seq<Byte>>) {
    forall text :: Flatten(cut(text)) == text
  }

  ghost predicate Named(headers: seq<Header>, name: Name) {
    exists i :: 0 <= i < |headers| && headers[i].name == name
  }

  lemma CollectedNames(headers: seq<Header>, name: Name)
    ensures name in Collected(headers) <==> Named(headers, name)
  {
    if name in Collected(headers) {
      var h :| h in headers && h.name == name;
      var i :| 0 <= i < |headers| && headers[i] == h;
    }
  }

  lemma CollectedSnoc(headers: seq<Header>, h: Header)
    ensures Collected(headers + [h]) == Collected(headers)[h.name := h.value]
  {
    assert (headers + [h])[..|headers|] == headers;
  }

  lemma ValidSnoc(headers: seq<Header>, h: Header)
    requires ValidHeaders(headers)
    ensures ValidHeaders(headers + [h]) <==> Textual(h.value) && !Named(headers, h.name)
  {
    var all := headers + [h];
    assert all[|headers|] == h && h in all;
    if Named(headers, h.name) {
      var i :| 0 <= i < |headers| && headers[i].name == h.name;
      assert all[i].name == all[|headers|].name;
    }
  }

  /** A list with an unusable beginning is unusable. */
  lemma ValidPrefix(headers: seq<Header>, n: nat)
    requires n <= |headers| && ValidHeaders(headers)
    ensures ValidHeaders(headers[..n])
  {
  }

  method CollectHeaders(headers: seq<Header>) returns (r: Option<Headers>)
    ensures r == if ValidHeaders(headers) then Some(Collected(headers)) else None
  {
    var m: Headers := map[];
    for i := 0 to |headers|
      invariant m == Collected(headers[..i])
      invariant ValidHeaders(headers[..i])
    {
      var h := headers[i];
      assert headers[..i + 1] == headers[..i] + [h];
      CollectedSnoc(headers[..i], h);
      CollectedNames(headers[..i], h.name);
      ValidSnoc(headers[..i], h);
      if ValidHeaders(headers) { ValidPrefix(headers, i + 1); }
      if !Textual(h.value) {
        return None;
      }
      if h.name in m {
        return None;
      }
      m := m[h.name := h.value];
    }
    assert headers[..|headers|] == headers;
    return Some(m);
  }

  /** A response with readable, distinct headers is accepted exactly when its whole frame fits. */
  method FromCore(response: CoreResponse, arrange: Arrange, cut: seq<Byte> -> seq<seq<Byte>>)
    returns (r: Result<Wire, FrameError>)
    requires CutsOnly(cut)
    ensures !ValidHeaders(response.headers) ==> r == Err(Invalid)
    ensures ValidHeaders(response.headers) ==>
              r == if |Json(Complete(response), arrange)| <= MAX_FRAME then Ok(Complete(response)) else Err(TooLarge)
  {
    var headers := CollectHeaders(response.headers);
    if headers.None? {
      return Err(Invalid);
    }
    var wire := Wire(response.status, headers.value, Some([]), None);
    var fixed := SerializedFrameBytes(cut(Json(wire, arrange)));
    BodyAddsItsLength(wire, response.body, arrange);
    if fixed.Err? {
      return Err(fixed.error);
    }
    if (|response.body| + 2) / 3 * 4 > MAX_FRAME - fixed.value {
      return Err(TooLarge);
    }
    return Ok(wire.(bodyBase64 := Some(EncodeStandard(response.body))));
  }

  // ---- Sending it ----

  function ErrorResponse(status: nat, code: string, summary: string): (w: Wire) {
    Wire(status, map[], None, Some(WireError(Ascii(code), Ascii(summary), None)))
  }

  function MessageTooLarge(): (w: Wire) {
    ErrorResponse(502, "MESSAGE_TOO_LARGE", "Proxy response exceeded the message limit")
  }

  /** The JSON that is sent for `w`. */
  function Sent(w: Wire, arrange: Arrange): (r: seq<Byte>) {
    if |Json(w, arrange)| > MAX_FRAME then Json(MessageTooLarge(), arrange) else Json(w, arrange)
  }

  function EncodeResponse(w: Wire, arrange: Arrange): (r: seq<Byte>) {
    Sent(w, arrange) + [NEWLINE]
  }

  lemma {:induction false} EscapeGrowth(s: seq<Byte>)
    ensures |Escape(s)| <= 6 * |s|
  {
    if s != [] { EscapeGrowth(s[1..]); }
  }

  /** The replacement always fits. */
  lemma MessageTooLargeFits(arrange: Arrange)
    requires arrange(map[]) == []
    ensures |Json(MessageTooLarge(), arrange)| <= MAX_FRAME
  {
    var e := MessageTooLarge().error.value;
    EscapeGrowth(e.code);
    EscapeGrowth(e.summary);
    assert HeaderFields(map[], []) == [];
    assert |Decimal(502)| == 3 by { assert |Decimal(50)| == 2; }
  }

  /** One of two lines, whichever is chosen, is one line. */
  lemma EitherIsOneLine(own: seq<Byte>, replacement: seq<Byte>)
    requires own != [] && Unbroken(own) && replacement != [] && Unbroken(replacement) && |replacement| <= MAX_FRAME
    ensures var sent := if |own| > MAX_FRAME then replacement else own;
            sent != [] && Unbroken(sent) && |sent| <= MAX_FRAME
  {
  }

  lemma SentIsOneLine(w: Wire, arrange: Arrange)
    requires arrange(map[]) == []
    ensures Sent(w, arrange) != [] && Unbroken(Sent(w, arrange)) && |Sent(w, arrange)| <= MAX_FRAME
  {
    MessageTooLargeFits(arrange);
    EitherIsOneLine(Json(w, arrange), Json(MessageTooLarge(), arrange));
  }

  /** A line without control bytes is read back whole from every chunking, by both readers. */
  lemma LineArrives(text: seq<Byte>, chunks: seq<seq<Byte>>, isJson: seq<Byte> -> bool)
    requires text != [] && Unbroken(text) && |text| <= MAX_FRAME && isJson(text)
    requires Flatten(chunks) == text + [NEWLINE]
    ensures ReplyOf(Flatten(chunks), isJson) == Ok(text)
    ensures CoreResult(chunks) == Ok(text)
  {
    assert NEWLINE !in text && RETURN !in text;
    LineAfter(text, [NEWLINE]);
    assert (text + [NEWLINE])[..|text|] == text;
    FrameChunkingIrrelevant(chunks, text);
  }

  /**
   * Whatever the response and however the stream is cut into reads, the gateway gets exactly the JSON
   * that was sent, and the JSON of a response that fits is its own.
   */
  lemma ResponseArrives(w: Wire, arrange: Arrange, chunks: seq<seq<Byte>>, isJson: seq<Byte> -> bool)
    requires arrange(map[]) == []
    requires Flatten(chunks) == EncodeResponse(w, arrange)
    requires isJson(Sent(w, arrange))
    ensures ReplyOf(Flatten(chunks), isJson) == Ok(Sent(w, arrange))
    ensures |Json(w, arrange)| <= MAX_FRAME ==> ReplyOf(Flatten(chunks), isJson) == Ok(Json(w, arrange))
  {
    SentIsOneLine(w, arrange);
    LineArrives(Sent(w, arrange), chunks, isJson);
  }
}
