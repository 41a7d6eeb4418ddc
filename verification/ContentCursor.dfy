/**
 * The opaque multi-source cursor of paged content requests. The digest behind a request's fingerprint and the
 * JSON reader are parameters: the reader may accept more than the compact text the encoder writes.
 */
module ContentCursor {
  import opened Collections
  import opened Base64
  import opened JsonText
  import opened Sorting

  const VERSION: nat := 1
  const MAX_SOURCES: nat := 32
  const MAX_SOURCE_CURSOR: nat := 4 * 1024
  const MAX_DECODED: nat := 16 * 1024
  const MAX_ENCODED: nat := 24 * 1024

  type Text = seq<Byte>

  datatype Operation = Search | Discover

  datatype Binding = Binding(operation: Operation, query: Option<Text>, platform: Option<Text>, plugin: Option<Text>)

  datatype SourceCursor = SourceCursor(platform: Text, plugin: Text, cursor: Text)

  datatype Envelope = Envelope(version: nat, fingerprint: Text, sources: seq<SourceCursor>)

  datatype CursorError =
    | EncodedTooLarge
    | DecodedTooLarge
    | TooManySources
    | SourceCursorTooLarge
    | Malformed
    | UnsupportedVersion
    | BindingMismatch

  // ---- Validity of the source list ----

  predicate ValidPlatform(id: Text) {
    && 0 < |id| <= 128
    && forall i :: 0 <= i < |id| ==> 97 <= id[i] <= 122 || 48 <= id[i] <= 57 || id[i] in {46, 95, 45}
  }

  predicate Before(a: Text, b: Text) {
    LexLeq(a, b) && a != b
  }

  lemma BeforeTransitive(a: Text, b: Text, c: Text)
    requires Before(a, b) && Before(b, c)
    ensures Before(a, c)
  {
    LexTransitive(a, b, c);
    LexTotal(a, b);
  }

  predicate ValidSource(s: SourceCursor) {
    0 < |s.cursor| <= MAX_SOURCE_CURSOR && ValidPlatform(s.platform)
  }

  ghost predicate AscendingPlatforms(sources: seq<SourceCursor>) {
    forall i, j :: 0 <= i < j < |sources| ==> Before(sources[i].platform, sources[j].platform)
  }

  ghost predicate ValidSources(sources: seq<SourceCursor>) {
    && |sources| <= MAX_SOURCES
    && (forall i :: 0 <= i < |sources| ==> ValidSource(sources[i]))
    && AscendingPlatforms(sources)
  }

  /** What source `i` fails with, in the order of the checks. */
  function FaultAt(sources: seq<SourceCursor>, i: nat): (fault: Option<CursorError>)
    requires i < |sources|
  {
    var s := sources[i];
    if s.cursor == [] then Some(Malformed)
    else if |s.cursor| > MAX_SOURCE_CURSOR then Some(SourceCursorTooLarge)
    else if !ValidPlatform(s.platform) then Some(Malformed)
    else if i > 0 && LexLeq(s.platform, sources[i - 1].platform) then Some(Malformed)
    else None
  }

  function FirstFault(sources: seq<SourceCursor>, from: nat): (fault: Option<CursorError>)
    requires from <= |sources|
    decreases |sources| - from
  {
    if from == |sources| then None
    else if FaultAt(sources, from).Some? then FaultAt(sources, from)
    else FirstFault(sources, from + 1)
  }

  function Fault(sources: seq<SourceCursor>): (fault: Option<CursorError>) {
    if |sources| > MAX_SOURCES then Some(TooManySources) else FirstFault(sources, 0)
  }

  lemma {:induction false} FirstFaultNone(sources: seq<SourceCursor>, from: nat)
    requires from <= |sources|
    ensures FirstFault(sources, from).None? <==> forall i :: from <= i < |sources| ==> FaultAt(sources, i).None?
    decreases |sources| - from
  {
    if from < |sources| { FirstFaultNone(sources, from + 1); }
  }

  lemma {:induction false} NeighboursAscend(sources: seq<SourceCursor>, i: nat, j: nat)
    requires i < j < |sources|
    requires forall k :: 0 < k < |sources| ==> Before(sources[k - 1].platform, sources[k].platform)
    ensures Before(sources[i].platform, sources[j].platform)
    decreases j
  {
    assert Before(sources[j - 1].platform, sources[j].platform);
    if i + 1 < j {
      NeighboursAscend(sources, i, j - 1);
      BeforeTransitive(sources[i].platform, sources[j - 1].platform, sources[j].platform);
    }
  }

  /** Comparing neighbours is enough: no fault is found exactly when the whole list is valid. */
  lemma NoFault(sources: seq<SourceCursor>)
    ensures Fault(sources).None? <==> ValidSources(sources)
  {
    FirstFaultNone(sources, 0);
    forall k | 0 < k < |sources|
      ensures !LexLeq(sources[k].platform, sources[k - 1].platform) <==> Before(sources[k - 1].platform, sources[k].platform)
    {
      LexTotal(sources[k - 1].platform, sources[k].platform);
    }
    if Fault(sources).None? {
      forall i | 0 <= i < |sources| ensures ValidSource(sources[i]) { assert FaultAt(sources, i).None?; }
      forall k | 0 < k < |sources| ensures Before(sources[k - 1].platform, sources[k].platform) {
        assert FaultAt(sources, k).None?;
      }
      forall i, j | 0 <= i < j < |sources| ensures Before(sources[i].platform, sources[j].platform) {
        NeighboursAscend(sources, i, j);
      }
    }
    if ValidSources(sources) {
      forall i | 0 <= i < |sources| ensures FaultAt(sources, i).None? {
        assert ValidSource(sources[i]);
        if i > 0 { assert Before(sources[i - 1].platform, sources[i].platform); }
      }
    }
  }

  method ValidateSources(sources: seq<SourceCursor>) returns (fault: Option<CursorError>)
    ensures fault == Fault(sources)
    ensures fault.None? <==> ValidSources(sources)
  {
    NoFault(sources);
    if |sources| > MAX_SOURCES {
      return Some(TooManySources);
    }
    var previous: Option<Text> := None;
    for i := 0 to |sources|
      invariant previous == if i == 0 then None else Some(sources[i - 1].platform)
      invariant FirstFault(sources, 0) == FirstFault(sources, i)
    {
      var s := sources[i];
      if s.cursor == [] {
        return Some(Malformed);
      }
      if |s.cursor| > MAX_SOURCE_CURSOR {
        return Some(SourceCursorTooLarge);
      }
      if !ValidPlatform(s.platform) {
        return Some(Malformed);
      }
      if previous.Some? && LexLeq(s.platform, previous.value) {
        return Some(Malformed);
      }
      previous := Some(s.platform);
    }
    return None;
  }

  // ---- The JSON envelope ----

  /** A fixed piece, a quoted value, and what follows. */
  function Field(piece: Text, value: Text, rest: Text): (r: Text) {
    piece + (Quote(value) + rest)
  }

  function SourceJson(s: SourceCursor, rest: Text): (r: Text) {
    Field(Ascii("{\"platformId\":"), s.platform,
          Field(Ascii(",\"pluginId\":"), s.plugin,
                Field(Ascii(",\"cursor\":"), s.cursor, Ascii("}") + rest)))
  }

  const COMMA: Byte := 44
  const CLOSE: Byte := 93

  /** The elements and the closing bracket of a non-empty list, and what follows. */
  function ListJson<T>(one: (T, Text) -> Text, items: seq<T>, rest: Text): (r: Text)
    requires items != []
  {
    one(items[0], if |items| == 1 then [CLOSE] + rest else [COMMA] + ListJson(one, items[1..], rest))
  }

  function Serialize(fingerprint: Text, sources: seq<SourceCursor>): (r: Text)
    requires sources != []
  {
    Field(Ascii("{\"version\":1,\"fingerprint\":"), fingerprint,
          Ascii(",\"sources\":[") + ListJson(SourceJson, sources, Ascii("}")))
  }

  // ---- Reading the compact text back ----

  /** A quoted string behind a fixed piece. */
  function ReadField(text: Text, piece: Text): (r: Option<Read>)
    ensures r.Some? ==> |r.value.rest| < |text|
  {
    var rest := Expect(text, piece);
    if rest.None? then None else ReadQuoted(rest.value)
  }

  lemma ReadFieldBack(piece: Text, value: Text, rest: Text)
    ensures ReadField(Field(piece, value, rest), piece) == Some(Read(value, rest))
  {
    ExpectFinds(piece, Quote(value) + rest);
    ReadQuotedQuote(value, rest);
  }

  function ReadSource(text: Text): (r: Option<(SourceCursor, Text)>)
    ensures r.Some? ==> |r.value.1| < |text|
  {
    var platform := ReadField(text, Ascii("{\"platformId\":"));
    if platform.None? then None else
    var plugin := ReadField(platform.value.rest, Ascii(",\"pluginId\":"));
    if plugin.None? then None else
    var cursor := ReadField(plugin.value.rest, Ascii(",\"cursor\":"));
    if cursor.None? then None else
    var rest := Expect(cursor.value.rest, Ascii("}"));
    if rest.None? then None
    else Some((SourceCursor(platform.value.value, plugin.value.value, cursor.value.value), rest.value))
  }

  lemma ReadSourceBack(s: SourceCursor, rest: Text)
    ensures ReadSource(SourceJson(s, rest)) == Some((s, rest))
  {
    var b, c, d := Ascii(",\"pluginId\":"), Ascii(",\"cursor\":"), Ascii("}");
    var r2 := Field(c, s.cursor, d + rest);
    ReadFieldBack(Ascii("{\"platformId\":"), s.platform, Field(b, s.plugin, r2));
    ReadFieldBack(b, s.plugin, r2);
    ReadFieldBack(c, s.cursor, d + rest);
    ExpectFinds(d, rest);
  }

  datatype ListRead<T> = ListRead(items: seq<T>, rest: Text)

  /** Read list elements with `one` up to the closing bracket. */
  function ReadList<T>(one: Text -> Option<(T, Text)>, text: Text): (r: Option<ListRead<T>>)
    decreases |text|
  {
    var first := one(text);
    if first.None? || first.value.1 == [] || |first.value.1| > |text| then None
    else
      var item, rest := first.value.0, first.value.1;
      if rest[0] == CLOSE then Some(ListRead([item], rest[1..]))
      else if rest[0] != COMMA then None
      else
        var more := ReadList(one, rest[1..]);
        if more.None? then None else Some(ListRead([item] + more.value.items, more.value.rest))
  }

  /** `read` reads back what `write` wrote, consuming it. */
  ghost predicate Inverts<T(!new)>(read: Text -> Option<(T, Text)>, write: (T, Text) -> Text) {
    forall x, rest :: read(write(x, rest)) == Some((x, rest)) && |rest| < |write(x, rest)|
  }

  lemma {:induction false} ReadListBack<T(!new)>(read: Text -> Option<(T, Text)>, write: (T, Text) -> Text, items: seq<T>, rest: Text)
    requires items != [] && Inverts(read, write)
    ensures ReadList(read, ListJson(write, items, rest)) == Some(ListRead(items, rest))
    decreases |items|
  {
    if |items| == 1 {
      assert items == [items[0]];
      var after := [CLOSE] + rest;
      assert read(write(items[0], after)) == Some((items[0], after));
      assert after[1..] == rest;
    } else {
      assert items == [items[0]] + items[1..];
      var tail := ListJson(write, items[1..], rest);
      var after := [COMMA] + tail;
      assert read(write(items[0], after)) == Some((items[0], after));
      assert after[1..] == tail;
      ReadListBack(read, write, items[1..], rest);
    }
  }

  lemma SourcesInvert()
    ensures Inverts(ReadSource, SourceJson)
  {
    forall s: SourceCursor, rest: Text
      ensures ReadSource(SourceJson(s, rest)) == Some((s, rest)) && |rest| < |SourceJson(s, rest)|
    {
      ReadSourceBack(s, rest);
    }
  }

  /** A reader of exactly the compact text. */
  function ParseCompact(text: Text): (r: Option<Envelope>) {
    var fingerprint := ReadField(text, Ascii("{\"version\":1,\"fingerprint\":"));
    if fingerprint.None? then None else
    var list := Expect(fingerprint.value.rest, Ascii(",\"sources\":["));
    if list.None? then None else
    var sources := ReadList(ReadSource, list.value);
    if sources.None? || sources.value.rest != Ascii("}") then None
    else Some(Envelope(VERSION, fingerprint.value.value, sources.value.items))
  }

  /** A JSON reader that returns what was written, for one envelope. */
  ghost predicate ReadsBack(parse: Text -> Option<Envelope>, fingerprint: Text, sources: seq<SourceCursor>)
    requires sources != []
  {
    parse(Serialize(fingerprint, sources)) == Some(Envelope(VERSION, fingerprint, sources))
  }

  /** The written text determines the envelope: some reader reads every one of them back. */
  lemma CompactReadsBack(fingerprint: Text, sources: seq<SourceCursor>)
    requires sources != []
    ensures ReadsBack(ParseCompact, fingerprint, sources)
  {
    var b, c := Ascii(",\"sources\":["), Ascii("}");
    var list := ListJson(SourceJson, sources, c);
    ReadFieldBack(Ascii("{\"version\":1,\"fingerprint\":"), fingerprint, b + list);
    ExpectFinds(b, list);
    SourcesInvert();
    ReadListBack(ReadSource, SourceJson, sources, c);
  }

  // ---- The binding's fingerprint ----

  function OptionalJson(value: Option<Text>): (r: Text)
    ensures r != []
  {
    if value.None? then Ascii("null") else Quote(value.value)
  }

  function OperationJson(operation: Operation): (r: Text) {
    if operation.Search? then Ascii("search") else Ascii("discover")
  }

  /** A fixed piece, an optional value, and what follows. */
  function OptionalField(piece: Text, value: Option<Text>, rest: Text): (r: Text) {
    piece + (OptionalJson(value) + rest)
  }

  function BindingJson(b: Binding): (r: Text) {
    OptionalField(Ascii("{\"operation\":"), Some(OperationJson(b.operation)),
                  OptionalField(Ascii(",\"query\":"), b.query,
                                OptionalField(Ascii(",\"platformId\":"), b.platform,
                                              OptionalField(Ascii(",\"pluginId\":"), b.plugin, Ascii("}")))))
  }

  /** Two optional values written at the same place are the same, and so is what follows. */
  lemma OptionalUnique(x: Option<Text>, restX: Text, y: Option<Text>, restY: Text)
    requires OptionalJson(x) + restX == OptionalJson(y) + restY
    ensures x == y && restX == restY
  {
    var left, right := OptionalJson(x) + restX, OptionalJson(y) + restY;
    assert left[0] == OptionalJson(x)[0] && right[0] == OptionalJson(y)[0];
    assert Ascii("null")[0] == 110;
    if x.Some? && y.Some? {
      ReadQuotedQuote(x.value, restX);
      ReadQuotedQuote(y.value, restY);
    } else if x.None? && y.None? {
      assert restX == left[4..] && restY == right[4..];
    }
  }

  lemma FieldUnique(piece: Text, x: Option<Text>, restX: Text, y: Option<Text>, restY: Text)
    requires OptionalField(piece, x, restX) == OptionalField(piece, y, restY)
    ensures x == y && restX == restY
  {
    var left, right := OptionalJson(x) + restX, OptionalJson(y) + restY;
    assert left == (piece + left)[|piece|..] && right == (piece + right)[|piece|..];
    OptionalUnique(x, restX, y, restY);
  }

  /** The canonical text of a request tells requests apart. */
  lemma BindingJsonInjective(b: Binding, c: Binding)
    requires BindingJson(b) == BindingJson(c)
    ensures b == c
  {
    var p0, p1, p2, p3, p4 :=
      Ascii("{\"operation\":"), Ascii(",\"query\":"), Ascii(",\"platformId\":"), Ascii(",\"pluginId\":"), Ascii("}");
    var b3, c3 := OptionalField(p3, b.plugin, p4), OptionalField(p3, c.plugin, p4);
    var b2, c2 := OptionalField(p2, b.platform, b3), OptionalField(p2, c.platform, c3);
    var b1, c1 := OptionalField(p1, b.query, b2), OptionalField(p1, c.query, c2);
    FieldUnique(p0, Some(OperationJson(b.operation)), b1, Some(OperationJson(c.operation)), c1);
    FieldUnique(p1, b.query, b2, c.query, c2);
    FieldUnique(p2, b.platform, b3, c.platform, c3);
    FieldUnique(p3, b.plugin, p4, c.plugin, p4);
    assert |OperationJson(b.operation)| == |OperationJson(c.operation)|;
  }

  function Fingerprint(digest: Text -> Text, b: Binding): (r: Text) {
    EncodeUrl(digest(BindingJson(b)))
  }

  /** Fingerprints differ for different requests, unless the digest of their texts collides. */
  lemma FingerprintSeparates(digest: Text -> Text, b: Binding, c: Binding)
    requires b != c
    requires digest(BindingJson(b)) == digest(BindingJson(c)) ==> BindingJson(b) == BindingJson(c)
    ensures Fingerprint(digest, b) != Fingerprint(digest, c)
  {
    if Fingerprint(digest, b) == Fingerprint(digest, c) {
      UrlRoundTrip(digest(BindingJson(b)), Fingerprint(digest, b));
      UrlRoundTrip(digest(BindingJson(c)), Fingerprint(digest, c));
      BindingJsonInjective(b, c);
    }
  }

  // ---- Encoding and decoding ----

  function Encode(fingerprint: Binding -> Text, b: Binding, sources: seq<SourceCursor>): (r: Result<Option<Text>, CursorError>) {
    if sources == [] then Ok(None)
    else if Fault(sources).Some? then Err(Fault(sources).value)
    else
      var decoded := Serialize(fingerprint(b), sources);
      if |decoded| > MAX_DECODED then Err(DecodedTooLarge)
      else if |EncodeUrl(decoded)| > MAX_ENCODED then Err(EncodedTooLarge)
      else Ok(Some(EncodeUrl(decoded)))
  }

  function Decode(fingerprint: Binding -> Text, parse: Text -> Option<Envelope>, text: Text, b: Binding)
    : (r: Result<seq<SourceCursor>, CursorError>)
  {
    if |text| > MAX_ENCODED then Err(EncodedTooLarge)
    else
      var decoded := DecodeUrl(text);
      if decoded.None? then Err(Malformed)
      else if |decoded.value| > MAX_DECODED then Err(DecodedTooLarge)
      else
        var envelope := parse(decoded.value);
        if envelope.None? then Err(Malformed)
        else if envelope.value.version != VERSION then Err(UnsupportedVersion)
        else if envelope.value.fingerprint != fingerprint(b) then Err(BindingMismatch)
        else if Fault(envelope.value.sources).Some? then Err(Fault(envelope.value.sources).value)
        else Ok(envelope.value.sources)
  }

  /** A valid list can fail to encode in one way only, and exactly when its JSON is over 16 KiB. */
  lemma EncodeValid(fingerprint: Binding -> Text, b: Binding, sources: seq<SourceCursor>)
    requires ValidSources(sources) && sources != []
    ensures Encode(fingerprint, b, sources).Err? <==> |Serialize(fingerprint(b), sources)| > MAX_DECODED
    ensures Encode(fingerprint, b, sources).Err? ==> Encode(fingerprint, b, sources).error == DecodedTooLarge
    ensures Encode(fingerprint, b, sources).Ok? ==>
              Encode(fingerprint, b, sources).value == Some(EncodeUrl(Serialize(fingerprint(b), sources)))
  {
    NoFault(sources);
    UrlLength(Serialize(fingerprint(b), sources));
  }

  /** The limit on the encoded text is never what refuses a list. */
  lemma EncodedLimitNeverFires(fingerprint: Binding -> Text, b: Binding, sources: seq<SourceCursor>)
    ensures Encode(fingerprint, b, sources) != Err(EncodedTooLarge)
  {
    FirstFaultKinds(sources, 0);
    if sources != [] {
      UrlLength(Serialize(fingerprint(b), sources));
    }
  }

  lemma {:induction false} FirstFaultKinds(sources: seq<SourceCursor>, from: nat)
    requires from <= |sources|
    ensures FirstFault(sources, from) in {None, Some(Malformed), Some(SourceCursorTooLarge)}
    decreases |sources| - from
  {
    if from < |sources| { FirstFaultKinds(sources, from + 1); }
  }

  /** What was encoded decodes, under the same request, to exactly the encoded sources. */
  lemma DecodeEncode(fingerprint: Binding -> Text, parse: Text -> Option<Envelope>, b: Binding, sources: seq<SourceCursor>)
    requires sources != [] && ReadsBack(parse, fingerprint(b), sources)
    requires Encode(fingerprint, b, sources).Ok?
    ensures Encode(fingerprint, b, sources).value.Some?
    ensures Decode(fingerprint, parse, Encode(fingerprint, b, sources).value.value, b) == Ok(sources)
  {
    var decoded := Serialize(fingerprint(b), sources);
    UrlRoundTrip(decoded, EncodeUrl(decoded));
  }

  /** Under a request with another fingerprint it is refused. */
  lemma DecodeElsewhere(fingerprint: Binding -> Text, parse: Text -> Option<Envelope>, b: Binding, sources: seq<SourceCursor>, c: Binding)
    requires sources != [] && ReadsBack(parse, fingerprint(b), sources)
    requires Encode(fingerprint, b, sources).Ok?
    requires fingerprint(b) != fingerprint(c)
    ensures Decode(fingerprint, parse, Encode(fingerprint, b, sources).value.value, c) == Err(BindingMismatch)
  {
    var decoded := Serialize(fingerprint(b), sources);
    UrlRoundTrip(decoded, EncodeUrl(decoded));
  }

  /** Whatever the text and the JSON reader, a decoded list is valid: strictly ascending by platform. */
  lemma DecodedValid(fingerprint: Binding -> Text, parse: Text -> Option<Envelope>, text: Text, b: Binding)
    ensures Decode(fingerprint, parse, text, b).Ok? ==> ValidSources(Decode(fingerprint, parse, text, b).value)
  {
    if Decode(fingerprint, parse, text, b).Ok? {
      NoFault(Decode(fingerprint, parse, text, b).value);
    }
  }
}
