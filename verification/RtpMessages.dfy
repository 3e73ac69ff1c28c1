/** The request and response packets of server/internal/integrations/rtpengine/protocol.go:
    a cookie, one space, and a bencoded dictionary. */
module RtpMessages {
  import opened Basics
  import opened Decimal
  import opened Bencode
  import opened BencodeProofs
  import opened BencodeRange
  import opened BencodeExamples
  import opened BencodeCodec

  const SPACE: Byte := 32

  // The keys "command", "result" and "error-reason", byte by byte.
  const COMMAND: GoBytes := [99, 111, 109, 109, 97, 110, 100]
  const RESULT: GoBytes := [114, 101, 115, 117, 108, 116]
  const ERROR_REASON: GoBytes := [101, 114, 114, 111, 114, 45, 114, 101, 97, 115, 111, 110]

  // ---- cookies ----

  function HexDigit(n: nat): Byte
    requires n < 16
  {
    if n < 10 then ZERO + n else 87 + n
  }

  /** Lower-case hexadecimal of the twelve random bytes. */
  function Cookie(random: Bytes): Bytes {
    if random == [] then [] else [HexDigit(random[0] / 16), HexDigit(random[0] % 16)] + Cookie(random[1..])
  }

  lemma {:induction false} CookieHasNoSpace(random: Bytes)
    ensures |Cookie(random)| == 2 * |random| && SPACE !in Cookie(random)
    decreases |random|
  {
    if random != [] { CookieHasNoSpace(random[1..]); }
  }

  lemma {:induction false} CookieInjective(a: Bytes, b: Bytes)
    requires |a| == |b| && Cookie(a) == Cookie(b)
    ensures a == b
    decreases |a|
  {
    if a != [] {
      var ca, cb := Cookie(a), Cookie(b);
      assert ca[0] == cb[0] && ca[1] == cb[1];
      assert a[0] == b[0];
      assert ca[2..] == Cookie(a[1..]) && cb[2..] == Cookie(b[1..]);
      CookieInjective(a[1..], b[1..]);
      assert a == [a[0]] + a[1..] && b == [b[0]] + b[1..];
    }
  }

  /** What a lower-case hexadecimal digit stands for. */
  function HexValue(b: Byte): int {
    if 48 <= b <= 57 then b - 48 else if 97 <= b <= 102 then b - 87 else -1
  }

  /** Each random byte is written as two lower-case hexadecimal digits, the high one first. */
  lemma {:induction false} CookieReadsBack(random: Bytes, i: nat)
    requires i < |random|
    ensures |Cookie(random)| == 2 * |random|
    ensures var high, low := HexValue(Cookie(random)[2 * i]), HexValue(Cookie(random)[2 * i + 1]);
            0 <= high < 16 && 0 <= low < 16 && random[i] == 16 * high + low
    decreases |random|
  {
    CookieHasNoSpace(random);
    CookieHasNoSpace(random[1..]);
    if i > 0 { CookieReadsBack(random[1..], i - 1); }
  }

  /** bytes.Cut at the first space. */
  function Cut(packet: Bytes): Option<(Bytes, Bytes)> {
    match IndexByte(packet, 0, SPACE)
    case None => None
    case Some(at) => Some((packet[..at], packet[at + 1..]))
  }

  lemma CutAtFirstSpace(cookie: Bytes, body: Bytes)
    requires SPACE !in cookie
    ensures Cut(cookie + [SPACE] + body) == Some((cookie, body))
  {
    var packet := cookie + [SPACE] + body;
    assert packet[|cookie|] == SPACE && packet[..|cookie|] == cookie && packet[|cookie| + 1..] == body;
    forall i | 0 <= i < |cookie| ensures packet[i] != SPACE {
      assert packet[i] == cookie[i];
    }
    IndexByteIs(packet, 0, SPACE, |cookie|);
  }

  // ---- requests ----

  datatype Request = CommandRequired | UnsupportedType | Packet(bytes: Bytes)

  function Payload(command: GoBytes, params: map<GoBytes, Value>): Value {
    Dict(params[COMMAND := Text(command)])
  }

  ghost function EncodeRequest(command: GoBytes, params: map<GoBytes, Value>, cookie: Bytes): Request {
    if command == [] then CommandRequired
    else if !Encodable(Payload(command, params)) then UnsupportedType
    else Packet(cookie + [SPACE] + Encode(Payload(command, params)))
  }

  datatype MapRead = NoMap | MapOutOfRange | Map(fields: map<GoBytes, Decoded>)

  /** bdecodeMap: one dictionary and nothing after it. */
  function BDecodeMap(data: Bytes): MapRead {
    match DecodeValue(data, 0)
    case Fail => NoMap
    case OutOfRange => MapOutOfRange
    case Done(value, next) => if next != |data| || !value.Table? then NoMap else Map(value.fields)
  }

  lemma BDecodeOfEncoded(v: Value)
    requires v.Dict? && Encodable(v)
    ensures BDecodeMap(Encode(v)) == Map(Normal(v).fields)
  {
    ValueAt(v, Encode(v), 0);
  }

  /** A request packet splits at its first space into exactly its cookie and body, and the body reads
      back as every parameter, with the command in place of a parameter of that name. */
  lemma RequestReadsBack(command: GoBytes, params: map<GoBytes, Value>, random: Bytes)
    requires EncodeRequest(command, params, Cookie(random)).Packet?
    ensures var body := Encode(Payload(command, params));
            && Cut(EncodeRequest(command, params, Cookie(random)).bytes) == Some((Cookie(random), body))
            && BDecodeMap(body).Map?
            && var fields := BDecodeMap(body).fields;
               && fields.Keys == params.Keys + {COMMAND}
               && fields[COMMAND] == Str(command)
               && forall k :: k in params && k != COMMAND ==> Encodable(params[k]) && fields[k] == Normal(params[k])
  {
    hide Encode, Cut, Cookie, BDecodeMap;
    var v := Payload(command, params);
    CookieHasNoSpace(random);
    CutAtFirstSpace(Cookie(random), Encode(v));
    BDecodeOfEncoded(v);
    assert forall k :: k in params && k != COMMAND ==> v.entries[k] == params[k];
  }

  /** A request is refused for a missing command, else for a parameter of an unsupported type, at any depth,
      that the command does not replace; there is no other refusal. */
  lemma RequestRefusedExactlyWhen(command: GoBytes, params: map<GoBytes, Value>, cookie: Bytes)
    ensures var r := EncodeRequest(command, params, cookie);
            && (r == CommandRequired <==> command == [])
            && (r == UnsupportedType <==>
                  command != [] && exists k :: k in params && k != Ascii("command") && !Encodable(params[k]))
  {
    hide Encode;
    KeysSpelled();
    var v := Payload(command, params);
    assert Encodable(Text(command));
    if k :| k in params && k != COMMAND && !Encodable(params[k]) { assert v.entries[k] == params[k]; }
    if k :| k in v.entries && !Encodable(v.entries[k]) { assert k in params && k != COMMAND; }
  }

  // ---- responses ----

  datatype Response = Response(result: GoBytes, error: GoBytes, data: map<GoBytes, Decoded>)

  /** `Stopped` is a body on which a slice expression is out of range. */
  datatype Outcome = BadCookie | BadBody | Stopped | Refused(response: Response) | Accepted(response: Response)

  /** strings.EqualFold with "ok": simple case folding also maps the Kelvin sign to k. */
  predicate FoldsToOk(s: Bytes) {
    |s| >= 2 && (s[0] == 79 || s[0] == 111) && (s[1..] == [75] || s[1..] == [107] || s[1..] == [0xE2, 0x84, 0xAA])
  }

  function StringField(data: map<GoBytes, Decoded>, key: GoBytes): GoBytes {
    if key in data && data[key].Str? then data[key].s else []
  }

  function ToResponse(data: map<GoBytes, Decoded>): Response {
    Response(StringField(data, RESULT), StringField(data, ERROR_REASON), data)
  }

  function DecodeResponse(packet: Bytes, cookie: Bytes): Outcome {
    var cut := Cut(packet);
    if cut.None? || cut.value.0 != cookie then BadCookie else
      match BDecodeMap(cut.value.1)
      case NoMap => BadBody
      case MapOutOfRange => Stopped
      case Map(data) =>
        var response := ToResponse(data);
        if FoldsToOk(response.result) then Accepted(response) else Refused(response)
  }

  /** What an encoded field is as a string: its bytes, or nothing if it is missing or of another type. */
  function TextOf(entries: map<GoBytes, Value>, key: GoBytes): GoBytes {
    if key !in entries then [] else
      match entries[key]
      case Text(text) => text
      case Raw(raw) => raw
      case _ => []
  }

  /** "ok" in any case, the Kelvin sign for k included. */
  predicate SaysOk(text: Bytes) {
    || text == Ascii("ok") || text == Ascii("OK") || text == Ascii("Ok") || text == Ascii("oK")
    || text == Ascii("o") + [0xE2, 0x84, 0xAA] || text == Ascii("O") + [0xE2, 0x84, 0xAA]
  }

  lemma FoldsExactlyWhen(text: Bytes)
    ensures FoldsToOk(text) <==> SaysOk(text)
  {
    if FoldsToOk(text) { assert text == [text[0]] + text[1..]; }
  }

  lemma FieldIsText(v: Value, key: GoBytes)
    requires v.Dict? && Encodable(v)
    ensures StringField(Normal(v).fields, key) == TextOf(v.entries, key)
  {
  }

  lemma KeysSpelled()
    ensures COMMAND == Ascii("command") && RESULT == Ascii("result") && ERROR_REASON == Ascii("error-reason")
    ensures [SPACE] == Ascii(" ")
  {
  }

  /** A response carrying another request's cookie is turned away, whatever its body. One carrying this
      request's cookie is turned away too if its body is no dictionary or has anything after it; else it is
      accepted if and only if its field "result" says ok, and gives its fields "result" and "error-reason", as
      far as they are strings, and every field as it was encoded. */
  lemma ResponseReadsBack(sent: Bytes, received: Bytes, v: Value, extra: Bytes)
    requires |sent| == |received| && Encodable(v)
    ensures var outcome := DecodeResponse(Cookie(received) + Ascii(" ") + (Encode(v) + extra), Cookie(sent));
            && (outcome == BadCookie <==> sent != received)
            && (sent == received && (!v.Dict? || extra != []) ==> outcome == BadBody)
            && (sent == received && v.Dict? && extra == [] ==>
                  && (outcome.Accepted? || outcome.Refused?)
                  && (outcome.Accepted? <==> SaysOk(TextOf(v.entries, Ascii("result"))))
                  && outcome.response.result == TextOf(v.entries, Ascii("result"))
                  && outcome.response.error == TextOf(v.entries, Ascii("error-reason"))
                  && Table(outcome.response.data) == Normal(v))
  {
    hide DecodeValue, Encode, FoldsToOk, SaysOk, TextOf, ToResponse, BDecodeMap, Cut, Cookie, Normal, Ascii;
    PacketSplits(received, v, extra);
    BodyReadsBack(v, extra);
    if v.Dict? { FieldsReadBack(v); }
    if Cookie(sent) == Cookie(received) { CookieInjective(sent, received); }
  }

  lemma PacketSplits(received: Bytes, v: Value, extra: Bytes)
    requires Encodable(v)
    ensures Cut(Cookie(received) + Ascii(" ") + (Encode(v) + extra)) == Some((Cookie(received), Encode(v) + extra))
  {
    hide Encode, Cut, Cookie;
    KeysSpelled();
    CookieHasNoSpace(received);
    CutAtFirstSpace(Cookie(received), Encode(v) + extra);
  }

  lemma FieldsReadBack(v: Value)
    requires v.Dict? && Encodable(v)
    ensures var response := ToResponse(Normal(v).fields);
            && (FoldsToOk(response.result) <==> SaysOk(TextOf(v.entries, Ascii("result"))))
            && response.result == TextOf(v.entries, Ascii("result"))
            && response.error == TextOf(v.entries, Ascii("error-reason"))
            && Table(response.data) == Normal(v)
  {
    hide FoldsToOk, SaysOk, TextOf, StringField;
    KeysSpelled();
    OnlyDictIsTable(v);
    hide Normal;
    FieldIsText(v, RESULT);
    FieldIsText(v, ERROR_REASON);
    FoldsExactlyWhen(TextOf(v.entries, RESULT));
  }

  lemma BodyReadsBack(v: Value, extra: Bytes)
    requires Encodable(v)
    ensures BDecodeMap(Encode(v) + extra) == if v.Dict? && extra == [] then Map(Normal(v).fields) else NoMap
  {
    hide DecodeValue, Encode, Normal;
    OnlyDictIsTable(v);
    assert [] + Encode(v) + extra == Encode(v) + extra;
    RoundTrip(v, [], extra);
  }

  lemma OnlyDictIsTable(v: Value)
    requires Encodable(v)
    ensures Normal(v).Table? <==> v.Dict?
  {
  }

  /** A request, byte for byte. */
  lemma PingRequest()
    ensures EncodeRequest(Ascii("ping"), map[], Cookie([0x0a, 0x1b, 0xff])) == Packet(Ascii("0a1bff d7:command4:pinge"))
  {
    hide Encode, EncodeText, SortedKeys, Cookie;
    KeysSpelled();
    PingPayload();
    PingCookie();
  }

  lemma PingPayload()
    ensures Encodable(Payload(Ascii("ping"), map[]))
    ensures Encode(Payload(Ascii("ping"), map[])) == Ascii("d7:command4:pinge")
  {
    hide Encode, EncodeText, SortedKeys;
    KeysSpelled();
    assert Payload(Ascii("ping"), map[]).entries == map[COMMAND := Text(Ascii("ping"))];
    OneEntry(COMMAND, Text(Ascii("ping")));
    TextIs(Ascii("ping"));
    PingTexts();
  }

  lemma PingCookie()
    ensures Cookie([0x0a, 0x1b, 0xff]) == Ascii("0a1bff")
  {
    var random: Bytes := [0x0a, 0x1b, 0xff];
    assert random[1..] == [0x1b, 0xff] && random[1..][1..] == [0xff] && random[1..][1..][1..] == [];
    assert Cookie([0xff]) == Ascii("ff");
    assert Cookie([0x1b, 0xff]) == Ascii("1b") + Ascii("ff");
  }

  lemma PingTexts()
    ensures EncodeText(Ascii("command")) == Ascii("7:command") && EncodeText(Ascii("ping")) == Ascii("4:ping")
  {
    OneDigit(7);
    OneDigit(4);
  }

  /** Which responses are not this request's: exactly those that do not begin with its cookie and a space. */
  lemma CookieDecides(packet: Bytes, cookie: Bytes)
    requires SPACE !in cookie
    ensures DecodeResponse(packet, cookie) == BadCookie <==> !(cookie + Ascii(" ") <= packet)
  {
    hide BDecodeMap;
    KeysSpelled();
    if cookie + [SPACE] <= packet {
      assert packet == cookie + [SPACE] + packet[|cookie| + 1..];
      CutAtFirstSpace(cookie, packet[|cookie| + 1..]);
    }
  }

  /** A response stops at a slice expression exactly when it carries this request's cookie and decoding its
      body comes to a string that is too long. */
  lemma ResponseStopsExactlyWhen(packet: GoBytes, cookie: Bytes)
    ensures DecodeResponse(packet, cookie) == Stopped <==>
              && Cut(packet).Some? && Cut(packet).value.0 == cookie
              && exists at: nat :: Comes(Cut(packet).value.1, 0, at) && TooLong(Cut(packet).value.1, at)
  {
    hide DecodeValue, Comes, TooLong;
    if Cut(packet).Some? { DecodingStopsExactlyWhen(Cut(packet).value.1, 0); }
  }

  /** There is such a packet for every cookie: the largest int64 as the length of a string. */
  lemma LongestStringStops(cookie: Bytes)
    requires SPACE !in cookie
    ensures DecodeResponse(cookie + [SPACE] + (Print(MAX_INT64) + [CHAR_COLON]), cookie) == Stopped
  {
    hide DecodeValue, Print, Cut;
    CutAtFirstSpace(cookie, Print(MAX_INT64) + [CHAR_COLON]);
    LongestLengthStops();
  }

  lemma LongestLengthStops()
    ensures DecodeValue(Print(MAX_INT64) + [CHAR_COLON], 0) == OutOfRange
  {
    hide Print, ParseInt, DecodeValue;
    var digits := Print(MAX_INT64);
    var body := digits + [CHAR_COLON];
    ParsePrint(MAX_INT64);
    assert forall i :: 0 <= i < |digits| ==> body[i] == digits[i];
    IndexByteIs(body, 0, CHAR_COLON, |digits|);
    assert body[0..|digits|] == digits;
    Dispatch(body, 0);
  }

  // ---- as they run ----

  method BuildRequest(command: GoBytes, params: map<GoBytes, Value>, random: Bytes) returns (r: Request)
    ensures r == EncodeRequest(command, params, Cookie(random))
  {
    if command == [] { return CommandRequired; }
    var payload := params[COMMAND := Text(command)];
    var buf := new Buffer();
    var ok := EncodeValue(buf, Dict(payload));
    if !ok { return UnsupportedType; }
    assert [] + Encode(Payload(command, params)) == Encode(Payload(command, params));
    return Packet(Cookie(random) + [SPACE] + buf.contents);
  }

  method ReadResponse(packet: Bytes, cookie: Bytes) returns (r: Outcome)
    ensures r == DecodeResponse(packet, cookie)
  {
    var at := IndexByte(packet, 0, SPACE);
    if at.None? || packet[..at.value] != cookie { return BadCookie; }
    var body := packet[at.value + 1..];
    var value := ReadValue(body, 0);
    if value.OutOfRange? { return Stopped; }
    if value.Fail? || value.next != |body| || !value.value.Table? { return BadBody; }
    var data := value.value.fields;
    var response := Response(StringField(data, RESULT), StringField(data, ERROR_REASON), data);
    if !FoldsToOk(response.result) { return Refused(response); }
    return Accepted(response);
  }
}
