/** The bencoding of server/internal/integrations/rtpengine/protocol.go (BEP 3, section "bencoding"):
    the values, the encoder and the decoder as functions. The decoder is more lenient than BEP 3. */
module Bencode {
  import opened Basics
  import opened Decimal

  const CHAR_COLON: Byte := 58
  const CHAR_D: Byte := 100
  const CHAR_E: Byte := 101
  const CHAR_I: Byte := 105
  const CHAR_L: Byte := 108

  /** The Go values handed to the encoder; Unsupported stands for every type it has no case for. */
  datatype Value =
    | Text(text: GoBytes)
    | Raw(raw: GoBytes)
    | Int(number: Int64)
    | Bool(flag: bool)
    | Texts(texts: seq<GoBytes>)
    | List(items: seq<Value>)
    | Dict(entries: map<GoBytes, Value>)
    | Unsupported

  /** What the decoder produces: int64, string, []any and map[string]any. */
  datatype Decoded =
    | Integer(n: Int64)
    | Str(s: GoBytes)
    | Items(elements: seq<Decoded>)
    | Table(fields: map<GoBytes, Decoded>)

  predicate Encodable(v: Value) {
    match v
    case List(items) => forall i :: 0 <= i < |items| ==> Encodable(items[i])
    case Dict(entries) => forall k :: k in entries ==> Encodable(entries[k])
    case Unsupported => false
    case _ => true
  }

  /** The value a reader of the encoding gets: the Go type distinctions the wire form cannot carry are gone. */
  function Normal(v: Value): Decoded
    requires Encodable(v)
    decreases v, 1
  {
    match v
    case Text(text) => Str(text)
    case Raw(raw) => Str(raw)
    case Int(n) => Integer(n)
    case Bool(flag) => Integer(if flag then 1 else 0)
    case Texts(texts) => Items(NormalTexts(texts))
    case List(items) => Items(NormalItems(items))
    case Dict(entries) => Table(map k | k in entries :: Normal(entries[k]))
  }

  function NormalTexts(texts: seq<GoBytes>): seq<Decoded> {
    if texts == [] then [] else [Str(texts[0])] + NormalTexts(texts[1..])
  }

  function NormalItems(items: seq<Value>): seq<Decoded>
    requires forall i :: 0 <= i < |items| ==> Encodable(items[i])
    decreases items, 0
  {
    if items == [] then [] else [Normal(items[0])] + NormalItems(items[1..])
  }

  // ---- sorted keys ----

  /** The byte-wise order of sort.Strings. */
  predicate Less(a: Bytes, b: Bytes) {
    b != [] && (a == [] || a[0] < b[0] || (a[0] == b[0] && Less(a[1..], b[1..])))
  }

  ghost predicate Sorted(keys: seq<GoBytes>) {
    forall i, j :: 0 <= i < j < |keys| ==> Less(keys[i], keys[j])
  }

  lemma LessTotal(a: Bytes, b: Bytes)
    ensures a == b || Less(a, b) || Less(b, a)
    ensures !(Less(a, b) && Less(b, a))
    ensures !Less(a, a)
  {
    if a != [] && b != [] {
      LessTotal(a[1..], b[1..]);
      if a[0] == b[0] && a[1..] == b[1..] {
        assert a == [a[0]] + a[1..] && b == [b[0]] + b[1..];
      }
    }
    if a != [] { LessTotal(a[1..], a[1..]); }
  }

  lemma LessTransitive(a: Bytes, b: Bytes, c: Bytes)
    requires Less(a, b) && Less(b, c)
    ensures Less(a, c)
  {
    if a != [] && a[0] == b[0] == c[0] { LessTransitive(a[1..], b[1..], c[1..]); }
  }

  ghost predicate IsLeast(key: GoBytes, keys: set<GoBytes>) {
    key in keys && forall k :: k in keys && k != key ==> Less(key, k)
  }

  lemma LeastExists(keys: set<GoBytes>) returns (least: GoBytes)
    requires keys != {}
    ensures IsLeast(least, keys)
  {
    var k :| k in keys;
    if keys == {k} {
      least := k;
    } else {
      var rest := LeastExists(keys - {k});
      LessTotal(k, rest);
      least := if Less(k, rest) then k else rest;
      forall x | x in keys && x != least ensures Less(least, x) {
        if least == k && x != rest { LessTransitive(k, rest, x); }
      }
    }
  }

  lemma ALeastExists(keys: set<GoBytes>)
    requires keys != {}
    ensures exists k :: IsLeast(k, keys)
  {
    var least := LeastExists(keys);
  }

  ghost function Least(keys: set<GoBytes>): (least: GoBytes)
    requires keys != {}
    ensures IsLeast(least, keys)
  {
    ALeastExists(keys);
    var least :| IsLeast(least, keys);
    least
  }

  ghost function SortedKeys(keys: set<GoBytes>): (sorted: seq<GoBytes>)
    ensures forall k :: k in sorted <==> k in keys
    ensures Sorted(sorted)
  {
    if keys == {} then [] else
      var rest := SortedKeys(keys - {Least(keys)});
      assert forall k :: k in [Least(keys)] + rest <==> k == Least(keys) || k in rest;
      [Least(keys)] + rest
  }

  /** There is one way to list a set in strictly increasing order, so map iteration order is forgotten. */
  lemma {:induction false} SortedUnique(a: seq<GoBytes>, b: seq<GoBytes>)
    requires Sorted(a) && Sorted(b) && forall k :: k in a <==> k in b
    ensures a == b
    decreases |a|
  {
    if b != [] { assert b[0] in a; }
    if a != [] {
      assert a[0] in b;
      LessTotal(a[0], b[0]);
      assert a[0] == b[0];
      forall k ensures k in a[1..] <==> k in b[1..] {
        LessTotal(a[0], a[0]);
        assert k in a <==> k in b;
      }
      SortedUnique(a[1..], b[1..]);
    }
  }

  // ---- the encoder ----

  function EncodeText(s: GoBytes): Bytes {
    Print(|s|) + [CHAR_COLON] + s
  }

  function EncodeInt(n: int): Bytes {
    [CHAR_I] + Print(n) + [CHAR_E]
  }

  function EncodeTexts(texts: seq<GoBytes>): Bytes {
    if texts == [] then [] else EncodeText(texts[0]) + EncodeTexts(texts[1..])
  }

  ghost function Encode(v: Value): Bytes
    requires Encodable(v)
    decreases v, 1
  {
    match v
    case Text(text) => EncodeText(text)
    case Raw(raw) => EncodeText(raw)
    case Int(n) => EncodeInt(n)
    case Bool(flag) => EncodeInt(if flag then 1 else 0)
    case Texts(texts) => [CHAR_L] + EncodeTexts(texts) + [CHAR_E]
    case List(items) => [CHAR_L] + EncodeItems(items) + [CHAR_E]
    case Dict(entries) => [CHAR_D] + EncodeEntries(SortedKeys(entries.Keys), v) + [CHAR_E]
  }

  ghost function EncodeItems(items: seq<Value>): Bytes
    requires forall i :: 0 <= i < |items| ==> Encodable(items[i])
    decreases items, 0
  {
    if items == [] then [] else Encode(items[0]) + EncodeItems(items[1..])
  }

  ghost function EncodeEntries(keys: seq<GoBytes>, v: Value): Bytes
    requires v.Dict? && Encodable(v) && forall k :: k in keys ==> k in v.entries
    decreases v, 0, |keys|
  {
    if keys == [] then [] else EncodeText(keys[0]) + Encode(v.entries[keys[0]]) + EncodeEntries(keys[1..], v)
  }

  // ---- the decoder ----

  /** bytes.IndexByte over the data from an offset on, as an index into the data. */
  function IndexByte(data: Bytes, offset: nat, b: Byte): (found: Option<nat>)
    ensures found.Some? ==> offset <= found.value < |data| && data[found.value] == b
    ensures found.Some? ==> forall i :: offset <= i < found.value ==> data[i] != b
    ensures found.None? ==> forall i :: offset <= i < |data| ==> data[i] != b
    decreases |data| - offset
  {
    if offset >= |data| then None
    else if data[offset] == b then Some(offset)
    else IndexByte(data, offset + 1, b)
  }

  /** An error, a slice expression that Go's bounds check stops, or a value and where it ends. */
  datatype Parse = Fail | OutOfRange | Done(value: Decoded, next: nat)

  /** Addition of two Go ints, which wraps around. */
  function WrappedSum(a: Int64, b: Int64): int {
    var x: int, y: int := a, b;
    var sum := x + y;
    if sum > MAX_INT64 then sum - 0x1_0000_0000_0000_0000
    else if sum < MIN_INT64 then sum + 0x1_0000_0000_0000_0000
    else sum
  }

  /** decodeValue. A value that is read ends after it starts and within the data, which is what
      makes the list and dictionary loops terminate. */
  function DecodeValue(data: Bytes, offset: nat): (r: Parse)
    ensures r.Done? ==> offset < r.next <= |data|
    decreases |data| - offset, 0
  {
    if offset >= |data| then Fail
    else if data[offset] == CHAR_D then DecodeEntries(data, offset + 1, map[])
    else if data[offset] == CHAR_L then DecodeItems(data, offset + 1, [])
    else if data[offset] == CHAR_I then DecodeInt(data, offset)
    else DecodeText(data, offset)
  }

  function DecodeInt(data: Bytes, offset: nat): (r: Parse)
    requires offset < |data|
    ensures r.Done? ==> offset < r.next <= |data|
  {
    var end := IndexByte(data, offset + 1, CHAR_E);
    if end.None? then Fail else
      var n := ParseInt(data[offset + 1..end.value]);
      if n.None? then Fail else Done(Integer(n.value), end.value + 1)
  }

  function DecodeText(data: Bytes, offset: nat): (r: Parse)
    requires offset < |data|
    ensures r.Done? ==> offset < r.next <= |data|
  {
    var colon := IndexByte(data, offset, CHAR_COLON);
    if colon.None? || colon.value == offset then Fail else
      var length := ParseInt(data[offset..colon.value]);
      if length.None? || length.value < 0 then Fail else
        var start := colon.value + 1;
        var end := start + length.value;
        if end <= |data| then Done(Str(data[start..end]), end)
        else if end > MAX_INT64 then OutOfRange
        else Fail
  }

  function DecodeItems(data: Bytes, offset: nat, result: seq<Decoded>): (r: Parse)
    ensures r.Done? ==> offset < r.next <= |data|
    decreases |data| - offset, 1
  {
    if offset >= |data| then Fail
    else if data[offset] == CHAR_E then Done(Items(result), offset + 1)
    else match DecodeValue(data, offset)
      case Fail => Fail
      case OutOfRange => OutOfRange
      case Done(value, next) => DecodeItems(data, next, result + [value])
  }

  function DecodeEntries(data: Bytes, offset: nat, result: map<GoBytes, Decoded>): (r: Parse)
    ensures r.Done? ==> offset < r.next <= |data|
    decreases |data| - offset, 1
  {
    if offset >= |data| then Fail
    else if data[offset] == CHAR_E then Done(Table(result), offset + 1)
    else match DecodeValue(data, offset)
      case Fail => Fail
      case OutOfRange => OutOfRange
      case Done(key, afterKey) =>
        if !key.Str? then Fail else
          match DecodeValue(data, afterKey)
          case Fail => Fail
          case OutOfRange => OutOfRange
          case Done(value, next) => DecodeEntries(data, next, result[key.s := value])
  }
}
