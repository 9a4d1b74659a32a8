/** The opaque paging cursors: fixed-width numbers, a checksum and base64url
    (section 5 of RFC 4648).  The hash is any function with wide enough results.  */
module Cursor {
  import opened Schema

  type Byte = x: int | 0 <= x < 256

  type Hash = seq<Byte> -> seq<Byte>

  const RANK_VERSION: Byte := 2
  const CHECKSUM_SIZE := 6
  const NAMESPACE_SIZE := 4
  const RANK_PAYLOAD_SIZE := 21
  const MAX_RANK_CURSOR := 80
  const LIMIT := 0x1_0000_0000_0000_0000

  ghost predicate Wide(hash: Hash) {
    forall bytes :: |hash(bytes)| == 32
  }

  // ----- numbers, most significant byte first

  function Power(k: nat): (p: nat)
    ensures p > 0
  {
    if k == 0 then 1 else 256 * Power(k - 1)
  }

  function Pack(n: nat, k: nat): (bytes: seq<Byte>)
    ensures |bytes| == k
  {
    if k == 0 then [] else Pack(n / 256, k - 1) + [n % 256]
  }

  function Unpack(bytes: seq<Byte>): nat {
    if bytes == [] then 0 else 256 * Unpack(bytes[..|bytes| - 1]) + bytes[|bytes| - 1]
  }

  lemma {:induction false} UnpackPacked(n: nat, k: nat)
    requires n < Power(k)
    ensures Unpack(Pack(n, k)) == n
  {
    if k > 0 { UnpackPacked(n / 256, k - 1); }
  }

  lemma {:induction false} PackUnpacked(bytes: seq<Byte>)
    ensures Unpack(bytes) < Power(|bytes|)
    ensures Pack(Unpack(bytes), |bytes|) == bytes
  {
    if bytes != [] {
      var front, last := bytes[..|bytes| - 1], bytes[|bytes| - 1];
      PackUnpacked(front);
      LastByte(Unpack(front), last);
      assert bytes == front + [last];
    }
  }

  lemma LastByte(n: nat, last: Byte)
    ensures (256 * n + last) / 256 == n && (256 * n + last) % 256 == last
  {
  }

  lemma EightBytes()
    ensures Power(8) == LIMIT
  {
    assert Power(4) == 256 * (256 * (256 * (256 * 1)));
    assert Power(8) == 256 * (256 * (256 * (256 * Power(4))));
  }

  // ----- base64url

  type Sextet = x: int | 0 <= x < 64

  function Letter(d: Sextet): char {
    if d < 26 then (d + 'A' as int) as char
    else if d < 52 then (d - 26 + 'a' as int) as char
    else if d < 62 then (d - 52 + '0' as int) as char
    else if d == 62 then '-' else '_'
  }

  /** The decoder also takes the two letters of the standard alphabet. */
  function Value(c: char): Option<Sextet> {
    if 'A' <= c <= 'Z' then Some(c as int - 'A' as int)
    else if 'a' <= c <= 'z' then Some(c as int - 'a' as int + 26)
    else if '0' <= c <= '9' then Some(c as int - '0' as int + 52)
    else if c == '-' || c == '+' then Some(62)
    else if c == '_' || c == '/' then Some(63)
    else None
  }

  function UrlLetter(c: char): char {
    if c == '+' then '-' else if c == '/' then '_' else c
  }

  function UrlText(text: string): (r: string)
    ensures |r| == |text|
  {
    seq(|text|, i requires 0 <= i < |text| => UrlLetter(text[i]))
  }

  /** Three bytes as four groups of six bits. */
  datatype Quad = Quad(w: Sextet, x: Sextet, y: Sextet, z: Sextet)

  function Split(a: Byte, b: Byte, c: Byte): Quad {
    Quad(a / 4, a % 4 * 16 + b / 16, b % 16 * 4 + c / 64, c % 64)
  }

  function Join(q: Quad): (bytes: seq<Byte>)
    ensures |bytes| == 3
  {
    [q.w * 4 + q.x / 16, q.x % 16 * 16 + q.y / 4, q.y % 4 * 64 + q.z]
  }

  function Letters(q: Quad): (text: string)
    ensures |text| == 4
  {
    [Letter(q.w), Letter(q.x), Letter(q.y), Letter(q.z)]
  }

  function Encode(bytes: seq<Byte>): (text: string)
    requires |bytes| % 3 == 0
    ensures |text| == |bytes| / 3 * 4
  {
    if bytes == [] then "" else Letters(Split(bytes[0], bytes[1], bytes[2])) + Encode(bytes[3..])
  }

  function Values(text: string): Option<Quad>
    requires |text| >= 4
  {
    var w, x, y, z := Value(text[0]), Value(text[1]), Value(text[2]), Value(text[3]);
    if w.None? || x.None? || y.None? || z.None? then None else Some(Quad(w.value, x.value, y.value, z.value))
  }

  function Decode(text: string): (bytes: Option<seq<Byte>>)
    requires |text| % 4 == 0
    ensures bytes.Some? ==> |bytes.value| == |text| / 4 * 3
  {
    if text == "" then Some([])
    else
      var quad, rest := Values(text), Decode(text[4..]);
      if quad.None? || rest.None? then None else Some(Join(quad.value) + rest.value)
  }

  lemma LetterValue(d: Sextet)
    ensures Value(Letter(d)) == Some(d) && UrlLetter(Letter(d)) == Letter(d)
  {
  }

  lemma ValueLetter(c: char)
    ensures Value(c).Some? ==> Letter(Value(c).value) == UrlLetter(c)
    ensures Value(UrlLetter(c)) == Value(c)
  {
  }

  lemma JoinSplit(a: Byte, b: Byte, c: Byte)
    ensures Join(Split(a, b, c)) == [a, b, c]
  {
  }

  lemma SplitJoin(q: Quad)
    ensures Split(Join(q)[0], Join(q)[1], Join(q)[2]) == q
  {
    var a, b, c := Join(q)[0], Join(q)[1], Join(q)[2];
    SplitSum(q.w, q.x / 16, 4);
    SplitSum(q.x % 16, q.y / 4, 16);
    SplitSum(q.y % 4, q.z, 64);
    assert q.x / 16 * 16 + q.x % 16 == q.x;
    assert q.y / 4 * 4 + q.y % 4 == q.y;
  }

  lemma SplitSum(high: nat, low: nat, base: nat)
    requires low < base && (base == 4 || base == 16 || base == 64)
    ensures (high * base + low) / base == high && (high * base + low) % base == low
  {
    if base == 4 {
    } else if base == 16 {
    }
  }

  /** The URL-safe alphabet in its order (section 5 of RFC 4648): capital letters, small
      letters, digits, and the two that need no escape in a URL.  */
  lemma LettersAreInOrder(d: Sextet)
    ensures Letter(0) == 'A' && Letter(25) == 'Z' && Letter(26) == 'a' && Letter(51) == 'z'
    ensures Letter(52) == '0' && Letter(61) == '9' && Letter(62) == '-' && Letter(63) == '_'
    ensures d + 1 < 64 && d !in {25, 51, 61, 62} ==> Letter(d + 1) as int == Letter(d) as int + 1
  {
  }

  /** Three bytes are one number of twenty-four bits, and four letters its digits to the base
      of sixty-four, the highest first.  */
  lemma QuadIsItsNumber(a: Byte, b: Byte, c: Byte)
    ensures var q := Split(a, b, c);
      q.w * 262_144 + q.x * 4_096 + q.y * 64 + q.z == a * 65_536 + b * 256 + c
  {
  }

  /** Each group of three bytes is encoded on its own, in order. */
  lemma {:induction false} EncodedGroup(bytes: seq<Byte>, i: nat)
    requires |bytes| % 3 == 0 && 3 * i < |bytes|
    ensures var q := Split(bytes[3 * i], bytes[3 * i + 1], bytes[3 * i + 2]); var text := Encode(bytes);
      && 4 * i + 3 < |text|
      && text[4 * i] == Letter(q.w) && text[4 * i + 1] == Letter(q.x)
      && text[4 * i + 2] == Letter(q.y) && text[4 * i + 3] == Letter(q.z)
  {
    hide Letter, Split;
    if i > 0 {
      EncodedGroup(bytes[3..], i - 1);
    }
  }

  lemma ValuesOfLetters(q: Quad, rest: string)
    ensures Values(Letters(q) + rest) == Some(q) && UrlText(Letters(q)) == Letters(q)
  {
    LetterValue(q.w);
    LetterValue(q.x);
    LetterValue(q.y);
    LetterValue(q.z);
    hide Letter, Value, UrlLetter;
  }

  lemma LettersOfValues(text: string)
    requires |text| >= 4
    ensures Values(text).Some? ==> Letters(Values(text).value) == UrlText(text[..4])
    ensures Values(UrlText(text)) == Values(text)
  {
    ValueLetter(text[0]);
    ValueLetter(text[1]);
    ValueLetter(text[2]);
    ValueLetter(text[3]);
    hide Letter, Value, UrlLetter;
  }

  lemma UrlTextParts(a: string, b: string)
    ensures UrlText(a + b) == UrlText(a) + UrlText(b)
  {
  }

  lemma {:induction false} DecodeEncoded(bytes: seq<Byte>)
    requires |bytes| % 3 == 0
    ensures Decode(Encode(bytes)) == Some(bytes) && UrlText(Encode(bytes)) == Encode(bytes)
  {
    if bytes != [] {
      var q := Split(bytes[0], bytes[1], bytes[2]);
      var rest := Encode(bytes[3..]);
      assert Encode(bytes) == Letters(q) + rest;
      assert [bytes[0], bytes[1], bytes[2]] + bytes[3..] == bytes;
      hide *;
      DecodeEncoded(bytes[3..]);
      ValuesOfLetters(q, rest);
      UrlTextParts(Letters(q), rest);
      JoinSplit(bytes[0], bytes[1], bytes[2]);
      DecodeWhole(q, rest);
    }
  }

  lemma DecodeWhole(q: Quad, rest: string)
    requires |rest| % 4 == 0 && Values(Letters(q) + rest) == Some(q)
    ensures Decode(Letters(q) + rest) ==
      if Decode(rest).None? then None else Some(Join(q) + Decode(rest).value)
  {
    hide Values, Letters, Join;
    assert (Letters(q) + rest)[4..] == rest;
  }

  lemma {:induction false} EncodeDecoded(text: string)
    requires |text| % 4 == 0 && Decode(text).Some?
    ensures Encode(Decode(text).value) == UrlText(text)
  {
    if text != "" {
      var q, rest := Values(text).value, Decode(text[4..]).value;
      EncodeDecoded(text[4..]);
      LettersOfValues(text);
      SplitJoin(q);
      UrlTextParts(text[..4], text[4..]);
      assert text == text[..4] + text[4..];
      hide Values, Letters, Join, Split, UrlText;
      assert (Join(q) + rest)[3..] == rest;
    }
  }

  // ----- cursors

  /** The payload with its checksum, as url-safe text; no padding is ever needed. */
  function Seal(payload: seq<Byte>, hash: Hash): string
    requires |payload| % 3 == 0 && Wide(hash)
  {
    Encode(payload + hash(payload)[..CHECKSUM_SIZE])
  }

  /** The text without its trailing padding. */
  function Unpadded(text: string): (letters: string)
    ensures |letters| <= |text| && (letters != "" ==> letters[|letters| - 1] != '=')
  {
    if text != "" && text[|text| - 1] == '=' then Unpadded(text[..|text| - 1]) else text
  }

  /** The payload of a text of the right size with the right checksum.  The decoder
      overlooks padding after complete groups of four, however much there is; with any
      other number of letters the payload has another size or does not decode.  */
  function Open(text: string, size: nat, hash: Hash): (payload: Option<seq<Byte>>)
    requires size % 3 == 0 && Wide(hash)
    ensures payload.Some? ==> |payload.value| == size
  {
    var letters := Unpadded(text);
    if |letters| != (size + CHECKSUM_SIZE) / 3 * 4 then None
    else
      var token := Decode(letters);
      if token.None? then None
      else
        var payload := token.value[..size];
        if token.value[size..] == hash(payload)[..CHECKSUM_SIZE] then Some(payload) else None
  }

  /** A text opens to a payload exactly when it is that payload sealed, up to trailing
      padding and the two letters that the decoder takes in either alphabet.  */
  lemma OpenSealed(text: string, payload: seq<Byte>, hash: Hash)
    requires |payload| % 3 == 0 && Wide(hash)
    ensures Open(text, |payload|, hash) == Some(payload) <==> UrlText(Unpadded(text)) == Seal(payload, hash)
  {
    var token, letters := payload + hash(payload)[..CHECKSUM_SIZE], Unpadded(text);
    assert token[..|payload|] == payload && token[|payload|..] == hash(payload)[..CHECKSUM_SIZE];
    DecodeEncoded(token);
    DecodeUrlText(letters);
    if |letters| == |token| / 3 * 4 && Decode(letters).Some? {
      EncodeDecoded(letters);
      var found := Decode(letters).value;
      assert found == found[..|payload|] + found[|payload|..];
    }
  }

  /** What was encoded has no padding to strip. */
  lemma {:induction false} EncodedIsUnpadded(bytes: seq<Byte>)
    requires |bytes| % 3 == 0
    ensures Unpadded(Encode(bytes)) == Encode(bytes)
    ensures bytes != [] ==> Encode(bytes)[|Encode(bytes)| - 1] != '='
  {
    if bytes != [] {
      EncodedIsUnpadded(bytes[3..]);
      var quad := Letters(Split(bytes[0], bytes[1], bytes[2]));
      assert quad[3] != '=' by { hide Split; }
      assert Encode(bytes) == quad + Encode(bytes[3..]);
      hide Letters, Split, Letter;
    }
  }

  lemma {:induction false} DecodeUrlText(text: string)
    ensures |text| % 4 == 0 ==> Decode(UrlText(text)) == Decode(text)
  {
    if |text| % 4 == 0 && text != "" {
      DecodeUrlText(text[4..]);
      LettersOfValues(text);
      assert UrlText(text)[4..] == UrlText(text[4..]);
      hide Values, UrlText, Join;
    }
  }

  datatype CursorError = InvalidCursor | InvalidArgument

  datatype Result<+T> = Ok(value: T) | Err(error: CursorError)

  datatype RankKey = RankKey(score: nat, rowId: nat)

  predicate NamespaceOk(namespace: string) {
    0 < |namespace| <= 64 && forall c :: c in namespace ==> c as int < 128
  }

  /** ASCII; the modulus only bounds the type. */
  function NamespaceBytes(namespace: string): seq<Byte>
    requires NamespaceOk(namespace)
  {
    seq<Byte>(|namespace|, i requires 0 <= i < |namespace| => namespace[i] as int % 256)
  }

  function NamespaceHash(namespace: string, hash: Hash): seq<Byte>
    requires NamespaceOk(namespace) && Wide(hash)
  {
    hash(NamespaceBytes(namespace))[..NAMESPACE_SIZE]
  }

  function RankPayload(key: RankKey, namespace: string, hash: Hash): (payload: seq<Byte>)
    requires NamespaceOk(namespace) && Wide(hash)
    ensures |payload| == RANK_PAYLOAD_SIZE
  {
    [RANK_VERSION] + Pack(key.score, 8) + Pack(key.rowId, 8) + NamespaceHash(namespace, hash)
  }

  function EncodeRankCursor(score: int, rowId: int, namespace: string, hash: Hash): Result<string>
    requires Wide(hash)
  {
    if score < 0 || rowId <= 0 || !NamespaceOk(namespace) || score >= LIMIT || rowId >= LIMIT then Err(InvalidArgument)
    else Ok(Seal(RankPayload(RankKey(score, rowId), namespace, hash), hash))
  }

  function DecodeRankCursor(cursor: string, namespace: string, hash: Hash): Result<RankKey>
    requires Wide(hash)
  {
    var found := Open(cursor, RANK_PAYLOAD_SIZE, hash);
    if |cursor| > MAX_RANK_CURSOR || found.None? then Err(InvalidCursor)
    else if found.value[0] != RANK_VERSION then Err(InvalidCursor)
    else if !NamespaceOk(namespace) then Err(InvalidArgument)
    else
      var payload := found.value;
      if payload[17..] != NamespaceHash(namespace, hash) then Err(InvalidCursor)
      else
        var key := RankKey(Unpack(payload[1..9]), Unpack(payload[9..17]));
        if key.rowId == 0 then Err(InvalidCursor) else Ok(key)
  }

  lemma RankPayloadParts(key: RankKey, namespace: string, hash: Hash, payload: seq<Byte>)
    requires NamespaceOk(namespace) && Wide(hash) && |payload| == RANK_PAYLOAD_SIZE
    ensures payload == RankPayload(key, namespace, hash) <==>
      && payload[0] == RANK_VERSION && payload[1..9] == Pack(key.score, 8) && payload[9..17] == Pack(key.rowId, 8)
      && payload[17..] == NamespaceHash(namespace, hash)
  {
    var made := RankPayload(key, namespace, hash);
    assert made[0] == RANK_VERSION && made[1..9] == Pack(key.score, 8) && made[9..17] == Pack(key.rowId, 8);
    assert made[17..] == NamespaceHash(namespace, hash);
    assert payload == [payload[0]] + payload[1..9] + payload[9..17] + payload[17..];
  }

  /** A cursor decodes to a key exactly when it is the text encoded for that key and
      namespace, up to the two letters with aliases and to padding within the length
      bound: every encoded cursor is read back, and nothing else is accepted.  */
  lemma RankCursorRoundTrip(cursor: string, key: RankKey, namespace: string, hash: Hash)
    requires Wide(hash) && NamespaceOk(namespace)
    ensures DecodeRankCursor(cursor, namespace, hash) == Ok(key)
      <==> |cursor| <= MAX_RANK_CURSOR
           && EncodeRankCursor(key.score, key.rowId, namespace, hash) == Ok(UrlText(Unpadded(cursor)))
  {
    EightBytes();
    hide Power, Pack, Unpack, NamespaceHash, Encode;
    if EncodeRankCursor(key.score, key.rowId, namespace, hash) == Ok(UrlText(Unpadded(cursor))) {
      var payload := RankPayload(key, namespace, hash);
      RankPayloadParts(key, namespace, hash, payload);
      OpenSealed(cursor, payload, hash);
      UnpackPacked(key.score, 8);
      UnpackPacked(key.rowId, 8);
    }
    if DecodeRankCursor(cursor, namespace, hash) == Ok(key) {
      var payload := Open(cursor, RANK_PAYLOAD_SIZE, hash).value;
      PackUnpacked(payload[1..9]);
      PackUnpacked(payload[9..17]);
      RankPayloadParts(key, namespace, hash, payload);
      OpenSealed(cursor, payload, hash);
    }
  }
}
