/** JSON strings as the serializer writes them, and reading them back (section 7 of
    RFC 8259).  A character stands for a Unicode scalar value.  */
module JsonText {
  import opened RequestPath

  datatype Read<+T> = Got(value: T, rest: string) | Malformed

  function LowerHexDigit(v: int): (c: char)
    requires 0 <= v < 16
    ensures IsHex(c) && HexValue(c) == v
  {
    if v < 10 then (v + '0' as int) as char else (v - 10 + 'a' as int) as char
  }

  /** A sixteen-bit code unit as an escape. */
  function UnitEscape(unit: int): string
    requires 0 <= unit < 0x1_0000
  {
    ['\\', 'u', LowerHexDigit(unit / 4096), LowerHexDigit(unit / 256 % 16), LowerHexDigit(unit / 16 % 16), LowerHexDigit(unit % 16)]
  }

  /** Quotation mark, reverse solidus and control characters are escaped; in ASCII
      text so is everything beyond it, as a pair of surrogates where one unit is not
      enough.  */
  function Escape(c: char, ascii: bool): string {
    if c == '\"' then "\\\""
    else if c == '\\' then "\\\\"
    else if c == '\n' then "\\n"
    else if c == '\r' then "\\r"
    else if c == '\t' then "\\t"
    else if c as int == 8 then "\\b"
    else if c as int == 12 then "\\f"
    else if c as int < 32 || (ascii && 127 <= c as int < 0x1_0000) then UnitEscape(c as int)
    else if ascii && c as int >= 0x1_0000 then
      UnitEscape(0xD800 + (c as int - 0x1_0000) / 1024) + UnitEscape(0xDC00 + (c as int - 0x1_0000) % 1024)
    else [c]
  }

  function EscapeAll(s: string, ascii: bool): string {
    if s == "" then "" else Escape(s[0], ascii) + EscapeAll(s[1..], ascii)
  }

  function Quote(s: string, ascii: bool): string {
    "\"" + EscapeAll(s, ascii) + "\""
  }

  // ----- reading

  function ReadUnit(text: string): (r: Read<int>)
    ensures r.Got? ==> 0 <= r.value < 0x1_0000 && |r.rest| + 6 == |text|
  {
    if |text| < 6 || text[0] != '\\' || text[1] != 'u'
       || !IsHex(text[2]) || !IsHex(text[3]) || !IsHex(text[4]) || !IsHex(text[5]) then Malformed
    else Got(4096 * HexValue(text[2]) + 256 * HexValue(text[3]) + 16 * HexValue(text[4]) + HexValue(text[5]), text[6..])
  }

  /** One scalar value from one unit, or from a pair of surrogates. */
  function ReadScalar(text: string): (r: Read<char>)
    ensures r.Got? ==> |r.rest| < |text|
  {
    var high := ReadUnit(text);
    if high.Malformed? then Malformed
    else if !(0xD800 <= high.value < 0xE000) then Got(high.value as char, high.rest)
    else
      var low := ReadUnit(high.rest);
      if high.value >= 0xDC00 || low.Malformed? || !(0xDC00 <= low.value < 0xE000) then Malformed
      else Got((0x1_0000 + 1024 * (high.value - 0xD800) + (low.value - 0xDC00)) as char, low.rest)
  }

  function ReadCharacter(text: string): (r: Read<char>)
    ensures r.Got? ==> |r.rest| < |text|
  {
    if text == "" || text[0] == '\"' || text[0] as int < 32 then Malformed
    else if text[0] != '\\' then Got(text[0], text[1..])
    else if |text| < 2 then Malformed
    else
      match text[1]
      case '\"' => Got('\"', text[2..])
      case '\\' => Got('\\', text[2..])
      case '/' => Got('/', text[2..])
      case 'n' => Got('\n', text[2..])
      case 'r' => Got('\r', text[2..])
      case 't' => Got('\t', text[2..])
      case 'b' => Got(8 as char, text[2..])
      case 'f' => Got(12 as char, text[2..])
      case 'u' => ReadScalar(text)
      case _ => Malformed
  }

  function ReadCharacters(text: string): (r: Read<string>)
    ensures r.Got? ==> |r.rest| < |text|
    decreases |text|
  {
    if text == "" then Malformed
    else if text[0] == '\"' then Got("", text[1..])
    else
      var first := ReadCharacter(text);
      if first.Malformed? then Malformed
      else
        var others := ReadCharacters(first.rest);
        if others.Malformed? then Malformed else Got([first.value] + others.value, others.rest)
  }

  function ReadString(text: string): (r: Read<string>)
    ensures r.Got? ==> |r.rest| < |text|
  {
    if text == "" || text[0] != '\"' then Malformed else ReadCharacters(text[1..])
  }

  // ----- what was written is read back

  lemma ReadWrittenUnit(unit: int, rest: string)
    requires 0 <= unit < 0x1_0000
    ensures ReadUnit(UnitEscape(unit) + rest) == Got(unit, rest)
  {
    var text := UnitEscape(unit) + rest;
    assert text[6..] == rest;
    Nibbles(unit);
  }

  lemma Nibbles(unit: int)
    requires 0 <= unit < 0x1_0000
    ensures 4096 * (unit / 4096) + 256 * (unit / 256 % 16) + 16 * (unit / 16 % 16) + unit % 16 == unit
  {
    var a, b, c := unit / 16, unit / 256, unit / 4096;
    assert a / 16 == b && b / 16 == c;
  }

  lemma ReadSimple(c: char, ascii: bool, rest: string)
    requires Escape(c, ascii) == [c] || |Escape(c, ascii)| == 2
    ensures ReadCharacter(Escape(c, ascii) + rest) == Got(c, rest)
  {
    var text := Escape(c, ascii) + rest;
    assert text[|Escape(c, ascii)|..] == rest;
    hide ReadScalar, UnitEscape;
  }

  lemma ReadOneUnit(c: char, rest: string)
    requires c as int < 0x1_0000
    ensures ReadCharacter(UnitEscape(c as int) + rest) == Got(c, rest)
  {
    ReadWrittenUnit(c as int, rest);
    hide ReadUnit;
  }

  lemma ReadPair(c: char, rest: string)
    requires c as int >= 0x1_0000
    ensures var high, low := 0xD800 + (c as int - 0x1_0000) / 1024, 0xDC00 + (c as int - 0x1_0000) % 1024;
      ReadCharacter(UnitEscape(high) + UnitEscape(low) + rest) == Got(c, rest)
  {
    var high, low := 0xD800 + (c as int - 0x1_0000) / 1024, 0xDC00 + (c as int - 0x1_0000) % 1024;
    ReadWrittenUnit(high, UnitEscape(low) + rest);
    ReadWrittenUnit(low, rest);
    assert UnitEscape(high) + UnitEscape(low) + rest == UnitEscape(high) + (UnitEscape(low) + rest);
    hide ReadUnit;
  }

  lemma ReadEscaped(c: char, ascii: bool, rest: string)
    ensures ReadCharacter(Escape(c, ascii) + rest) == Got(c, rest)
    ensures Escape(c, ascii)[0] != '\"'
  {
    if Escape(c, ascii) == [c] || |Escape(c, ascii)| == 2 {
      ReadSimple(c, ascii, rest);
    } else if c as int < 0x1_0000 {
      ReadOneUnit(c, rest);
    } else {
      ReadPair(c, rest);
    }
    hide ReadCharacter;
  }

  lemma ReadOne(c: char, ascii: bool, text: string)
    ensures var others := ReadCharacters(text);
      ReadCharacters(Escape(c, ascii) + text) == if others.Got? then Got([c] + others.value, others.rest) else Malformed
  {
    ReadEscaped(c, ascii, text);
    assert (Escape(c, ascii) + text)[0] == Escape(c, ascii)[0];
    hide Escape, ReadCharacter;
  }

  lemma ReadEnd(tail: string)
    requires tail != "" && tail[0] == '\"'
    ensures ReadCharacters(tail) == Got("", tail[1..])
  {
  }

  lemma {:induction false} ReadEscapedAll(s: string, ascii: bool, tail: string)
    requires tail != "" && tail[0] == '\"'
    ensures ReadCharacters(EscapeAll(s, ascii) + tail) == Got(s, tail[1..])
  {
    hide Escape, ReadCharacter, ReadCharacters;
    if s == "" {
      assert EscapeAll(s, ascii) + tail == tail;
      ReadEnd(tail);
    } else {
      var text := EscapeAll(s[1..], ascii) + tail;
      ReadEscapedAll(s[1..], ascii, tail);
      ReadOne(s[0], ascii, text);
      assert EscapeAll(s, ascii) + tail == Escape(s[0], ascii) + text;
      assert [s[0]] + s[1..] == s;
    }
  }

  lemma ReadQuoted(s: string, ascii: bool, rest: string)
    ensures ReadString(Quote(s, ascii) + rest) == Got(s, rest)
  {
    var tail := "\"" + rest;
    hide EscapeAll, ReadCharacters;
    ReadEscapedAll(s, ascii, tail);
    var text := Quote(s, ascii) + rest;
    assert text == ['\"'] + (EscapeAll(s, ascii) + tail);
    assert text[1..] == EscapeAll(s, ascii) + tail;
  }
}
