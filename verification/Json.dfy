/** JSON documents, their serialization with sorted keys, and reading it back: one text
    stands for one document.  */
module Json {
  import opened TagOrder
  import opened JsonText

  predicate NumberCharacter(c: char) {
    '0' <= c <= '9' || c == '-' || c == '+' || c == '.' || c == 'e' || c == 'E'
  }

  /** A number as it is written, which is all that tells 1 from 1.0. */
  type NumberText = s: string |
    s != "" && (s[0] == '-' || '0' <= s[0] <= '9') && forall c :: c in s ==> NumberCharacter(c)
    witness "0"

  datatype Json =
    | Null
    | Bool(truth: bool)
    | Number(digits: NumberText)
    | Text(characters: string)
    | List(items: seq<Json>)
    | Dict(members: map<string, Json>)

  /** How a document is laid out as text. */
  datatype Style = Style(itemSeparator: string, keySeparator: string, ascii: bool)

  predicate StyleOk(style: Style) {
    style.itemSeparator != "" && style.itemSeparator[0] == ',' && style.keySeparator != ""
  }

  // ----- keys in order

  lemma {:induction false} FirstKeyExists(keys: set<string>)
    requires keys != {}
    ensures exists key :: key in keys && forall other :: other in keys ==> other == key || NameBefore(key, other)
  {
    var some :| some in keys;
    var rest := keys - {some};
    if rest != {} {
      FirstKeyExists(rest);
      var first :| first in rest && forall other :: other in rest ==> other == first || NameBefore(first, other);
      NameTotal(some, first);
      if NameBefore(some, first) {
        forall other | other in keys ensures other == some || NameBefore(some, other) {
          if other != some && other != first { NameTransitive(some, first, other); }
        }
      } else {
        assert forall other :: other in keys ==> other == first || NameBefore(first, other);
      }
    } else {
      assert keys == rest + {some};
    }
  }

  ghost function SortedKeys(keys: set<string>): (sorted: seq<string>)
    ensures |sorted| == |keys| && forall key :: key in sorted <==> key in keys
  {
    if keys == {} then []
    else
      FirstKeyExists(keys);
      var key :| key in keys && forall other :: other in keys ==> other == key || NameBefore(key, other);
      [key] + SortedKeys(keys - {key})
  }

  lemma {:induction false} SortedKeysAscend(keys: set<string>)
    ensures Ascending(SortedKeys(keys), NameBefore)
  {
    if keys != {} {
      FirstKeyExists(keys);
      var sorted := SortedKeys(keys);
      var rest := sorted[1..];
      assert rest == SortedKeys(keys - {sorted[0]});
      SortedKeysAscend(keys - {sorted[0]});
      forall k | 0 <= k < |rest| ensures NameBefore(sorted[0], rest[k]) { assert rest[k] in rest; }
    }
  }

  // ----- writing

  function Join(texts: seq<string>, separator: string): string {
    if texts == [] then "" else if |texts| == 1 then texts[0] else texts[0] + (separator + Join(texts[1..], separator))
  }

  /** Members by sorted key. */
  ghost function Dump(value: Json, style: Style): string
    decreases value, 1
  {
    match value
    case Null => "null"
    case Bool(truth) => if truth then "true" else "false"
    case Number(digits) => digits
    case Text(characters) => Quote(characters, style.ascii)
    case List(_) => "[" + (Join(DumpItems(value, style), style.itemSeparator) + "]")
    case Dict(members) =>
      "{" + (Join(DumpMembers(value, SortedKeys(members.Keys), style), style.itemSeparator) + "}")
  }

  ghost function DumpItems(value: Json, style: Style): (texts: seq<string>)
    requires value.List?
    ensures |texts| == |value.items|
    decreases value, 0
  {
    seq(|value.items|, i requires 0 <= i < |value.items| => Dump(value.items[i], style))
  }

  ghost function DumpMembers(value: Json, keys: seq<string>, style: Style): (texts: seq<string>)
    requires value.Dict? && forall key :: key in keys ==> key in value.members
    ensures |texts| == |keys|
    decreases value, 0
  {
    seq(|keys|, i requires 0 <= i < |keys| && keys[i] in value.members =>
      DumpMember(keys[i], Dump(value.members[keys[i]], style), style))
  }

  function DumpMember(key: string, value: string, style: Style): string {
    Quote(key, style.ascii) + (style.keySeparator + value)
  }

  // ----- reading

  function NumberLength(text: string): (n: nat)
    ensures n <= |text| && (forall i :: 0 <= i < n ==> NumberCharacter(text[i]))
    ensures n < |text| ==> !NumberCharacter(text[n])
  {
    if text == "" || !NumberCharacter(text[0]) then 0 else 1 + NumberLength(text[1..])
  }

  function ReadValue(text: string, style: Style): (r: Read<Json>)
    ensures r.Got? ==> |r.rest| < |text|
    decreases |text|, 1
  {
    if text == "" then Malformed
    else if text[0] == '\"' then
      var s := ReadString(text);
      if s.Malformed? then Malformed else Got(Text(s.value), s.rest)
    else if text[0] == '[' then
      if |text| > 1 && text[1] == ']' then Got(List([]), text[2..])
      else
        var items := ReadItems(text[1..], style);
        if items.Malformed? then Malformed else Got(List(items.value), items.rest)
    else if text[0] == '{' then
      if |text| > 1 && text[1] == '}' then Got(Dict(map[]), text[2..])
      else
        var members := ReadMembers(text[1..], style);
        if members.Malformed? then Malformed else Got(Dict(members.value), members.rest)
    else if "null" <= text then Got(Null, text[4..])
    else if "true" <= text then Got(Bool(true), text[4..])
    else if "false" <= text then Got(Bool(false), text[5..])
    else
      var n := NumberLength(text);
      if n == 0 || !(text[0] == '-' || '0' <= text[0] <= '9') then Malformed
      else
        assert forall c :: c in text[..n] ==> NumberCharacter(c);
        Got(Number(text[..n]), text[n..])
  }

  function ReadItems(text: string, style: Style): (r: Read<seq<Json>>)
    ensures r.Got? ==> |r.rest| < |text|
    decreases |text|, 2
  {
    var first := ReadValue(text, style);
    if first.Malformed? || first.rest == "" then Malformed
    else if first.rest[0] == ']' then Got([first.value], first.rest[1..])
    else if style.itemSeparator <= first.rest then
      var others := ReadItems(first.rest[|style.itemSeparator|..], style);
      if others.Malformed? then Malformed else Got([first.value] + others.value, others.rest)
    else Malformed
  }

  function ReadMembers(text: string, style: Style): (r: Read<map<string, Json>>)
    ensures r.Got? ==> |r.rest| < |text|
    decreases |text|, 2
  {
    var key := ReadString(text);
    if key.Malformed? || !(style.keySeparator <= key.rest) then Malformed
    else
      var first := ReadValue(key.rest[|style.keySeparator|..], style);
      if first.Malformed? || first.rest == "" then Malformed
      else if first.rest[0] == '}' then Got(map[key.value := first.value], first.rest[1..])
      else if style.itemSeparator <= first.rest then
        var others := ReadMembers(first.rest[|style.itemSeparator|..], style);
        if others.Malformed? then Malformed else Got(others.value[key.value := first.value], others.rest)
      else Malformed
  }

  // ----- what was written is read back

  /** What follows a value does not go on with a number. */
  predicate Ends(rest: string) {
    rest == "" || !NumberCharacter(rest[0])
  }

  lemma {:induction false} NumberEnds(digits: string, rest: string)
    requires (forall c :: c in digits ==> NumberCharacter(c)) && Ends(rest)
    ensures NumberLength(digits + rest) == |digits|
  {
    if digits != "" {
      assert (digits + rest)[1..] == digits[1..] + rest;
      NumberEnds(digits[1..], rest);
    } else {
      assert digits + rest == rest;
    }
  }

  lemma ReadNumber(digits: NumberText, style: Style, rest: string)
    requires Ends(rest)
    ensures ReadValue(Dump(Number(digits), style) + rest, style) == Got(Number(digits), rest)
  {
    var text := digits + rest;
    assert Dump(Number(digits), style) == digits;
    NumberEnds(digits, rest);
    hide Dump, ReadString, NumberLength, ReadItems, ReadMembers;
    assert text[..|digits|] == digits && text[|digits|..] == rest;
    assert text[0] == digits[0];
  }

  lemma ReadText(characters: string, style: Style, rest: string)
    ensures ReadValue(Dump(Text(characters), style) + rest, style) == Got(Text(characters), rest)
  {
    ReadQuoted(characters, style.ascii, rest);
    hide ReadString;
  }

  lemma ReadConstant(value: Json, style: Style, rest: string)
    requires value.Null? || value.Bool?
    ensures ReadValue(Dump(value, style) + rest, style) == Got(value, rest)
  {
    var text := Dump(value, style) + rest;
    assert text[|Dump(value, style)|..] == rest;
  }

  /** A value that is not the last: what follows it starts with the separator. */
  lemma ReadOneOfItems(text: string, value: Json, style: Style, more: string)
    requires StyleOk(style) && ReadValue(text, style) == Got(value, style.itemSeparator + more)
    ensures var others := ReadItems(more, style);
      ReadItems(text, style) == if others.Got? then Got([value] + others.value, others.rest) else Malformed
  {
    assert (style.itemSeparator + more)[|style.itemSeparator|..] == more;
    hide ReadValue;
  }

  lemma {:induction false} RoundTrip(value: Json, style: Style, rest: string)
    requires StyleOk(style) && Ends(rest)
    ensures ReadValue(Dump(value, style) + rest, style) == Got(value, rest)
    decreases value, 1, 0
  {
    hide *;
    match value
    case Null => ReadConstant(value, style, rest);
    case Bool(_) => ReadConstant(value, style, rest);
    case Number(digits) => ReadNumber(digits, style, rest);
    case Text(characters) => ReadText(characters, style, rest);
    case List(items) =>
      if items == [] {
        ReadEmpty(value, style, rest);
      } else {
        ItemsBack(value, 0, style, rest);
        ListText(value, style, rest);
      }
    case Dict(members) =>
      if members == map[] {
        ReadEmpty(value, style, rest);
      } else {
        var keys := SortedKeys(members.Keys);
        assert members.Keys != {};
        MembersBack(value, keys, 0, style, rest);
        DictText(value, style, rest);
      }
  }

  lemma ReadEmpty(value: Json, style: Style, rest: string)
    requires value == List([]) || value == Dict(map[])
    ensures ReadValue(Dump(value, style) + rest, style) == Got(value, rest)
  {
    if value.List? {
      assert Dump(value, style) + rest == "[]" + rest;
      assert ("[]" + rest)[2..] == rest;
    } else {
      assert value.members.Keys == {};
      assert Dump(value, style) + rest == "{}" + rest;
      assert ("{}" + rest)[2..] == rest;
    }
    hide Dump, ReadItems, ReadMembers;
  }

  lemma ItemsBack(value: Json, i: nat, style: Style, rest: string)
    requires StyleOk(style) && value.List? && i < |value.items|
    ensures ReadItems(Join(DumpItems(value, style)[i..], style.itemSeparator) + ("]" + rest), style)
         == Got(value.items[i..], rest)
    decreases value, 0, |value.items| - i
  {
    var texts, sep, tail := DumpItems(value, style), style.itemSeparator, "]" + rest;
    var item := value.items[i];
    assert texts[i..][0] == Dump(item, style);
    if i + 1 == |value.items| {
      assert texts[i..] == [Dump(item, style)] && value.items[i..] == [item];
      RoundTrip(item, style, tail);
      assert tail[1..] == rest;
      hide Dump, DumpItems, ReadValue;
    } else {
      var joined := Join(texts[i + 1..], sep);
      var more := joined + tail;
      assert texts[i..][1..] == texts[i + 1..];
      RoundTrip(item, style, sep + more);
      ItemsBack(value, i + 1, style, rest);
      assert Join(texts[i..], sep) + tail == Dump(item, style) + (sep + more);
      ReadOneOfItems(Dump(item, style) + (sep + more), item, style, more);
      assert value.items[i..] == [item] + value.items[i + 1..];
      hide Dump, DumpItems, ReadValue, ReadItems, Join;
    }
  }

  lemma FirstCharacter(value: Json, style: Style)
    ensures Dump(value, style) != "" && Dump(value, style)[0] != ']'
  {
  }

  lemma JoinStarts(texts: seq<string>, separator: string)
    requires texts != [] && texts[0] != ""
    ensures Join(texts, separator) != "" && Join(texts, separator)[0] == texts[0][0]
  {
  }

  lemma InBrackets(open: string, inner: string, close: string, rest: string)
    requires |open| == 1 && inner != ""
    ensures var text := open + (inner + close) + rest;
      |text| > 1 && text[0] == open[0] && text[1] == inner[0] && text[1..] == inner + (close + rest)
  {
    var text := open + (inner + close) + rest;
    assert text == open + (inner + (close + rest));
  }

  lemma ReadList(text: string, style: Style, items: seq<Json>, rest: string)
    requires |text| > 1 && text[0] == '[' && text[1] != ']' && ReadItems(text[1..], style) == Got(items, rest)
    ensures ReadValue(text, style) == Got(List(items), rest)
  {
    hide ReadItems;
  }

  lemma ReadDict(text: string, style: Style, members: map<string, Json>, rest: string)
    requires |text| > 1 && text[0] == '{' && text[1] != '}' && ReadMembers(text[1..], style) == Got(members, rest)
    ensures ReadValue(text, style) == Got(Dict(members), rest)
  {
    hide ReadMembers;
  }

  lemma ListText(value: Json, style: Style, rest: string)
    requires StyleOk(style) && value.List? && value.items != []
    requires ReadItems(Join(DumpItems(value, style)[0..], style.itemSeparator) + ("]" + rest), style)
         == Got(value.items[0..], rest)
    ensures ReadValue(Dump(value, style) + rest, style) == Got(value, rest)
  {
    var texts := DumpItems(value, style);
    assert texts[0..] == texts && value.items[0..] == value.items && texts[0] == Dump(value.items[0], style);
    var joined := Join(texts, style.itemSeparator);
    assert Dump(value, style) == "[" + (joined + "]");
    FirstCharacter(value.items[0], style);
    hide *;
    JoinStarts(texts, style.itemSeparator);
    InBrackets("[", joined, "]", rest);
    ReadList(Dump(value, style) + rest, style, value.items, rest);
  }

  // ----- members

  /** The members of some of the keys. */
  ghost function Restrict(members: map<string, Json>, keys: seq<string>): map<string, Json> {
    map key | key in keys && key in members :: members[key]
  }

  lemma ReadOneMember(text: string, key: string, value: Json, style: Style, after: string)
    requires StyleOk(style) && text == DumpMember(key, Dump(value, style), style) + after
    requires ReadValue(Dump(value, style) + after, style) == Got(value, after)
    ensures var k := ReadString(text);
      && k.Got? && k.value == key && style.keySeparator <= k.rest
      && k.rest[|style.keySeparator|..] == Dump(value, style) + after
  {
    var quoted, sep, written := Quote(key, style.ascii), style.keySeparator, Dump(value, style);
    hide Dump, Quote, ReadString;
    Regrouped(quoted, sep, written, after);
    ReadQuoted(key, style.ascii, sep + (written + after));
    assert (sep + (written + after))[|sep|..] == written + after;
  }

  lemma Regrouped(a: string, b: string, c: string, d: string)
    ensures a + (b + c) + d == a + (b + (c + d))
  {
  }

  lemma LastMember(text: string, key: string, value: Json, style: Style, rest: string)
    requires StyleOk(style) && text == DumpMember(key, Dump(value, style), style) + ("}" + rest)
    requires ReadValue(Dump(value, style) + ("}" + rest), style) == Got(value, "}" + rest)
    ensures ReadMembers(text, style) == Got(map[key := value], rest)
  {
    ReadOneMember(text, key, value, style, "}" + rest);
    assert ("}" + rest)[1..] == rest;
    hide Dump, ReadValue, ReadString, DumpMember;
  }

  lemma NextMember(text: string, key: string, value: Json, style: Style, more: string)
    requires StyleOk(style) && text == DumpMember(key, Dump(value, style), style) + (style.itemSeparator + more)
    requires ReadValue(Dump(value, style) + (style.itemSeparator + more), style) == Got(value, style.itemSeparator + more)
    ensures var others := ReadMembers(more, style);
      ReadMembers(text, style) == if others.Got? then Got(others.value[key := value], others.rest) else Malformed
  {
    ReadOneMember(text, key, value, style, style.itemSeparator + more);
    assert (style.itemSeparator + more)[|style.itemSeparator|..] == more;
    hide Dump, ReadValue, ReadString, DumpMember;
  }

  lemma RestrictStep(members: map<string, Json>, keys: seq<string>)
    requires keys != [] && keys[0] in members
    ensures Restrict(members, keys) == Restrict(members, keys[1..])[keys[0] := members[keys[0]]]
  {
    assert keys == [keys[0]] + keys[1..];
  }

  lemma RestrictOne(members: map<string, Json>, key: string)
    requires key in members
    ensures Restrict(members, [key]) == map[key := members[key]]
  {
    assert Restrict(members, [key]).Keys == {key};
  }

  /** The last member, then every earlier one in front of those already read. */
  lemma EndOfMembers(value: Json, keys: seq<string>, i: nat, style: Style, rest: string)
    requires StyleOk(style) && value.Dict? && i + 1 == |keys| && forall key :: key in keys ==> key in value.members
    requires ReadValue(Dump(value.members[keys[i]], style) + ("}" + rest), style) == Got(value.members[keys[i]], "}" + rest)
    ensures ReadMembers(Join(DumpMembers(value, keys, style)[i..], style.itemSeparator) + ("}" + rest), style)
         == Got(Restrict(value.members, keys[i..]), rest)
  {
    var key, member := keys[i], value.members[keys[i]];
    MemberTexts(value, keys, i, style);
    assert keys[i..] == [key];
    hide *;
    RestrictOne(value.members, key);
    LastMember(DumpMember(key, Dump(member, style), style) + ("}" + rest), key, member, style, rest);
  }

  lemma MoreMembers(value: Json, keys: seq<string>, i: nat, style: Style, rest: string, more: string)
    requires StyleOk(style) && value.Dict? && i + 1 < |keys| && forall key :: key in keys ==> key in value.members
    requires more == Join(DumpMembers(value, keys, style)[i + 1..], style.itemSeparator) + ("}" + rest)
    requires ReadValue(Dump(value.members[keys[i]], style) + (style.itemSeparator + more), style)
          == Got(value.members[keys[i]], style.itemSeparator + more)
    requires ReadMembers(more, style) == Got(Restrict(value.members, keys[i + 1..]), rest)
    ensures ReadMembers(Join(DumpMembers(value, keys, style)[i..], style.itemSeparator) + ("}" + rest), style)
         == Got(Restrict(value.members, keys[i..]), rest)
  {
    var key, member, sep := keys[i], value.members[keys[i]], style.itemSeparator;
    var text := DumpMember(key, Dump(member, style), style);
    MemberTexts(value, keys, i, style);
    RestrictStep(value.members, keys[i..]);
    assert keys[i..][1..] == keys[i + 1..];
    hide *;
    NextMember(text + (sep + more), key, member, style, more);
    Regrouped(text, sep, Join(DumpMembers(value, keys, style)[i + 1..], sep), "}" + rest);
  }

  lemma MembersBack(value: Json, keys: seq<string>, i: nat, style: Style, rest: string)
    requires StyleOk(style) && value.Dict? && i < |keys| && forall key :: key in keys ==> key in value.members
    ensures ReadMembers(Join(DumpMembers(value, keys, style)[i..], style.itemSeparator) + ("}" + rest), style)
         == Got(Restrict(value.members, keys[i..]), rest)
    decreases value, 0, |keys| - i
  {
    var member := value.members[keys[i]];
    if i + 1 == |keys| {
      assert Ends("}" + rest);
      hide *;
      RoundTrip(member, style, "}" + rest);
      EndOfMembers(value, keys, i, style, rest);
    } else {
      var more := Join(DumpMembers(value, keys, style)[i + 1..], style.itemSeparator) + ("}" + rest);
      assert Ends(style.itemSeparator + more);
      hide *;
      RoundTrip(member, style, style.itemSeparator + more);
      MembersBack(value, keys, i + 1, style, rest);
      MoreMembers(value, keys, i, style, rest, more);
    }
  }

  lemma MemberTexts(value: Json, keys: seq<string>, i: nat, style: Style)
    requires value.Dict? && i < |keys| && forall key :: key in keys ==> key in value.members
    ensures var texts := DumpMembers(value, keys, style);
      var text := DumpMember(keys[i], Dump(value.members[keys[i]], style), style);
      Join(texts[i..], style.itemSeparator)
        == if i + 1 == |keys| then text else text + (style.itemSeparator + Join(texts[i + 1..], style.itemSeparator))
  {
    var texts := DumpMembers(value, keys, style);
    assert texts[i..][0] == texts[i] && texts[i..][1..] == texts[i + 1..];
    hide Dump, DumpMember;
  }

  lemma MemberStarts(key: string, value: string, style: Style)
    ensures DumpMember(key, value, style) != "" && DumpMember(key, value, style)[0] == '\"'
  {
  }

  lemma DictText(value: Json, style: Style, rest: string)
    requires StyleOk(style) && value.Dict? && value.members != map[]
    requires var keys := SortedKeys(value.members.Keys);
      ReadMembers(Join(DumpMembers(value, keys, style)[0..], style.itemSeparator) + ("}" + rest), style)
        == Got(Restrict(value.members, keys[0..]), rest)
    ensures ReadValue(Dump(value, style) + rest, style) == Got(value, rest)
  {
    var keys := SortedKeys(value.members.Keys);
    var texts := DumpMembers(value, keys, style);
    assert texts[0..] == texts && keys[0..] == keys && keys != [];
    assert texts[0] == DumpMember(keys[0], Dump(value.members[keys[0]], style), style);
    assert Restrict(value.members, keys) == value.members;
    var joined := Join(texts, style.itemSeparator);
    assert Dump(value, style) == "{" + (joined + "}");
    hide *;
    MemberStarts(keys[0], Dump(value.members[keys[0]], style), style);
    JoinStarts(texts, style.itemSeparator);
    InBrackets("{", joined, "}", rest);
    ReadDict(Dump(value, style) + rest, style, value.members, rest);
  }

  /** One text, one document. */
  lemma DumpIsInjective(a: Json, b: Json, style: Style)
    requires StyleOk(style)
    ensures Dump(a, style) == Dump(b, style) ==> a == b
  {
    RoundTrip(a, style, "");
    RoundTrip(b, style, "");
    assert Dump(a, style) + "" == Dump(a, style) && Dump(b, style) + "" == Dump(b, style);
    hide Dump, ReadValue;
  }
}
