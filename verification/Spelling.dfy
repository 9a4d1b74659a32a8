/** How canonical texts are spelled: reading back would also accept other spellings, but a
    hash does not.  */
module Spelling {
  import opened RequestPath
  import opened JsonText
  import opened TagOrder
  import opened Json
  import opened CanonicalForm
  import opened RequestBinding

  // ----- paths

  predicate UpperHex(c: char) {
    '0' <= c <= '9' || 'A' <= c <= 'F'
  }

  /** An octet in upper case that needs its encoding. */
  predicate EncodedAt(path: string, i: nat) {
    && i + 2 < |path| && UpperHex(path[i + 1]) && UpperHex(path[i + 2])
    && !Unreserved((16 * HexValue(path[i + 1]) + HexValue(path[i + 2])) as char)
  }

  ghost predicate Spelled(path: string) {
    forall i: nat :: i < |path| && path[i] == '%' ==> EncodedAt(path, i)
  }

  lemma SpelledAppend(a: string, b: string)
    requires Spelled(a) && Spelled(b)
    ensures Spelled(a + b)
  {
    var path := a + b;
    forall i: nat | i < |path| && path[i] == '%' ensures EncodedAt(path, i) {
      if i >= |a| {
        assert b[i - |a|] == '%' && EncodedAt(b, i - |a|);
      } else {
        assert a[i] == '%' && EncodedAt(a, i);
      }
    }
  }

  predicate CanBeWritten(token: Token) {
    match token
    case Plain(c) => c != '%'
    case Encoded(octet) => !Unreserved(octet as char)
  }

  lemma WriteIsSpelled(token: Token)
    requires CanBeWritten(token)
    ensures Spelled(Write(token))
  {
    var text := Write(token);
    if token.Encoded? {
      assert UpperHex(text[1]) && UpperHex(text[2]);
      assert 16 * HexValue(text[1]) + HexValue(text[2]) == token.octet;
    }
  }

  lemma {:induction false} WriteAllIsSpelled(tokens: seq<Token>)
    requires forall i :: 0 <= i < |tokens| ==> CanBeWritten(tokens[i])
    ensures Spelled(WriteAll(tokens))
  {
    if tokens != [] {
      WriteIsSpelled(tokens[0]);
      WriteAllIsSpelled(tokens[1..]);
      SpelledAppend(Write(tokens[0]), WriteAll(tokens[1..]));
    }
  }

  lemma {:induction false} TokensCanBeWritten(path: string)
    ensures Tokenize(path).Ok? ==>
      forall i :: 0 <= i < |SimplifyAll(Tokenize(path).value)| ==> CanBeWritten(SimplifyAll(Tokenize(path).value)[i])
  {
    if path != "" && !IsControl(path[0]) {
      if path[0] != '%' {
        TokensCanBeWritten(path[1..]);
      } else if |path| >= 3 {
        TokensCanBeWritten(path[3..]);
      }
      hide IsHex, HexValue;
    }
  }

  /** The normal form of a path is spelled in one way. */
  lemma NormalizedIsSpelled(path: string)
    ensures Normalized(path).Ok? ==> Spelled(Normalized(path).value)
  {
    TokensCanBeWritten(path);
    if Tokenize(path).Ok? { WriteAllIsSpelled(SimplifyAll(Tokenize(path).value)); }
    hide Spelled, Tokenize, SimplifyAll, CanBeWritten;
  }

  // ----- strings in JSON

  predicate Printable(c: char) {
    32 <= c as int < 127
  }

  /** No digit from A to F in upper case, unless the text is a single character. */
  predicate LowerCase(text: string) {
    |text| > 1 ==> forall i | 0 <= i < |text| :: !('A' <= text[i] <= 'F')
  }

  /** A character is written in the shortest way that the reader accepts for it, in printable
      ASCII where that is asked for, and hexadecimal digits are in lower case.  */
  lemma EscapeIsShortest(c: char, ascii: bool, text: string)
    requires ReadCharacter(text) == Got(c, "")
    requires ascii ==> forall i :: 0 <= i < |text| ==> Printable(text[i])
    ensures |Escape(c, ascii)| <= |text|
  {
    hide HexValue, IsHex;
  }

  lemma EscapeIsPlain(c: char, ascii: bool)
    ensures ascii ==> forall i :: 0 <= i < |Escape(c, ascii)| ==> Printable(Escape(c, ascii)[i])
    ensures LowerCase(Escape(c, ascii))
    ensures (c == '\"' || c == '\\' || c as int < 32) ==> Escape(c, ascii)[0] == '\\'
    ensures !ascii && c as int >= 32 && c != '\"' && c != '\\' ==> Escape(c, ascii) == [c]
  {
  }

  /** A text that needs no escape is written as it is. */
  lemma {:induction false} PlainText(s: string, ascii: bool)
    requires forall c :: c in s ==> Printable(c) && c != '\"' && c != '\\'
    ensures EscapeAll(s, ascii) == s
  {
    if s != "" {
      PlainCharacter(s[0], ascii);
      PlainText(s[1..], ascii);
      hide Escape, Printable;
      assert EscapeAll(s, ascii) == [s[0]] + s[1..];
    }
  }

  lemma PlainCharacter(c: char, ascii: bool)
    requires Printable(c) && c != '\"' && c != '\\'
    ensures Escape(c, ascii) == [c]
  {
  }

  // ----- the two serializers agree

  lemma {:induction false} AscendingKeys(keys: set<string>, listed: seq<string>)
    requires Ascending(listed, NameBefore) && forall key :: key in listed <==> key in keys
    ensures SortedKeys(keys) == listed
    decreases |listed|
  {
    hide *;
    if listed == [] {
      NoKeys(keys);
    } else {
      FirstKeyFirst(keys, listed);
      RestKeys(keys, listed);
      AscendingKeys(keys - {listed[0]}, listed[1..]);
      assert listed == [listed[0]] + listed[1..];
    }
  }

  lemma NoKeys(keys: set<string>)
    requires forall key :: key !in keys
    ensures SortedKeys(keys) == []
  {
    assert keys == {};
  }

  lemma RestKeys(keys: set<string>, listed: seq<string>)
    requires listed != [] && Ascending(listed, NameBefore) && forall key :: key in listed <==> key in keys
    ensures Ascending(listed[1..], NameBefore)
    ensures forall key :: key in listed[1..] <==> key in keys - {listed[0]}
  {
    hide NameBefore;
    forall key ensures key in listed[1..] <==> key in listed && key != listed[0] { TailHolds(listed, key); }
  }

  lemma FirstKeyFirst(keys: set<string>, listed: seq<string>)
    requires listed != [] && Ascending(listed, NameBefore) && forall key :: key in listed <==> key in keys
    ensures keys != {} && SortedKeys(keys) == [listed[0]] + SortedKeys(keys - {listed[0]})
  {
    assert listed[0] in keys;
    var sorted := SortedKeys(keys);
    SortedKeysAscend(keys);
    assert sorted[0] in listed && listed[0] in sorted;
    hide NameBefore;
    FirstsAgree(sorted, listed);
  }

  lemma FirstsAgree(a: seq<string>, b: seq<string>)
    requires Ascending(a, NameBefore) && Ascending(b, NameBefore) && a != [] && b != [] && a[0] in b && b[0] in a
    ensures a[0] == b[0]
  {
    var i :| 0 <= i < |b| && b[i] == a[0];
    var k :| 0 <= k < |a| && a[k] == b[0];
    if i != 0 && k != 0 {
      NameTransitive(a[0], b[0], a[0]);
      NameIrreflexive(a[0]);
    }
  }

  lemma TailHolds(listed: seq<string>, key: string)
    requires Ascending(listed, NameBefore) && listed != []
    ensures key in listed[1..] <==> key in listed && key != listed[0]
  {
    NameIrreflexive(listed[0]);
    if key in listed[1..] {
      var i :| 0 <= i < |listed[1..]| && listed[1..][i] == key;
      assert listed[i + 1] == key && NameBefore(listed[0], key);
    }
    if key in listed && key != listed[0] {
      var i :| 0 <= i < |listed| && listed[i] == key;
      assert listed[1..][i - 1] == key;
    }
  }

  const BINDING_KEYS: seq<string> :=
    ["approval_fingerprint", "canonical_url", "entity_type", "provider_id", "source_id", "version"]

  /** The payload that is serialized into the request key. */
  function BindingDocument(b: Binding): Json {
    Dict(map["approval_fingerprint" := Text(b.fingerprint), "canonical_url" := Text(b.url), "entity_type" := Text(b.entity),
             "provider_id" := Text(b.provider), "source_id" := Text(b.source), "version" := Number("1")])
  }

  lemma BindingKeysSorted(b: Binding)
    ensures SortedKeys(BindingDocument(b).members.Keys) == BINDING_KEYS
  {
    assert Ascending(BINDING_KEYS, NameBefore);
    AscendingKeys(BindingDocument(b).members.Keys, BINDING_KEYS);
  }

  lemma JoinStep(texts: seq<string>, tail: string)
    requires |texts| > 1
    ensures Join(texts, ",") + tail == texts[0] + ("," + (Join(texts[1..], ",") + tail))
  {
  }

  /** One member, its name plain, with what follows it. */
  lemma MemberText(key: string, value: string, tail: string)
    requires Plain(key)
    ensures DumpMember(key, value, PREIMAGE_STYLE) + tail == ("\"" + key + "\":") + (value + tail)
  {
    PlainText(key, false);
  }

  // The canonical text, cut after each member.

  function AfterSource(b: Binding): string { ",\"version\":1}" }
  function AfterProvider(b: Binding): string { ",\"source_id\":" + (Quote(b.source, false) + AfterSource(b)) }
  function AfterEntity(b: Binding): string { ",\"provider_id\":" + (Quote(b.provider, false) + AfterProvider(b)) }
  function AfterUrl(b: Binding): string { ",\"entity_type\":" + (Quote(b.entity, false) + AfterEntity(b)) }
  function AfterFingerprint(b: Binding): string { ",\"canonical_url\":" + (Quote(b.url, false) + AfterUrl(b)) }

  lemma CanonicalText(b: Binding)
    ensures CanonicalJson(b) == "{\"approval_fingerprint\":" + (Quote(b.fingerprint, false) + AfterFingerprint(b))
  {
    hide Quote;
  }

  function Texts(b: Binding): (texts: seq<string>)
    ensures |texts| == 6
  {
    [DumpMember("approval_fingerprint", Quote(b.fingerprint, false), PREIMAGE_STYLE),
     DumpMember("canonical_url", Quote(b.url, false), PREIMAGE_STYLE),
     DumpMember("entity_type", Quote(b.entity, false), PREIMAGE_STYLE),
     DumpMember("provider_id", Quote(b.provider, false), PREIMAGE_STYLE),
     DumpMember("source_id", Quote(b.source, false), PREIMAGE_STYLE),
     DumpMember("version", "1", PREIMAGE_STYLE)]
  }

  /** The members from the `k`-th on, as they are joined. */
  function Rest(b: Binding, k: nat): string
    requires k <= 6
  {
    "," + (Join(Texts(b)[k..], ",") + "}")
  }

  lemma BindingMembers(b: Binding)
    ensures DumpMembers(BindingDocument(b), BINDING_KEYS, PREIMAGE_STYLE) == Texts(b)
  {
    hide Quote, DumpMember;
  }

  lemma UrlIsPlain()
    ensures Plain("canonical_url") && ",\"" + "canonical_url" + "\":" == ",\"canonical_url\":"
  {
  }

  lemma EntityIsPlain()
    ensures Plain("entity_type") && ",\"" + "entity_type" + "\":" == ",\"entity_type\":"
  {
  }

  lemma ProviderIsPlain()
    ensures Plain("provider_id") && ",\"" + "provider_id" + "\":" == ",\"provider_id\":"
  {
  }

  lemma SourceIsPlain()
    ensures Plain("source_id") && ",\"" + "source_id" + "\":" == ",\"source_id\":"
  {
  }

  lemma VersionIsPlain()
    ensures Plain("version") && ",\"" + "version" + "\":" + ("1" + "}") == ",\"version\":1}"
  {
  }

  lemma FingerprintIsPlain()
    ensures Plain("approval_fingerprint") && "{\"" + "approval_fingerprint" + "\":" == "{\"approval_fingerprint\":"
  {
  }

  lemma VersionText(b: Binding)
    ensures Rest(b, 5) == AfterSource(b)
  {
    VersionIsPlain();
    assert Texts(b)[5] == DumpMember("version", "1", PREIMAGE_STYLE) && |Texts(b)| == 6;
    hide DumpMember, Join, Plain, Texts;
    LastMemberText(Texts(b), 5, "version", "1");
  }

  lemma SourceText(b: Binding)
    ensures Rest(b, 4) == AfterProvider(b)
  {
    VersionText(b);
    SourceIsPlain();
    assert Texts(b)[4] == DumpMember("source_id", Quote(b.source, false), PREIMAGE_STYLE) && |Texts(b)| == 6;
    hide DumpMember, Join, Plain, Quote, AfterSource, Texts;
    NextMemberText(Texts(b), 4, "source_id", Quote(b.source, false), Rest(b, 5));
  }

  lemma ProviderText(b: Binding)
    ensures Rest(b, 3) == AfterEntity(b)
  {
    SourceText(b);
    ProviderIsPlain();
    assert Texts(b)[3] == DumpMember("provider_id", Quote(b.provider, false), PREIMAGE_STYLE) && |Texts(b)| == 6;
    hide DumpMember, Join, Plain, Quote, AfterProvider, Texts;
    NextMemberText(Texts(b), 3, "provider_id", Quote(b.provider, false), Rest(b, 4));
  }

  lemma EntityText(b: Binding)
    ensures Rest(b, 2) == AfterUrl(b)
  {
    ProviderText(b);
    EntityIsPlain();
    assert Texts(b)[2] == DumpMember("entity_type", Quote(b.entity, false), PREIMAGE_STYLE) && |Texts(b)| == 6;
    hide DumpMember, Join, Plain, Quote, AfterEntity, Texts;
    NextMemberText(Texts(b), 2, "entity_type", Quote(b.entity, false), Rest(b, 3));
  }

  lemma UrlText(b: Binding)
    ensures Rest(b, 1) == AfterFingerprint(b)
  {
    EntityText(b);
    UrlIsPlain();
    assert Texts(b)[1] == DumpMember("canonical_url", Quote(b.url, false), PREIMAGE_STYLE) && |Texts(b)| == 6;
    hide DumpMember, Join, Plain, Quote, AfterUrl, Texts;
    NextMemberText(Texts(b), 1, "canonical_url", Quote(b.url, false), Rest(b, 2));
  }

  lemma WholeText(b: Binding)
    ensures "{" + (Join(Texts(b), ",") + "}") == CanonicalJson(b)
  {
    UrlText(b);
    FingerprintIsPlain();
    CanonicalText(b);
    assert Texts(b)[0] == DumpMember("approval_fingerprint", Quote(b.fingerprint, false), PREIMAGE_STYLE) && |Texts(b)| == 6;
    hide DumpMember, Join, Plain, Quote, AfterFingerprint, CanonicalJson, Texts;
    FirstMemberText(Texts(b), "approval_fingerprint", Quote(b.fingerprint, false), Rest(b, 1));
  }

  /** The text that is hashed into a request key is what the general serializer writes for
      its six members, sorted and without white space.  */
  lemma CanonicalJsonIsSerialized(b: Binding)
    ensures CanonicalJson(b) == Dump(BindingDocument(b), PREIMAGE_STYLE)
  {
    BindingKeysSorted(b);
    DocumentText(b);
    BindingMembers(b);
    WholeText(b);
    hide Quote, DumpMember, SortedKeys, DumpMembers, Join, CanonicalJson, Dump;
  }

  predicate Plain(key: string) {
    forall c :: c in key ==> Printable(c) && c != '\"' && c != '\\'
  }

  lemma NextMemberText(texts: seq<string>, k: nat, key: string, value: string, rest: string)
    requires k + 1 < |texts| && Plain(key) && texts[k] == DumpMember(key, value, PREIMAGE_STYLE)
    requires "," + (Join(texts[k + 1..], ",") + "}") == rest
    ensures "," + (Join(texts[k..], ",") + "}") == (",\"" + key + "\":") + (value + rest)
  {
    JoinStep(texts[k..], "}");
    MemberText(key, value, rest);
    hide DumpMember, Join;
    assert texts[k..][1..] == texts[k + 1..];
  }

  lemma FirstMemberText(texts: seq<string>, key: string, value: string, rest: string)
    requires 1 < |texts| && Plain(key) && texts[0] == DumpMember(key, value, PREIMAGE_STYLE)
    requires "," + (Join(texts[1..], ",") + "}") == rest
    ensures "{" + (Join(texts, ",") + "}") == ("{\"" + key + "\":") + (value + rest)
  {
    JoinStep(texts, "}");
    MemberText(key, value, rest);
    hide DumpMember, Join;
  }

  lemma LastMemberText(texts: seq<string>, k: nat, key: string, value: string)
    requires k + 1 == |texts| && Plain(key) && texts[k] == DumpMember(key, value, PREIMAGE_STYLE)
    ensures "," + (Join(texts[k..], ",") + "}") == (",\"" + key + "\":") + (value + "}")
  {
    assert texts[k..] == [texts[k]];
    JoinOne(texts[k]);
    MemberText(key, value, "}");
    hide DumpMember, Join;
  }

  lemma DocumentText(b: Binding)
    requires SortedKeys(BindingDocument(b).members.Keys) == BINDING_KEYS
    ensures Dump(BindingDocument(b), PREIMAGE_STYLE)
         == "{" + (Join(DumpMembers(BindingDocument(b), BINDING_KEYS, PREIMAGE_STYLE), ",") + "}")
  {
    hide Join, DumpMembers, SortedKeys;
  }

  lemma JoinOne(text: string)
    ensures Join([text], ",") == text
  {
  }

  lemma EscapeSample()
    ensures Quote([233 as char], true) == "\"\\u00e9\""
  {
    assert LowerHexDigit(14) == 'e' && LowerHexDigit(9) == '9' && LowerHexDigit(0) == '0';
    assert UnitEscape(233) == "\\u00e9";
    assert EscapeAll([233 as char], true) == Escape(233 as char, true) + EscapeAll([], true);
  }

  lemma ItemsSample()
    ensures DumpItems(List([Null, Bool(true), Text([233 as char])]), SORT_STYLE) == ["null", "true", "\"\\u00e9\""]
  {
    EscapeSample();
    hide Quote, Join, SortedKeys, DumpMembers;
  }

  /** The sort key keeps the serializer's default layout, in ASCII. */
  lemma SortTextOfList()
    ensures SortText(List([Null, Bool(true), Text([233 as char])])) == "[null, true, \"\\u00e9\"]"
  {
    ItemsSample();
    JoinSample();
    hide Quote, Join, DumpItems;
  }

  lemma SortTextOfDict()
    ensures SortText(Dict(map["a" := Null])) == "{\"a\": null}"
  {
    var doc := Dict(map["a" := Null]);
    AscendingKeys(doc.members.Keys, ["a"]);
    MemberSample();
    hide DumpMember, SortedKeys, Quote;
    assert DumpMembers(doc, ["a"], SORT_STYLE) == ["\"a\": null"];
  }

  lemma JoinSample()
    ensures Join(["null", "true", "\"\\u00e9\""], ", ") == "null, true, \"\\u00e9\""
  {
    assert Join(["\"\\u00e9\""], ", ") == "\"\\u00e9\"";
    assert ["true", "\"\\u00e9\""][1..] == ["\"\\u00e9\""];
    assert ["null", "true", "\"\\u00e9\""][1..] == ["true", "\"\\u00e9\""];
  }

  lemma MemberSample()
    ensures DumpMember("a", "null", SORT_STYLE) == "\"a\": null"
  {
    PlainText("a", true);
  }
}
