/** The canonical JSON of a request binding: the text that is hashed into the
    request key determines the binding.  Characters stand for code points.  */
module RequestBinding {
  import opened JsonText

  datatype Binding = Binding(
    fingerprint: string, provider: string, entity: string, source: string, url: string)

  /** Members in key order, no white space, and the version last. */
  function CanonicalJson(b: Binding): string {
    "{\"approval_fingerprint\":" + (Quote(b.fingerprint, false) +
    (",\"canonical_url\":" + (Quote(b.url, false) +
    (",\"entity_type\":" + (Quote(b.entity, false) +
    (",\"provider_id\":" + (Quote(b.provider, false) +
    (",\"source_id\":" + (Quote(b.source, false) +
    ",\"version\":1}")))))))))
  }

  /** A member: its name as written, then a string. */
  function ReadMember(name: string, text: string): Read<string> {
    if name <= text then ReadString(text[|name|..]) else Malformed
  }

  function ReadBinding(text: string): Read<Binding> {
    var fingerprint := ReadMember("{\"approval_fingerprint\":", text);
    if fingerprint.Malformed? then Malformed else
    var url := ReadMember(",\"canonical_url\":", fingerprint.rest);
    if url.Malformed? then Malformed else
    var entity := ReadMember(",\"entity_type\":", url.rest);
    if entity.Malformed? then Malformed else
    var provider := ReadMember(",\"provider_id\":", entity.rest);
    if provider.Malformed? then Malformed else
    var source := ReadMember(",\"source_id\":", provider.rest);
    if source.Malformed? || source.rest != ",\"version\":1}" then Malformed else
    Got(Binding(fingerprint.value, provider.value, entity.value, source.value, url.value), "")
  }

  lemma ReadWrittenMember(name: string, value: string, rest: string)
    ensures ReadMember(name, name + (Quote(value, false) + rest)) == Got(value, rest)
  {
    ReadQuoted(value, false, rest);
    assert (name + (Quote(value, false) + rest))[|name|..] == Quote(value, false) + rest;
  }

  /** The canonical text reads back as the binding it was made from. */
  lemma CanonicalJsonRoundTrip(b: Binding)
    ensures ReadBinding(CanonicalJson(b)) == Got(b, "")
  {
    hide Quote, ReadMember;
    var r0 := ",\"version\":1}";
    var r1 := ",\"source_id\":" + (Quote(b.source, false) + r0);
    var r2 := ",\"provider_id\":" + (Quote(b.provider, false) + r1);
    var r3 := ",\"entity_type\":" + (Quote(b.entity, false) + r2);
    var r4 := ",\"canonical_url\":" + (Quote(b.url, false) + r3);
    ReadWrittenMember("{\"approval_fingerprint\":", b.fingerprint, r4);
    ReadWrittenMember(",\"canonical_url\":", b.url, r3);
    ReadWrittenMember(",\"entity_type\":", b.entity, r2);
    ReadWrittenMember(",\"provider_id\":", b.provider, r1);
    ReadWrittenMember(",\"source_id\":", b.source, r0);
  }

  /** Two bindings with one canonical text are one binding. */
  lemma CanonicalJsonIsInjective(a: Binding, b: Binding)
    ensures CanonicalJson(a) == CanonicalJson(b) ==> a == b
  {
    CanonicalJsonRoundTrip(a);
    CanonicalJsonRoundTrip(b);
  }
}
