/** Percent-encoding normal form of the path of a live request (sections 6.2.2.1
    and 6.2.2.2 of RFC 3986): the loop, and what the normal form means.  */
module RequestPath {
  datatype PathError = NotAbsolute | ControlCharacter | InvalidEncoding

  datatype Result<+T> = Ok(value: T) | Err(error: PathError)

  type Octet = x: int | 0 <= x < 256

  /** One step of a path: a character written as itself, or an encoded octet. */
  datatype Token = Plain(c: char) | Encoded(octet: Octet)

  predicate IsHex(c: char) {
    '0' <= c <= '9' || 'a' <= c <= 'f' || 'A' <= c <= 'F'
  }

  function HexValue(c: char): (v: int)
    requires IsHex(c)
    ensures 0 <= v < 16
  {
    if c <= '9' then c as int - '0' as int
    else if c <= 'F' then c as int - 'A' as int + 10
    else c as int - 'a' as int + 10
  }

  function HexDigit(v: int): (c: char)
    requires 0 <= v < 16
    ensures IsHex(c) && HexValue(c) == v && !('a' <= c <= 'f')
  {
    if v < 10 then (v + '0' as int) as char else (v - 10 + 'A' as int) as char
  }

  predicate IsControl(c: char) {
    c as int < 32 || c as int == 127
  }

  predicate Unreserved(c: char) {
    'A' <= c <= 'Z' || 'a' <= c <= 'z' || '0' <= c <= '9' || c == '-' || c == '.' || c == '_' || c == '~'
  }

  // ----- reading and writing tokens

  function Tokenize(path: string): (r: Result<seq<Token>>)
    ensures r.Ok? ==> |r.value| <= |path|
  {
    if path == "" then Ok([])
    else if IsControl(path[0]) then Err(ControlCharacter)
    else if path[0] != '%' then
      var rest := Tokenize(path[1..]);
      if rest.Err? then rest else Ok([Plain(path[0])] + rest.value)
    else if |path| < 3 || !IsHex(path[1]) || !IsHex(path[2]) then Err(InvalidEncoding)
    else
      var rest := Tokenize(path[3..]);
      if rest.Err? then rest else Ok([Encoded(16 * HexValue(path[1]) + HexValue(path[2]))] + rest.value)
  }

  function Write(token: Token): string {
    match token
    case Plain(c) => [c]
    case Encoded(octet) => ['%', HexDigit(octet / 16), HexDigit(octet % 16)]
  }

  function WriteAll(tokens: seq<Token>): string {
    if tokens == [] then "" else Write(tokens[0]) + WriteAll(tokens[1..])
  }

  function Simplify(token: Token): Token {
    match token
    case Encoded(octet) => if Unreserved(octet as char) then Plain(octet as char) else token
    case Plain(_) => token
  }

  function SimplifyAll(tokens: seq<Token>): seq<Token> {
    if tokens == [] then [] else [Simplify(tokens[0])] + SimplifyAll(tokens[1..])
  }

  /** What the loop computes. */
  function Normalized(path: string): Result<string> {
    if path == "" || path[0] != '/' then Err(NotAbsolute)
    else
      var tokens := Tokenize(path);
      if tokens.Err? then Err(tokens.error) else Ok(WriteAll(SimplifyAll(tokens.value)))
  }

  function Prepend(done: string, rest: Result<seq<Token>>): Result<string> {
    if rest.Err? then Err(rest.error) else Ok(done + WriteAll(SimplifyAll(rest.value)))
  }

  predicate StartsEncoded(path: string) {
    |path| >= 3 && path[0] == '%' && IsHex(path[1]) && IsHex(path[2])
  }

  method NormalizeAsciiPath(path: string) returns (result: Result<string>)
    ensures result == Normalized(path)
  {
    if path == "" || path[0] != '/' { return Err(NotAbsolute); }
    var normalized := "";
    var index := 0;
    assert path[0..] == path;
    assert Tokenize(path).Ok? ==> "" + WriteAll(SimplifyAll(Tokenize(path).value)) == WriteAll(SimplifyAll(Tokenize(path).value));
    while index < |path|
      invariant 0 <= index <= |path|
      invariant Normalized(path) == Prepend(normalized, Tokenize(path[index..]))
    {
      var character := path[index];
      ghost var ahead := path[index..];
      if IsControl(character) { return Err(ControlCharacter); }
      if character != '%' {
        StepPlain(normalized, ahead);
        normalized := normalized + [character];
        index := index + 1;
        continue;
      }
      if index + 2 >= |path| || !IsHex(path[index + 1]) || !IsHex(path[index + 2]) {
        return Err(InvalidEncoding);
      }
      StepEncoded(normalized, ahead);
      assert ahead[3..] == path[index + 3..];
      var octet := 16 * HexValue(path[index + 1]) + HexValue(path[index + 2]);
      normalized := normalized +
        if Unreserved(octet as char) then [octet as char] else ['%', HexDigit(octet / 16), HexDigit(octet % 16)];
      index := index + 3;
    }
    assert path[index..] == "" && normalized + "" == normalized;
    return Ok(normalized);
  }

  lemma StepPlain(done: string, path: string)
    requires path != "" && !IsControl(path[0]) && path[0] != '%'
    ensures Prepend(done, Tokenize(path)) == Prepend(done + [path[0]], Tokenize(path[1..]))
  {
    Appended(done, [path[0]], Tokenize(path[1..]));
  }

  lemma StepEncoded(done: string, path: string)
    requires StartsEncoded(path)
    ensures var octet := 16 * HexValue(path[1]) + HexValue(path[2]);
      Prepend(done, Tokenize(path)) == Prepend(done + Write(Simplify(Encoded(octet))), Tokenize(path[3..]))
  {
    Appended(done, Write(Simplify(Encoded(16 * HexValue(path[1]) + HexValue(path[2])))), Tokenize(path[3..]));
  }

  lemma Appended(done: string, more: string, rest: Result<seq<Token>>)
    ensures rest.Ok? ==>
      done + (more + WriteAll(SimplifyAll(rest.value))) == (done + more) + WriteAll(SimplifyAll(rest.value))
  {
  }

  // ----- what the normal form means

  /** A token as it can come out of a text. */
  predicate WellFormed(token: Token) {
    token.Plain? ==> token.c != '%' && !IsControl(token.c) && token.c as int < 128
  }

  predicate AllWellFormed(tokens: seq<Token>) {
    forall i :: 0 <= i < |tokens| ==> WellFormed(tokens[i])
  }

  predicate Ascii(path: string) {
    forall i :: 0 <= i < |path| ==> path[i] as int < 128
  }

  /** The octet that a token stands for. */
  function OctetOf(token: Token): Octet
    requires WellFormed(token)
  {
    match token
    case Plain(c) => c as int
    case Encoded(octet) => octet
  }

  /** The octets that a text of tokens decodes to. */
  function Octets(tokens: seq<Token>): seq<Octet>
    requires AllWellFormed(tokens)
  {
    seq(|tokens|, i requires 0 <= i < |tokens| => OctetOf(tokens[i]))
  }

  /** Two tokens that mean the same: the same character, the same octet in either
      case of hex digits, or an unreserved character encoded in one of them.  */
  predicate SameToken(a: Token, b: Token) {
    || a == b
    || (a.Plain? && b.Encoded? && Unreserved(a.c) && a.c as int == b.octet)
    || (a.Encoded? && b.Plain? && Unreserved(b.c) && b.c as int == a.octet)
  }

  predicate SameTokens(a: seq<Token>, b: seq<Token>) {
    |a| == |b| && forall i :: 0 <= i < |a| ==> SameToken(a[i], b[i])
  }

  lemma {:induction false} SimplifyAllAt(tokens: seq<Token>)
    ensures |SimplifyAll(tokens)| == |tokens|
    ensures forall i :: 0 <= i < |tokens| ==> SimplifyAll(tokens)[i] == Simplify(tokens[i])
  {
    if tokens != [] { SimplifyAllAt(tokens[1..]); }
  }

  lemma {:induction false} TokensOfPath(path: string)
    requires Ascii(path) && Tokenize(path).Ok?
    ensures AllWellFormed(Tokenize(path).value)
  {
    if path != "" {
      if path[0] != '%' { TokensOfPath(path[1..]); } else { TokensOfPath(path[3..]); }
    }
  }

  /** Reading back what was written. */
  lemma {:induction false} TokenizeWritten(tokens: seq<Token>)
    requires AllWellFormed(tokens)
    ensures Tokenize(WriteAll(tokens)) == Ok(tokens)
    ensures Ascii(WriteAll(tokens))
  {
    if tokens != [] {
      TokenizeWritten(tokens[1..]);
      var head, tail := Write(tokens[0]), WriteAll(tokens[1..]);
      var text := WriteAll(tokens);
      assert text == head + tail && text[|head|..] == tail;
      assert [tokens[0]] + tokens[1..] == tokens;
    }
  }

  lemma SimplifyKeepsForm(tokens: seq<Token>)
    requires AllWellFormed(tokens)
    ensures AllWellFormed(SimplifyAll(tokens))
    ensures SimplifyAll(SimplifyAll(tokens)) == SimplifyAll(tokens)
  {
    SimplifyAllAt(tokens);
    SimplifyAllAt(SimplifyAll(tokens));
  }

  /** The normal form reads as the simplified tokens. */
  lemma NormalizedTokens(path: string)
    requires Ascii(path) && Normalized(path).Ok?
    ensures Tokenize(path).Ok? && AllWellFormed(Tokenize(path).value)
    ensures Ascii(Normalized(path).value)
    ensures Tokenize(Normalized(path).value) == Ok(SimplifyAll(Tokenize(path).value))
  {
    TokensOfPath(path);
    SimplifyKeepsForm(Tokenize(path).value);
    TokenizeWritten(SimplifyAll(Tokenize(path).value));
  }

  lemma NormalizedStaysAbsolute(path: string)
    requires Normalized(path).Ok?
    ensures Normalized(path).value != "" && Normalized(path).value[0] == '/'
  {
    assert Tokenize(path).value[0] == Plain('/');
  }

  /** Normalizing twice is normalizing once. */
  lemma NormalizedIsStable(path: string)
    requires Ascii(path) && Normalized(path).Ok?
    ensures Normalized(Normalized(path).value) == Normalized(path)
  {
    NormalizedTokens(path);
    NormalizedStaysAbsolute(path);
    SimplifyKeepsForm(Tokenize(path).value);
  }

  lemma {:induction false} WrittenIsShort(path: string)
    requires Tokenize(path).Ok?
    ensures |WriteAll(SimplifyAll(Tokenize(path).value))| <= |path|
  {
    if path != "" {
      if path[0] != '%' { WrittenIsShort(path[1..]); } else { WrittenIsShort(path[3..]); }
    }
  }

  /** The normal form is never longer. */
  lemma NormalizedIsShort(path: string)
    requires Normalized(path).Ok?
    ensures |Normalized(path).value| <= |path|
  {
    WrittenIsShort(path);
  }

  /** The normal form decodes to the same octets. */
  lemma NormalizedKeepsOctets(path: string)
    requires Ascii(path) && Normalized(path).Ok?
    ensures Tokenize(path).Ok? && AllWellFormed(Tokenize(path).value)
    ensures Tokenize(Normalized(path).value).Ok? && AllWellFormed(Tokenize(Normalized(path).value).value)
    ensures Octets(Tokenize(Normalized(path).value).value) == Octets(Tokenize(path).value)
  {
    NormalizedTokens(path);
    SimplifyAllAt(Tokenize(path).value);
    SimplifyKeepsForm(Tokenize(path).value);
  }

  /** Two valid paths have one normal form exactly when they differ only in the case
      of hex digits and in the encoding of unreserved characters.  */
  lemma SameNormalForm(p: string, q: string)
    requires Ascii(p) && Ascii(q) && Normalized(p).Ok? && Normalized(q).Ok?
    ensures Normalized(p) == Normalized(q) <==> SameTokens(Tokenize(p).value, Tokenize(q).value)
  {
    NormalizedTokens(p);
    NormalizedTokens(q);
    var a, b := Tokenize(p).value, Tokenize(q).value;
    SimplifyAllAt(a);
    SimplifyAllAt(b);
    forall i | 0 <= i < |a| && i < |b| ensures SameToken(a[i], b[i]) <==> Simplify(a[i]) == Simplify(b[i]) { }
    if SameTokens(a, b) {
      assert SimplifyAll(a) == SimplifyAll(b);
    }
    if Normalized(p) == Normalized(q) {
      assert SimplifyAll(a) == SimplifyAll(b);
      assert |a| == |b|;
      forall i | 0 <= i < |a| ensures SameToken(a[i], b[i]) {
        assert SimplifyAll(a)[i] == SimplifyAll(b)[i];
      }
    }
  }
}
