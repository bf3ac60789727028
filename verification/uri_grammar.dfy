// Which texts are invitations: exactly those of one grammar, with the two parameters in either order.
module UriGrammar {
  import opened Wrappers
  import opened Bytes
  import opened Base32
  import opened Uri

  // ---- base 64, the other way round ------------------------------------------------------------------

  // `n` characters in a row.
  function InARow(first: char, n: nat): (row: string)
    requires first as int + n <= 0x80
    ensures |row| == n && forall i :: 0 <= i < n ==> row[i] as int == first as int + i
  {
    seq(n, i requires 0 <= i < n => (first as int + i) as char)
  }

  // The alphabets of RFC 4648, in order; the addresses use lower case only.
  lemma {:induction false} AlphabetsExactly(ch: char, v: nat)
    ensures var base64 := InARow('A', 26) + InARow('a', 26) + InARow('0', 10) + "-_";
      SymbolValue(ch) == Some(v) <==> v < 64 && base64[v] == ch
    ensures var base32 := InARow('a', 26) + InARow('2', 6);
      Digit(ch) == Some(v) <==> v < 32 && base32[v] == ch
  {
  }

  lemma SymbolOf(ch: char)
    requires SymbolValue(ch).Some?
    ensures Symbol(SymbolValue(ch).value) == ch
  {
  }

  lemma GroupDigits(a: nat, b: nat, c: Option<nat>, d: Option<nat>)
    requires a < 64 && b < 64 && (c.Some? ==> c.value < 64) && (d.Some? ==> c.Some? && d.value < 64)
    requires Group(a, b, c, d).Some?
    ensures var out := Group(a, b, c, d).value;
      && |out| == (if c.None? then 1 else if d.None? then 2 else 3)
      && out[0] / 4 == a
      && (c.None? ==> out[0] % 4 * 16 == b)
      && (c.Some? ==> out[0] % 4 * 16 + out[1] / 16 == b)
      && (c.Some? && d.None? ==> out[1] % 16 * 4 == c.value)
      && (d.Some? ==> out[1] % 16 * 4 + out[2] / 64 == c.value && out[2] % 64 == d.value)
  {
  }

  // Unpadded base 64 without stray bits: what decodes is what encoding gives, and nothing else is.
  lemma {:induction false} Decode64Exactly(text: string, data: seq<byte>)
    ensures Decode64(text) == Some(data) <==> text == Encode64(data)
    decreases |text|
  {
    hide Symbol, SymbolValue, Group, Encode64;
    if Decode64(text) == Some(data) { DecodedEncodes(text); }
    if text == Encode64(data) { Decode64Inverts(data); }
  }

  lemma {:induction false} DecodedEncodes(text: string)
    requires Decode64(text).Some?
    ensures Encode64(Decode64(text).value) == text
    decreases |text|
  {
    hide Symbol, SymbolValue, Group;
    if text != "" {
      forall i | 0 <= i < |text| ensures SymbolValue(text[i]).Some? && Symbol(SymbolValue(text[i]).value) == text[i] {
        SymbolOf(text[i]);
      }
      var a := SymbolValue(text[0]).value;
      var b := SymbolValue(text[1]).value;
      if |text| <= 4 {
        var c := if |text| > 2 then SymbolValue(text[2]) else None;
        var d := if |text| > 3 then SymbolValue(text[3]) else None;
        GroupDigits(a, b, c, d);
        LastGroup(Group(a, b, c, d).value, text);
      } else {
        GroupDigits(a, b, SymbolValue(text[2]), SymbolValue(text[3]));
        DecodedEncodes(text[4..]);
        var first := Group(a, b, SymbolValue(text[2]), SymbolValue(text[3])).value;
        var more := Decode64(text[4..]).value;
        assert (first + more)[3..] == more;
        assert text == text[..4] + text[4..];
      }
    }
  }

  lemma LastGroup(out: seq<byte>, text: string)
    requires 2 <= |text| <= 4 && |out| == |text| - 1
    requires text[0] == Symbol(out[0] / 4)
    requires |out| == 1 ==> text[1] == Symbol(out[0] % 4 * 16)
    requires |out| >= 2 ==> text[1] == Symbol(out[0] % 4 * 16 + out[1] / 16)
    requires |out| == 2 ==> text[2] == Symbol(out[1] % 16 * 4)
    requires |out| == 3 ==> text[2] == Symbol(out[1] % 16 * 4 + out[2] / 64) && text[3] == Symbol(out[2] % 64)
    ensures Encode64(out) == text
  {
    hide Symbol;
    if |out| == 3 { assert out[3..] == []; }
  }

  // ---- the grammar ----------------------------------------------------------------------------------------

  predicate PortText(text: string, port: nat) {
    text != "" && Digits(text) && DecimalValue(text) == port && 1 <= port <= 65535
  }

  predicate VersionText(text: string) { text != "" && Digits(text) && DecimalValue(text) == 1 }

  predicate TokenText(text: string, token: seq<byte>) { text == Encode64(token) && 16 <= |token| <= 32 }

  function Spelled(onion: string, port: string, query: string): string {
    "veilroom" + "://" + (onion + ":" + port + "?" + query)
  }

  predicate QueryText(query: string, version: string, token: string) {
    query == "v=" + version + "&" + ("token=" + token) || query == "token=" + token + "&" + ("v=" + version)
  }

  ghost predicate Spells(digest: Digest, input: string, inv: Invitation) {
    && ValidateOnion(digest, inv.onion).Ok?
    && exists port: string, query: string, version: string, token: string ::
      && PortText(port, inv.port) && VersionText(version) && TokenText(token, inv.token)
      && QueryText(query, version, token) && input == Spelled(inv.onion, port, query)
  }

  // ---- one parameter ------------------------------------------------------------------------------------------

  // A parameter cut at its first equals sign.
  lemma CutParameter(name: string, value: string)
    requires '=' !in name
    ensures var p := name + "=" + value;
      IndexOf(p, '=') == Some(|name|) && p[..|name|] == name && p[|name| + 1..] == value
  {
    hide IndexOf;
    assert name + "=" + value == name + ['='] + value;
    IndexAfter(name, '=', value);
  }

  lemma VersionParameter(q: Query, version: string)
    requires VersionText(version) && "v" !in q.seen
    ensures ReadParameter(q, "v=" + version) == Ok(q.(seen := q.seen + ["v"], version := Some(1)))
  {
    hide IndexOf, Decode64, DecimalValue;
    var name := "v";
    assert "v=" + version == name + "=" + version;
    CutParameter(name, version);
  }

  lemma TokenParameterReads(q: Query, text: string, token: seq<byte>)
    requires TokenText(text, token) && "token" !in q.seen
    ensures ReadParameter(q, "token=" + text) == Ok(q.(seen := q.seen + ["token"], token := Some(token)))
  {
    hide IndexOf, Decode64, ParseDecimal, Encode64;
    var name := "token";
    assert "token=" == name + "=";
    assert "token=" + text == name + "=" + text;
    CutParameter(name, text);
    Decode64Exactly(text, token);
    NotEmpty(text, token);
    assert name != "v" && name != "";
  }

  lemma NotEmpty(text: string, token: seq<byte>)
    requires TokenText(text, token)
    ensures text != "" && Symbols(text)
  {
  }

  ghost predicate SaysVersion(q: Query, p: string, q1: Query) {
    && "v" !in q.seen && q1.seen == q.seen + ["v"] && q1.token == q.token && q1.version.Some?
    && exists text: string :: p == "v=" + text && ParseDecimal(text, 255) == q1.version
  }

  ghost predicate SaysToken(q: Query, p: string, q1: Query) {
    && "token" !in q.seen && q1.seen == q.seen + ["token"] && q1.version == q.version && q1.token.Some?
    && MIN_TOKEN <= |q1.token.value| <= MAX_TOKEN
    && exists text: string :: p == "token=" + text && Decode64(text) == q1.token
  }

  // Whatever is read is one of the two parameters, for the first time.
  lemma ParameterSays(q: Query, p: string)
    requires ReadParameter(q, p).Ok?
    ensures SaysVersion(q, p, ReadParameter(q, p).value) || SaysToken(q, p, ReadParameter(q, p).value)
  {
    hide IndexOf, Decode64, ParseDecimal;
    var i := IndexOf(p, '=').value;
    var name := p[..i];
    var text := p[i + 1..];
    assert p == name + ['='] + text;
    if name == "v" { assert p == "v=" + text; }
    else {
      assert "token=" == "token" + ['='];
      assert p == "token=" + text;
    }
  }

  // ---- the query ------------------------------------------------------------------------------------------------

  // A name that was seen is an error, and so is a name that is neither.
  lemma {:induction false} BadParameters(q: Query, name: string, value: string)
    requires '=' !in name && name != "" && value != ""
    ensures name in q.seen ==> ReadParameter(q, name + "=" + value) == Err(DuplicateQueryParameter(name))
    ensures name !in q.seen && name != "v" && name != "token" ==>
      ReadParameter(q, name + "=" + value) == Err(UnknownQueryParameter(name))
  {
    hide IndexOf, Decode64, ParseDecimal;
    CutParameter(name, value);
  }

  // Both parameters leave no third one to read.
  lemma NoThird(q: Query, p: string)
    requires "v" in q.seen && "token" in q.seen
    ensures ReadParameter(q, p).Err?
  {
    hide ReadParameter;
    if ReadParameter(q, p).Ok? { ParameterSays(q, p); }
  }

  lemma TwoParameters(parameters: seq<string>)
    requires var r := ReadParameters(NO_QUERY, parameters); r.Ok? && r.value.version.Some? && r.value.token.Some?
    ensures |parameters| == 2
    ensures var q1 := ReadParameter(NO_QUERY, parameters[0]);
      q1.Ok? && ReadParameter(q1.value, parameters[1]) == ReadParameters(NO_QUERY, parameters)
  {
    hide ReadParameter, ReadParameters;
    NothingRead(parameters);
    FirstRead(NO_QUERY, parameters);
    ParameterSays(NO_QUERY, parameters[0]);
    var q1 := ReadParameter(NO_QUERY, parameters[0]).value;
    var rest := parameters[1..];
    if rest == [] { LastRead(q1, rest); }
    else {
      FirstRead(q1, rest);
      ParameterSays(q1, rest[0]);
      var q2 := ReadParameter(q1, rest[0]).value;
      if rest[1..] == [] { LastRead(q2, rest[1..]); }
      else {
        NoThird(q2, rest[1..][0]);
        FirstRead(q2, rest[1..]);
      }
    }
  }

  lemma FirstRead(q: Query, parameters: seq<string>)
    requires parameters != [] && ReadParameters(q, parameters).Ok?
    ensures ReadParameter(q, parameters[0]).Ok?
    ensures ReadParameters(q, parameters) == ReadParameters(ReadParameter(q, parameters[0]).value, parameters[1..])
  {
    hide ReadParameter;
  }

  lemma LastRead(q: Query, parameters: seq<string>)
    requires parameters == []
    ensures ReadParameters(q, parameters) == Ok(q)
  {
  }

  lemma NothingRead(parameters: seq<string>)
    ensures parameters == [] ==> ReadParameters(NO_QUERY, parameters) == Ok(NO_QUERY)
  {
  }

  lemma JoinedSplit(s: string, ch: char, a: string, b: string)
    requires Split(s, ch) == [a, b]
    ensures s == a + [ch] + b
  {
    hide IndexOf;
    var i := IndexOf(s, ch).value;
    var rest := s[i + 1..];
    assert s == s[..i] + [ch] + rest;
    assert Split(s, ch)[1..] == Split(rest, ch) == [b];
    OnePiece(rest, ch);
    assert [b][0] == [rest][0];
    assert Split(s, ch)[0] == s[..i];
  }

  lemma OnePiece(s: string, ch: char)
    requires |Split(s, ch)| == 1
    ensures Split(s, ch) == [s]
  {
    hide IndexOf;
  }

  lemma QuerySays(query: string) returns (version: string, token: string)
    requires var r := ReadParameters(NO_QUERY, Split(query, '&'));
      r.Ok? && r.value.version == Some(1) && r.value.token.Some?
    ensures var r := ReadParameters(NO_QUERY, Split(query, '&'));
      VersionText(version) && TokenText(token, r.value.token.value) && QueryText(query, version, token)
  {
    hide ReadParameter, Split, IndexOf, Decode64, Encode64;
    var parameters := Split(query, '&');
    var r := ReadParameters(NO_QUERY, parameters).value;
    TwoParameters(parameters);
    JoinedSplit(query, '&', parameters[0], parameters[1]);
    var q1 := ReadParameter(NO_QUERY, parameters[0]).value;
    ParameterSays(NO_QUERY, parameters[0]);
    ParameterSays(q1, parameters[1]);
    if SaysVersion(NO_QUERY, parameters[0], q1) {
      version :| parameters[0] == "v=" + version && ParseDecimal(version, 255) == q1.version;
      token :| parameters[1] == "token=" + token && Decode64(token) == r.token;
    } else {
      token :| parameters[0] == "token=" + token && Decode64(token) == q1.token;
      version :| parameters[1] == "v=" + version && ParseDecimal(version, 255) == r.version;
    }
    Decode64Exactly(token, r.token.value);
  }

  lemma NoAmpersand(version: string, text: string, token: seq<byte>)
    requires VersionText(version) && TokenText(text, token)
    ensures '&' !in "v=" + version && '&' !in "token=" + text
    ensures '#' !in "v=" + version && '#' !in "token=" + text
  {
    hide DecimalValue, Encode64;
    NotEmpty(text, token);
    var v := "v=";
    var t := "token=";
    assert SymbolValue('&').None? && SymbolValue('#').None?;
    assert forall i :: 0 <= i < |text| ==> text[i] != '&' && text[i] != '#';
    assert forall i :: 0 <= i < |version| ==> version[i] != '&' && version[i] != '#';
    assert forall i :: 0 <= i < 2 ==> v[i] != '&' && v[i] != '#';
    assert forall i :: 0 <= i < 6 ==> t[i] != '&' && t[i] != '#';
  }

  lemma QueryIsRead(query: string, version: string, text: string, token: seq<byte>)
    requires VersionText(version) && TokenText(text, token) && QueryText(query, version, text)
    ensures var r := ReadParameters(NO_QUERY, Split(query, '&'));
      r.Ok? && r.value.version == Some(1) && r.value.token == Some(token)
  {
    hide ReadParameter, Split, VersionText, TokenText;
    NoAmpersand(version, text, token);
    var a := "v=" + version;
    var b := "token=" + text;
    if query == a + "&" + b {
      assert query == a + ['&'] + b;
      SplitOnce(a, '&', b);
      VersionParameter(NO_QUERY, version);
      var q1 := NO_QUERY.(seen := NO_QUERY.seen + ["v"], version := Some(1));
      TokenParameterReads(q1, text, token);
      TwoRead([a, b], q1, q1.(seen := q1.seen + ["token"], token := Some(token)));
    } else {
      assert query == b + ['&'] + a;
      SplitOnce(b, '&', a);
      TokenParameterReads(NO_QUERY, text, token);
      var q1 := NO_QUERY.(seen := NO_QUERY.seen + ["token"], token := Some(token));
      VersionParameter(q1, version);
      TwoRead([b, a], q1, q1.(seen := q1.seen + ["v"], version := Some(1)));
    }
  }

  lemma TwoRead(parameters: seq<string>, q1: Query, q2: Query)
    requires |parameters| == 2 && ReadParameter(NO_QUERY, parameters[0]) == Ok(q1) &&
      ReadParameter(q1, parameters[1]) == Ok(q2)
    ensures ReadParameters(NO_QUERY, parameters) == Ok(q2)
  {
    hide ReadParameter;
    assert ReadParameters(q2, parameters[1..][1..]) == Ok(q2);
    assert ReadParameters(q1, parameters[1..]) == Ok(q2);
  }

  // ---- the whole text -----------------------------------------------------------------------------------------------

  lemma NoHash(digest: Digest, onion: string, port: string, query: string)
    requires ValidateOnion(digest, onion).Ok? && Digits(port) && '#' !in query
    ensures '#' !in Spelled(onion, port, query)
  {
    hide ValidateOnion;
    OnionLetters(digest, onion);
    assert Digit('#').None?;
    var head := "veilroom" + "://";
    assert forall i :: 0 <= i < |head| ==> head[i] != '#';
    assert forall i :: 0 <= i < |onion| ==> onion[i] != '#';
    assert Spelled(onion, port, query) == head + onion + ":" + port + "?" + query;
  }

  lemma RestReads(digest: Digest, onion: string, port: string, query: string)
    requires ValidateOnion(digest, onion).Ok? && Digits(port) && query != ""
    ensures ParseRest(digest, onion + ":" + port + "?" + query) ==
      match ParsePort(port)
      case Err(error) => Err(error)
      case Ok(p) => Complete(onion, p, ReadParameters(NO_QUERY, Split(query, '&')))
  {
    hide IndexOf, LastIndexOf, ValidateOnion, ReadParameters, Split, ParsePort;
    OnionLetters(digest, onion);
    NoMark(onion, port);
    AuthorityEnds(onion + ":" + port, query);
    HostEnds(onion, port);
  }

  lemma SpelledIsRest(digest: Digest, onion: string, port: string, query: string)
    requires '#' !in Spelled(onion, port, query)
    ensures ParseInvitation(digest, Spelled(onion, port, query)) == ParseRest(digest, onion + ":" + port + "?" + query)
  {
    hide IndexOfDelimiter, ParseRest;
    var rest := onion + ":" + port + "?" + query;
    var input := Spelled(onion, port, query);
    assert input == SCHEME + DELIMITER + rest;
    DelimiterAfter(SCHEME, rest);
    assert input[..8] == SCHEME && input[8 + 3..] == rest;
  }

  lemma SpelledParses(digest: Digest, inv: Invitation, port: string, query: string, version: string, token: string)
    requires ValidateOnion(digest, inv.onion).Ok? && PortText(port, inv.port) && VersionText(version)
    requires TokenText(token, inv.token) && QueryText(query, version, token)
    ensures ParseInvitation(digest, Spelled(inv.onion, port, query)) == Ok(inv)
  {
    hide ValidateOnion, ReadParameters, Split, Encode64, ParseRest, DecimalValue, Spelled, ParseInvitation;
    NoAmpersand(version, token, inv.token);
    QueryHash(query, version, token);
    NoHash(digest, inv.onion, port, query);
    SpelledIsRest(digest, inv.onion, port, query);
    RestReads(digest, inv.onion, port, query);
    QueryIsRead(query, version, token, inv.token);
  }

  lemma QueryHash(query: string, version: string, token: string)
    requires QueryText(query, version, token) && '#' !in "v=" + version && '#' !in "token=" + token
    ensures '#' !in query && query != ""
  {
  }

  predicate QuerySaid(query: string, token: seq<byte>) {
    var r := ReadParameters(NO_QUERY, Split(query, '&'));
    r.Ok? && r.value.version == Some(1) && r.value.token == Some(token)
  }

  // Where the parser cut what follows the scheme.
  lemma RestIsSpelled(digest: Digest, rest: string) returns (port: string, query: string)
    requires ParseRest(digest, rest).Ok?
    ensures var inv := ParseRest(digest, rest).value;
      && rest == inv.onion + ":" + port + "?" + query && ValidateOnion(digest, inv.onion).Ok? &&
        PortText(port, inv.port)
      && QuerySaid(query, inv.token)
  {
    hide IndexOf, LastIndexOf, ValidateOnion, ReadParameters, Split, ParsePort, PortText;
    var mark := IndexOf(rest, '?').value;
    var authority := rest[..mark];
    query := rest[mark + 1..];
    CutAt(rest, '?', mark);
    var colon := LastIndexOf(authority, ':').value;
    port := authority[colon + 1..];
    CutAt(authority, ':', colon);
    PortIsText(port);
  }

  lemma CutAt(s: string, ch: char, i: nat)
    requires i < |s| && s[i] == ch
    ensures s == s[..i] + [ch] + s[i + 1..]
  {
  }

  lemma PortIsText(port: string)
    ensures ParsePort(port).Ok? ==> PortText(port, ParsePort(port).value)
  {
    hide DecimalValue;
  }

  lemma ParsedIsSpelled(digest: Digest, input: string) returns (port: string, query: string)
    requires ParseInvitation(digest, input).Ok?
    ensures var inv := ParseInvitation(digest, input).value;
      && input == Spelled(inv.onion, port, query) && ValidateOnion(digest, inv.onion).Ok? && PortText(port, inv.port)
      && QuerySaid(query, inv.token)
  {
    hide IndexOfDelimiter, ValidateOnion, ParseRest, PortText, QuerySaid;
    var end := IndexOfDelimiter(input).value;
    var rest := input[end + 3..];
    assert input == input[..end] + DELIMITER + rest;
    port, query := RestIsSpelled(digest, rest);
  }

  // A text is parsed to an invitation exactly if it spells it: scheme, address, port, and the version
  // and the token in either order, each once and nothing besides.
  lemma {:induction false} ParsesExactly(digest: Digest, input: string, inv: Invitation)
    ensures ParseInvitation(digest, input) == Ok(inv) <==> Spells(digest, input, inv)
  {
    hide ValidateOnion, ReadParameters, Split, Encode64, ParseInvitation, Spelled, PortText, VersionText, QueryText;
    if ParseInvitation(digest, input) == Ok(inv) {
      var port, query := ParsedIsSpelled(digest, input);
      var version, token := QuerySays(query);
      ParsedToken(digest, input);
    }
    forall port: string, query: string, version: string, token: string |
      PortText(port, inv.port) && VersionText(version) && TokenText(token, inv.token) &&
        QueryText(query, version, token) &&
      input == Spelled(inv.onion, port, query) && ValidateOnion(digest, inv.onion).Ok?
      ensures ParseInvitation(digest, input) == Ok(inv) {
      SpelledParses(digest, inv, port, query, version, token);
    }
  }

  lemma ParsedToken(digest: Digest, input: string)
    requires ParseInvitation(digest, input).Ok?
    ensures 16 <= |ParseInvitation(digest, input).value.token| <= 32
  {
    hide ParseInvitation;
    ParsedIsValid(digest, input);
  }

  // ---- addresses ----------------------------------------------------------------------------------

  // What the checksum covers besides the key and the version: the letters of `.onion checksum`.
  lemma ChecksumText(i: nat)
    requires i < |OnionChecksumText()|
    ensures |OnionChecksumText()| == 15 && OnionChecksumText()[i] == ".onion checksum"[i] as int
  {
  }

  // The address of a key: base 32 of the key, the first two bytes of its checksum and the version 3.
  ghost predicate AddressOf(digest: Digest, body: string, key: seq<byte>) {
    && |key| == 32 && |digest(OnionChecksumText() + key + [3])| >= 2
    && Decodes(body, key + digest(OnionChecksumText() + key + [3])[..2] + [3])
  }

  // An address is accepted exactly if it is the address of some key.
  lemma {:induction false} AddressExactly(digest: Digest, address: string)
    ensures ValidateOnion(digest, address).Ok? <==>
      exists body: string, key: seq<byte> :: |body| == 56 && AddressOf(digest, body, key) && address == body + ".onion"
  {
    hide BodyBytes, Decodes;
    if ValidateOnion(digest, address).Ok? {
      var body := address[..|address| - 6];
      assert address == body + ".onion";
      BodyBytesDecodes(body);
      var d := BodyBytes(body).value;
      assert d == d[..32] + d[32..34] + [d[34]];
      assert AddressOf(digest, body, d[..32]);
    }
    forall body: string, key: seq<byte> | |body| == 56 && AddressOf(digest, body, key) && address == body + ".onion"
      ensures ValidateOnion(digest, address).Ok? {
      AddressIsValid(digest, body, key);
    }
  }

  lemma AddressIsValid(digest: Digest, body: string, key: seq<byte>)
    requires |body| == 56 && AddressOf(digest, body, key)
    ensures ValidateOnion(digest, body + ".onion").Ok?
  {
    hide BodyBytes, Value, Pow2, FromBigEndian;
    var d := key + digest(OnionChecksumText() + key + [3])[..2] + [3];
    BodyBytesDecodes(body);
    if BodyBytes(body).Some? { DecodingIsInjective(body, body, BodyBytes(body).value, d); }
    assert d[..32] == key && d[32..34] == digest(OnionChecksumText() + key + [3])[..2];
    var address := body + ".onion";
    assert address[|address| - 6..] == ".onion" && address[..|address| - 6] == body;
  }
}
