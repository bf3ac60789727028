// Invitation URIs (src/uri.rs): the canonical form and the strict parser.
module Uri {
  import opened Wrappers
  import opened Bytes
  import opened Base32

  // ---- the token's base 64 (RFC 4648, section 5, unpadded) ------------------------------------

  function Symbol(v: nat): (ch: char)
    requires v < 64
    ensures SymbolValue(ch) == Some(v)
  {
    if v < 26 then 'A' + v as char
    else if v < 52 then 'a' + (v - 26) as char
    else if v < 62 then '0' + (v - 52) as char
    else if v == 62 then '-' else '_'
  }

  function SymbolValue(ch: char): (v: Option<nat>)
    ensures v.Some? ==> v.value < 64
  {
    if 'A' <= ch <= 'Z' then Some((ch - 'A') as nat)
    else if 'a' <= ch <= 'z' then Some((ch - 'a') as nat + 26)
    else if '0' <= ch <= '9' then Some((ch - '0') as nat + 52)
    else if ch == '-' then Some(62)
    else if ch == '_' then Some(63)
    else None
  }

  function Encode64(data: seq<byte>): (text: string)
    ensures Symbols(text)
    ensures data != [] ==> text != ""
  {
    if data == [] then ""
    else if |data| == 1 then [Symbol(data[0] / 4), Symbol(data[0] % 4 * 16)]
    else if |data| == 2 then
      [Symbol(data[0] / 4), Symbol(data[0] % 4 * 16 + data[1] / 16), Symbol(data[1] % 16 * 4)]
    else
      [Symbol(data[0] / 4), Symbol(data[0] % 4 * 16 + data[1] / 16), Symbol(data[1] % 16 * 4 + data[2] / 64),
       Symbol(data[2] % 64)] + Encode64(data[3..])
  }

  // The bytes of a group of two, three or four symbols; bits that no byte takes must be zero.
  function Group(a: nat, b: nat, c: Option<nat>, d: Option<nat>): Option<seq<byte>>
    requires a < 64 && b < 64 && (c.Some? ==> c.value < 64) && (d.Some? ==> c.Some? && d.value < 64)
  {
    if c.None? then if b % 16 != 0 then None else Some([a * 4 + b / 16])
    else if d.None? then if c.value % 4 != 0 then None else Some([a * 4 + b / 16, b % 16 * 16 + c.value / 4])
    else Some([a * 4 + b / 16, b % 16 * 16 + c.value / 4, c.value % 4 * 64 + d.value])
  }

  predicate Symbols(text: string) { forall i :: 0 <= i < |text| ==> SymbolValue(text[i]).Some? }

  function Decode64(text: string): Option<seq<byte>> {
    if text == "" then Some([])
    else if !Symbols(text) || |text| == 1 then None
    else
      var a := SymbolValue(text[0]).value;
      var b := SymbolValue(text[1]).value;
      if |text| <= 4 then Group(a, b, if |text| > 2 then SymbolValue(text[2])
        else None, if |text| > 3 then SymbolValue(text[3]) else None)
      else match (Group(a, b, SymbolValue(text[2]), SymbolValue(text[3])), Decode64(text[4..]))
        case (Some(first), Some(more)) => Some(first + more)
        case _ => None
  }

  lemma GroupOfOne(x: byte)
    ensures Group(x / 4, x % 4 * 16, None, None) == Some([x])
  {
    assert (x % 4 * 16) / 16 == x % 4 && (x % 4 * 16) % 16 == 0;
  }

  lemma GroupOfTwo(x: byte, y: byte)
    ensures Group(x / 4, x % 4 * 16 + y / 16, Some(y % 16 * 4), None) == Some([x, y])
  {
    assert (x % 4 * 16 + y / 16) / 16 == x % 4 && (x % 4 * 16 + y / 16) % 16 == y / 16;
    assert (y % 16 * 4) / 4 == y % 16 && (y % 16 * 4) % 4 == 0;
  }

  lemma GroupOfThree(x: byte, y: byte, z: byte)
    ensures Group(x / 4, x % 4 * 16 + y / 16, Some(y % 16 * 4 + z / 64), Some(z % 64)) == Some([x, y, z])
  {
    assert (x % 4 * 16 + y / 16) / 16 == x % 4 && (x % 4 * 16 + y / 16) % 16 == y / 16;
    assert (y % 16 * 4 + z / 64) / 4 == y % 16 && (y % 16 * 4 + z / 64) % 4 == z / 64;
  }

  lemma FullGroup(x: byte, y: byte, z: byte, text: string)
    requires Symbols(text)
    ensures var first := [Symbol(x / 4), Symbol(x % 4 * 16 + y / 16), Symbol(y % 16 * 4 + z / 64), Symbol(z % 64)];
      Decode64(first + text) == match Decode64(text) case None => None case Some(more) => Some([x, y, z] + more)
  {
    hide Symbol, SymbolValue, Group;
    var first := [Symbol(x / 4), Symbol(x % 4 * 16 + y / 16), Symbol(y % 16 * 4 + z / 64), Symbol(z % 64)];
    GroupOfThree(x, y, z);
    assert (first + text)[4..] == text;
    if text == "" { assert [x, y, z] + [] == [x, y, z]; }
  }

  lemma {:induction false} Decode64Inverts(data: seq<byte>)
    ensures Decode64(Encode64(data)) == Some(data)
    decreases |data|
  {
    hide Symbol, SymbolValue, Group;
    if |data| >= 3 {
      FullGroup(data[0], data[1], data[2], Encode64(data[3..]));
      Decode64Inverts(data[3..]);
      assert data == [data[0], data[1], data[2]] + data[3..];
    } else if |data| == 2 {
      GroupOfTwo(data[0], data[1]);
      assert data == [data[0], data[1]];
    } else if |data| == 1 {
      GroupOfOne(data[0]);
      assert data == [data[0]];
    }
  }

  // ---- decimal numbers --------------------------------------------------------------------------

  predicate IsDigit(ch: char) { '0' <= ch <= '9' }

  predicate Digits(text: string) { forall i :: 0 <= i < |text| ==> IsDigit(text[i]) }

  function Decimal(n: nat): (text: string)
    ensures text != "" && Digits(text)
  {
    if n < 10 then ['0' + n as char] else Decimal(n / 10) + ['0' + (n % 10) as char]
  }

  function DecimalValue(text: string): nat
    requires Digits(text)
    decreases |text|
  {
    if text == "" then 0 else 10 * DecimalValue(text[..|text| - 1]) + (text[|text| - 1] - '0') as nat
  }

  // `parse::<u8>` and `parse::<u16>` on digits: too large a number is an error.
  function ParseDecimal(text: string, max: nat): Option<nat> {
    if text == "" || !Digits(text) || DecimalValue(text) > max then None else Some(DecimalValue(text))
  }

  lemma {:induction false} DecimalRoundTrip(n: nat)
    ensures DecimalValue(Decimal(n)) == n
  {
    if n >= 10 {
      DecimalRoundTrip(n / 10);
      assert Decimal(n)[..|Decimal(n)| - 1] == Decimal(n / 10);
    } else {
      assert Decimal(n)[..0] == "";
    }
  }

  // ---- searching text ------------------------------------------------------------------------------

  function IndexOf(s: string, ch: char): (i: Option<nat>)
    ensures i.Some? ==> i.value < |s| && s[i.value] == ch && ch !in s[..i.value]
    ensures i.None? ==> ch !in s
  {
    if s == "" then None
    else if s[0] == ch then Some(0)
    else match IndexOf(s[1..], ch)
      case None => None
      case Some(i) => assert s[..i + 1] == [s[0]] + s[1..][..i]; Some(i + 1)
  }

  function LastIndexOf(s: string, ch: char): (i: Option<nat>)
    ensures i.Some? ==> i.value < |s| && s[i.value] == ch && ch !in s[i.value + 1..]
    ensures i.None? ==> ch !in s
    decreases |s|
  {
    if s == "" then None
    else if s[|s| - 1] == ch then Some(|s| - 1)
    else match LastIndexOf(s[..|s| - 1], ch)
      case None => assert s == s[..|s| - 1] + [s[|s| - 1]]; None
      case Some(i) => assert s[i + 1..] == s[..|s| - 1][i + 1..] + [s[|s| - 1]]; Some(i)
  }

  const DELIMITER := "://"

  // The first occurrence of the delimiter.
  function IndexOfDelimiter(s: string): (i: Option<nat>)
    ensures i.Some? ==> i.value + 3 <= |s| && s[i.value..i.value + 3] == DELIMITER
  {
    if |s| < 3 then None
    else if s[..3] == DELIMITER then Some(0)
    else match IndexOfDelimiter(s[1..])
      case None => None
      case Some(i) => assert s[i + 1..i + 4] == s[1..][i..i + 3]; Some(i + 1)
  }

  function Split(s: string, ch: char): (pieces: seq<string>)
    ensures pieces != []
    decreases |s|
  {
    match IndexOf(s, ch)
    case None => [s]
    case Some(i) => [s[..i]] + Split(s[i + 1..], ch)
  }

  lemma IndexAfter(a: string, ch: char, b: string)
    requires ch !in a
    ensures IndexOf(a + [ch] + b, ch) == Some(|a|)
  {
    hide IndexOf;
    var s := a + [ch] + b;
    var i := IndexOf(s, ch);
    assert s[|a|] == ch;
    assert forall k :: 0 <= k < i.value ==> s[..i.value][k] == s[k];
    assert forall k :: 0 <= k < |a| ==> s[k] == a[k];
  }

  lemma AbsentAfter(s: string, i: nat, ch: char)
    requires i < |s| && ch !in s[i + 1..]
    ensures forall k :: i < k < |s| ==> s[k] != ch
  {
    forall k | i < k < |s| ensures s[k] != ch { assert s[i + 1..][k - i - 1] == s[k]; }
  }

  lemma LastIndexBefore(a: string, ch: char, b: string)
    requires ch !in b
    ensures LastIndexOf(a + [ch] + b, ch) == Some(|a|)
  {
    hide LastIndexOf;
    var s := a + [ch] + b;
    var i := LastIndexOf(s, ch).value;
    assert s[|a|] == ch;
    assert s[|a| + 1..] == b;
    AbsentAfter(s, i, ch);
    AbsentAfter(s, |a|, ch);
  }

  lemma SplitOnce(a: string, ch: char, b: string)
    requires ch !in a && ch !in b
    ensures Split(a + [ch] + b, ch) == [a, b]
  {
    hide IndexOf;
    var s := a + [ch] + b;
    IndexAfter(a, ch, b);
    assert s[..|a|] == a && s[|a| + 1..] == b;
  }

  lemma {:induction false} DelimiterAfter(scheme: string, rest: string)
    requires ':' !in scheme
    ensures IndexOfDelimiter(scheme + DELIMITER + rest) == Some(|scheme|)
    decreases |scheme|
  {
    var s := scheme + DELIMITER + rest;
    if scheme == "" { assert s[..3] == DELIMITER; }
    else {
      assert s[..3][0] == scheme[0];
      assert s[1..] == scheme[1..] + DELIMITER + rest;
      DelimiterAfter(scheme[1..], rest);
    }
  }

  // ---- onion addresses -------------------------------------------------------------------------------

  datatype UriError =
    | InvalidScheme | UserInfoNotAllowed | FragmentNotAllowed | PathNotAllowed | MalformedOnionAddress
    | InvalidOnionAlphabet | MissingPort | InvalidPort | MissingVersion | InvalidVersion
    | UnsupportedVersion(found: nat) | MissingToken | InvalidToken | InvalidTokenLength(found: nat)
    | UnknownQueryParameter(name: string) | DuplicateQueryParameter(name: string) | InvalidQueryParameter(name: string)

  const ONION_SUFFIX := ".onion"
  const ONION_BODY_LENGTH: nat := 56

  // SHA3-256, of which the address carries the first two bytes.
  type Digest = seq<byte> -> seq<byte>

  function OnionChecksumText(): seq<byte> {
    [46, 111, 110, 105, 111, 110, 32, 99, 104, 101, 99, 107, 115, 117, 109]
  }

  function BodyBytes(body: string): Option<seq<byte>> {
    if !AllDigits(body) || Value(body) % Pow2(Unused(body)) != 0 then None
    else Some(ToBigEndian(Value(body) / Pow2(Unused(body)), 5 * |body| / 8))
  }

  predicate ValidBody(digest: Digest, body: string) {
    match BodyBytes(body)
    case None => false
    case Some(d) =>
      |d| == 35 && d[34] == 3 && |digest(OnionChecksumText() + d[..32] + [3])| >= 2 &&
      d[32..34] == digest(OnionChecksumText() + d[..32] + [3])[..2]
  }

  function ValidateOnion(digest: Digest, address: string): Result<(), UriError> {
    if |address| < |ONION_SUFFIX| ||
      address[|address| - |ONION_SUFFIX|..] != ONION_SUFFIX then Err(MalformedOnionAddress)
    else
      var body := address[..|address| - |ONION_SUFFIX|];
      if |body| != ONION_BODY_LENGTH then Err(MalformedOnionAddress)
      else if !AllDigits(body) then Err(InvalidOnionAlphabet)
      else if !ValidBody(digest, body) then Err(MalformedOnionAddress)
      else Ok(())
  }

  // ---- invitations -----------------------------------------------------------------------------------

  const SCHEME := "veilroom"
  const MAJOR_VERSION: nat := 1
  const MIN_TOKEN: nat := 16
  const MAX_TOKEN: nat := 32

  datatype Invitation = Invitation(onion: string, port: nat, token: seq<byte>)

  // `Invitation::new`; the port is a u16.
  function NewInvitation(digest: Digest, onion: string, port: nat, token: seq<byte>): Result<Invitation, UriError> {
    if ValidateOnion(digest, onion).Err? then Err(ValidateOnion(digest, onion).error)
    else if port == 0 then Err(InvalidPort)
    else if !(MIN_TOKEN <= |token| <= MAX_TOKEN) then Err(InvalidTokenLength(|token|))
    else Ok(Invitation(onion, port, token))
  }

  function ToUri(inv: Invitation): string {
    SCHEME + DELIMITER + (inv.onion + ":" + Decimal(inv.port) + "?" + ("v=1&" + ("token=" + Encode64(inv.token))))
  }

  function ParsePort(text: string): Result<nat, UriError> {
    if text == "" then Err(MissingPort)
    else match ParseDecimal(text, 65535)
      case None => Err(InvalidPort)
      case Some(port) => if port == 0 then Err(InvalidPort) else Ok(port)
  }

  datatype Query = Query(seen: seq<string>, version: Option<nat>, token: Option<seq<byte>>)

  function ReadParameter(q: Query, parameter: string): Result<Query, UriError> {
    match IndexOf(parameter, '=')
    case None => Err(InvalidQueryParameter(parameter))
    case Some(i) =>
      var name := parameter[..i];
      var value := parameter[i + 1..];
      if name == "" || value == "" then Err(InvalidQueryParameter(name))
      else if name in q.seen then Err(DuplicateQueryParameter(name))
      else if name == "v" then
        (match ParseDecimal(value, 255)
          case None => Err(InvalidVersion)
          case Some(n) => Ok(q.(seen := q.seen + [name], version := Some(n))))
      else if name == "token" then
        (match Decode64(value)
          case None => Err(InvalidToken)
          case Some(t) =>
            if !(MIN_TOKEN <= |t| <= MAX_TOKEN) then Err(InvalidTokenLength(|t|))
            else Ok(q.(seen := q.seen + [name], token := Some(t))))
      else Err(UnknownQueryParameter(name))
  }

  function ReadParameters(q: Query, parameters: seq<string>): Result<Query, UriError>
    decreases |parameters|
  {
    if parameters == [] then Ok(q)
    else match ReadParameter(q, parameters[0])
      case Err(error) => Err(error)
      case Ok(q1) => ReadParameters(q1, parameters[1..])
  }

  const NO_QUERY := Query([], None, None)

  function ParseInvitation(digest: Digest, input: string): Result<Invitation, UriError> {
    if '#' in input then Err(FragmentNotAllowed)
    else match IndexOfDelimiter(input)
      case None => Err(InvalidScheme)
      case Some(end) =>
        var scheme := input[..end];
        if '@' in scheme || ':' in scheme then Err(UserInfoNotAllowed)
        else if scheme != SCHEME then Err(InvalidScheme)
        else ParseRest(digest, input[end + 3..])
  }

  function ParseRest(digest: Digest, rest: string): Result<Invitation, UriError> {
    var mark := IndexOf(rest, '?');
    var authority := if mark.Some? then rest[..mark.value] else rest;
    var query := if mark.Some? then rest[mark.value + 1..] else "";
    if '/' in authority then Err(PathNotAllowed)
    else match LastIndexOf(authority, ':')
      case None => Err(MissingPort)
      case Some(colon) =>
        var host := authority[..colon];
        match ValidateOnion(digest, host)
        case Err(error) => Err(error)
        case Ok(_) =>
          match ParsePort(authority[colon + 1..])
          case Err(error) => Err(error)
          case Ok(port) => if query == "" then Err(MissingVersion)
            else Complete(host, port, ReadParameters(NO_QUERY, Split(query, '&')))
  }

  function Complete(host: string, port: nat, query: Result<Query, UriError>): Result<Invitation, UriError> {
    match query
    case Err(error) => Err(error)
    case Ok(q) =>
      if q.version.None? then Err(MissingVersion)
      else if q.version.value != MAJOR_VERSION then Err(UnsupportedVersion(q.version.value))
      else if q.token.None? then Err(MissingToken)
      else Ok(Invitation(host, port, q.token.value))
  }

  // The query loop of the source.
  method ReadQuery(query: string) returns (r: Result<Query, UriError>)
    ensures r == ReadParameters(NO_QUERY, Split(query, '&'))
  {
    hide ReadParameter, Split;
    var parameters := Split(query, '&');
    var q := NO_QUERY;
    var i := 0;
    assert parameters[0..] == parameters;
    while i < |parameters|
      invariant 0 <= i <= |parameters|
      invariant ReadParameters(NO_QUERY, parameters) == ReadParameters(q, parameters[i..])
    {
      var step := ReadParameter(q, parameters[i]);
      assert parameters[i..][0] == parameters[i] && parameters[i..][1..] == parameters[i + 1..];
      if step.Err? { return Err(step.error); }
      q := step.value;
      i := i + 1;
    }
    return Ok(q);
  }

  // ---- round trip --------------------------------------------------------------------------------------

  lemma OnionLetters(digest: Digest, onion: string)
    requires ValidateOnion(digest, onion).Ok?
    ensures forall i :: 0 <= i < |onion| ==> onion[i] == '.' || Digit(onion[i]).Some?
  {
    hide ValidBody;
    var body := onion[..|onion| - 6];
    assert onion == body + ONION_SUFFIX;
    assert forall i :: 0 <= i < 6 ==> ONION_SUFFIX[i] == '.' || Digit(ONION_SUFFIX[i]).Some?;
  }

  lemma QueryReads(token: seq<byte>)
    requires MIN_TOKEN <= |token| <= MAX_TOKEN
    ensures var text := Encode64(token);
      ReadParameters(NO_QUERY, Split("v=1&" + ("token=" + text), '&')) ==
        Ok(Query(["v", "token"], Some(1), Some(token)))
  {
    hide Encode64, Split, ReadParameter;
    var text := Encode64(token);
    NoSeparator(text);
    assert "v=1&" + ("token=" + text) == "v=1" + ['&'] + ("token=" + text);
    SplitOnce("v=1", '&', "token=" + text);
    VersionReads();
    TokenReads(token);
    var parameters := ["v=1", "token=" + text];
    var q := Query(["v"], Some(1), None);
    var done := Query(["v", "token"], Some(1), Some(token));
    assert parameters[1..] == ["token=" + text] && parameters[1..][1..] == [];
    assert ReadParameters(done, []) == Ok(done);
    assert ReadParameters(q, parameters[1..]) == Ok(done);
    assert ReadParameters(NO_QUERY, parameters) == Ok(done);
  }

  lemma TokenParameter(text: string)
    ensures var parameter := "token=" + text;
      IndexOf(parameter, '=') == Some(5) && parameter[..5] == "token" && parameter[6..] == text
  {
    hide IndexOf;
    var name := "token";
    var parameter := "token=" + text;
    assert "token=" == name + ['='];
    assert parameter == name + ['='] + text;
    IndexAfter(name, '=', text);
    assert parameter[..5] == name && parameter[6..] == text;
  }

  lemma TokenReads(token: seq<byte>)
    requires MIN_TOKEN <= |token| <= MAX_TOKEN
    ensures ReadParameter(Query(["v"], Some(1), None), "token=" + Encode64(token)) ==
      Ok(Query(["v", "token"], Some(1), Some(token)))
  {
    hide Encode64, Decode64, IndexOf, ParseDecimal;
    var name := "token";
    Decode64Inverts(token);
    TokenParameter(Encode64(token));
    assert name != "" && name != "v" && name !in ["v"];
    assert ["v"] + [name] == ["v", name];
  }

  lemma NoSeparator(text: string)
    requires Symbols(text)
    ensures '&' !in "v=1" && '&' !in "token=" + text
  {
    var name := "token=";
    var version := "v=1";
    assert SymbolValue('&').None?;
    assert forall i :: 0 <= i < |text| ==> text[i] != '&';
    assert forall i :: 0 <= i < 6 ==> name[i] != '&';
    assert forall i :: 0 <= i < 3 ==> version[i] != '&';
  }

  lemma VersionReads()
    ensures ReadParameter(NO_QUERY, "v=1") == Ok(Query(["v"], Some(1), None))
  {
    hide IndexOf;
    var name := "v";
    var value := "1";
    var parameter := "v=1";
    assert parameter == name + ['='] + value;
    IndexAfter(name, '=', value);
    assert parameter[..1] == name && parameter[2..] == value;
    assert value[..0] == "" && DecimalValue(value[..0]) == 0;
    assert DecimalValue(value) == 1;
    assert ParseDecimal(value, 255) == Some(1);
    assert NO_QUERY.seen + [name] == [name];
  }

  // Every invitation that `new` lets through comes back from its canonical URI.
  lemma {:induction false} InvitationRoundTrip(digest: Digest, inv: Invitation)
    requires NewInvitation(digest, inv.onion, inv.port, inv.token) == Ok(inv) && inv.port <= 65535
    ensures ParseInvitation(digest, ToUri(inv)) == Ok(inv)
  {
    hide Encode64, IndexOf, LastIndexOf, IndexOfDelimiter, ParseRest, ValidateOnion, Decimal;
    var port := Decimal(inv.port);
    var query := "v=1&" + ("token=" + Encode64(inv.token));
    var rest := inv.onion + ":" + port + "?" + query;
    OnionLetters(digest, inv.onion);
    DelimiterAfter(SCHEME, rest);
    NoFragment(inv.onion, port, Encode64(inv.token));
    assert ToUri(inv)[..8] == SCHEME;
    assert ToUri(inv)[8 + 3..] == rest;
    RestParses(digest, inv);
  }

  lemma NoFragment(onion: string, port: string, text: string)
    requires forall i :: 0 <= i < |onion| ==> onion[i] == '.' || Digit(onion[i]).Some?
    requires Digits(port) && Symbols(text)
    ensures '#' !in SCHEME + DELIMITER + (onion + ":" + port + "?" + ("v=1&" + ("token=" + text)))
  {
    assert SymbolValue('#').None? && Digit('#').None?;
    var head := SCHEME + DELIMITER;
    var tail := "?v=1&token=";
    assert forall i :: 0 <= i < |head| ==> head[i] != '#';
    assert forall i :: 0 <= i < |tail| ==> tail[i] != '#';
    assert SCHEME + DELIMITER + (onion + ":" + port + "?" + ("v=1&" + ("token=" + text))) == head + onion + ":" + port +
      tail + text;
    assert forall i :: 0 <= i < |text| ==> text[i] != '#';
    assert forall i :: 0 <= i < |onion| ==> onion[i] != '#';
    assert '#' !in onion && '#' !in port && '#' !in text;
  }

  // Where the parser cuts an authority and a query apart.
  lemma AuthorityEnds(authority: string, query: string)
    requires '?' !in authority
    ensures var rest := authority + "?" + query;
      && IndexOf(rest, '?') == Some(|authority|)
      && rest[..|authority|] == authority && rest[|authority| + 1..] == query
  {
    hide IndexOf;
    assert authority + "?" + query == authority + ['?'] + query;
    IndexAfter(authority, '?', query);
  }

  lemma HostEnds(onion: string, port: string)
    requires ':' !in port
    ensures var authority := onion + ":" + port;
      && LastIndexOf(authority, ':') == Some(|onion|)
      && authority[..|onion|] == onion && authority[|onion| + 1..] == port
  {
    hide LastIndexOf;
    assert onion + ":" + port == onion + [':'] + port;
    LastIndexBefore(onion, ':', port);
  }

  lemma NoMark(onion: string, port: string)
    requires forall i :: 0 <= i < |onion| ==> onion[i] == '.' || Digit(onion[i]).Some?
    requires Digits(port)
    ensures ':' !in port && '?' !in onion + ":" + port && '/' !in onion + ":" + port
  {
    assert forall i :: 0 <= i < |port| ==> port[i] != '?' && port[i] != '/' && port[i] != ':';
    assert Digit('?').None? && Digit('/').None?;
    assert forall i :: 0 <= i < |onion| ==> onion[i] != '?' && onion[i] != '/';
  }

  lemma RestParses(digest: Digest, inv: Invitation)
    requires NewInvitation(digest, inv.onion, inv.port, inv.token) == Ok(inv) && inv.port <= 65535
    ensures ParseRest(digest, inv.onion + ":" + Decimal(inv.port) + "?" +
      ("v=1&" + ("token=" + Encode64(inv.token)))) == Ok(inv)
  {
    hide Encode64, IndexOf, LastIndexOf, ValidateOnion, Decimal, ReadParameters, Split, Digits, DecimalValue;
    var port := Decimal(inv.port);
    var query := "v=1&" + ("token=" + Encode64(inv.token));
    OnionLetters(digest, inv.onion);
    NoMark(inv.onion, port);
    AuthorityEnds(inv.onion + ":" + port, query);
    HostEnds(inv.onion, port);
    DecimalRoundTrip(inv.port);
    QueryReads(inv.token);
  }

  // ---- the parser lets nothing else through ----------------------------------------------------------------

  lemma {:induction false} TokensAreSized(q: Query, parameters: seq<string>)
    requires q.token.Some? ==> MIN_TOKEN <= |q.token.value| <= MAX_TOKEN
    ensures var r := ReadParameters(q, parameters); r.Ok? && r.value.token.Some? ==>
      MIN_TOKEN <= |r.value.token.value| <= MAX_TOKEN
    decreases |parameters|
  {
    hide IndexOf, Decode64, ParseDecimal;
    if parameters != [] && ReadParameter(q, parameters[0]).Ok? {
      TokensAreSized(ReadParameter(q, parameters[0]).value, parameters[1..]);
    }
  }

  // Whatever text is parsed, the invitation is one that `new` would have let through, and so
  // its canonical URI parses to it as well.
  lemma {:induction false} ParsedIsValid(digest: Digest, input: string)
    requires ParseInvitation(digest, input).Ok?
    ensures var inv := ParseInvitation(digest, input).value;
      && NewInvitation(digest, inv.onion, inv.port, inv.token) == Ok(inv) && inv.port <= 65535
      && ParseInvitation(digest, ToUri(inv)) == Ok(inv)
  {
    hide IndexOf, LastIndexOf, IndexOfDelimiter, ValidateOnion, ToUri, ReadParameters, Split;
    var rest := input[IndexOfDelimiter(input).value + 3..];
    var mark := IndexOf(rest, '?');
    TokensAreSized(NO_QUERY, Split(if mark.Some? then rest[mark.value + 1..] else "", '&'));
    InvitationRoundTrip(digest, ParseInvitation(digest, input).value);
  }

  // The address decoder agrees with base 32: it is defined exactly where some bytes have that
  // text, and yields them.
  lemma {:induction false} BodyBytesDecodes(body: string)
    ensures match BodyBytes(body)
      case Some(out) => Decodes(body, out)
      case None => forall out :: !Decodes(body, out)
  {
    hide Value, Pow2, FromBigEndian, ToBigEndian;
    if AllDigits(body) {
      var unit := Pow2(Unused(body));
      var high := Value(body) / unit;
      if Value(body) % unit == 0 {
        ValueBound(body);
        HighFits(body);
        FromToBigEndian(high, 5 * |body| / 8);
        assert high * unit == Value(body);
      } else {
        forall out ensures !Decodes(body, out) { if Decodes(body, out) { MultipleOf(FromBigEndian(out), unit); } }
      }
    }
  }

  lemma MultipleOf(a: nat, unit: nat)
    requires unit >= 1
    ensures a * unit % unit == 0
  {
    assert a * unit == a * unit / unit * unit + a * unit % unit;
    Multiple(a, a * unit / unit, unit, a * unit % unit);
  }

  lemma {:induction false} ValueBound(body: string)
    requires AllDigits(body)
    ensures Value(body) < Pow2(5 * |body|)
    decreases |body|
  {
    if body != "" {
      var n := |body| - 1;
      ValueBound(body[..n]);
      assert Digit(body[n]).value < 32;
      Pow2Sum(5, 5 * n);
      assert Pow2(5) == 32;
    }
  }

  lemma HighFits(body: string)
    requires AllDigits(body) && Value(body) < Pow2(5 * |body|)
    ensures Value(body) / Pow2(Unused(body)) < Pow256(5 * |body| / 8)
  {
    hide Value, Pow2, Pow256;
    var n := 5 * |body| / 8;
    Pow2Sum(8 * n, Unused(body));
    BytesOfBits(n);
    assert 8 * n + Unused(body) == 5 * |body|;
    Quotient(Value(body), Pow2(Unused(body)), Pow256(n));
  }

  lemma Quotient(a: nat, unit: nat, bound: nat)
    requires unit >= 1 && a < bound * unit
    ensures a / unit < bound
  {
    MulUp(bound, a / unit, unit);
    assert a == a / unit * unit + a % unit;
  }

  lemma {:induction false} BytesOfBits(n: nat)
    ensures Pow2(8 * n) == Pow256(n)
  {
    if n > 0 {
      BytesOfBits(n - 1);
      Pow2Sum(8, 8 * (n - 1));
      EightBits();
    }
  }
}
