// The two-party admission handshake (src/admission/host.rs, src/admission/client.rs and the join
// request of src/protocol/handshake.rs).
//
// Signatures are ideal: one names its key and the exact bytes it covers. A password proof names
// everything that goes into it. Hashing, UTF-8 and Unicode composition are parameters.
module Handshake {
  import opened Wrappers
  import opened Bytes
  import opened Transcripts
  import opened Validation

  datatype Env = Env(hash: seq<byte> -> seq<byte>, utf8: string -> seq<byte>, nfc: Composition,
    usable: seq<byte> -> bool)

  datatype Signed = Signed(key: seq<byte>, text: seq<byte>)

  datatype Cost = Cost(m: nat, t: nat, p: nat)

  const ARGON2_COST := Cost(19456, 2, 1)

  datatype Proof = Proof(password: seq<byte>, salt: seq<byte>, cost: Cost, challenge: seq<byte>, client: seq<byte>)

  datatype JoinForm = JoinForm(nickname: string, introduction: Option<string>, ed25519: seq<byte>, x25519: seq<byte>,
    signature: Signed)

  datatype Message =
    | ClientHello(version: nat, nonce: seq<byte>, features: nat)
    | HostHelloMsg(version: nat, session: seq<byte>, ed25519: seq<byte>, x25519: seq<byte>, serverNonce: seq<byte>,
      signature: Signed)
    | TokenVerify(token: seq<byte>)
    | PasswordChallenge(cost: Cost, salt: seq<byte>, challenge: seq<byte>)
    | ChallengeProof(proof: Proof)
    | JoinRequest(form: JoinForm)
    | JoinAccepted(member: nat)
    | JoinRejected
    | ErrorMessage

  datatype AdmissionError =
    | UnexpectedMessage | UnsupportedVersion(found: nat) | UnsupportedFeatures(features: nat) | InvalidToken
    | InvalidPasswordProof | InvalidJoinSignature | InvalidHostSignature | UnusableKey | RoomLocked
    | Refused | HostError | Invalid(error: ValidationError)

  // ---- the join request -------------------------------------------------------------------------

  // `JoinRequest::new`, which the sender calls and the receiver's decoder calls again.
  function NewForm(env: Env, f: JoinForm): Result<JoinForm, ValidationError> {
    match ValidateNickname(env.nfc, f.nickname)
    case Err(error) => Err(error)
    case Ok(nickname) =>
      match if f.introduction.Some? then ValidateIntro(f.introduction.value) else Ok(())
      case Err(error) => Err(error)
      case Ok(_) => Ok(f.(nickname := nickname))
  }

  function IntroductionText(f: JoinForm): string {
    if f.introduction.Some? then f.introduction.value else ""
  }

  function JoinText(env: Env, f: JoinForm, session: seq<byte>, clientNonce: seq<byte>, serverNonce: seq<byte>,
    onion: seq<byte>, token: seq<byte>): seq<byte>
  {
    TextOf(OfJoinRequest(JoinRequestText(1, session, clientNonce, serverNonce, env.utf8(f.nickname),
      env.hash(env.utf8(IntroductionText(f))), f.ed25519, f.x25519, onion, env.hash(token))))
  }

  function HelloOf(env: Env, onion: seq<byte>, port: nat, session: seq<byte>, ed25519: seq<byte>, x25519: seq<byte>,
    clientNonce: seq<byte>, serverNonce: seq<byte>, token: seq<byte>, offered: nat, features: nat): HostHello {
    HostHello(1, onion, port, session, ed25519, x25519, clientNonce, serverNonce, env.hash(token), offered, features)
  }

  // ---- the host ------------------------------------------------------------------------------------

  datatype HostState = AwaitingHello | AwaitingToken | AwaitingProof | AwaitingJoinForm | Decided

  datatype Host = Host(
    session: seq<byte>, serverNonce: seq<byte>, token: seq<byte>, salt: seq<byte>, password: seq<byte>,
    ed25519: seq<byte>, x25519: seq<byte>, onion: seq<byte>, clientNonce: Option<seq<byte>>,
    challenge: Option<seq<byte>>, state: HostState)

  datatype Reply = Nothing | Send(message: Message) | JoinRequested(form: JoinForm)

  function HelloReply(env: Env, h: Host, hello: Message, port: nat): (Host, Result<Reply, AdmissionError>)
    requires hello.ClientHello?
  {
    if h.state != AwaitingHello then (h, Err(UnexpectedMessage))
    else if hello.version != 1 then (h, Err(UnsupportedVersion(hello.version)))
    else if hello.features != 0 then (h, Err(UnsupportedFeatures(hello.features)))
    else
      var text := TextOf(OfHostHello(HelloOf(env, h.onion, port, h.session, h.ed25519, h.x25519, hello.nonce,
        h.serverNonce, h.token, hello.version, hello.features)));
      (h.(clientNonce := Some(hello.nonce), state := AwaitingToken),
       Ok(Send(HostHelloMsg(1, h.session, h.ed25519, h.x25519, h.serverNonce, Signed(h.ed25519, text)))))
  }

  function TokenReply(h: Host, token: seq<byte>, challenge: seq<byte>): (Host, Result<Reply, AdmissionError>) {
    if token != h.token then (h, Err(InvalidToken))
    else (h.(challenge := Some(challenge), state := AwaitingProof),
          Ok(Send(PasswordChallenge(ARGON2_COST, h.salt, challenge))))
  }

  function ProofReply(h: Host, proof: Proof): (Host, Result<Reply, AdmissionError>) {
    if h.challenge.None? || h.clientNonce.None? then (h, Err(UnexpectedMessage))
    else if proof != Proof(h.password, h.salt, ARGON2_COST, h.challenge.value, h.clientNonce.value)
    then (h, Err(InvalidPasswordProof))
    else (h.(state := AwaitingJoinForm), Ok(Nothing))
  }

  // The token is wiped once the application went through.
  function JoinReply(env: Env, h: Host, f: JoinForm, policyOpen: bool): (Host, Result<Reply, AdmissionError>) {
    if h.clientNonce.None? then (h, Err(UnexpectedMessage))
    else
      var text := JoinText(env, f, h.session, h.clientNonce.value, h.serverNonce, h.onion, h.token);
      if f.signature != Signed(f.ed25519, text) then (h, Err(InvalidJoinSignature))
      else if !env.usable(f.x25519) then (h, Err(UnusableKey))
      else if !policyOpen then (h, Err(RoomLocked))
      else (h.(state := Decided, token := []), Ok(JoinRequested(f)))
  }

  // `on_message`: whatever is not the message of the state is refused, hellos included.
  function MessageReply(env: Env, h: Host, message: Message, policyOpen: bool, challenge: seq<byte>)
    : (Host, Result<Reply, AdmissionError>)
  {
    match (h.state, message)
    case (AwaitingToken, TokenVerify(token)) => TokenReply(h, token, challenge)
    case (AwaitingProof, ChallengeProof(proof)) => ProofReply(h, proof)
    case (AwaitingJoinForm, JoinRequest(f)) => JoinReply(env, h, f, policyOpen)
    case _ => (h, Err(UnexpectedMessage))
  }

  // A call of `on_client_hello` with the port of the room, or one of `on_message` with the policy
  // of the moment and the nonce that a challenge would use.
  datatype Arrival =
    | Hello(version: nat, nonce: seq<byte>, features: nat, port: nat)
    | Arrived(message: Message, policyOpen: bool, challenge: seq<byte>)

  function HostStep(env: Env, h: Host, a: Arrival): (Host, Result<Reply, AdmissionError>) {
    match a
    case Hello(version, nonce, features, port) => HelloReply(env, h, ClientHello(version, nonce, features), port)
    case Arrived(message, policyOpen, challenge) => MessageReply(env, h, message, policyOpen, challenge)
  }

  function NewHost(session: seq<byte>, serverNonce: seq<byte>, token: seq<byte>, salt: seq<byte>, password: seq<byte>,
    ed25519: seq<byte>, x25519: seq<byte>, onion: seq<byte>): Host {
    Host(session, serverNonce, token, salt, password, ed25519, x25519, onion, None, None, AwaitingHello)
  }

  // ---- the client -------------------------------------------------------------------------------------

  datatype ClientState = AwaitingHostHello | AwaitingChallenge | FillingForm | AwaitingDecision | Admitted

  datatype Pinned = Pinned(session: seq<byte>, ed25519: seq<byte>, x25519: seq<byte>, signature: Signed)

  datatype Client = Client(
    token: seq<byte>, onion: seq<byte>, port: nat, password: seq<byte>, ed25519: seq<byte>, x25519: seq<byte>,
    clientNonce: seq<byte>, serverNonce: Option<seq<byte>>, pinned: Option<Pinned>, member: Option<nat>,
    state: ClientState)

  function NewClient(token: seq<byte>, onion: seq<byte>, port: nat, password: seq<byte>, ed25519: seq<byte>,
    x25519: seq<byte>, nonce: seq<byte>): Client
  {
    Client(token, onion, port, password, ed25519, x25519, nonce, None, None, None, AwaitingHostHello)
  }

  function FirstMessage(c: Client): Message { ClientHello(1, c.clientNonce, 0) }

  function HelloText(env: Env, c: Client, hello: Message): HostHello
    requires hello.HostHelloMsg?
  {
    HelloOf(env, c.onion, c.port, hello.session, hello.ed25519, hello.x25519, c.clientNonce, hello.serverNonce, c.token,
      1, 0)
  }

  function HandleHello(env: Env, c: Client, hello: Message): (Client, Result<Option<Message>, AdmissionError>)
    requires hello.HostHelloMsg?
  {
    if hello.version != 1 then (c, Err(UnsupportedVersion(hello.version)))
    else if hello.signature != Signed(hello.ed25519, TextOf(OfHostHello(HelloText(env, c, hello)))) then
      (c, Err(InvalidHostSignature))
    else if !env.usable(hello.x25519) then (c, Err(UnusableKey))
    else (c.(serverNonce := Some(hello.serverNonce), state := AwaitingChallenge,
             pinned := Some(Pinned(hello.session, hello.ed25519, hello.x25519, hello.signature))),
          Ok(Some(TokenVerify(c.token))))
  }

  // The password is forgotten as soon as the proof is made.
  function HandleChallenge(c: Client, challenge: Message): (Client, Result<Option<Message>, AdmissionError>)
    requires challenge.PasswordChallenge?
  {
    if challenge.cost != ARGON2_COST then (c, Err(UnexpectedMessage))
    else (c.(password := [], state := FillingForm),
          Ok(Some(ChallengeProof(Proof(c.password, challenge.salt, challenge.cost, challenge.challenge,
            c.clientNonce)))))
  }

  function ClientStep(env: Env, c: Client, m: Message): (Client, Result<Option<Message>, AdmissionError>) {
    if c.state == AwaitingHostHello && m.HostHelloMsg? then HandleHello(env, c, m)
    else if c.state == AwaitingChallenge && m.PasswordChallenge? then HandleChallenge(c, m)
    else if c.state == AwaitingDecision &&
      m.JoinAccepted? then (c.(member := Some(m.member), state := Admitted), Ok(None))
    else if c.state == AwaitingDecision && m.JoinRejected? then (c, Err(Refused))
    else if m.ErrorMessage? then (c, Err(HostError))
    else (c, Err(UnexpectedMessage))
  }

  // `join_request`: normalise, sign the normalised form, and build the message from it.
  function Apply(env: Env, c: Client, nickname: string, introduction: Option<string>)
    : (Client, Result<Message, AdmissionError>)
  {
    if c.state != FillingForm || c.pinned.None? || c.serverNonce.None? then (c, Err(UnexpectedMessage))
    else
      match ValidateNickname(env.nfc, nickname)
      case Err(error) => (c, Err(Invalid(error)))
      case Ok(n) =>
        var f := JoinForm(n, introduction, c.ed25519, c.x25519, Signed([], []));
        var text := JoinText(env, f, c.pinned.value.session, c.clientNonce, c.serverNonce.value, c.onion, c.token);
        match NewForm(env, f.(signature := Signed(c.ed25519, text)))
        case Err(error) => (c, Err(Invalid(error)))
        case Ok(form) => (c.(state := AwaitingDecision), Ok(JoinRequest(form)))
  }

  // ---- the honest run ------------------------------------------------------------------------------------

  // The run of one connection: what both sides end in, and the application the room gets.
  datatype Ending = Ending(client: Client, host: Host, form: JoinForm)

  // Hello, token and password: the first five messages.
  function Exchange(env: Env, c: Client, h: Host, port: nat, challenge: seq<byte>, policyOpen: bool)
    : Result<(Client, Host), AdmissionError>
  {
    match HelloReply(env, h, FirstMessage(c), port)
    case (h1, Ok(Send(hello))) => (
      match ClientStep(env, c, hello)
      case (c1, Ok(Some(token))) => (
        match MessageReply(env, h1, token, policyOpen, challenge)
        case (h2, Ok(Send(challenging))) => (
          match ClientStep(env, c1, challenging)
          case (c2, Ok(Some(proof))) => (
            match MessageReply(env, h2, proof, policyOpen, challenge)
            case (h3, Ok(Nothing)) => Ok((c2, h3))
            case (_, Err(error)) => Err(error)
            case _ => Err(UnexpectedMessage))
          case (_, Err(error)) => Err(error)
          case _ => Err(UnexpectedMessage))
        case (_, Err(error)) => Err(error)
        case _ => Err(UnexpectedMessage))
      case (_, Err(error)) => Err(error)
      case _ => Err(UnexpectedMessage))
    case (_, Err(error)) => Err(error)
    case _ => Err(UnexpectedMessage)
  }

  function HonestRun(env: Env, c: Client, h: Host, port: nat, challenge: seq<byte>, nickname: string,
    introduction: Option<string>,
    policyOpen: bool): Result<Ending, AdmissionError>
  {
    match Exchange(env, c, h, port, challenge, policyOpen)
    case Err(error) => Err(error)
    case Ok((c1, h1)) =>
      match Apply(env, c1, nickname, introduction)
      case (c2, Ok(JoinRequest(form))) => Arrives(env, c2, h1, form, policyOpen)
      case (_, Err(error)) => Err(error)
      case _ => Err(UnexpectedMessage)
  }

  // The host decodes the form, which validates it a third time, and checks it.
  function Arrives(env: Env, c: Client, h: Host, form: JoinForm, policyOpen: bool): Result<Ending, AdmissionError> {
    match NewForm(env, form)
    case Err(error) => Err(Invalid(error))
    case Ok(decoded) =>
      match MessageReply(env, h, JoinRequest(decoded), policyOpen, [])
      case (h1, Ok(JoinRequested(f))) => Ok(Ending(c, h1, f))
      case (_, Err(error)) => Err(error)
      case _ => Err(UnexpectedMessage)
  }

  predicate Acceptable(env: Env, nickname: string, introduction: Option<string>) {
    ValidateNickname(env.nfc, nickname).Ok? && (introduction.Some? ==> ValidateIntro(introduction.value).Ok?)
  }

  // Both parties are fresh and share the invitation to the room behind `port`.
  predicate Shared(c: Client, h: Host, port: nat) {
    && c.state == AwaitingHostHello && h.state == AwaitingHello
    && c.token == h.token && c.onion == h.onion && c.port == port
  }

  // The five messages get through exactly if the passwords match and the host's key is usable.
  lemma ExchangeCompletes(env: Env, c: Client, h: Host, port: nat, challenge: seq<byte>, policyOpen: bool)
    requires Shared(c, h, port)
    ensures var run := Exchange(env, c, h, port, challenge, policyOpen);
      && (run.Ok? <==> c.password == h.password && env.usable(h.x25519))
      && (run.Ok? ==> run.value == (
          c.(serverNonce := Some(h.serverNonce), password := [], state := FillingForm,
             pinned := Some(Pinned(h.session, h.ed25519, h.x25519,
               Signed(h.ed25519, TextOf(OfHostHello(HelloOf(env, c.onion, c.port, h.session, h.ed25519, h.x25519,
                 c.clientNonce, h.serverNonce, c.token, 1, 0))))))),
          h.(clientNonce := Some(c.clientNonce), challenge := Some(challenge), state := AwaitingJoinForm)))
  {
    hide TextOf, JoinReply;
  }

  // The handshake completes exactly if the nickname and the introduction are acceptable, the
  // passwords match, both key-exchange keys are usable and the room is open. Then the client
  // awaits the decision, the host has decided, and the application carries the normalised
  // nickname and the client's keys under a signature over one transcript that both built.
  lemma {:induction false} HandshakeCompletes(env: Env, c: Client, h: Host, port: nat, challenge: seq<byte>,
    nickname: string,
    introduction: Option<string>, policyOpen: bool)
    requires Shared(c, h, port)
    ensures var run := HonestRun(env, c, h, port, challenge, nickname, introduction, policyOpen);
      && (run.Ok? <==> Acceptable(env, nickname, introduction) && c.password == h.password && env.usable(h.x25519) &&
                       env.usable(c.x25519) && policyOpen)
      && (run.Ok? ==>
          var f := run.value.form;
          && run.value.client.state == AwaitingDecision && run.value.host.state == Decided
          && Ok(f.nickname) == ValidateNickname(env.nfc, nickname) && f.introduction == introduction
          && f.ed25519 == c.ed25519 && f.x25519 == c.x25519
          && f.signature == Signed(c.ed25519,
            JoinText(env, f, h.session, c.clientNonce, h.serverNonce, c.onion, c.token))
          && run.value.client.pinned == Some(Pinned(h.session, h.ed25519, h.x25519,
              Signed(h.ed25519, TextOf(OfHostHello(HelloOf(env, c.onion, c.port, h.session, h.ed25519, h.x25519,
                c.clientNonce, h.serverNonce, c.token, 1, 0))))))
          && run.value.client.password == [] && run.value.host.token == [])
  {
    hide TextOf, ValidateNickname, ValidateIntro, Exchange;
    ExchangeCompletes(env, c, h, port, challenge, policyOpen);
    if ValidateNickname(env.nfc, nickname).Ok? { NicknameIsStable(env.nfc, nickname); }
  }

  // ---- any order of messages ----------------------------------------------------------------------------------

  function HostAfter(env: Env, h: Host, arrivals: seq<Arrival>): Host
    decreases |arrivals|
  {
    if arrivals == [] then h
    else HostStep(env, HostAfter(env, h, arrivals[..|arrivals| - 1]), arrivals[|arrivals| - 1]).0
  }

  function ReplyAt(env: Env, h: Host, arrivals: seq<Arrival>, i: nat): Result<Reply, AdmissionError>
    requires i < |arrivals|
  {
    HostStep(env, HostAfter(env, h, arrivals[..i]), arrivals[i]).1
  }

  predicate HelloAt(arrivals: seq<Arrival>, i: nat, nonce: seq<byte>) {
    i < |arrivals| && arrivals[i].Hello? && arrivals[i].version == 1 && arrivals[i].nonce == nonce &&
      arrivals[i].features == 0
  }

  predicate TokenAt(h: Host, arrivals: seq<Arrival>, i: nat, challenge: seq<byte>) {
    && i < |arrivals| && arrivals[i].Arrived?
    && arrivals[i].message == TokenVerify(h.token) && arrivals[i].challenge == challenge
  }

  predicate ProofAt(h: Host, arrivals: seq<Arrival>, i: nat, challenge: seq<byte>, nonce: seq<byte>) {
    && i < |arrivals| && arrivals[i].Arrived?
    && arrivals[i].message == ChallengeProof(Proof(h.password, h.salt, ARGON2_COST, challenge, nonce))
  }

  // How the host got where it is: the inputs that took it there, in their order.
  ghost predicate Explained(h: Host, now: Host, arrivals: seq<Arrival>, hello: nat, token: nat, proof: nat) {
    && now == h.(clientNonce := now.clientNonce, challenge := now.challenge, state := now.state, token := now.token)
    && (now.state != Decided ==> now.token == h.token)
    && (now.state != AwaitingHello ==> now.clientNonce.Some? && HelloAt(arrivals, hello, now.clientNonce.value))
    && (now.state == AwaitingProof || now.state == AwaitingJoinForm || now.state == Decided ==>
        now.challenge.Some? && hello < token && TokenAt(h, arrivals, token, now.challenge.value))
    && (now.state == AwaitingJoinForm || now.state == Decided ==>
        token < proof && ProofAt(h, arrivals, proof, now.challenge.value, now.clientNonce.value))
  }

  lemma {:induction false} HostIsExplained(env: Env, h: Host, arrivals: seq<Arrival>)
    returns (hello: nat, token: nat, proof: nat)
    requires h.state == AwaitingHello
    ensures Explained(h, HostAfter(env, h, arrivals), arrivals, hello, token, proof)
    decreases |arrivals|
  {
    hide TextOf, JoinText;
    hello, token, proof := 0, 0, 0;
    if arrivals != [] {
      var before := arrivals[..|arrivals| - 1];
      hello, token, proof := HostIsExplained(env, h, before);
      var was := HostAfter(env, h, before);
      var now := HostAfter(env, h, arrivals);
      if was.state == AwaitingHello && now.state == AwaitingToken { hello := |before|; }
      if was.state == AwaitingToken && now.state == AwaitingProof { token := |before|; }
      if was.state == AwaitingProof && now.state == AwaitingJoinForm { proof := |before|; }
    }
  }

  // In whatever order messages arrive, an application reaches the room only after a hello, the
  // room's token and a proof of its password over this connection's nonces, each after the
  // other, while the policy is open, and signed by the key it brings over this connection's
  // transcript.
  lemma {:induction false} ApplicationsAreAuthorised(env: Env, h: Host, arrivals: seq<Arrival>, k: nat)
    returns (hello: nat, token: nat, proof: nat)
    requires h.state == AwaitingHello && k < |arrivals|
    requires ReplyAt(env, h, arrivals, k).Ok? && ReplyAt(env, h, arrivals, k).value.JoinRequested?
    ensures hello < token < proof < k
    ensures var was := HostAfter(env, h, arrivals[..k]);
      var f := ReplyAt(env, h, arrivals, k).value.form;
      && was.clientNonce.Some? && was.challenge.Some?
      && HelloAt(arrivals, hello, was.clientNonce.value)
      && TokenAt(h, arrivals, token, was.challenge.value)
      && ProofAt(h, arrivals, proof, was.challenge.value, was.clientNonce.value)
      && arrivals[k].Arrived? && arrivals[k].policyOpen && arrivals[k].message == JoinRequest(f)
      && f.signature == Signed(f.ed25519,
        JoinText(env, f, h.session, was.clientNonce.value, h.serverNonce, h.onion, h.token))
  {
    hide TextOf, JoinText;
    hello, token, proof := HostIsExplained(env, h, arrivals[..k]);
  }

  lemma DecidedStays(env: Env, h: Host, a: Arrival)
    requires h.state == Decided
    ensures HostStep(env, h, a) == (h, Err(UnexpectedMessage))
  {
  }

  lemma {:induction false} DecidedForGood(env: Env, h: Host, arrivals: seq<Arrival>)
    requires h.state == Decided
    ensures HostAfter(env, h, arrivals) == h
    decreases |arrivals|
  {
    hide HostStep;
    if arrivals != [] {
      DecidedForGood(env, h, arrivals[..|arrivals| - 1]);
      DecidedStays(env, h, arrivals[|arrivals| - 1]);
    }
  }

  // One connection hands the room one application.
  lemma {:induction false} OneApplication(env: Env, h: Host, arrivals: seq<Arrival>, i: nat, j: nat)
    requires i < j < |arrivals|
    requires ReplyAt(env, h, arrivals, i).Ok? && ReplyAt(env, h, arrivals, i).value.JoinRequested?
    ensures ReplyAt(env, h, arrivals, j).Err?
  {
    hide HostStep, HostAfter;
    var decided := HostAfter(env, h, arrivals[..i + 1]);
    AfterApplication(env, h, arrivals, i);
    HostAfterConcat(env, h, arrivals[..i + 1], arrivals[i + 1..j]);
    assert arrivals[..i + 1] + arrivals[i + 1..j] == arrivals[..j];
    DecidedForGood(env, decided, arrivals[i + 1..j]);
    DecidedStays(env, decided, arrivals[j]);
  }

  lemma AfterApplication(env: Env, h: Host, arrivals: seq<Arrival>, i: nat)
    requires i < |arrivals| && ReplyAt(env, h, arrivals, i).Ok? && ReplyAt(env, h, arrivals, i).value.JoinRequested?
    ensures HostAfter(env, h, arrivals[..i + 1]).state == Decided
  {
    hide TextOf, JoinText;
    assert arrivals[..i + 1][..i] == arrivals[..i];
  }

  lemma {:induction false} HostAfterConcat(env: Env, h: Host, a: seq<Arrival>, b: seq<Arrival>)
    ensures HostAfter(env, h, a + b) == HostAfter(env, HostAfter(env, h, a), b)
    decreases |b|
  {
    hide HostStep;
    if b == [] { assert a + b == a; }
    else {
      assert (a + b)[..|a + b| - 1] == a + b[..|b| - 1];
      HostAfterConcat(env, h, a, b[..|b| - 1]);
    }
  }

  // ---- what the client may rely on ------------------------------------------------------------------------------

  // A host hello that the client takes was signed over the client's own nonce, its invitation's
  // address and the hash of its token: a host that signs only what it was asked has answered
  // this very client, and the two agree on every field.
  lemma {:induction false} HelloAgreement(env: Env, c: Client, hello: Message, h: Host, asked: Message, port: nat)
    requires c.state == AwaitingHostHello && hello.HostHelloMsg? && ClientStep(env, c, hello).1.Ok?
    requires h.state == AwaitingHello && asked.ClientHello? && HelloReply(env, h, asked, port).1.Ok?
    requires HelloReply(env, h, asked, port).1.value.message.signature == hello.signature
    requires HelloText(env, c, hello).Sized()
    requires HelloOf(env, h.onion, port, h.session, h.ed25519, h.x25519, asked.nonce, h.serverNonce, h.token,
      asked.version, asked.features).Sized()
    ensures asked == FirstMessage(c) && port == c.port && h.onion == c.onion && env.hash(h.token) == env.hash(c.token)
    ensures hello == HelloReply(env, h, asked, port).1.value.message
    ensures var c1 := ClientStep(env, c, hello).0;
      c1.pinned == Some(Pinned(h.session, h.ed25519, h.x25519, hello.signature)) &&
        c1.serverNonce == Some(h.serverNonce)
  {
    hide EncodeFields, Pow256;
    var mine := HelloText(env, c, hello);
    var theirs := HelloOf(env, h.onion, port, h.session, h.ed25519, h.x25519, asked.nonce, h.serverNonce, h.token,
      asked.version, asked.features);
    HostHelloDetermined(mine, theirs);
  }

  // An application that the host takes was signed over this connection's nonces, room, address
  // and token: it cannot be a form that its author signed for another connection.
  lemma {:induction false} FormAgreement(env: Env, h: Host, f: JoinForm, c: Client, g: JoinForm, policyOpen: bool)
    requires h.clientNonce.Some? && JoinReply(env, h, f, policyOpen).1.Ok?
    requires c.pinned.Some? && c.serverNonce.Some?
    requires f.signature == Signed(c.ed25519,
      JoinText(env, g, c.pinned.value.session, c.clientNonce, c.serverNonce.value, c.onion, c.token))
    requires JoinRequestText(1, h.session, h.clientNonce.value, h.serverNonce, env.utf8(f.nickname),
      env.hash(env.utf8(IntroductionText(f))), f.ed25519, f.x25519, h.onion, env.hash(h.token)).Sized()
    requires JoinRequestText(1, c.pinned.value.session, c.clientNonce, c.serverNonce.value, env.utf8(g.nickname),
      env.hash(env.utf8(IntroductionText(g))), g.ed25519, g.x25519, c.onion, env.hash(c.token)).Sized()
    ensures h.session == c.pinned.value.session && h.clientNonce.value == c.clientNonce &&
      h.serverNonce == c.serverNonce.value
    ensures f.ed25519 == g.ed25519 == c.ed25519 && f.x25519 == g.x25519 && h.onion == c.onion &&
      env.hash(h.token) == env.hash(c.token)
    ensures env.utf8(f.nickname) == env.utf8(g.nickname) &&
      env.hash(env.utf8(IntroductionText(f))) == env.hash(env.utf8(IntroductionText(g)))
  {
    hide EncodeFields, Pow256;
    JoinRequestDetermined(
      JoinRequestText(1, h.session, h.clientNonce.value, h.serverNonce, env.utf8(f.nickname),
        env.hash(env.utf8(IntroductionText(f))), f.ed25519, f.x25519, h.onion, env.hash(h.token)),
      JoinRequestText(1, c.pinned.value.session, c.clientNonce, c.serverNonce.value, env.utf8(g.nickname),
        env.hash(env.utf8(IntroductionText(g))), g.ed25519, g.x25519, c.onion, env.hash(c.token)));
  }
}
