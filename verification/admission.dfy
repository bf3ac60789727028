// Both ends of one admission as the source has them (src/admission/host.rs, src/admission/client.rs):
// objects that change their state message by message, as module Handshake says.
module Admission {
  import opened Wrappers
  import opened Bytes
  import opened Transcripts
  import opened Validation
  import opened Handshake

  class HostAdmission {
    const env: Env
    const session: seq<byte>
    const serverNonce: seq<byte>
    const salt: seq<byte>
    const password: seq<byte>
    const ed25519: seq<byte>
    const x25519: seq<byte>
    const onion: seq<byte>
    var token: seq<byte>
    var clientNonce: Option<seq<byte>>
    var challenge: Option<seq<byte>>
    var state: HostState

    function State(): Host
      reads this
    {
      Host(session, serverNonce, token, salt, password, ed25519, x25519, onion, clientNonce, challenge, state)
    }

    constructor (env: Env, session: seq<byte>, serverNonce: seq<byte>, token: seq<byte>, salt: seq<byte>,
      password: seq<byte>, ed25519: seq<byte>, x25519: seq<byte>, onion: seq<byte>)
      ensures State() == NewHost(session, serverNonce, token, salt, password, ed25519, x25519, onion) && this.env == env
    {
      this.env := env;
      this.session := session;
      this.serverNonce := serverNonce;
      this.token := token;
      this.salt := salt;
      this.password := password;
      this.ed25519 := ed25519;
      this.x25519 := x25519;
      this.onion := onion;
      clientNonce := None;
      challenge := None;
      state := AwaitingHello;
    }

    method OnClientHello(hello: Message, port: nat) returns (reply: Result<Reply, AdmissionError>)
      requires hello.ClientHello?
      modifies this
      ensures (State(), reply) == HelloReply(env, old(State()), hello, port)
    {
      if state != AwaitingHello { return Err(UnexpectedMessage); }
      if hello.version != 1 { return Err(UnsupportedVersion(hello.version)); }
      if hello.features != 0 { return Err(UnsupportedFeatures(hello.features)); }
      clientNonce := Some(hello.nonce);
      var t := HelloOf(env, onion, port, session, ed25519, x25519, hello.nonce, serverNonce, token, hello.version,
        hello.features);
      state := AwaitingToken;
      return Ok(Send(HostHelloMsg(1, session, ed25519, x25519, serverNonce, Signed(ed25519, TextOf(OfHostHello(t))))));
    }

    // `freshNonce` is what the random generator returns for a challenge.
    method OnMessage(message: Message, policyOpen: bool, freshNonce: seq<byte>)
      returns (reply: Result<Reply, AdmissionError>)
      modifies this
      ensures (State(), reply) == MessageReply(env, old(State()), message, policyOpen, freshNonce)
    {
      match (state, message)
      case (AwaitingToken, TokenVerify(offered)) => reply := HandleToken(offered, freshNonce);
      case (AwaitingProof, ChallengeProof(proof)) => reply := HandleProof(proof);
      case (AwaitingJoinForm, JoinRequest(form)) => reply := HandleJoinRequest(form, policyOpen);
      case _ => return Err(UnexpectedMessage);
    }

    method HandleToken(offered: seq<byte>, freshNonce: seq<byte>) returns (reply: Result<Reply, AdmissionError>)
      modifies this
      ensures (State(), reply) == TokenReply(old(State()), offered, freshNonce)
    {
      if offered != token { return Err(InvalidToken); }
      challenge := Some(freshNonce);
      state := AwaitingProof;
      return Ok(Send(PasswordChallenge(ARGON2_COST, salt, freshNonce)));
    }

    method HandleProof(proof: Proof) returns (reply: Result<Reply, AdmissionError>)
      modifies this
      ensures (State(), reply) == ProofReply(old(State()), proof)
    {
      if challenge.None? || clientNonce.None? { return Err(UnexpectedMessage); }
      if proof != Proof(password, salt, ARGON2_COST, challenge.value, clientNonce.value) {
        return Err(InvalidPasswordProof);
      }
      state := AwaitingJoinForm;
      return Ok(Nothing);
    }

    method HandleJoinRequest(form: JoinForm, policyOpen: bool) returns (reply: Result<Reply, AdmissionError>)
      modifies this
      ensures (State(), reply) == JoinReply(env, old(State()), form, policyOpen)
    {
      if clientNonce.None? { return Err(UnexpectedMessage); }
      var text := JoinText(env, form, session, clientNonce.value, serverNonce, onion, token);
      if form.signature != Signed(form.ed25519, text) { return Err(InvalidJoinSignature); }
      if !env.usable(form.x25519) { return Err(UnusableKey); }
      if !policyOpen { return Err(RoomLocked); }
      state := Decided;
      token := [];
      return Ok(JoinRequested(form));
    }
  }

  class ClientAdmission {
    const env: Env
    const token: seq<byte>
    const onion: seq<byte>
    const port: nat
    const ed25519: seq<byte>
    const x25519: seq<byte>
    const clientNonce: seq<byte>
    var password: seq<byte>
    var serverNonce: Option<seq<byte>>
    var pinned: Option<Pinned>
    var member: Option<nat>
    var state: ClientState

    function State(): Client
      reads this
    {
      Client(token, onion, port, password, ed25519, x25519, clientNonce, serverNonce, pinned, member, state)
    }

    constructor (env: Env, token: seq<byte>, onion: seq<byte>, port: nat, password: seq<byte>,
      ed25519: seq<byte>, x25519: seq<byte>, nonce: seq<byte>)
      ensures State() == NewClient(token, onion, port, password, ed25519, x25519, nonce) && this.env == env
    {
      this.env := env;
      this.token := token;
      this.onion := onion;
      this.port := port;
      this.ed25519 := ed25519;
      this.x25519 := x25519;
      clientNonce := nonce;
      this.password := password;
      serverNonce := None;
      pinned := None;
      member := None;
      state := AwaitingHostHello;
    }

    method OnHostMessage(m: Message) returns (reply: Result<Option<Message>, AdmissionError>)
      modifies this
      ensures (State(), reply) == ClientStep(env, old(State()), m)
    {
      if state == AwaitingHostHello && m.HostHelloMsg? { reply := OnHostHello(m); return; }
      if state == AwaitingChallenge && m.PasswordChallenge? { reply := OnChallenge(m); return; }
      if state == AwaitingDecision && m.JoinAccepted? {
        member := Some(m.member);
        state := Admitted;
        return Ok(None);
      }
      if state == AwaitingDecision && m.JoinRejected? { return Err(Refused); }
      if m.ErrorMessage? { return Err(HostError); }
      return Err(UnexpectedMessage);
    }

    method OnHostHello(hello: Message) returns (reply: Result<Option<Message>, AdmissionError>)
      requires hello.HostHelloMsg?
      modifies this
      ensures (State(), reply) == HandleHello(env, old(State()), hello)
    {
      if hello.version != 1 { return Err(UnsupportedVersion(hello.version)); }
      var text := TextOf(OfHostHello(HelloText(env, State(), hello)));
      if hello.signature != Signed(hello.ed25519, text) { return Err(InvalidHostSignature); }
      if !env.usable(hello.x25519) { return Err(UnusableKey); }
      serverNonce := Some(hello.serverNonce);
      pinned := Some(Pinned(hello.session, hello.ed25519, hello.x25519, hello.signature));
      state := AwaitingChallenge;
      return Ok(Some(TokenVerify(token)));
    }

    method OnChallenge(challenge: Message) returns (reply: Result<Option<Message>, AdmissionError>)
      requires challenge.PasswordChallenge?
      modifies this
      ensures (State(), reply) == HandleChallenge(old(State()), challenge)
    {
      if challenge.cost != ARGON2_COST { return Err(UnexpectedMessage); }
      var proof := Proof(password, challenge.salt, challenge.cost, challenge.challenge, clientNonce);
      password := [];
      state := FillingForm;
      return Ok(Some(ChallengeProof(proof)));
    }

    method SubmitForm(nickname: string, introduction: Option<string>) returns (request: Result<Message, AdmissionError>)
      modifies this
      ensures (State(), request) == Apply(env, old(State()), nickname, introduction)
    {
      if state != FillingForm || pinned.None? || serverNonce.None? { return Err(UnexpectedMessage); }
      var normalized := ValidateNickname(env.nfc, nickname);
      if normalized.Err? { return Err(Invalid(normalized.error)); }
      var f := JoinForm(normalized.value, introduction, ed25519, x25519, Signed([], []));
      var text := JoinText(env, f, pinned.value.session, clientNonce, serverNonce.value, onion, token);
      var form := NewForm(env, f.(signature := Signed(ed25519, text)));
      if form.Err? { return Err(Invalid(form.error)); }
      state := AwaitingDecision;
      return Ok(JoinRequest(form.value));
    }
  }
}
