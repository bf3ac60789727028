// Both ends of an admission over any sequence of messages: exactly how far each one gets.
module Traces {
  import opened Wrappers
  import opened Transcripts
  import opened Validation
  import opened Handshake

  // The first index from `from` on at which `p` holds, if there is one.
  ghost predicate FirstAt<T>(s: seq<T>, from: nat, i: Option<nat>, p: T -> bool) {
    match i
    case None => forall k :: from <= k < |s| ==> !p(s[k])
    case Some(i) => from <= i < |s| && p(s[i]) && forall k :: from <= k < i ==> !p(s[k])
  }

  function Later(i: Option<nat>): nat { if i.Some? then i.value + 1 else 0 }

  // One more element can only be a first that was missing.
  lemma FirstSnoc<T>(s: seq<T>, from: nat, i: Option<nat>, p: T -> bool)
    requires s != [] && FirstAt(s[..|s| - 1], from, i, p) && from <= |s| - 1
    ensures FirstAt(s, from, if i.Some? then i else if p(s[|s| - 1]) then Some(|s| - 1) else None, p)
  {
    var before := s[..|s| - 1];
    assert forall k :: 0 <= k < |before| ==> before[k] == s[k];
  }

  // ---- the client -----------------------------------------------------------------------------------

  datatype Turn = FromHost(message: Message) | Submitted(nickname: string, introduction: Option<string>)

  function ClientTurn(env: Env, c: Client, t: Turn): (Client, Result<Option<Message>, AdmissionError>) {
    match t
    case FromHost(m) => ClientStep(env, c, m)
    case Submitted(nickname, introduction) =>
      var (c1, r) := Apply(env, c, nickname, introduction);
      (c1, match r case Ok(m) => Ok(Some(m)) case Err(error) => Err(error))
  }

  function ClientAfter(env: Env, c: Client, turns: seq<Turn>): Client
    decreases |turns|
  {
    if turns == [] then c else ClientTurn(env, ClientAfter(env, c, turns[..|turns| - 1]), turns[|turns| - 1]).0
  }

  // A host hello signed for this very client, under a key it can use.
  predicate HelloFor(env: Env, c: Client, t: Turn) {
    && t.FromHost? && t.message.HostHelloMsg? && t.message.version == 1 && env.usable(t.message.x25519)
    && t.message.signature == Signed(t.message.ed25519, TextOf(OfHostHello(HelloText(env, c, t.message))))
  }

  predicate ChallengeAt(t: Turn) { t.FromHost? && t.message.PasswordChallenge? && t.message.cost == Cost(19456, 2, 1) }

  predicate FormAt(env: Env, t: Turn) { t.Submitted? && Acceptable(env, t.nickname, t.introduction) }

  predicate AcceptedAt(t: Turn) { t.FromHost? && t.message.JoinAccepted? }

  // Where the four steps of an admission were taken, as far as they were.
  datatype Path = Path(first: Option<nat>, second: Option<nat>, third: Option<nat>, fourth: Option<nat>)

  // Each step is the first chance for it after the one before.
  ghost predicate Steps<T>(s: seq<T>, path: Path, p: T -> bool, q: T -> bool, t: T -> bool, u: T -> bool) {
    && FirstAt(s, 0, path.first, p)
    && (path.first.Some? ==> FirstAt(s, path.first.value + 1, path.second, q))
    && (path.second.Some? ==> path.first.Some? && FirstAt(s, path.second.value + 1, path.third, t))
    && (path.third.Some? ==> path.second.Some? && FirstAt(s, path.third.value + 1, path.fourth, u))
    && (path.fourth.Some? ==> path.third.Some?)
  }

  // How one more element extends a path.
  function Extended<T>(s: seq<T>, path: Path, p: T -> bool, q: T -> bool, t: T -> bool, u: T -> bool): Path
    requires s != []
  {
    var n := |s| - 1;
    if path.first.None? then (if p(s[n]) then path.(first := Some(n)) else path)
    else if path.second.None? then (if q(s[n]) then path.(second := Some(n)) else path)
    else if path.third.None? then (if t(s[n]) then path.(third := Some(n)) else path)
    else if path.fourth.None? then (if u(s[n]) then path.(fourth := Some(n)) else path)
    else path
  }

  lemma StepsSnoc<T>(s: seq<T>, path: Path, p: T -> bool, q: T -> bool, t: T -> bool, u: T -> bool)
    requires s != [] && Steps(s[..|s| - 1], path, p, q, t, u)
    ensures Steps(s, Extended(s, path, p, q, t, u), p, q, t, u)
  {
    var n := |s| - 1;
    var before := s[..n];
    assert forall k :: 0 <= k < n ==> before[k] == s[k];
    FirstSnoc(s, 0, path.first, p);
    if path.first.Some? { FirstSnoc(s, path.first.value + 1, path.second, q); }
    if path.second.Some? { FirstSnoc(s, path.second.value + 1, path.third, t); }
    if path.third.Some? { FirstSnoc(s, path.third.value + 1, path.fourth, u); }
  }

  ghost predicate ClientSteps(env: Env, c: Client, turns: seq<Turn>, path: Path) {
    Steps(turns, path, (t: Turn) => HelloFor(env, c, t), (t: Turn) => ChallengeAt(t), (t: Turn) => FormAt(env, t),
      (t: Turn) => AcceptedAt(t))
  }

  function ClientStage(path: Path): ClientState {
    if path.fourth.Some? then Admitted
    else if path.third.Some? then AwaitingDecision
    else if path.second.Some? then FillingForm
    else if path.first.Some? then AwaitingChallenge
    else AwaitingHostHello
  }

  // How far the client is and what it knows, by the steps alone.
  ghost predicate ClientIs(env: Env, c: Client, now: Client, turns: seq<Turn>, path: Path) {
    && ClientSteps(env, c, turns, path)
    && now.state == ClientStage(path)
    && now.member == (if path.fourth.Some? then Some(turns[path.fourth.value].message.member) else c.member)
    && now.password == (if path.second.Some? then [] else c.password)
    && (path.first.Some? ==>
      var m := turns[path.first.value].message;
      now.serverNonce == Some(m.serverNonce) && now.pinned == Some(Pinned(m.session, m.ed25519, m.x25519, m.signature)))
    && now == c.(state := now.state, member := now.member, password := now.password, serverNonce := now.serverNonce,
        pinned := now.pinned)
  }

  // Over any turns a fresh client is exactly as far as the first good hello, the first challenge after
  // it, the first acceptable form after that and the first acceptance after the form have taken it; a
  // rejection, an error or anything out of turn leaves it where it is.
  lemma {:induction false} ClientExactly(env: Env, c: Client, turns: seq<Turn>) returns (path: Path)
    requires c.state == AwaitingHostHello
    ensures ClientIs(env, c, ClientAfter(env, c, turns), turns, path)
    decreases |turns|
  {
    hide TextOf, ClientTurn, HelloFor, FormAt, ChallengeAt;
    if turns == [] { path := Path(None, None, None, None); }
    else {
      var before := turns[..|turns| - 1];
      var last := turns[|turns| - 1];
      var was := ClientExactly(env, c, before);
      TurnAnswers(env, c, ClientAfter(env, c, before), last);
      path := Extended(turns, was, (t: Turn) => HelloFor(env, c, t), (t: Turn) => ChallengeAt(t),
        (t: Turn) => FormAt(env, t), (t: Turn) => AcceptedAt(t));
      StepsSnoc(turns, was, (t: Turn) => HelloFor(env, c, t), (t: Turn) => ChallengeAt(t),
        (t: Turn) => FormAt(env, t), (t: Turn) => AcceptedAt(t));
    }
  }

  // What one turn does to a client that was once fresh.
  lemma TurnAnswers(env: Env, c: Client, was: Client, t: Turn)
    requires was == c.(state := was.state, member := was.member, password := was.password,
      serverNonce := was.serverNonce, pinned := was.pinned)
    requires was.state == FillingForm ==> was.pinned.Some? && was.serverNonce.Some?
    ensures var now := ClientTurn(env, was, t).0;
      now == (
        if was.state == AwaitingHostHello && HelloFor(env, c, t) then
          was.(state := AwaitingChallenge, serverNonce := Some(t.message.serverNonce),
               pinned := Some(Pinned(t.message.session, t.message.ed25519, t.message.x25519, t.message.signature)))
        else if was.state == AwaitingChallenge && ChallengeAt(t) then was.(state := FillingForm, password := [])
        else if was.state == FillingForm && FormAt(env, t) then was.(state := AwaitingDecision)
        else if was.state == AwaitingDecision &&
          AcceptedAt(t) then was.(state := Admitted, member := Some(t.message.member))
        else was)
  {
    hide TextOf, ValidateNickname, ValidateIntro, JoinText;
    if t.Submitted? && ValidateNickname(env.nfc, t.nickname).Ok? { NicknameIsStable(env.nfc, t.nickname); }
  }

  // A turn is answered with an error exactly if it leaves the client as it was; a rejection while the
  // decision is awaited is one of those errors, and so is any message the host reports an error with.
  lemma {:induction false} RefusedTurns(env: Env, c: Client, turns: seq<Turn>, t: Turn)
    requires c.state == AwaitingHostHello
    ensures var was := ClientAfter(env, c, turns);
      var (now, reply) := ClientTurn(env, was, t);
      && (reply.Err? <==> now == was)
      && (was.state == AwaitingDecision && t == FromHost(JoinRejected) ==> reply == Err(Refused))
      && (t == FromHost(ErrorMessage) ==> reply == Err(HostError))
  {
    hide TextOf, ValidateNickname, ValidateIntro, JoinText;
    var path := ClientExactly(env, c, turns);
    if t.Submitted? && ValidateNickname(env.nfc, t.nickname).Ok? { NicknameIsStable(env.nfc, t.nickname); }
  }

  // What the client sends at each step: the token, a proof of the password it still has over the
  // challenge and its own nonce, and a form with the normalised nickname, signed by its own key.
  lemma {:induction false} ClientSends(env: Env, c: Client, turns: seq<Turn>, t: Turn)
    requires c.state == AwaitingHostHello && ClientTurn(env, ClientAfter(env, c, turns), t).1.Ok?
    ensures var was := ClientAfter(env, c, turns);
      var sent := ClientTurn(env, was, t).1.value;
      match was.state
      case AwaitingHostHello => sent == Some(TokenVerify(c.token))
      case AwaitingChallenge =>
        t.FromHost? && t.message.PasswordChallenge? &&
        sent == Some(ChallengeProof(Proof(c.password, t.message.salt, t.message.cost, t.message.challenge,
          c.clientNonce)))
      case FillingForm =>
        && t.Submitted? && was.pinned.Some? && was.serverNonce.Some? && ValidateNickname(env.nfc, t.nickname).Ok?
        && var f := JoinForm(ValidateNickname(env.nfc, t.nickname).value, t.introduction, c.ed25519, c.x25519,
          Signed([], []));
          sent == Some(JoinRequest(f.(signature := Signed(c.ed25519,
            JoinText(env, f, was.pinned.value.session, c.clientNonce, was.serverNonce.value, c.onion, c.token)))))
      case _ => sent == None
  {
    hide TextOf, ValidateNickname, ValidateIntro;
    var path := ClientExactly(env, c, turns);
    if t.Submitted? && ValidateNickname(env.nfc, t.nickname).Ok? { NicknameIsStable(env.nfc, t.nickname); }
  }

  // ---- the host ----------------------------------------------------------------------------------------

  predicate GoodHello(a: Arrival) { a.Hello? && a.version == 1 && a.features == 0 }

  predicate GoodToken(h: Host, a: Arrival) { a.Arrived? && a.message == TokenVerify(h.token) }

  // The proof of the password over the nonces of the hello and of the challenge that was sent.
  predicate GoodProof(h: Host, now: Host, a: Arrival) {
    && a.Arrived? && a.message.ChallengeProof? && now.challenge.Some? && now.clientNonce.Some?
    && a.message.proof == Proof(h.password, h.salt, Cost(19456, 2, 1), now.challenge.value, now.clientNonce.value)
  }

  // A form signed by its own key over this connection, with a usable key, while the room is open.
  predicate GoodForm(env: Env, h: Host, now: Host, a: Arrival) {
    && a.Arrived? && a.message.JoinRequest? && now.clientNonce.Some? && a.policyOpen &&
      env.usable(a.message.form.x25519)
    && var f := a.message.form;
      f.signature == Signed(f.ed25519,
        JoinText(env, f, h.session, now.clientNonce.value, h.serverNonce, h.onion, h.token))
  }

  // The host after `arrivals`, by the steps alone: the nonce of the first good hello, the challenge
  // sent for the first good token after it, the first good proof after that and the first good form
  // after the proof.
  ghost predicate HostIs(env: Env, h: Host, now: Host, arrivals: seq<Arrival>, path: Path) {
    && HostSteps(env, h, now, arrivals, path)
    && now.state == HostStage(path)
    && now.clientNonce == (if path.first.Some? then Some(arrivals[path.first.value].nonce) else h.clientNonce)
    && now.challenge == (if path.second.Some? then Some(arrivals[path.second.value].challenge) else h.challenge)
    && now.token == (if path.fourth.Some? then [] else h.token)
    && now == h.(state := now.state, clientNonce := now.clientNonce, challenge := now.challenge, token := now.token)
  }

  ghost predicate HostSteps(env: Env, h: Host, now: Host, arrivals: seq<Arrival>, path: Path) {
    Steps(arrivals, path, (a: Arrival) => GoodHello(a), (a: Arrival) => GoodToken(h, a), (a: Arrival) =>
      GoodProof(h, now, a),
      (a: Arrival) => GoodForm(env, h, now, a))
  }

  function HostStage(path: Path): HostState {
    if path.fourth.Some? then Decided
    else if path.third.Some? then AwaitingJoinForm
    else if path.second.Some? then AwaitingProof
    else if path.first.Some? then AwaitingToken
    else AwaitingHello
  }

  // What one arrival does to a host that was once fresh.
  lemma ArrivalAnswers(env: Env, h: Host, was: Host, a: Arrival)
    requires was == h.(state := was.state, clientNonce := was.clientNonce, challenge := was.challenge,
      token := was.token)
    requires was.state != Decided ==> was.token == h.token
    requires was.state == AwaitingProof || was.state == AwaitingJoinForm ==>
      was.clientNonce.Some? && was.challenge.Some?
    ensures HostStep(env, was, a).0 == (
      if was.state == AwaitingHello && GoodHello(a) then was.(state := AwaitingToken, clientNonce := Some(a.nonce))
      else if was.state == AwaitingToken &&
        GoodToken(h, a) then was.(state := AwaitingProof, challenge := Some(a.challenge))
      else if was.state == AwaitingProof && GoodProof(h, was, a) then was.(state := AwaitingJoinForm)
      else if was.state == AwaitingJoinForm && GoodForm(env, h, was, a) then was.(state := Decided, token := [])
      else was)
  {
    hide TextOf, JoinText;
  }

  // The nonces that proofs and forms are held against do not change after they were sent.
  lemma StepsKeep(env: Env, h: Host, was: Host, now: Host, arrivals: seq<Arrival>, path: Path)
    requires HostSteps(env, h, was, arrivals, path)
    requires path.second.Some? && path.second.value + 1 < |arrivals| ==>
      now.clientNonce == was.clientNonce && now.challenge == was.challenge
    ensures HostSteps(env, h, now, arrivals, path)
  {
    hide GoodHello, GoodToken, JoinText;
  }

  // Over any arrivals a fresh host is exactly as far as these steps have taken it, and it hands an
  // application to the room exactly at the fourth.
  lemma {:induction false} HostExactly(env: Env, h: Host, arrivals: seq<Arrival>) returns (path: Path)
    requires h.state == AwaitingHello
    ensures HostIs(env, h, HostAfter(env, h, arrivals), arrivals, path)
    decreases |arrivals|
  {
    hide TextOf, JoinText, HostStep, GoodHello, GoodToken, GoodProof, GoodForm;
    if arrivals == [] { path := Path(None, None, None, None); }
    else {
      var before := arrivals[..|arrivals| - 1];
      var last := arrivals[|arrivals| - 1];
      var sofar := HostExactly(env, h, before);
      var was := HostAfter(env, h, before);
      var now := HostAfter(env, h, arrivals);
      ArrivalAnswers(env, h, was, last);
      StepsSnoc(arrivals, sofar, (a: Arrival) => GoodHello(a), (a: Arrival) => GoodToken(h, a),
        (a: Arrival) => GoodProof(h, was, a), (a: Arrival) => GoodForm(env, h, was, a));
      path := Extended(arrivals, sofar, (a: Arrival) => GoodHello(a), (a: Arrival) => GoodToken(h, a),
        (a: Arrival) => GoodProof(h, was, a), (a: Arrival) => GoodForm(env, h, was, a));
      StepsKeep(env, h, was, now, arrivals, path);
    }
  }

  // An arrival is refused exactly if it leaves the host as it was, and what the host answers at each
  // step: its hello signed for the client's values, the challenge it keeps, nothing, and the form.
  lemma {:induction false} HostReplies(env: Env, h: Host, arrivals: seq<Arrival>, a: Arrival)
    requires h.state == AwaitingHello
    ensures var was := HostAfter(env, h, arrivals);
      var (now, reply) := HostStep(env, was, a);
      && (reply.Err? <==> now == was)
      && (reply.Ok? ==>
        match was.state
        case AwaitingHello =>
          a.Hello? && reply.value ==
            Send(HostHelloMsg(1, h.session, h.ed25519, h.x25519, h.serverNonce, Signed(h.ed25519,
            TextOf(OfHostHello(HelloOf(env, h.onion, a.port, h.session, h.ed25519, h.x25519, a.nonce, h.serverNonce,
              h.token,
              a.version, a.features))))))
        case AwaitingToken => a.Arrived? &&
          reply.value == Send(PasswordChallenge(Cost(19456, 2, 1), h.salt, a.challenge))
        case AwaitingProof => reply.value == Nothing
        case AwaitingJoinForm => a.Arrived? && a.message.JoinRequest? && reply.value == JoinRequested(a.message.form)
        case Decided => false)
  {
    hide TextOf, JoinText;
    var path := HostExactly(env, h, arrivals);
  }
}
