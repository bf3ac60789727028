// What an envelope does to the room, told by the envelope alone: who is heard, what is passed on,
// and which payload changes what.
module Speech {
  import opened Wrappers
  import opened RoomTypes
  import opened Members
  import opened Registry
  import opened Replay
  import opened RateLimit
  import opened Actor
  import opened ActorInvariants
  import opened ActorMoves
  import opened MemberViews
  import opened Flooding
  import opened Departures
  import opened Commands
  import Bytes
  import Cbor
  import ChatCrypto
  import Session

  // ---- payloads -----------------------------------------------------------------------------------

  // A room timeout as its payload spells it: a flag and eight bytes.
  function TimeoutBytes(setting: Option<nat>): seq<Bytes.byte> {
    match setting
    case None => [0, 0, 0, 0, 0, 0, 0, 0, 0]
    case Some(seconds) => [1] + Bytes.ToBigEndian(seconds, 8)
  }

  predicate SettingOk(setting: Option<nat>) { setting.Some? ==> 1 <= setting.value <= 3600 }

  lemma {:induction false} TimeoutPayloadExactly(p: Plaintext, setting: Option<nat>)
    ensures Session.TimeoutPayload(p) == Ok(setting) <==> SettingOk(setting) && p.data == TimeoutBytes(setting)
  {
    hide Bytes.ToBigEndian, Bytes.FromBigEndian;
    if |p.data| == 9 {
      Bytes.ToFromBigEndian(p.data[1..]);
      assert p.data == [p.data[0]] + p.data[1..];
    }
    if setting.Some? && SettingOk(setting) {
      SecondsFit(setting.value);
      assert TimeoutBytes(setting)[1..] == Bytes.ToBigEndian(setting.value, 8);
    }
  }

  lemma SecondsFit(seconds: nat)
    requires seconds <= MAX_TIMEOUT_SECONDS
    ensures |Bytes.ToBigEndian(seconds, 8)| == 8 && Bytes.FromBigEndian(Bytes.ToBigEndian(seconds, 8)) == seconds
  {
    hide Bytes.ToBigEndian, Bytes.FromBigEndian;
    Cbor.Widths();
    Bytes.FromToBigEndian(seconds, 8);
  }

  // The seven colours have the indices 0 to 6, one each.
  lemma ColorsExactly(index: nat, color: Color)
    ensures ColorFromIndex(index) == Some(color) <==> color.Index() == index
    ensures color.Index() < 7 && DEFAULT_COLOR == White
  {
  }

  // Text, colours and requests for a timeout are limited; what the host sets is not.
  lemma KindsExactly(kind: nat)
    ensures RateLimited(kind) <==> kind == 0x40 || kind == 0x41 || kind == 0x42
    ensures kind == MSG_TIMEOUT_CHANGED <==> kind == 0x43
  {
  }

  // ---- who is heard ---------------------------------------------------------------------------------

  // A member sealed `p` in the envelope, under the key of the epoch and a sequence it has not used,
  // and sent it on its own connection; it has acknowledged the epoch and has a token left.
  ghost predicate Heard(r: Room, event: Event, now: Time, p: Plaintext)
    requires r.nextKey >= 1
  {
    && event.ChatReceived? && (RateLimited(event.kind) || event.kind == MSG_TIMEOUT_CHANGED)
    && var e := event.envelope;
      && e.epoch == r.epoch && Fresh(r.replay, e.sender, r.epoch, e.sequence)
      && (RateLimited(event.kind) ==> Allow(BucketOf(r, e.sender), now).1)
      && r.phase != Destroyed && (r.pending.Some? ==> e.sender !in r.pending.value.awaiting)
      && exists m :: Sealer(r, event, m, p)
  }

  predicate Sealer(r: Room, event: Event, m: Member, p: Plaintext)
    requires r.nextKey >= 1 && event.ChatReceived?
  {
    var e := event.envelope;
    && m in r.table.members && m.connection == event.connection && m.id == e.sender
    && e.sealed == ChatCrypto.Seal(CurrentKey(r), m.ed25519, Context(r.epoch, m.id, e.sequence, event.kind), p)
  }

  // Everybody gets the envelope as it came, except whoever sent it.
  ghost predicate PassedOn(r: Room, event: Event, reply: Reply)
    requires event.ChatReceived?
  {
    && reply.Ok?
    && (forall m :: m in r.table.members ==>
      (SendTo(m.connection, Relayed(event.kind, event.envelope)) in reply.value <==> m.connection != event.connection))
    && forall a :: a in reply.value ==> a.SendTo? && a.message == Relayed(event.kind, event.envelope)
  }

  // The room after an envelope was heard, apart from what its payload asks for.
  function Noted(r: Room, event: Event, now: Time): Room
    requires event.ChatReceived?
  {
    var e := event.envelope;
    r.(now := now, replay := r.replay[(e.sender, e.epoch) := e.sequence],
       limits := if RateLimited(event.kind) then r.limits[e.sender := Allow(BucketOf(r, e.sender), now).0]
         else r.limits)
  }

  predicate TextOk(event: Event, p: Plaintext) { event.ChatReceived? && event.kind == MSG_CHAT && p.isText }

  predicate ColorOk(event: Event, p: Plaintext, color: Color) {
    event.ChatReceived? && event.kind == MSG_COLOR && p.data == [color.Index()]
  }

  predicate SettingSent(event: Event, p: Plaintext, setting: Option<nat>) {
    && event.ChatReceived? && event.kind == MSG_TIMEOUT_CHANGED && event.envelope.sender == HOST_ID
    && SettingOk(setting) && p.data == TimeoutBytes(setting)
  }

  predicate TimeoutAsked(r: Room, event: Event, p: Plaintext, seconds: nat) {
    && event.ChatReceived? && event.kind == MSG_TIMEOUT_REQUEST && event.envelope.sender != HOST_ID
    && 1 <= seconds <= 3600 && p.data == Bytes.ToBigEndian(seconds, 8)
    && |r.queue.requests| + |r.timeouts| < r.queue.limit
  }

  predicate AskedBy(r: Room, event: Event, m: Member, seconds: nat, r': Room, base: Room)
    requires event.ChatReceived?
  {
    r' == base.(queue := r.queue.(nextId := r.queue.nextId + 1),
      timeouts := r.timeouts + [TimeoutRequest(r.queue.nextId, event.connection, m.id, m.nickname, seconds)])
  }

  // What the payload of a heard envelope does: text, a colour and the host's setting are passed on,
  // the colour and the setting also take effect; a request for a timeout goes to the host alone;
  // anything else is refused.
  ghost predicate SpeechOutcome(r: Room, event: Event, now: Time, p: Plaintext, r': Room, reply: Reply)
    requires event.ChatReceived?
  {
    var base := Noted(r, event, now);
    && (TextOk(event, p) ==> PassedOn(r, event, reply) && r' == base)
    && (forall color :: ColorOk(event, p, color) ==>
      && PassedOn(r, event, reply) && r' == base.(table := r.table.(members := r'.table.members))
      && Repainted(r.table.members, r'.table.members, event.envelope.sender, color))
    && (forall setting :: SettingSent(event, p, setting) ==>
      PassedOn(r, event, reply) && r' == base.(roomTimeout := setting))
    && (forall seconds, m ::
      TimeoutAsked(r, event, p, seconds) && m in r.table.members && m.id == event.envelope.sender ==>
      && AskedBy(r, event, m, seconds, r', base)
      && reply == Ok([Notify(TimeoutRequestPending(r.queue.nextId, m.id, m.nickname, seconds))]))
    && (!TextOk(event, p) && !Meant(r, event, p) ==> r' == base && reply.Err?)
  }

  ghost predicate Meant(r: Room, event: Event, p: Plaintext) {
    || (exists color :: ColorOk(event, p, color))
    || (exists setting :: SettingSent(event, p, setting))
    || (exists seconds :: TimeoutAsked(r, event, p, seconds))
  }

  // ---- the handlers -----------------------------------------------------------------------------------

  lemma SendAllToOthers(r: Room, event: Event, reply: Reply)
    requires event.ChatReceived? && AllApart(r.table.members)
    requires reply == Ok(SendAll(r.table.members, TheConnection(event.connection), Relayed(event.kind, event.envelope)))
    ensures PassedOn(r, event, reply)
  {
    hide SendAll;
    var message := Relayed(event.kind, event.envelope);
    var skip := TheConnection(event.connection);
    forall m | m in r.table.members ensures SendTo(m.connection, message) in reply.value <==>
      m.connection != event.connection {
      if m.connection != event.connection { SendAllReaches(r.table.members, skip, message, m); }
      else { SendAllMisses(r.table.members, skip, message, m.connection); }
    }
    forall a | a in reply.value ensures a.SendTo? && a.message == message {
      var i :| 0 <= i < |reply.value| && reply.value[i] == a;
      SendAllOnly(r.table.members, skip, message, i);
    }
  }

  // Passing on reads the connections of the members only.
  lemma PassedOnAfter(r: Room, r': Room, event: Event, reply: Reply)
    requires event.ChatReceived? && AllApart(r'.table.members) && PassedOn(r', event, reply)
    requires |r'.table.members| == |r.table.members|
    requires forall i :: 0 <= i < |r.table.members| ==> r'.table.members[i].connection == r.table.members[i].connection
    ensures PassedOn(r, event, reply)
  {
    forall m | m in r.table.members
      ensures SendTo(m.connection, Relayed(event.kind, event.envelope)) in reply.value <==>
        m.connection != event.connection {
      var i :| 0 <= i < |r.table.members| && r.table.members[i] == m;
      assert r'.table.members[i] in r'.table.members;
    }
  }

  lemma RepaintedApart(before: seq<Member>, after: seq<Member>, id: MemberId, color: Color)
    requires AllApart(before) && Repainted(before, after, id, color)
    ensures AllApart(after) && forall i :: 0 <= i < |before| ==> after[i].connection == before[i].connection
  {
    assert forall i, j :: 0 <= i < j < |after| ==> Apart(before[i], before[j]);
  }

  lemma ColorHeard(r: Room, event: Event, p: Plaintext, color: Color)
    requires event.ChatReceived? && AllApart(r.table.members) && ColorOk(event, p, color)
    ensures var (r', reply) := RelayPlaintext(r, event.connection, event.kind, event.envelope, p);
      && PassedOn(r, event, reply) && r' == r.(table := r.table.(members := r'.table.members))
      && Repainted(r.table.members, r'.table.members, event.envelope.sender, color)
  {
    hide SendAll, Recolored, PassedOn, Repainted, AllApart;
    ColorsExactly(p.data[0], color);
    RecoloredRepaints(r, event.envelope.sender, color);
    var (r', reply) := RelayPlaintext(r, event.connection, event.kind, event.envelope, p);
    RepaintedApart(r.table.members, r'.table.members, event.envelope.sender, color);
    SendAllToOthers(r', event, reply);
    SamePeople(r.table.members, r'.table.members, event.envelope.sender, color);
    PassedOnAfter(r, r', event, reply);
  }

  lemma SamePeople(before: seq<Member>, after: seq<Member>, id: MemberId, color: Color)
    requires Repainted(before, after, id, color)
    ensures |after| == |before| && forall i :: 0 <= i < |before| ==> after[i].connection == before[i].connection
  {
  }

  lemma TextHeard(r: Room, event: Event, p: Plaintext)
    requires event.ChatReceived? && AllApart(r.table.members) && TextOk(event, p)
    ensures var (r', reply) := RelayPlaintext(r, event.connection, event.kind, event.envelope, p);
      PassedOn(r, event, reply) && r' == r
  {
    hide SendAll, PassedOn, AllApart;
    SendAllToOthers(r, event, RelayPlaintext(r, event.connection, event.kind, event.envelope, p).1);
  }

  lemma SettingHeard(r: Room, event: Event, p: Plaintext, setting: Option<nat>)
    requires event.ChatReceived? && AllApart(r.table.members) && SettingSent(event, p, setting)
    ensures var (r', reply) := RelayPlaintext(r, event.connection, event.kind, event.envelope, p);
      PassedOn(r, event, reply) && r' == r.(roomTimeout := setting)
  {
    hide SendAll, PassedOn, AllApart, TimeoutBytes, Session.TimeoutPayload;
    TimeoutPayloadExactly(p, setting);
    var (r', reply) := RelayPlaintext(r, event.connection, event.kind, event.envelope, p);
    SendAllToOthers(r', event, reply);
    SameTablePassedOn(r, r', event, reply);
  }

  lemma SameTablePassedOn(r: Room, r': Room, event: Event, reply: Reply)
    requires event.ChatReceived? && PassedOn(r', event, reply) && r'.table == r.table
    ensures PassedOn(r, event, reply)
  {
  }

  lemma AskHeard(r: Room, event: Event, p: Plaintext, seconds: nat, m: Member)
    requires event.ChatReceived? && AllApart(r.table.members) && TimeoutAsked(r, event, p, seconds)
    requires m in r.table.members && m.id == event.envelope.sender
    ensures var (r', reply) := RelayPlaintext(r, event.connection, event.kind, event.envelope, p);
      && AskedBy(r, event, m, seconds, r', r)
      && reply == Ok([Notify(TimeoutRequestPending(r.queue.nextId, m.id, m.nickname, seconds))])
  {
    hide Bytes.ToBigEndian, Bytes.FromBigEndian;
    SecondsFit(seconds);
    var i := PositionOfId(r.table.members, m.id);
    var k :| 0 <= k < |r.table.members| && r.table.members[k] == m;
    SameIdSameMember(r.table.members, i.value, k);
  }

  lemma RefusedPayload(r: Room, event: Event, p: Plaintext)
    requires event.ChatReceived? && (RateLimited(event.kind) || event.kind == MSG_TIMEOUT_CHANGED)
    ensures var (r', reply) := RelayPlaintext(r, event.connection, event.kind, event.envelope, p);
      && (reply.Err? ==> r' == r)
      && (reply.Ok? ==> TextOk(event, p) || Meant(r, event, p))
  {
    hide Bytes.ToBigEndian, Bytes.FromBigEndian, Session.TimeoutPayload, TimeoutBytes, Recolored, SendAll;
    var e := event.envelope;
    if event.kind == MSG_COLOR && |p.data| == 1 && ColorFromIndex(p.data[0]).Some? {
      var color := ColorFromIndex(p.data[0]).value;
      ColorsExactly(p.data[0], color);
      assert ColorOk(event, p, color);
    } else if event.kind == MSG_TIMEOUT_CHANGED && e.sender == HOST_ID && Session.TimeoutPayload(p).Ok? {
      TimeoutPayloadExactly(p, Session.TimeoutPayload(p).value);
      assert SettingSent(event, p, Session.TimeoutPayload(p).value);
    } else if event.kind == MSG_TIMEOUT_REQUEST && AskForTimeout(r, event.connection, e, p).1.Ok? {
      Bytes.ToFromBigEndian(p.data);
      assert TimeoutAsked(r, event, p, Bytes.FromBigEndian(p.data));
    }
  }

  lemma Payloads(r: Room, event: Event, now: Time, p: Plaintext)
    requires event.ChatReceived? && (RateLimited(event.kind) || event.kind == MSG_TIMEOUT_CHANGED)
    requires AllApart(r.table.members)
    ensures var (r', reply) := RelayPlaintext(Noted(r, event, now), event.connection, event.kind, event.envelope, p);
      SpeechOutcome(r, event, now, p, r', reply)
  {
    hide RelayPlaintext, PassedOn, Repainted, AllApart, TimeoutBytes, AskedBy;
    var base := Noted(r, event, now);
    var (r', reply) := RelayPlaintext(base, event.connection, event.kind, event.envelope, p);
    RefusedPayload(base, event, p);
    SameMeaning(r, base, event, p);
    if TextOk(event, p) { TextHeard(base, event, p); SameTablePassedOn(r, base, event, reply); }
    forall color | ColorOk(event, p, color)
      ensures PassedOn(r, event, reply) && r' == base.(table := r.table.(members := r'.table.members))
      ensures Repainted(r.table.members, r'.table.members, event.envelope.sender, color) {
      ColorHeard(base, event, p, color);
      SameTablePassedOn(r, base, event, reply);
    }
    forall setting | SettingSent(event, p, setting)
      ensures PassedOn(r, event, reply) && r' == base.(roomTimeout := setting) {
      SettingHeard(base, event, p, setting);
      SameTablePassedOn(r, base, event, reply);
    }
    forall seconds, m | TimeoutAsked(r, event, p, seconds) && m in r.table.members && m.id == event.envelope.sender
      ensures AskedBy(r, event, m, seconds, r', base)
      ensures reply == Ok([Notify(TimeoutRequestPending(r.queue.nextId, m.id, m.nickname, seconds))]) {
      AskHeard(base, event, p, seconds, m);
      SameAsk(r, event, m, seconds, r', base);
    }
  }

  lemma SameAsk(r: Room, event: Event, m: Member, seconds: nat, r': Room, base: Room)
    requires event.ChatReceived? && base == Noted(r, event, base.now) && AskedBy(base, event, m, seconds, r', base)
    ensures AskedBy(r, event, m, seconds, r', base)
  {
  }

  lemma SameMeaning(r: Room, base: Room, event: Event, p: Plaintext)
    requires base.queue == r.queue && base.timeouts == r.timeouts
    ensures Meant(r, event, p) == Meant(base, event, p)
    ensures forall seconds :: TimeoutAsked(r, event, p, seconds) == TimeoutAsked(base, event, p, seconds)
  {
    hide TimeoutBytes;
    if Meant(r, event, p) && (exists seconds :: TimeoutAsked(r, event, p, seconds)) {
      var seconds :| TimeoutAsked(r, event, p, seconds);
      assert TimeoutAsked(base, event, p, seconds);
    }
    if Meant(base, event, p) && (exists seconds :: TimeoutAsked(base, event, p, seconds)) {
      var seconds :| TimeoutAsked(base, event, p, seconds);
      assert TimeoutAsked(r, event, p, seconds);
    }
  }

  // Chat reaches its handler unless it is too early.
  lemma ChatIsHandled(r: Room, event: Event, now: Time)
    requires RoomInv(r) && r.phase != Destroyed && event.ChatReceived?
    requires r.phase == EpochTransition ==> HasAckedPending(r, event.connection)
    ensures Handle(r, event, now) == OnChatReceived(r.(now := now), event.connection, event.kind, event.envelope)
  {
    hide RoomInv, OnChatReceived;
    SettledOrNot(r);
  }

  // The handlers hear whom they should.
  lemma HeardOpens(r: Room, event: Event, now: Time, p: Plaintext)
    requires RoomInv(r) && Heard(r, event, now, p)
    ensures Handle(r, event, now) ==
      RelayPlaintext(Noted(r, event, now), event.connection, event.kind, event.envelope, p)
  {
    hide RoomInv, ChatPlaintext, RelayPlaintext, Allow, HasAckedPending;
    SealerOpens(r, event, p);
    PendingOnlyInTransition(r);
    ChatIsHandled(r, event, now);
    SamePlaintext(r, Noted(r, event, now).(replay := r.replay), event);
    SamePlaintext(r, r.(now := now), event);
  }

  lemma SealerOpens(r: Room, event: Event, p: Plaintext)
    requires RoomInv(r) && r.phase != Destroyed && event.ChatReceived? && event.envelope.epoch == r.epoch
    requires exists m :: Sealer(r, event, m, p)
    ensures ChatPlaintext(r, event.kind, event.envelope) == Ok(p)
    ensures MemberOf(r.entries, event.connection) == Some(event.envelope.sender)
    ensures PositionOfId(r.table.members, event.envelope.sender).Some?
    ensures r.pending.Some? && event.envelope.sender !in r.pending.value.awaiting ==>
      HasAckedPending(r, event.connection)
  {
    hide TableInv, QueueInv, LimitsInv, MarksInv, EpochInv, ChatKey;
    var e := event.envelope;
    var m :| Sealer(r, event, m, p);
    var i :| 0 <= i < |r.table.members| && r.table.members[i] == m;
    FoundAtIndex(r.table, r.hostConnection, i);
    ChatKeyIsCurrent(r);
    ChatCrypto.OpensExactly(CurrentKey(r), m.ed25519, Context(r.epoch, m.id, e.sequence, event.kind), e.sealed, p);
  }

  // Any envelope, in any reachable room: it is heard exactly if some member could say it, and then
  // its payload decides.
  lemma {:induction false} HeardExactly(r: Room, event: Event, now: Time, p: Plaintext)
    requires RoomInv(r) && Heard(r, event, now, p)
    ensures var (r', reply) := Handle(r, event, now); SpeechOutcome(r, event, now, p, r', reply)
  {
    hide RoomInv, Handle, SpeechOutcome, RelayPlaintext, Sealer;
    RoomTableIsApart(r);
    HeardOpens(r, event, now, p);
    Payloads(r, event, now, p);
  }

  // ---- who is not heard ---------------------------------------------------------------------------------

  predicate Flooded(r: Room, event: Event, now: Time) {
    event.ChatReceived? && Charges(r, event, event.envelope.sender) && !Allow(BucketOf(r, event.envelope.sender), now).1
  }

  predicate TooEarly(r: Room, event: Event) {
    && event.ChatReceived? && r.phase == EpochTransition && r.pending.Some?
    && forall m :: m in r.table.members && m.connection == event.connection ==> m.id in r.pending.value.awaiting
  }

  // The members a connection stands for, as the registry and the table have it.
  lemma EarlyExactly(r: Room, event: Event)
    requires RoomInv(r) && r.phase == EpochTransition && event.ChatReceived?
    ensures TooEarly(r, event) <==> !HasAckedPending(r, event.connection)
  {
    hide QueueInv, LimitsInv, MarksInv;
    SpeakerId(r, event.connection);
    if MemberOf(r.entries, event.connection).Some? { var m :| Speaker(r, event.connection, m); }
  }

  lemma SealerIsFound(r: Room, event: Event, p: Plaintext)
    requires RoomInv(r) && r.phase != Destroyed && event.ChatReceived? && event.envelope.epoch == r.epoch
    requires MemberOf(r.entries, event.connection) == Some(event.envelope.sender)
    requires ChatPlaintext(r, event.kind, event.envelope) == Ok(p)
    ensures exists m :: Sealer(r, event, m, p)
  {
    hide TableInv, LinkInv, QueueInv, LimitsInv, MarksInv, EpochInv, ChatCrypto.Open;
    var e := event.envelope;
    SenderOf(r, event.connection, event.kind, e, p);
    var i :| 0 <= i < |r.table.members| &&
      Authored(r.table.members[i], event.connection, CurrentKey(r), event.kind, e, p);
    var m := r.table.members[i];
    ChatCrypto.OpensExactly(CurrentKey(r), m.ed25519, Context(e.epoch, e.sender, e.sequence, event.kind), e.sealed, p);
    assert Sealer(r, event, m, p);
  }

  lemma OpenUnheard(r: Room, at: Room, event: Event, now: Time)
    requires RoomInv(r) && r.phase != Destroyed && event.ChatReceived? && at == r.(now := at.now, limits := at.limits)
    requires MemberOf(r.entries, event.connection) == Some(event.envelope.sender)
    requires RateLimited(event.kind) || event.kind == MSG_TIMEOUT_CHANGED
    requires RateLimited(event.kind) ==> Allow(BucketOf(r, event.envelope.sender), now).1
    requires r.pending.Some? ==> event.envelope.sender !in r.pending.value.awaiting
    ensures r.nextKey >= 1
    ensures var (r', reply) := OpenAndRelay(at, event.connection, event.kind, event.envelope);
      (r' == at && reply.Err?) || exists p :: Heard(r, event, now, p)
  {
    hide RoomInv, ChatPlaintext, RelayPlaintext, Allow, Sealer;
    RoomKeyed(r);
    SamePlaintext(r, at, event);
    var e := event.envelope;
    var plain := ChatPlaintext(r, event.kind, e);
    if e.epoch == r.epoch && Fresh(r.replay, e.sender, r.epoch, e.sequence) && plain.Ok? {
      SealerIsFound(r, event, plain.value);
      assert Heard(r, event, now, plain.value);
    }
  }

  lemma SamePlaintext(r: Room, at: Room, event: Event)
    requires event.ChatReceived? && at == r.(now := at.now, limits := at.limits)
    ensures ChatPlaintext(at, event.kind, event.envelope) == ChatPlaintext(r, event.kind, event.envelope)
  {
  }

  // An envelope that nobody in the room could have sent like this, or that is too early, changes
  // nothing but the limiter of the member on its connection.
  lemma {:induction false} UnheardChangesNothing(r: Room, event: Event, now: Time)
    requires RoomInv(r) && r.phase != Destroyed && event.ChatReceived? && !Flooded(r, event, now)
    requires forall p :: !Heard(r, event, now, p)
    ensures var (r', reply) := Handle(r, event, now);
      && r' == r.(now := now, limits := r'.limits)
      && (forall id :: id != event.envelope.sender ==> (id in r'.limits <==> id in r.limits))
      && (forall id :: id in r.limits && id != event.envelope.sender ==> r'.limits[id] == r.limits[id])
      && (TooEarly(r, event) ==>
          reply == Ok([if event.connection == r.hostConnection then Notify(ErrorNotice)
            else SendTo(event.connection, ErrorMessage)]))
      && (!TooEarly(r, event) ==> reply.Err?)
  {
    hide RoomInv, OpenAndRelay, Allow, Heard;
    SettledOrNot(r);
    if r.phase == EpochTransition { EarlyExactly(r, event); }
    var at := r.(now := now);
    var e := event.envelope;
    if !TooEarly(r, event) { ChatIsHandled(r, event, now); hide Handle; }
    if !TooEarly(r, event) && MemberOf(r.entries, event.connection) == Some(e.sender) {
      var charged := at.(limits := r.limits[e.sender := Allow(BucketOf(r, e.sender), now).0]);
      PendingOnlyInTransition(r);
      if RateLimited(event.kind) && PositionOfId(r.table.members, e.sender).Some? {
        OpenUnheard(r, charged, event, now);
      }
      if event.kind == MSG_TIMEOUT_CHANGED { OpenUnheard(r, at, event, now); }
    }
  }

  lemma PendingOnlyInTransition(r: Room)
    requires RoomInv(r) && r.phase != Destroyed
    ensures r.pending.Some? <==> r.phase == EpochTransition
  {
  }

  function StrikesOf(r: Room, id: MemberId): nat { if id in r.limits then r.limits[id].violations else 0 }

  // Who speaks too fast is warned, and at the tenth time in a row a guest is kicked; the host
  // cannot be.
  lemma {:induction false} FloodedIsWarned(r: Room, event: Event, now: Time)
    requires RoomInv(r) && Flooded(r, event, now)
    ensures var id := event.envelope.sender;
      var c := event.connection;
      var (r', reply) := Handle(r, event, now);
      && (StrikesOf(r, id) + 1 < 10 || id == HOST_ID ==>
        r' == r.(now := now, limits := r'.limits) && StrikesOf(r', id) == StrikesOf(r, id) + 1)
      && (StrikesOf(r, id) + 1 < 10 ==> reply == Ok([SendTo(c, ErrorMessage), Notify(ErrorNotice)]))
      && (StrikesOf(r, id) + 1 >= 10 && id == HOST_ID ==> reply == Err(HostCannotLeave))
      && (StrikesOf(r, id) + 1 >= 10 && id != HOST_ID ==>
        && reply.Ok? && Removed(r, r', {id}) && Announced(r', {id}, true)
        && SendTo(c, ErrorMessage) in reply.value && CloseConnection(c) in reply.value)
  {
    hide RoomInv, Handle, RemoveMember, Removed, Announced, Allow, OverLimit;
    var id := event.envelope.sender;
    var bucket := Allow(BucketOf(r, id), now).0;
    var at := r.(now := now, limits := r.limits[id := bucket]);
    CountsOn(BucketOf(r, id), now);
    FloodIsHandled(r, event, now);
    ChargedKeeps(r, now, id, bucket);
    FloodAnswer(r, at, event.connection, id, bucket.violations >= 10);
  }

  lemma FloodIsHandled(r: Room, event: Event, now: Time)
    requires RoomInv(r) && Flooded(r, event, now)
    ensures var id := event.envelope.sender;
      var bucket := Allow(BucketOf(r, id), now).0;
      Handle(r, event, now) ==
      OverLimit(r.(now := now, limits := r.limits[id := bucket]), event.connection, id, bucket.violations >= 10)
  {
    hide RoomInv, Handle, Allow, OverLimit;
    ChatIsHandled(r, event, now);
  }

  lemma FloodAnswer(r: Room, at: Room, c: ConnectionId, id: MemberId, abusive: bool)
    requires RoomInv(r) && RoomInv(at) && at == r.(now := at.now, limits := at.limits) &&
      PositionOfId(r.table.members, id).Some?
    requires forall k :: k != id ==> (k in at.limits <==> k in r.limits)
    requires forall k :: k in r.limits && k != id ==> at.limits[k] == r.limits[k]
    ensures var (r', reply) := OverLimit(at, c, id, abusive);
      && (!abusive || id == HOST_ID ==> r' == at)
      && (!abusive ==> reply == Ok([SendTo(c, ErrorMessage), Notify(ErrorNotice)]))
      && (abusive && id == HOST_ID ==> reply == Err(HostCannotLeave))
      && (abusive && id != HOST_ID ==>
        && reply.Ok? && Removed(r, r', {id}) && Announced(r', {id}, true)
        && SendTo(c, ErrorMessage) in reply.value && CloseConnection(c) in reply.value)
  {
    hide RoomInv, Removed, Announced;
    if abusive && id != HOST_ID {
      var i := PositionOfId(r.table.members, id).value;
      HostIsZero(r, i);
      RemovalStrips(at, i, true);
      hide RemoveMember;
      FloodRemoved(r, at, RemoveMember(at, id, true).value.0, id);
      var warning := [SendTo(c, ErrorMessage), Notify(ErrorNotice)];
      assert warning[0] in warning;
    }
  }

  lemma CountsOn(b: Bucket, now: Time)
    ensures !Allow(b, now).1 ==> Allow(b, now).0.violations == b.violations + 1
    ensures Allow(b, now).1 ==> Allow(b, now).0.violations == 0
  {
  }

  lemma HostIsZero(r: Room, i: nat)
    requires RoomInv(r) && i < |r.table.members|
    ensures r.table.members[i].isHost <==> r.table.members[i].id == HOST_ID
  {
    hide LinkInv, QueueInv, LimitsInv, MarksInv, EpochInv;
    MemberZeroIsHost(r.table, r.hostConnection, i);
  }

  lemma ChargedKeeps(r: Room, now: Time, id: MemberId, bucket: Bucket)
    requires RoomInv(r) && PositionOfId(r.table.members, id).Some?
    ensures RoomInv(r.(now := now, limits := r.limits[id := bucket]))
  {
    hide RoomInv;
    RoomAt(r, now);
    LimitUpdateKeeps(r.(now := now), id, bucket);
  }

  lemma FloodRemoved(r: Room, at: Room, r': Room, id: MemberId)
    requires at == r.(now := at.now, limits := at.limits) && Removed(at, r', {id})
    requires forall k :: k != id ==> (k in at.limits <==> k in r.limits)
    requires forall k :: k in r.limits && k != id ==> at.limits[k] == r.limits[k]
    ensures Removed(r, r', {id})
  {
    hide IdSet;
  }
}
