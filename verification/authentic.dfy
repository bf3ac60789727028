// A member under any messages at all, the room's or not: what it accepts was made by whom it takes it
// from, for this epoch, and is new; what it refuses changes nothing.
module Authentic {
  import opened Wrappers
  import opened RoomTypes
  import opened Replay
  import opened Session
  import ChatCrypto

  // ---- whom it lists ---------------------------------------------------------------------------------

  predicate Unlike(a: MemberView, b: MemberView) {
    a.id != b.id && a.nickname != b.nickname && a.ed25519 != b.ed25519
  }

  // No two listed members share an id, a nickname or a key; nicknames are valid and the host is 0.
  predicate GoodList(views: seq<MemberView>) {
    && (forall i, j :: 0 <= i < j < |views| ==> Unlike(views[i], views[j]))
    && (forall i :: 0 <= i < |views| ==> views[i].nickname.valid && (views[i].isHost <==> views[i].id == HOST_ID))
  }

  lemma ListedOnce(views: seq<MemberView>, m: MemberView)
    requires GoodList(views) && m in views
    ensures PositionOfView(views, m.id).Some? && views[PositionOfView(views, m.id).value] == m
  {
    var k :| 0 <= k < |views| && views[k] == m;
    var p := PositionOfView(views, m.id);
    SameListed(views, p.value, k);
  }

  // ---- epoch wraps -------------------------------------------------------------------------------------

  // A wrap is installed exactly if it is for this member and newer than the epoch it is in; then only
  // the epoch changes, and no sequence of another epoch is remembered.
  lemma {:induction false} WrapExactly(s: Chat, m: Message)
    requires m.EpochWrap?
    ensures var r := SetEpochFromWrap(s, m);
      && (r.Ok? <==>
        m.recipient == s.memberId && m.recipientKey == s.ownKey &&
        (s.epoch.Some? ==> s.epoch.value.0 < m.epoch))
      && (r.Ok? ==>
        && r.value == s.(epoch := Some((m.epoch, m.key)), replay := r.value.replay)
        && forall k :: k in r.value.replay <==> k in s.replay && k.1 == m.epoch)
  {
  }

  // ---- envelopes ------------------------------------------------------------------------------------------

  // A payload of this kind that this sender may send.
  predicate Sayable(kind: nat, sender: MemberId, p: Plaintext) {
    || (kind == MSG_CHAT && p.isText)
    || (kind == MSG_COLOR && |p.data| == 1 && p.data[0] < 7)
    || (kind == MSG_TIMEOUT_CHANGED && sender == HOST_ID && TimeoutPayload(p).Ok?)
  }

  // A listed member sealed `p` in it for this epoch under a sequence that is new.
  predicate SealedBy(s: Chat, kind: nat, e: Envelope, m: MemberView, p: Plaintext) {
    && s.epoch.Some? && e.epoch == s.epoch.value.0 && m in s.members && m.id == e.sender
    && e.sealed == ChatCrypto.Seal(s.epoch.value.1, m.ed25519, Context(e.epoch, e.sender, e.sequence, kind), p)
    && Fresh(s.replay, e.sender, e.epoch, e.sequence)
  }

  ghost predicate Authentic(s: Chat, kind: nat, e: Envelope, p: Plaintext) {
    exists m :: SealedBy(s, kind, e, m, p)
  }

  predicate AuthorRepainted(before: seq<MemberView>, after: seq<MemberView>, id: MemberId, index: nat) {
    && |after| == |before|
    && forall i :: 0 <= i < |before| ==>
      if before[i].id == id then after[i] == before[i].(color := after[i].color) && after[i].color.Index() == index
      else after[i] == before[i]
  }

  lemma OpenExactly(s: Chat, kind: nat, e: Envelope, p: Plaintext)
    requires GoodList(s.members)
    ensures var (s', r) := OpenEnvelope(s, kind, e);
      && (r == Ok(p) <==> Authentic(s, kind, e, p))
      && (r.Ok? ==> s' == s.(replay := s.replay[(e.sender, e.epoch) := e.sequence]))
      && (r.Err? ==> s' == s)
  {
    hide GoodList, ChatCrypto.Open;
    var i := PositionOfView(s.members, e.sender);
    if s.epoch.Some? && i.Some? {
      var m := s.members[i.value];
      ChatCrypto.OpensExactly(s.epoch.value.1, m.ed25519, Context(s.epoch.value.0, e.sender, e.sequence, kind),
        e.sealed, p);
      if SealedBy(s, kind, e, m, p) { assert Authentic(s, kind, e, p); }
    }
    forall m | SealedBy(s, kind, e, m, p) ensures i.Some? && s.members[i.value] == m { ListedOnce(s.members, m); }
  }

  // An envelope is read exactly if a listed member sealed it like this and its payload is one that this
  // sender may send; then its sequence is remembered and a colour repaints its author and nobody else.
  // An envelope that does not open changes nothing.
  lemma {:induction false} EnvelopeExactly(s: Chat, kind: nat, e: Envelope, p: Plaintext)
    requires GoodList(s.members)
    ensures var (s', r) := ReceiveEnvelope(s, kind, e);
      && (r == Ok(p) <==> Authentic(s, kind, e, p) && Sayable(kind, e.sender, p))
      && (r.Ok? ==> s' == s.(replay := s.replay[(e.sender, e.epoch) := e.sequence], members := s'.members))
      && (r == Ok(p) && kind == MSG_COLOR ==> AuthorRepainted(s.members, s'.members, e.sender, p.data[0]))
      && (r.Ok? && kind != MSG_COLOR ==> s'.members == s.members)
      && (r.Err? ==> s' == s || s' == s.(replay := s.replay[(e.sender, e.epoch) := e.sequence]))
  {
    hide Authentic, OpenEnvelope, TimeoutPayload;
    OpenExactly(s, kind, e, p);
    var (s1, found) := OpenEnvelope(s, kind, e);
    if found.Ok? {
      OpenExactly(s, kind, e, found.value);
      if kind == MSG_COLOR && ColorPayload(found.value).Ok? { Painted(s1, e.sender, ColorPayload(found.value).value); }
    }
  }

  lemma Painted(s: Chat, id: MemberId, color: Color)
    requires GoodList(s.members)
    ensures var s' := WithColor(s, id, color);
      s' == s.(members := s'.members) && AuthorRepainted(s.members, s'.members, id, color.Index())
  {
    forall i | 0 <= i < |s.members| && s.members[i].id == id ensures PositionOfView(s.members, id) == Some(i) {
      ListedOnce(s.members, s.members[i]);
      SameListed(s.members, PositionOfView(s.members, id).value, i);
    }
  }

  lemma SameListed(views: seq<MemberView>, i: nat, j: nat)
    requires GoodList(views) && i < |views| && j < |views| && views[i].id == views[j].id
    ensures i == j
  {
  }

  // ---- signed events -----------------------------------------------------------------------------------

  // The host signed it, for this epoch, under a sequence above all that were taken.
  predicate Genuine(s: Chat, m: Message)
    requires m.RoomEvent?
  {
    && m.signature == Signature(s.hostKey, m.sequence, m.epoch, m.body)
    && (s.epoch.Some? ==> m.epoch == s.epoch.value.0)
    && (s.lastRoomSequence.Some? ==> s.lastRoomSequence.value < m.sequence)
  }

  predicate UnlikeEntry(a: SnapshotMember, b: SnapshotMember) {
    a.id != b.id && a.nickname != b.nickname && a.ed25519 != b.ed25519
  }

  // At most 16 members, all different, with valid names and colours; the host is among them and so is
  // whoever reads it, and only member 0 is marked as the host.
  ghost predicate Plausible(ms: seq<SnapshotMember>, own: MemberId) {
    && |ms| <= 16
    && AllUnlike(ms)
    && (forall m :: m in ms ==> m.nickname.valid && m.color < 7 && (m.isHost <==> m.id == HOST_ID))
    && (exists m :: m in ms && m.id == HOST_ID)
    && (exists m :: m in ms && m.id == own)
  }

  predicate Unknown(s: Chat, id: MemberId, nickname: Nickname, key: PublicKey) {
    forall m :: m in s.members ==> m.id != id && m.nickname != nickname && m.ed25519 != key
  }

  ghost predicate BodyOk(s: Chat, body: EventBody) {
    match body
    case Joined(id, nickname, key) => nickname.valid && id != HOST_ID && Unknown(s, id, nickname, key)
    case Snapshot(ms) => Plausible(ms, s.memberId)
    case _ => true
  }

  predicate EntryTaken(view: MemberView, m: SnapshotMember) {
    && view.id == m.id && view.nickname == m.nickname && view.isHost == m.isHost && view.ed25519 == m.ed25519
    && view.color.Index() == m.color
  }

  // What an accepted event makes of the session: the list or the policy, and its sequence.
  ghost predicate EventTaken(s: Chat, m: Message, s': Chat)
    requires m.RoomEvent?
  {
    && s' == s.(lastRoomSequence := Some(m.sequence), members := s'.members, policyOpen := s'.policyOpen)
    && (m.body.PolicyChanged? ==> s'.members == s.members)
    && (s'.policyOpen == if m.body.PolicyChanged? then m.body.open else s.policyOpen)
    && match m.body
      case Joined(id, nickname, key) => s'.members == s.members + [MemberView(id, nickname, DEFAULT_COLOR, false, key)]
      case Left(id) => forall x :: x in s'.members <==> x in s.members && x.id != id
      case Kicked(id) => forall x :: x in s'.members <==> x in s.members && x.id != id
      case PolicyChanged(_) => true
      case Snapshot(ms) => |s'.members| == |ms| && forall i :: 0 <= i < |ms| ==> EntryTaken(s'.members[i], ms[i])
  }

  predicate AllUnlike(ms: seq<SnapshotMember>) { forall i, j :: 0 <= i < j < |ms| ==> UnlikeEntry(ms[i], ms[j]) }

  lemma NoDuplicatesExactly(ms: seq<SnapshotMember>)
    ensures AllUnlike(ms) <==> forall i :: 0 <= i < |ms| ==> !SnapshotDuplicate(ms, i)
  {
    if forall i :: 0 <= i < |ms| ==> !SnapshotDuplicate(ms, i) {
      forall i, j | 0 <= i < j < |ms| ensures UnlikeEntry(ms[i], ms[j]) { assert !SnapshotDuplicate(ms, j); }
    }
  }

  lemma HostsCounted(ms: seq<SnapshotMember>)
    requires AllUnlike(ms) && forall m :: m in ms ==> (m.isHost <==> m.id == HOST_ID)
    ensures HostCount(ms) == if HasHost(ms) then 1 else 0
    decreases |ms|
  {
    hide UnlikeEntry;
    if ms != [] {
      var before := ms[..|ms| - 1];
      var last := ms[|ms| - 1];
      assert ms == before + [last];
      assert forall k :: 0 <= k < |before| ==> before[k] == ms[k];
      HostsCounted(before);
      if HasHost(before) { OneHost(ms); }
    }
  }

  predicate HasHost(ms: seq<SnapshotMember>) { exists i :: 0 <= i < |ms| && ms[i].id == HOST_ID }

  lemma OneHost(ms: seq<SnapshotMember>)
    requires AllUnlike(ms) && ms != [] && HasHost(ms[..|ms| - 1])
    ensures ms[|ms| - 1].id != HOST_ID && HasHost(ms)
  {
    var n := |ms| - 1;
    var k :| 0 <= k < n && ms[..n][k].id == HOST_ID;
    assert ms[k].id == HOST_ID && UnlikeEntry(ms[k], ms[n]);
  }

  lemma ColorsKnown(ms: seq<SnapshotMember>)
    ensures forall m :: m in ms ==> (ColorFromIndex(m.color).Some? <==> m.color < 7)
  {
  }

  // The validation of a snapshot, whose checks stop at the first that fails, accepts just these.
  lemma {:induction false} PlausibleExactly(ms: seq<SnapshotMember>, own: MemberId)
    ensures SnapshotOk(ms, own) <==> Plausible(ms, own)
  {
    hide HostCount, SnapshotDuplicate, UnlikeEntry, AllUnlike;
    NoDuplicatesExactly(ms);
    ColorsKnown(ms);
    if SnapshotOk(ms, own) {
      forall i | 0 <= i < |ms| ensures !SnapshotDuplicate(ms, i) { assert SnapshotEntryOk(ms, i); }
      forall m | m in ms ensures m.nickname.valid && m.color < 7 && (m.isHost <==> m.id == HOST_ID) {
        var i :| 0 <= i < |ms| && ms[i] == m;
        assert SnapshotEntryOk(ms, i);
      }
      HostsCounted(ms);
      var i :| 0 <= i < |ms| && ms[i].id == HOST_ID;
      assert ms[i] in ms;
      var k :| 0 <= k < |ms| && ms[k].id == own;
      assert ms[k] in ms;
    }
    if Plausible(ms, own) {
      HostsCounted(ms);
      var m :| m in ms && m.id == HOST_ID;
      var i :| 0 <= i < |ms| && ms[i] == m;
      forall i | 0 <= i < |ms| ensures SnapshotEntryOk(ms, i) { assert ms[i] in ms; }
    }
  }

  lemma {:induction false} WithoutIdExactly(views: seq<MemberView>, id: MemberId)
    ensures forall x :: x in WithoutId(views, id) <==> x in views && x.id != id
    decreases |views|
  {
    if views != [] {
      WithoutIdExactly(views[..|views| - 1], id);
      assert views == views[..|views| - 1] + [views[|views| - 1]];
    }
  }

  // A signed event is accepted exactly if it is genuine and its body is possible here; then it does what
  // it says, and otherwise nothing.
  lemma {:induction false} EventExactly(s: Chat, m: Message)
    requires m.RoomEvent?
    ensures var r := HandleRoomEvent(s, m);
      && (r.Ok? <==> Genuine(s, m) && BodyOk(s, m.body))
      && (r.Ok? ==> EventTaken(s, m, r.value))
  {
    hide SnapshotOk, SnapshotError, Plausible, WithoutId;
    match m.body
    case Joined(id, nickname, key) =>
    case Left(id) => WithoutIdExactly(s.members, id);
    case Kicked(id) => WithoutIdExactly(s.members, id);
    case PolicyChanged(open) =>
    case Snapshot(ms) =>
      PlausibleExactly(ms, s.memberId);
      if Plausible(ms, s.memberId) { SnapshotTaken(s, m, ms); }
  }

  lemma SnapshotTaken(s: Chat, m: Message, ms: seq<SnapshotMember>)
    requires m.RoomEvent? && m.body == Snapshot(ms) && Plausible(ms, s.memberId)
    ensures forall i :: 0 <= i < |ms| ==> EntryTaken(ViewOfSnapshot(ms[i]), ms[i])
  {
    forall i | 0 <= i < |ms| ensures EntryTaken(ViewOfSnapshot(ms[i]), ms[i]) { assert ms[i] in ms; }
  }

  // ---- any sequence of messages -------------------------------------------------------------------------

  function Reading(v: View, ms: seq<Message>): View
    decreases |ms|
  {
    if ms == [] then v else Receive(Reading(v, ms[..|ms| - 1]), ms[|ms| - 1])
  }

  predicate NoAdmission(ms: seq<Message>) { forall i :: 0 <= i < |ms| ==> !ms[i].JoinAccepted? }

  lemma EventKeepsList(s: Chat, m: Message)
    requires m.RoomEvent? && GoodList(s.members) && HandleRoomEvent(s, m).Ok?
    ensures GoodList(HandleRoomEvent(s, m).value.members)
  {
    hide HandleRoomEvent, Plausible, UnlikeEntry;
    EventExactly(s, m);
    var after := HandleRoomEvent(s, m).value.members;
    match m.body
    case Joined(id, nickname, key) => assert forall i :: 0 <= i < |s.members| ==> s.members[i] in s.members;
    case Left(id) => WithoutKeepsList(s.members, id); SameWithout(s, m, id);
    case Kicked(id) => WithoutKeepsList(s.members, id); SameWithout(s, m, id);
    case PolicyChanged(_) =>
    case Snapshot(ms) => SnapshotKeepsList(s, m, ms, after);
  }

  lemma SameWithout(s: Chat, m: Message, id: MemberId)
    requires m.RoomEvent? && (m.body == Left(id) || m.body == Kicked(id)) && HandleRoomEvent(s, m).Ok?
    ensures HandleRoomEvent(s, m).value.members == WithoutId(s.members, id)
  {
  }

  lemma {:induction false} WithoutKeepsList(views: seq<MemberView>, id: MemberId)
    requires GoodList(views)
    ensures GoodList(WithoutId(views, id))
    decreases |views|
  {
    if views != [] {
      var before := views[..|views| - 1];
      WithoutKeepsList(before, id);
      WithoutIdExactly(before, id);
      var kept := WithoutId(before, id);
      forall i | 0 <= i < |kept| ensures Unlike(kept[i], views[|views| - 1]) {
        assert kept[i] in before;
        var k :| 0 <= k < |before| && before[k] == kept[i];
        assert views[k] == kept[i];
      }
    }
  }

  lemma SnapshotKeepsList(s: Chat, m: Message, ms: seq<SnapshotMember>, after: seq<MemberView>)
    requires Plausible(ms, s.memberId) && |after| == |ms| && forall i :: 0 <= i < |ms| ==> EntryTaken(after[i], ms[i])
    ensures GoodList(after)
  {
    forall i, j | 0 <= i < j < |after| ensures Unlike(after[i], after[j]) { assert UnlikeEntry(ms[i], ms[j]); }
    forall i | 0 <= i < |after| ensures after[i].nickname.valid && (after[i].isHost <==> after[i].id == HOST_ID) {
      assert ms[i] in ms;
    }
  }

  predicate GoodView(v: View) { v.chat.Some? ==> GoodList(v.chat.value.members) }

  lemma ReceiveKeepsList(v: View, m: Message)
    requires GoodView(v)
    ensures GoodView(Receive(v, m))
  {
    hide GoodList, HandleRoomEvent, ReceiveEnvelope;
    NobodyListed();
    if v.chat.Some? && m.RoomEvent? && HandleRoomEvent(v.chat.value, m).Ok? { EventKeepsList(v.chat.value, m); }
    if v.chat.Some? && m.Relayed? { EnvelopeKeepsList(v.chat.value, m.kind, m.envelope); }
  }

  lemma NobodyListed()
    ensures GoodList([])
  {
  }

  lemma EnvelopeKeepsList(s: Chat, kind: nat, e: Envelope)
    requires GoodList(s.members)
    ensures GoodList(ReceiveEnvelope(s, kind, e).0.members)
  {
    hide ReceiveEnvelope, Authentic, TimeoutPayload;
    var (s', r) := ReceiveEnvelope(s, kind, e);
    if r.Ok? {
      EnvelopeExactly(s, kind, e, r.value);
      if kind == MSG_COLOR { RepaintedIsGood(s.members, s'.members, e.sender, r.value.data[0]); }
    } else { EnvelopeExactly(s, kind, e, Plaintext([], false)); }
  }

  lemma RepaintedIsGood(before: seq<MemberView>, after: seq<MemberView>, id: MemberId, index: nat)
    requires GoodList(before) && AuthorRepainted(before, after, id, index)
    ensures GoodList(after)
  {
    assert forall i :: 0 <= i < |before| ==> after[i] == before[i].(color := after[i].color);
    forall i, j | 0 <= i < j < |after| ensures Unlike(after[i], after[j]) { assert Unlike(before[i], before[j]); }
  }

  // Whatever arrives, no two listed members ever share an id, a nickname or a key.
  lemma {:induction false} ListStaysGood(v: View, ms: seq<Message>)
    requires GoodView(v)
    ensures GoodView(Reading(v, ms))
    decreases |ms|
  {
    hide Receive, GoodView;
    if ms != [] {
      ListStaysGood(v, ms[..|ms| - 1]);
      ReceiveKeepsList(Reading(v, ms[..|ms| - 1]), ms[|ms| - 1]);
    }
  }

  // The session has taken envelope (sender, epoch, sequence): it is past that epoch, or remembers a
  // sequence at least as large.
  predicate Past(s: Chat, sender: MemberId, epoch: nat, sequence: nat) {
    && s.epoch.Some? && epoch <= s.epoch.value.0
    && (epoch == s.epoch.value.0 ==> (sender, epoch) in s.replay && sequence <= s.replay[(sender, epoch)])
  }

  lemma ReceiveStaysPast(v: View, m: Message, sender: MemberId, epoch: nat, sequence: nat)
    requires GoodView(v) && v.chat.Some? && Past(v.chat.value, sender, epoch, sequence) && !m.JoinAccepted?
    ensures var v' := Receive(v, m); v'.chat.Some? && Past(v'.chat.value, sender, epoch, sequence)
  {
    hide GoodList, HandleRoomEvent, ReceiveEnvelope, SetEpochFromWrap, Authentic, TimeoutPayload;
    var s := v.chat.value;
    if m.EpochWrap? && SetEpochFromWrap(s, m).Ok? { WrapExactly(s, m); WrapPast(s, m, sender, epoch, sequence); }
    if m.RoomEvent? { EventExactly(s, m); }
    if m.Relayed? {
      var r := ReceiveEnvelope(s, m.kind, m.envelope).1;
      EnvelopeExactly(s, m.kind, m.envelope, if r.Ok? then r.value else Plaintext([], false));
      TakenIsFresh(s, m.kind, m.envelope);
    }
  }

  lemma WrapPast(s: Chat, m: Message, sender: MemberId, epoch: nat, sequence: nat)
    requires m.EpochWrap? && Past(s, sender, epoch, sequence) && SetEpochFromWrap(s, m).Ok?
    ensures Past(SetEpochFromWrap(s, m).value, sender, epoch, sequence)
  {
  }

  // What is remembered of an envelope was new.
  lemma TakenIsFresh(s: Chat, kind: nat, e: Envelope)
    ensures ReceiveEnvelope(s, kind, e).0.replay != s.replay ==> Fresh(s.replay, e.sender, e.epoch, e.sequence)
  {
  }

  lemma {:induction false} ReadingStaysPast(v: View, ms: seq<Message>, sender: MemberId, epoch: nat, sequence: nat)
    requires GoodView(v) && v.chat.Some? && Past(v.chat.value, sender, epoch, sequence) && NoAdmission(ms)
    ensures var v' := Reading(v, ms); v'.chat.Some? && Past(v'.chat.value, sender, epoch, sequence)
    decreases |ms|
  {
    hide Receive, GoodView, Past;
    if ms != [] {
      var before := ms[..|ms| - 1];
      ReadingStaysPast(v, before, sender, epoch, sequence);
      ListStaysGood(v, before);
      ReceiveStaysPast(Reading(v, before), ms[|ms| - 1], sender, epoch, sequence);
    }
  }

  // The envelope is opened by this session: it reads something in it.
  predicate Reads(v: View, m: Message) {
    v.chat.Some? && m.Relayed? && ReceiveEnvelope(v.chat.value, m.kind, m.envelope).1.Ok?
  }

  // However messages are repeated, reordered or made up, what a session reads of one sender is strictly
  // increasing in epoch and then in sequence: nothing is read twice, and nothing of an earlier epoch.
  lemma {:induction false} ReadOnce(v: View, m: Message, between: seq<Message>, later: Message)
    requires GoodView(v) && NoAdmission(between) && Reads(v, m) && Reads(Reading(Receive(v, m), between), later)
    requires later.envelope.sender == m.envelope.sender
    ensures m.envelope.epoch < later.envelope.epoch ||
      (m.envelope.epoch == later.envelope.epoch && m.envelope.sequence < later.envelope.sequence)
  {
    hide GoodList, Receive, Reading, ReceiveEnvelope, Authentic, TimeoutPayload;
    var s := v.chat.value;
    var e := m.envelope;
    ReceiveKeepsList(v, m);
    NowPast(v, m);
    ReadingStaysPast(Receive(v, m), between, e.sender, e.epoch, e.sequence);
    ListStaysGood(Receive(v, m), between);
    var now := Reading(Receive(v, m), between).chat.value;
    var r := ReceiveEnvelope(now, later.kind, later.envelope).1;
    EnvelopeExactly(now, later.kind, later.envelope, r.value);
    AuthenticIsNew(now, later.kind, later.envelope, r.value);
  }

  lemma AuthenticIsNew(s: Chat, kind: nat, e: Envelope, p: Plaintext)
    requires Authentic(s, kind, e, p)
    ensures s.epoch.Some? && e.epoch == s.epoch.value.0 && Fresh(s.replay, e.sender, e.epoch, e.sequence)
  {
  }

  lemma NowPast(v: View, m: Message)
    requires GoodView(v) && Reads(v, m)
    ensures Receive(v, m).chat.Some? &&
      Past(Receive(v, m).chat.value, m.envelope.sender, m.envelope.epoch, m.envelope.sequence)
  {
    hide GoodList, ReceiveEnvelope, Authentic, TimeoutPayload;
    var r := ReceiveEnvelope(v.chat.value, m.kind, m.envelope).1;
    EnvelopeExactly(v.chat.value, m.kind, m.envelope, r.value);
    AuthenticIsNew(v.chat.value, m.kind, m.envelope, r.value);
  }

  // A session that was just admitted knows nobody and no epoch and takes the room to be open; what it
  // seals first, once it has a key, has sequence 1.
  lemma {:induction false} JustAdmitted(v: View, id: MemberId, wrap: Message, signer: PublicKey, kind: nat,
    p: Plaintext)
    requires wrap.EpochWrap? && wrap.recipient == id && wrap.recipientKey == v.ownKey
    ensures var admitted := Receive(v, JoinAccepted(id));
      var s := Receive(admitted, wrap).chat;
      && admitted.chat.Some? && admitted.chat.value.members == [] && admitted.chat.value.epoch == None
      && admitted.chat.value.lastRoomSequence == None && admitted.chat.value.policyOpen
      && admitted.chat.value.memberId == id && admitted.chat.value.hostKey == v.hostKey
      && s.Some? && SealNext(s.value, signer, kind, p).Ok?
      && SealNext(s.value, signer, kind, p).value.1 == Envelope(wrap.epoch, id, 1,
        ChatCrypto.Seal(wrap.key, signer, Context(wrap.epoch, id, 1, kind), p))
  {
  }
}
