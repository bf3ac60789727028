// The bounded table of active members (src/room/member.rs).
module Members {
  import opened Wrappers
  import opened RoomTypes

  datatype MemberError = Full | NicknameTaken | ConnectionTaken | IdentityTaken

  datatype Table = Table(limit: nat, nextId: MemberId, members: seq<Member>)

  // ---- lookups: the first match, as `iter().position` finds it -------------

  function PositionOfId(members: seq<Member>, id: MemberId): (p: Option<nat>)
    ensures p.Some? ==> p.value < |members| && members[p.value].id == id
    ensures p.None? ==> forall i :: 0 <= i < |members| ==> members[i].id != id
  {
    if members == [] then None else
      match PositionOfId(members[..|members| - 1], id)
      case Some(i) => Some(i)
      case None => if members[|members| - 1].id == id then Some(|members| - 1) else None
  }

  function PositionOfConnection(members: seq<Member>, c: ConnectionId): (p: Option<nat>)
    ensures p.Some? ==> p.value < |members| && members[p.value].connection == c
    ensures p.None? ==> forall i :: 0 <= i < |members| ==> members[i].connection != c
  {
    if members == [] then None else
      match PositionOfConnection(members[..|members| - 1], c)
      case Some(i) => Some(i)
      case None =>
        if members[|members| - 1].connection == c then Some(|members| - 1) else None
  }

  function PositionOfNickname(members: seq<Member>, nickname: Nickname): (p: Option<nat>)
    ensures p.Some? ==> p.value < |members| && members[p.value].nickname == nickname
    ensures p.None? ==> forall i :: 0 <= i < |members| ==> members[i].nickname != nickname
  {
    if members == [] then None else
      match PositionOfNickname(members[..|members| - 1], nickname)
      case Some(i) => Some(i)
      case None =>
        if members[|members| - 1].nickname == nickname then Some(|members| - 1) else None
  }

  predicate IdentityTakenBy(members: seq<Member>, ed25519: PublicKey, x25519: PublicKey) {
    exists i :: 0 <= i < |members| && (members[i].ed25519 == ed25519 || members[i].x25519 == x25519)
  }

  // ---- changes -------------------------------------------------------------

  function HostMember(c: ConnectionId, nickname: Nickname, ed25519: PublicKey, x25519: PublicKey): Member {
    Member(HOST_ID, c, nickname, DEFAULT_COLOR, true, ed25519, x25519, 1)
  }

  function AddMember(t: Table, c: ConnectionId, a: Application, epoch: nat): Result<(Table, Member), MemberError> {
    if |t.members| >= t.limit then Err(Full)
    else if PositionOfNickname(t.members, a.nickname).Some? then Err(NicknameTaken)
    else if PositionOfConnection(t.members, c).Some? then Err(ConnectionTaken)
    else if IdentityTakenBy(t.members, a.ed25519, a.x25519) then Err(IdentityTaken)
    else
      var m := Member(t.nextId, c, a.nickname, DEFAULT_COLOR, false, a.ed25519, a.x25519, epoch);
      Ok((t.(nextId := t.nextId + 1, members := t.members + [m]), m))
  }

  function Without(members: seq<Member>, i: nat): (rest: seq<Member>)
    requires i < |members|
    ensures |rest| == |members| - 1
  {
    members[..i] + members[i + 1..]
  }

  function SetColorAt(t: Table, i: nat, color: Color): Table
    requires i < |t.members|
  {
    t.(members := t.members[i := t.members[i].(color := color)])
  }

  function IdsOf(members: seq<Member>): seq<MemberId> {
    seq(|members|, i requires 0 <= i < |members| => members[i].id)
  }

  function IdSet(members: seq<Member>): set<MemberId> {
    set i | 0 <= i < |members| :: members[i].id
  }

  // ---- the table invariant ---------------------------------------------------

  // Two members in table order: the later one has the larger id, and they share nothing
  // that the table keeps unique.
  predicate Apart(a: Member, b: Member) {
    && a.id < b.id
    && a.connection != b.connection
    && a.nickname != b.nickname
    && a.ed25519 != b.ed25519
    && a.x25519 != b.x25519
  }

  predicate AllApart(members: seq<Member>) {
    forall i, j :: 0 <= i < j < |members| ==> Apart(members[i], members[j])
  }

  predicate TableInv(t: Table, host: ConnectionId) {
    && 1 <= |t.members| <= t.limit
    && t.members[0].id == HOST_ID
    && t.members[0].connection == host
    && AllApart(t.members)
    && (forall i :: 0 <= i < |t.members| ==> t.members[i].id < t.nextId)
    && (forall i :: 0 <= i < |t.members| ==> (t.members[i].isHost <==> i == 0))
    && (forall i :: 0 <= i < |t.members| ==> t.members[i].nickname.valid)
  }

  lemma {:induction false} AddKeepsTable(t: Table, host: ConnectionId, c: ConnectionId, a: Application, epoch: nat)
    requires TableInv(t, host) && a.nickname.valid
    ensures AddMember(t, c, a, epoch).Ok? ==> TableInv(AddMember(t, c, a, epoch).value.0, host)
  {
  }

  lemma {:induction false} RemoveKeepsTable(t: Table, host: ConnectionId, i: nat)
    requires TableInv(t, host) && 0 < i < |t.members|
    ensures TableInv(t.(members := Without(t.members, i)), host)
    ensures IdSet(Without(t.members, i)) == IdSet(t.members) - {t.members[i].id}
  {
    var rest := Without(t.members, i);
    assert forall k :: 0 <= k < |rest| ==> rest[k] == t.members[if k < i then k else k + 1];
    forall id | id in IdSet(t.members) && id != t.members[i].id ensures id in IdSet(rest) {
      var k :| 0 <= k < |t.members| && t.members[k].id == id;
      assert rest[if k < i then k else k - 1].id == id;
    }
  }

  lemma {:induction false} SetColorKeepsTable(t: Table, host: ConnectionId, i: nat, color: Color)
    requires TableInv(t, host) && i < |t.members|
    ensures TableInv(SetColorAt(t, i, color), host)
    ensures IdSet(SetColorAt(t, i, color).members) == IdSet(t.members)
  {
    var ms := SetColorAt(t, i, color).members;
    assert forall k :: 0 <= k < |ms| ==> ms[k].id == t.members[k].id;
  }

  // An id, a connection, a nickname or a key names at most one member.
  lemma SameIdSameMember(members: seq<Member>, i: nat, j: nat)
    requires AllApart(members) && i < |members| && j < |members|
    requires members[i].id == members[j].id || members[i].connection == members[j].connection
    ensures i == j
  {
  }

  // ---- the table as an object --------------------------------------------------

  class MemberTable {
    const limit: nat
    var nextId: MemberId
    var members: seq<Member>

    function State(): Table
      reads this
    {
      Table(limit, nextId, members)
    }

    constructor (limit: nat)
      ensures State() == Table(limit, 1, [])
    {
      this.limit := limit;
      nextId := 1;
      members := [];
    }

    method AddHost(c: ConnectionId, nickname: Nickname, ed25519: PublicKey, x25519: PublicKey) returns (m: Member)
      modifies this
      ensures m == HostMember(c, nickname, ed25519, x25519)
      ensures State() == old(State()).(members := old(members) + [m])
    {
      m := HostMember(c, nickname, ed25519, x25519);
      members := members + [m];
    }

    // An application that is refused leaves the table as it was; an accepted one is the last
    // member, under an id nobody had before.
    method Add(c: ConnectionId, a: Application, epoch: nat) returns (r: Result<Member, MemberError>)
      modifies this
      ensures match AddMember(old(State()), c, a, epoch)
        case Ok((table, m)) => r == Ok(m) && State() == table
        case Err(error) => r == Err(error) && State() == old(State())
    {
      if |members| >= limit { return Err(Full); }
      if PositionOfNickname(members, a.nickname).Some? { return Err(NicknameTaken); }
      if PositionOfConnection(members, c).Some? { return Err(ConnectionTaken); }
      if IdentityTakenBy(members, a.ed25519, a.x25519) { return Err(IdentityTaken); }
      var m := Member(nextId, c, a.nickname, DEFAULT_COLOR, false, a.ed25519, a.x25519, epoch);
      nextId := nextId + 1;
      members := members + [m];
      return Ok(m);
    }

    method Remove(id: MemberId) returns (gone: Option<Member>)
      modifies this
      ensures match PositionOfId(old(members), id)
        case None => gone == None && State() == old(State())
        case Some(i) => gone == Some(old(members)[i]) && State() == old(State()).(members := Without(old(members), i))
    {
      match PositionOfId(members, id)
      case None => return None;
      case Some(i) =>
        gone := Some(members[i]);
        members := members[..i] + members[i + 1..];
    }

    method SetColor(id: MemberId, color: Color)
      modifies this
      ensures match PositionOfId(old(members), id)
        case None => State() == old(State())
        case Some(i) => State() == SetColorAt(old(State()), i, color)
    {
      var p := PositionOfId(members, id);
      if p.Some? { members := members[p.value := members[p.value].(color := color)]; }
    }
  }
}
