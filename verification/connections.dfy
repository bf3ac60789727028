// The registry of known connections and their room-level roles (src/room/connections.rs).
module Registry {
  import opened Wrappers
  import opened RoomTypes

  datatype Role = InAdmission | AwaitingDecision(request: RequestId) | ActiveMember(id: MemberId)

  datatype Entry = Entry(passwordVerified: bool, role: Role)

  type Entries = map<ConnectionId, Entry>

  function Registered(e: Entries, c: ConnectionId): Entries {
    if c in e then e else e[c := Entry(false, InAdmission)]
  }

  function PasswordMarked(e: Entries, c: ConnectionId): Entries {
    if c in e then e[c := e[c].(passwordVerified := true)] else e
  }

  function WithRole(e: Entries, c: ConnectionId, role: Role): Entries {
    if c in e then e[c := e[c].(role := role)] else e
  }

  function RequestOf(e: Entries, c: ConnectionId): Option<RequestId> {
    if c in e && e[c].role.AwaitingDecision? then Some(e[c].role.request) else None
  }

  function MemberOf(e: Entries, c: ConnectionId): Option<MemberId> {
    if c in e && e[c].role.ActiveMember? then Some(e[c].role.id) else None
  }

  function NonMembers(e: Entries): set<ConnectionId> {
    set c | c in e && !e[c].role.ActiveMember?
  }

  class Connections {
    var entries: Entries

    constructor ()
      ensures entries == map[]
    {
      entries := map[];
    }

    method Register(c: ConnectionId)
      modifies this
      ensures entries == Registered(old(entries), c)
    {
      if c !in entries { entries := entries[c := Entry(false, InAdmission)]; }
    }

    method MarkPasswordVerified(c: ConnectionId) returns (known: bool)
      modifies this
      ensures known == (c in old(entries)) && entries == PasswordMarked(old(entries), c)
    {
      known := c in entries;
      if known { entries := entries[c := entries[c].(passwordVerified := true)]; }
    }

    method AttachRequest(c: ConnectionId, request: RequestId) returns (known: bool)
      modifies this
      ensures known == (c in old(entries)) && entries == WithRole(old(entries), c, AwaitingDecision(request))
    {
      known := c in entries;
      if known { entries := entries[c := entries[c].(role := AwaitingDecision(request))]; }
    }

    method Promote(c: ConnectionId, id: MemberId) returns (known: bool)
      modifies this
      ensures known == (c in old(entries)) && entries == WithRole(old(entries), c, ActiveMember(id))
    {
      known := c in entries;
      if known { entries := entries[c := entries[c].(role := ActiveMember(id))]; }
    }

    method Remove(c: ConnectionId) returns (gone: Option<Entry>)
      modifies this
      ensures gone == (if c in old(entries) then Some(old(entries)[c]) else None) && entries == old(entries) - {c}
    {
      gone := if c in entries then Some(entries[c]) else None;
      entries := entries - {c};
    }

    // Forgets every connection that is not an active member and returns those it forgot.
    method RemoveNonMembers() returns (gone: set<ConnectionId>)
      modifies this
      ensures gone == NonMembers(old(entries)) && entries == old(entries) - gone
      ensures forall c :: c in entries <==> c in old(entries) && old(entries)[c].role.ActiveMember?
    {
      gone := NonMembers(entries);
      entries := entries - gone;
    }
  }
}
