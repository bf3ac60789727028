// Whom a member lists, told by history alone: who was admitted, who left, and which epochs were
// ever activated.
module Listed {
  import opened RoomTypes
  import opened Session
  import opened Views

  // Every member that ever was, the epoch each departure began, and the epochs that everybody
  // acknowledged. An epoch that is over and not activated was restarted.
  datatype Past = Past(admitted: map<MemberId, Member>, left: map<MemberId, nat>, activated: set<nat>) {
    function Joined(id: MemberId): nat
      requires id in admitted
    {
      admitted[id].joinedEpoch
    }
  }

  // ---- lists -----------------------------------------------------------------------------

  function ListedIds(views: seq<MemberView>): set<MemberId> {
    set i | 0 <= i < |views| :: views[i].id
  }

  predicate SortedIds(views: seq<MemberView>) {
    forall i, j :: 0 <= i < j < |views| ==> views[i].id < views[j].id
  }

  // Whoever is listed is listed as it was admitted, colours aside.
  predicate KnownCores(views: seq<MemberView>, admitted: map<MemberId, Member>) {
    forall i :: 0 <= i < |views| ==>
      views[i].id in admitted && CoreOfView(views[i]) == CoreOfMember(admitted[views[i].id])
  }

  predicate WellListed(views: seq<MemberView>, admitted: map<MemberId, Member>) {
    SortedIds(views) && KnownCores(views, admitted)
  }

  lemma SameCoresListed(a: seq<MemberView>, b: seq<MemberView>, admitted: map<MemberId, Member>)
    requires Cores(a) == Cores(b)
    ensures ListedIds(a) == ListedIds(b)
    ensures WellListed(a, admitted) <==> WellListed(b, admitted)
  {
    SameCores(a, b);
    assert forall i :: 0 <= i < |a| ==> CoreOfView(a[i]) == Cores(a)[i] == Cores(b)[i] == CoreOfView(b[i]);
  }

  lemma {:induction false} WithoutIdListed(views: seq<MemberView>, id: MemberId, admitted: map<MemberId, Member>)
    requires WellListed(views, admitted)
    ensures WellListed(WithoutId(views, id), admitted)
    ensures ListedIds(WithoutId(views, id)) == ListedIds(views) - {id}
    decreases |views|
  {
    hide KnownCores, SortedIds, ListedIds;
    if views == [] { NobodyListed(views); }
    else {
      var before := views[..|views| - 1];
      var last := views[|views| - 1];
      assert views == before + [last];
      SplitListed(before, last, admitted);
      WithoutIdListed(before, id, admitted);
      ListedSnoc(before, last);
      assert WithoutId(before, id) + [] == WithoutId(before, id);
      if last.id != id { AppendListed(WithoutId(before, id), last, admitted); }
    }
  }

  lemma NobodyListed(views: seq<MemberView>)
    requires views == []
    ensures ListedIds(views) == {}
  {
  }

  lemma SplitListed(views: seq<MemberView>, view: MemberView, admitted: map<MemberId, Member>)
    requires WellListed(views + [view], admitted)
    ensures WellListed(views, admitted)
    ensures view.id in admitted && CoreOfView(view) == CoreOfMember(admitted[view.id])
    ensures forall id :: id in ListedIds(views) ==> id < view.id
  {
    var all := views + [view];
    assert all[|views|] == view;
    assert forall i :: 0 <= i < |views| ==> all[i] == views[i];
  }

  lemma ListedSnoc(views: seq<MemberView>, view: MemberView)
    ensures ListedIds(views + [view]) == ListedIds(views) + {view.id}
  {
    assert (views + [view])[|views|] == view;
    assert forall i :: 0 <= i < |views| ==> (views + [view])[i] == views[i];
  }

  lemma AppendListed(views: seq<MemberView>, view: MemberView, admitted: map<MemberId, Member>)
    requires WellListed(views, admitted) && view.id in admitted
    requires CoreOfView(view) == CoreOfMember(admitted[view.id])
    requires forall id :: id in ListedIds(views) ==> id < view.id
    ensures WellListed(views + [view], admitted) && ListedIds(views + [view]) == ListedIds(views) + {view.id}
  {
    ListedSnoc(views, view);
    assert forall i :: 0 <= i < |views| ==> views[i].id in ListedIds(views);
  }

  // A list is determined by the ids on it.
  lemma {:induction false} SameIdsSameList(views: seq<MemberView>, members: seq<Member>, admitted: map<MemberId,
    Member>)
    requires WellListed(views, admitted)
    requires forall i, j :: 0 <= i < j < |members| ==> members[i].id < members[j].id
    requires forall i :: 0 <= i < |members| ==>
      members[i].id in admitted && CoreOfMember(admitted[members[i].id]) == CoreOfMember(members[i])
    requires forall id :: id in ListedIds(views) <==> exists i :: 0 <= i < |members| && members[i].id == id
    ensures Cores(views) == MemberCores(members)
    decreases |views|
  {
    hide SortedIds, KnownCores, ListedIds;
    assert forall i :: 0 <= i < |members| ==> members[i].id in ListedIds(views);
    if views == [] {
      NobodyListed(views);
      NobodyThere(members, ListedIds(views));
    } else {
      var views0 := views[..|views| - 1];
      var v := views[|views| - 1];
      assert views == views0 + [v];
      SplitListed(views0, v, admitted);
      ListedSnoc(views0, v);
      assert v.id in ListedIds(views);
      var members0 := members[..|members| - 1];
      var m := members[|members| - 1];
      assert members == members0 + [m];
      assert m.id in ListedIds(views);
      LastIsLargest(members, v.id);
      assert m.id == v.id;
      assert forall i :: 0 <= i < |members0| ==> members0[i] == members[i];
      forall id ensures id in ListedIds(views0) <==> exists i :: 0 <= i < |members0| && members0[i].id == id {
        if i :| 0 <= i < |members0| && members0[i].id == id { assert members[i].id == id; }
        if i :| 0 <= i < |members| && members[i].id == id && i != |members| - 1 { assert members0[i].id == id; }
      }
      SameIdsSameList(views0, members0, admitted);
      CoresSnoc(views0, v, members0, m);
    }
  }

  lemma NobodyThere(members: seq<Member>, ids: set<MemberId>)
    requires ids == {} && forall i :: 0 <= i < |members| ==> members[i].id in ids
    ensures members == []
  {
    if members != [] { FirstIsThere(members, ids); }
  }

  lemma FirstIsThere(members: seq<Member>, ids: set<MemberId>)
    requires members != [] && forall i :: 0 <= i < |members| ==> members[i].id in ids
    ensures members[0].id in ids
  {
  }

  lemma LastIsLargest(members: seq<Member>, id: MemberId)
    requires forall i, j :: 0 <= i < j < |members| ==> members[i].id < members[j].id
    requires exists i :: 0 <= i < |members| && members[i].id == id
    ensures members != [] && id <= members[|members| - 1].id
  {
  }

  lemma CoresSnoc(views: seq<MemberView>, v: MemberView, members: seq<Member>, m: Member)
    requires Cores(views) == MemberCores(members) && CoreOfView(v) == CoreOfMember(m)
    ensures Cores(views + [v]) == MemberCores(members + [m])
  {
    assert Cores(views + [v]) == Cores(views) + [CoreOfView(v)];
    assert MemberCores(members + [m]) == MemberCores(members) + [CoreOfMember(m)];
  }

  // ---- whom a member should list ------------------------------------------------------------

  // `x` has its own entry point: it is the host, or its admission's epoch was activated.
  predicate Good(p: Past, x: Member) { x.id == HOST_ID || x.joinedEpoch in p.activated }

  // Member `y` came onto the list of `x`, with its snapshot or by an announcement, and no
  // announcement took it off again.
  predicate Should(p: Past, x: Member, y: MemberId)
    requires y in p.admitted
  {
    && (if p.Joined(y) <= x.joinedEpoch then (y in p.left ==> x.joinedEpoch < p.left[y])
      else p.Joined(y) in p.activated)
    && !(y in p.left && p.left[y] in p.activated)
  }

  function Ideal(p: Past, x: Member): set<MemberId> { set y | y in p.admitted && Should(p, x, y) }

  // The members whose departure began the pending epoch.
  function Leaving(p: Past, epoch: nat, pending: bool): set<MemberId> {
    if pending then set z | z in p.left && p.left[z] == epoch else {}
  }

  predicate Newcomer(p: Past, epoch: nat, m: MemberId) {
    m in p.admitted && m != HOST_ID && p.Joined(m) == epoch
  }

  // The history of a room whose table holds the ids `table`.
  ghost predicate PastOk(p: Past, table: set<MemberId>, epoch: nat, pending: bool) {
    && epoch >= 1 && HOST_ID in table && HOST_ID in p.admitted && p.Joined(HOST_ID) == 1
    && (forall y :: y in p.admitted <==> y in table || y in p.left)
    && (forall y :: y in table ==> y !in p.left)
    && (forall y :: y in p.left ==> p.Joined(y) < p.left[y] <= epoch)
    && (forall y :: y in p.admitted && y != HOST_ID ==> 2 <= p.Joined(y) <= epoch)
    && (forall e :: e in p.activated ==> e <= epoch)
    && (pending <==> epoch !in p.activated)
    && (pending ==> forall m, z :: Newcomer(p, epoch, m) && z in p.left ==> p.left[z] != epoch)
    && (pending ==> forall m, n :: Newcomer(p, epoch, m) && Newcomer(p, epoch, n) ==> m == n)
  }

  predicate Twins(p: Past, y: MemberId, z: MemberId)
    requires y in p.admitted && z in p.admitted
  {
    p.admitted[y].nickname == p.admitted[z].nickname || p.admitted[y].ed25519 == p.admitted[z].ed25519
  }

  ghost predicate NoTwins(p: Past, table: set<MemberId>) {
    forall y, z :: y in table && z in table && y in p.admitted && z in p.admitted && y != z ==> !Twins(p, y, z)
  }

  // What holds of the ids `a` that member `x` lists: never more than the history says, and, as
  // long as it lists nobody who is gone, never less. Without a snapshot it never lists the host.
  predicate ListOk(p: Past, table: set<MemberId>, epoch: nat, pending: bool, x: Member, a: set<MemberId>) {
    && (forall y :: y in a ==> y in p.admitted)
    && (Good(p, x) ==> a <= Ideal(p, x) && (a <= table + Leaving(p, epoch, pending) ==> Ideal(p, x) <= a))
    && (!Good(p, x) ==> HOST_ID !in a)
  }

  predicate Clashes(p: Past, a: set<MemberId>, m: MemberId) {
    m in p.admitted && exists y :: y in a && y in p.admitted && (y == m || Twins(p, y, m))
  }

  // What the announcements of the current epoch make of the list: `b` is `a` after them.
  ghost predicate FlushOk(p: Past, table: set<MemberId>, epoch: nat, pending: bool, x: Member, a: set<MemberId>,
    b: set<MemberId>)
  {
    && (forall m :: pending && Newcomer(p, epoch, m) ==>
        if x.id == m then b == table else b == a + {m} || (b == a && Clashes(p, a, m)))
    && ((forall m :: !(pending && Newcomer(p, epoch, m))) ==> b == a - Leaving(p, epoch, pending))
  }

  // ---- activation --------------------------------------------------------------------------------

  function Activated(p: Past, epoch: nat): Past { p.(activated := p.activated + {epoch}) }

  lemma ActivatedPast(p: Past, table: set<MemberId>, epoch: nat)
    requires PastOk(p, table, epoch, true)
    ensures PastOk(Activated(p, epoch), table, epoch, false)
  {
  }

  // The newcomer takes over the whole table.
  lemma ActivatedNewcomer(p: Past, table: set<MemberId>, epoch: nat, x: Member)
    requires PastOk(p, table, epoch, true) && Newcomer(p, epoch, x.id) && x.joinedEpoch == epoch
    ensures ListOk(Activated(p, epoch), table, epoch, false, x, table)
  {
    var q := Activated(p, epoch);
    forall y | y in q.admitted ensures Should(q, x, y) <==> y in table {
      assert y == HOST_ID || q.Joined(y) <= epoch;
    }
  }

  // Everybody else learns about the newcomer.
  lemma ActivatedAdmission(p: Past, table: set<MemberId>, epoch: nat, x: Member, a: set<MemberId>, b: set<MemberId>,
    m: MemberId)
    requires PastOk(p, table, epoch, true) && NoTwins(p, table) && ListOk(p, table, epoch, true, x, a)
    requires Newcomer(p, epoch, m) && x.id != m && x.id in table && x.id in p.admitted &&
      p.Joined(x.id) == x.joinedEpoch
    requires b == a + {m} || (b == a && Clashes(p, a, m))
    ensures ListOk(Activated(p, epoch), table, epoch, false, x, b)
  {
    var q := Activated(p, epoch);
    assert x.id == HOST_ID || !Newcomer(p, epoch, x.id);
    assert x.joinedEpoch < epoch;
    assert Leaving(p, epoch, true) == {};
    assert m in table;
    if Good(p, x) {
      assert !Should(p, x, m);
      assert Ideal(q, x) == Ideal(p, x) + {m} by { IdealAdmission(p, table, epoch, x, m); }
      if a <= table { NoClash(p, table, a, m); }
    }
  }

  lemma NoClash(p: Past, table: set<MemberId>, a: set<MemberId>, m: MemberId)
    requires NoTwins(p, table) && a <= table && m in table && m !in a
    ensures !Clashes(p, a, m)
  {
  }

  lemma IdealAdmission(p: Past, table: set<MemberId>, epoch: nat, x: Member, m: MemberId)
    requires PastOk(p, table, epoch, true) && Newcomer(p, epoch, m) && x.joinedEpoch < epoch
    ensures Ideal(Activated(p, epoch), x) == Ideal(p, x) + {m}
  {
    var q := Activated(p, epoch);
    forall y | y in p.admitted ensures Should(q, x, y) <==> Should(p, x, y) || y == m {
      if y != m { assert y == HOST_ID || !Newcomer(p, epoch, y); }
    }
  }

  // The departed go off every list.
  lemma ActivatedDeparture(p: Past, table: set<MemberId>, epoch: nat, x: Member, a: set<MemberId>)
    requires PastOk(p, table, epoch, true) && ListOk(p, table, epoch, true, x, a)
    requires forall m :: !Newcomer(p, epoch, m)
    requires x.id in table && x.id in p.admitted && p.Joined(x.id) == x.joinedEpoch
    ensures ListOk(Activated(p, epoch), table, epoch, false, x, a - Leaving(p, epoch, true))
  {
    var q := Activated(p, epoch);
    assert !Newcomer(p, epoch, x.id);
    forall y | y in p.admitted ensures Should(q, x, y) <==> Should(p, x, y) && y !in Leaving(p, epoch, true) {
      assert !Newcomer(p, epoch, y);
      assert y == HOST_ID ==> p.Joined(y) <= x.joinedEpoch;
    }
    assert Ideal(q, x) == Ideal(p, x) - Leaving(p, epoch, true);
  }

  lemma ActivatedList(p: Past, table: set<MemberId>, epoch: nat, x: Member, a: set<MemberId>, b: set<MemberId>)
    requires PastOk(p, table, epoch, true) && NoTwins(p, table)
    requires ListOk(p, table, epoch, true, x, a) && FlushOk(p, table, epoch, true, x, a, b)
    requires x.id in table && x.id in p.admitted && p.Joined(x.id) == x.joinedEpoch
    ensures ListOk(Activated(p, epoch), table, epoch, false, x, b)
  {
    hide PastOk, NoTwins, ListOk, Leaving, Ideal, Clashes;
    if m :| Newcomer(p, epoch, m) {
      if x.id == m { ActivatedNewcomer(p, table, epoch, x); }
      else { ActivatedAdmission(p, table, epoch, x, a, b, m); }
    } else {
      ActivatedDeparture(p, table, epoch, x, a);
    }
  }

  // ---- the next epoch ---------------------------------------------------------------------------------

  function Departed(p: Past, gone: set<MemberId>, epoch: nat): Past {
    p.(left := p.left + map z | z in gone :: epoch)
  }

  lemma DepartedPast(p: Past, table: set<MemberId>, epoch: nat, pending: bool, gone: set<MemberId>)
    requires PastOk(p, table, epoch, pending) && gone <= table && HOST_ID !in gone
    ensures PastOk(Departed(p, gone, epoch + 1), table - gone, epoch + 1, true)
  {
    var q := Departed(p, gone, epoch + 1);
    forall y | y in q.admitted && y != HOST_ID ensures !Newcomer(q, epoch + 1, y) {}
  }

  // A departure, announced but not activated, changes no list, and what lists should be stays.
  lemma DepartedList(p: Past, table: set<MemberId>, epoch: nat, pending: bool, gone: set<MemberId>, x: Member,
    a: set<MemberId>)
    requires PastOk(p, table, epoch, pending) && gone <= table && HOST_ID !in gone
    requires ListOk(p, table, epoch, pending, x, a) && x.joinedEpoch <= epoch
    ensures ListOk(Departed(p, gone, epoch + 1), table - gone, epoch + 1, true, x, a)
  {
    var q := Departed(p, gone, epoch + 1);
    assert epoch + 1 !in p.activated;
    forall y | y in p.admitted ensures Should(q, x, y) <==> Should(p, x, y) {}
    assert Ideal(q, x) == Ideal(p, x);
    assert Leaving(q, epoch + 1, true) == gone;
    assert table - gone + gone == table;
  }

  function Admitted(p: Past, m: Member): Past { p.(admitted := p.admitted[m.id := m]) }

  lemma AdmittedPast(p: Past, table: set<MemberId>, epoch: nat, m: Member)
    requires PastOk(p, table, epoch, false) && m.id !in p.admitted && m.joinedEpoch == epoch + 1 && m.id != HOST_ID
    ensures PastOk(Admitted(p, m), table + {m.id}, epoch + 1, true)
  {
    var q := Admitted(p, m);
    forall y | y in q.admitted && y != HOST_ID && q.Joined(y) == epoch + 1 ensures y == m.id {}
  }

  lemma AdmittedList(p: Past, table: set<MemberId>, epoch: nat, m: Member, x: Member, a: set<MemberId>)
    requires PastOk(p, table, epoch, false) && m.id !in p.admitted && m.joinedEpoch == epoch + 1 && m.id != HOST_ID
    requires ListOk(p, table, epoch, false, x, a) && x.joinedEpoch <= epoch
    ensures ListOk(Admitted(p, m), table + {m.id}, epoch + 1, true, x, a)
  {
    var q := Admitted(p, m);
    assert epoch + 1 !in p.activated;
    forall y | y in p.admitted ensures Should(q, x, y) <==> Should(p, x, y) {}
    assert !Should(q, x, m.id);
    assert Ideal(q, x) == Ideal(p, x);
    assert Leaving(q, epoch + 1, true) == {};
  }

  lemma NewList(p: Past, table: set<MemberId>, epoch: nat, m: Member)
    requires PastOk(p, table, epoch, false) && m.joinedEpoch == epoch + 1 && m.id != HOST_ID
    ensures ListOk(Admitted(p, m), table + {m.id}, epoch + 1, true, m, {})
  {
  }

  // ---- when everybody agrees ---------------------------------------------------------------------------

  // No current member's admission was restarted before it was activated.
  predicate AdmissionsCompleted(p: Past, table: set<MemberId>) {
    forall y :: y in table && y in p.admitted && y != HOST_ID ==> p.Joined(y) in p.activated
  }

  // Nobody's departure was restarted whom a current member had come to list: the host, once the
  // admission was activated, or a later newcomer, by its snapshot.
  predicate DeparturesCompleted(p: Past, table: set<MemberId>) {
    forall z :: z in p.left && z in p.admitted && p.left[z] !in p.activated ==>
      p.Joined(z) !in p.activated &&
      forall y :: y in table && y in p.admitted ==> !(p.Joined(z) < p.Joined(y) < p.left[z])
  }

  lemma CompletedAgrees(p: Past, table: set<MemberId>, epoch: nat, x: Member, a: set<MemberId>)
    requires PastOk(p, table, epoch, false) && ListOk(p, table, epoch, false, x, a)
    requires x.id in table && x.id in p.admitted && p.admitted[x.id] == x
    requires AdmissionsCompleted(p, table) && DeparturesCompleted(p, table)
    ensures a == table
  {
    assert Good(p, x);
    assert forall y :: y in Ideal(p, x) && y in p.left ==> p.left[y] !in p.activated;
    assert forall y :: y in Ideal(p, x) && y in p.left ==> p.Joined(y) <= x.joinedEpoch < p.left[y];
    assert forall y :: y in Ideal(p, x) ==> y !in p.left;
    forall y | y in table ensures y in Ideal(p, x) { assert y in p.admitted; }
  }

  lemma AgreedIsCompleted(p: Past, table: set<MemberId>, epoch: nat)
    requires PastOk(p, table, epoch, false)
    requires forall y :: y in table ==> y in p.admitted
    requires forall y :: y in table ==> p.admitted[y].id == y && ListOk(p, table, epoch, false, p.admitted[y], table)
    ensures AdmissionsCompleted(p, table) && DeparturesCompleted(p, table)
  {
    forall z | z in p.left && z in p.admitted && p.left[z] !in p.activated
      ensures p.Joined(z) !in p.activated
      ensures forall y :: y in table && y in p.admitted ==> !(p.Joined(z) < p.Joined(y) < p.left[z]) {
      assert z !in table;
      var host := p.admitted[HOST_ID];
      assert z !in Ideal(p, host);
      forall y | y in table && y in p.admitted ensures !(p.Joined(z) < p.Joined(y) < p.left[z]) {
        assert z !in Ideal(p, p.admitted[y]);
      }
    }
  }
}
