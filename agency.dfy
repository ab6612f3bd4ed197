/** The agency routes of routes/agency.ts: a user joins an agency by its
    code and becomes one of its hosts, leaves it again, reads the agency
    named in their token, and anyone lists the active agencies. Join and
    leave keep each agency's totalHosts equal to the number of its members. */
module AgencyRoutes {
  import opened Common
  import opened Accounts

  /** The answer to a join or leave: the user as updated and the claims of
      the access token issued with it. */
  datatype Membership = Membership(message: string, user: User, token: Claims)

  /** The answer to GET /agency/info: the agency and the ids of its hosts. */
  datatype AgencyInfo = AgencyInfo(agency: Agency, hosts: set<UserId>)

  /** The answer to GET /agency/list. */
  datatype AgencyList = AgencyList(agencies: seq<Agency>, count: nat)

  const Unauthenticated := AppError(401, "Authentication required")

  // ---------------------------------------------------------------------
  // POST /agency/join

  /** Whether some stored agency has this code. */
  predicate HasCode(agencies: map<AgencyId, Agency>, code: string) {
    exists a :: a in agencies && agencies[a].code == code
  }

  /** The checks of the join handler, in its order. */
  function JoinRefusal(t: Tables, caller: Option<Claims>, code: Option<string>): (e: Option<AppError>)
    ensures e.None? <==>
      && caller.Some? && Truthy(code) && caller.value.userId in t.users
      && (exists a :: a in t.agencies && t.agencies[a].code == code.value && t.agencies[a].isActive)
      && !Truthy(t.users[caller.value.userId].agencyId)
    ensures caller.None? ==> e == Some(Unauthenticated)
    ensures caller.Some? && Truthy(code) && !HasCode(t.agencies, code.value) ==> e == Some(AppError(404, "Invalid agency code"))
  {
    if caller.None? then Some(Unauthenticated)
    else if !Truthy(code) then Some(AppError(400, "Agency code is required"))
    else if !HasCode(t.agencies, code.value) then Some(AppError(404, "Invalid agency code"))
    else if !(exists a :: a in t.agencies && t.agencies[a].code == code.value && t.agencies[a].isActive) then
      Some(AppError(400, "This agency is not currently active"))
    else if caller.value.userId !in t.users then Some(AppError(404, "User not found"))
    else if Truthy(t.users[caller.value.userId].agencyId) then Some(AppError(400, "You are already part of an agency"))
    else None
  }

  /** The tables after user u joins agency a: the user belongs to a and is
      a host, and a counts one host more. */
  function Joined(t: Tables, u: UserId, a: AgencyId): (t': Tables)
    requires u in t.users && a in t.agencies
    ensures t'.users.Keys == t.users.Keys && t'.agencies.Keys == t.agencies.Keys
    ensures t'.users[u].agencyId == Some(a) && t'.users[u].isHost
    ensures t'.agencies[a].totalHosts == t.agencies[a].totalHosts + 1
    ensures forall v :: v in t.users && v != u ==> t'.users[v] == t.users[v]
    ensures forall b :: b in t.agencies && b != a ==> t'.agencies[b] == t.agencies[b]
    ensures t'.wallets == t.wallets && t'.orders == t.orders && t'.transactions == t.transactions
    ensures t'.gifts == t.gifts && t'.withdrawals == t.withdrawals && t'.otps == t.otps
    ensures t'.refreshTokens == t.refreshTokens
  {
    t.(users := t.users[u := t.users[u].(agencyId := Some(a), isHost := true)],
       agencies := t.agencies[a := t.agencies[a].(totalHosts := t.agencies[a].totalHosts + 1)])
  }

  /** The join adds exactly u to a's hosts and leaves every other agency's
      hosts alone. */
  lemma {:induction false} JoinedHosts(t: Tables, u: UserId, a: AgencyId)
    requires u in t.users && a in t.agencies && "" !in t.agencies && !Truthy(t.users[u].agencyId)
    ensures HostsOf(Joined(t, u, a).users, a) == HostsOf(t.users, a) + {u}
    ensures u !in HostsOf(t.users, a)
    ensures forall b :: b in t.agencies && b != a ==> HostsOf(Joined(t, u, a).users, b) == HostsOf(t.users, b)
  {
    var v := t.users[u].(agencyId := Some(a), isHost := true);
    assert Joined(t, u, a).users == t.users[u := v];
    HostsAfterUpdate(t.users, u, v, a);
    forall b | b in t.agencies && b != a
      ensures HostsOf(Joined(t, u, a).users, b) == HostsOf(t.users, b)
    {
      HostsAfterUpdate(t.users, u, v, b);
    }
  }

  /** A join by a user outside every agency keeps the tables consistent,
      the host counts included. */
  lemma {:induction false} JoinKeepsConsistent(t: Tables, u: UserId, a: AgencyId)
    requires Consistent(t) && u in t.users && a in t.agencies && !Truthy(t.users[u].agencyId)
    ensures Consistent(Joined(t, u, a))
  {
    var t' := Joined(t, u, a);
    JoinedHosts(t, u, a);
    forall b | b in t'.agencies ensures t'.agencies[b].totalHosts == |HostsOf(t'.users, b)| {
      if b == a {
        assert |HostsOf(t.users, a) + {u}| == |HostsOf(t.users, a)| + 1;
      }
    }
    KeyedAfterMove(t.users, t.agencies, u, t.users[u].(agencyId := Some(a), isHost := true), t'.agencies);
    UsersKeyedAfterUpdate(t.users, t.wallets, u, t.users[u].(agencyId := Some(a), isHost := true));
    assert OrdersKeyed(t'.orders, t'.users);
  }

  /** POST /agency/join: the caller joins the active agency with the given
      code, becomes a host, and gets a token carrying the agency. */
  method Join(db: Database, caller: Option<Claims>, code: Option<string>) returns (r: Result<Membership, AppError>)
    requires db.Valid()
    modifies db
    ensures db.Valid()
    ensures JoinRefusal(old(db.Snapshot()), caller, code).Some? ==>
      r == Err(JoinRefusal(old(db.Snapshot()), caller, code).value) && db.Snapshot() == old(db.Snapshot())
    ensures JoinRefusal(old(db.Snapshot()), caller, code).None? ==>
      var u := caller.value.userId;
      && u in db.users
      && r == Ok(Membership("Successfully joined agency", db.users[u], TokenClaims(db.users[u])))
      && r.value.token.agencyId.Some?
      && (forall a :: a in old(db.agencies) && old(db.agencies)[a].code == code.value ==>
            db.Snapshot() == Joined(old(db.Snapshot()), u, a))
  {
    var refusal := JoinRefusal(db.Snapshot(), caller, code);
    if refusal.Some? {
      return Err(refusal.value);
    }
    var u := caller.value.userId;
    var a :| a in db.agencies && db.agencies[a].code == code.value && db.agencies[a].isActive;
    JoinKeepsConsistent(db.Snapshot(), u, a);
    var after := Joined(db.Snapshot(), u, a);
    db.users, db.agencies := after.users, after.agencies;
    assert db.Snapshot() == after;
    assert a != "";
    r := Ok(Membership("Successfully joined agency", db.users[u], TokenClaims(db.users[u])));
  }

  // ---------------------------------------------------------------------
  // POST /agency/leave

  /** The checks of the leave handler, in its order. */
  function LeaveRefusal(t: Tables, caller: Option<Claims>): (e: Option<AppError>)
    ensures e.None? <==> caller.Some? && caller.value.userId in t.users && Truthy(t.users[caller.value.userId].agencyId)
    ensures caller.None? ==> e == Some(Unauthenticated)
  {
    if caller.None? then Some(Unauthenticated)
    else if caller.value.userId !in t.users then Some(AppError(404, "User not found"))
    else if !Truthy(t.users[caller.value.userId].agencyId) then Some(AppError(400, "You are not part of any agency"))
    else None
  }

  /** The tables after user u leaves the agency it belongs to: the user
      belongs to none, stays a host, and the agency counts one host less. */
  function Left(t: Tables, u: UserId): (t': Tables)
    requires u in t.users && t.users[u].agencyId.Some? && t.users[u].agencyId.value in t.agencies
    ensures t'.users.Keys == t.users.Keys && t'.agencies.Keys == t.agencies.Keys
    ensures t'.users[u].agencyId.None? && t'.users[u].isHost == t.users[u].isHost
    ensures var a := t.users[u].agencyId.value; t'.agencies[a].totalHosts == t.agencies[a].totalHosts - 1
    ensures forall v :: v in t.users && v != u ==> t'.users[v] == t.users[v]
    ensures forall b :: b in t.agencies && Some(b) != t.users[u].agencyId ==> t'.agencies[b] == t.agencies[b]
    ensures t'.wallets == t.wallets && t'.orders == t.orders && t'.transactions == t.transactions
    ensures t'.gifts == t.gifts && t'.withdrawals == t.withdrawals && t'.otps == t.otps
    ensures t'.refreshTokens == t.refreshTokens
  {
    var a := t.users[u].agencyId.value;
    t.(users := t.users[u := t.users[u].(agencyId := None)],
       agencies := t.agencies[a := t.agencies[a].(totalHosts := t.agencies[a].totalHosts - 1)])
  }

  /** The leave takes exactly u out of its agency's hosts and leaves every
      other agency's hosts alone. */
  lemma {:induction false} LeftHosts(t: Tables, u: UserId)
    requires Consistent(t) && u in t.users && Truthy(t.users[u].agencyId)
    ensures t.users[u].agencyId.value in t.agencies
    ensures var a := t.users[u].agencyId.value;
      u in HostsOf(t.users, a) && HostsOf(Left(t, u).users, a) == HostsOf(t.users, a) - {u}
    ensures forall b :: b in t.agencies && Some(b) != t.users[u].agencyId ==> HostsOf(Left(t, u).users, b) == HostsOf(t.users, b)
  {
    var v := t.users[u].(agencyId := None);
    HostsAfterUpdate(t.users, u, v, t.users[u].agencyId.value);
    forall b | b in t.agencies && Some(b) != t.users[u].agencyId
      ensures HostsOf(Left(t, u).users, b) == HostsOf(t.users, b)
    {
      HostsAfterUpdate(t.users, u, v, b);
    }
  }

  /** A leave by a member keeps the tables consistent, the host counts
      included. */
  lemma {:induction false} LeaveKeepsConsistent(t: Tables, u: UserId)
    requires Consistent(t) && u in t.users && Truthy(t.users[u].agencyId)
    ensures t.users[u].agencyId.value in t.agencies
    ensures Consistent(Left(t, u))
  {
    var a := t.users[u].agencyId.value;
    var t' := Left(t, u);
    LeftHosts(t, u);
    forall b | b in t'.agencies ensures t'.agencies[b].totalHosts == |HostsOf(t'.users, b)| {
      if b == a {
        assert |HostsOf(t.users, a) - {u}| == |HostsOf(t.users, a)| - 1;
      }
    }
    KeyedAfterMove(t.users, t.agencies, u, t.users[u].(agencyId := None), t'.agencies);
    UsersKeyedAfterUpdate(t.users, t.wallets, u, t.users[u].(agencyId := None));
    assert OrdersKeyed(t'.orders, t'.users);
  }

  /** Leaving undoes a join except for the host flag, which stays set. */
  lemma {:induction false} LeaveUndoesJoin(t: Tables, u: UserId, a: AgencyId)
    requires u in t.users && a in t.agencies && t.users[u].agencyId.None?
    ensures Left(Joined(t, u, a), u) == t.(users := t.users[u := t.users[u].(isHost := true)])
  {
    var l := Left(Joined(t, u, a), u);
    assert l.agencies == t.agencies;
    assert l.users == t.users[u := t.users[u].(isHost := true)];
  }

  /** POST /agency/leave: the caller leaves their agency and gets a token
      without one; the host flag is left as it was. */
  method Leave(db: Database, caller: Option<Claims>) returns (r: Result<Membership, AppError>)
    requires db.Valid()
    modifies db
    ensures db.Valid()
    ensures LeaveRefusal(old(db.Snapshot()), caller).Some? ==>
      r == Err(LeaveRefusal(old(db.Snapshot()), caller).value) && db.Snapshot() == old(db.Snapshot())
    ensures LeaveRefusal(old(db.Snapshot()), caller).None? ==>
      var u := caller.value.userId;
      && old(db.users)[u].agencyId.value in old(db.agencies)
      && db.Snapshot() == Left(old(db.Snapshot()), u)
      && r == Ok(Membership("Successfully left agency", db.users[u], TokenClaims(db.users[u])))
      && r.value.token.agencyId.None? && r.value.token.isHost == old(db.users)[u].isHost
  {
    var refusal := LeaveRefusal(db.Snapshot(), caller);
    if refusal.Some? {
      return Err(refusal.value);
    }
    var u := caller.value.userId;
    LeaveKeepsConsistent(db.Snapshot(), u);
    var after := Left(db.Snapshot(), u);
    db.users, db.agencies := after.users, after.agencies;
    assert db.Snapshot() == after;
    r := Ok(Membership("Successfully left agency", db.users[u], TokenClaims(db.users[u])));
  }

  // ---------------------------------------------------------------------
  // GET /agency/info

  /** GET /agency/info: the agency the caller's TOKEN names, with its
      hosts; the user's stored membership is not consulted. */
  function Info(t: Tables, caller: Option<Claims>): (r: Result<AgencyInfo, AppError>)
    ensures caller.None? ==> r == Err(Unauthenticated)
    ensures caller.Some? && !Truthy(caller.value.agencyId) ==> r == Err(AppError(404, "You are not part of any agency"))
    ensures caller.Some? && Truthy(caller.value.agencyId) && caller.value.agencyId.value !in t.agencies ==>
      r == Err(AppError(404, "Agency not found"))
    ensures r.Ok? <==> caller.Some? && Truthy(caller.value.agencyId) && caller.value.agencyId.value in t.agencies
    ensures r.Ok? ==>
      var a := caller.value.agencyId.value;
      r.value.agency == t.agencies[a] && (forall u :: u in r.value.hosts <==> u in t.users && t.users[u].agencyId == Some(a))
  {
    if caller.None? then Err(Unauthenticated)
    else if !Truthy(caller.value.agencyId) then Err(AppError(404, "You are not part of any agency"))
    else if caller.value.agencyId.value !in t.agencies then Err(AppError(404, "Agency not found"))
    else
      var a := caller.value.agencyId.value;
      Ok(AgencyInfo(t.agencies[a], HostsOf(t.users, a)))
  }

  /** The token issued by a join opens the agency's info, the new host is
      listed, and the count shown equals the hosts listed. */
  lemma {:induction false} InfoAfterJoin(t: Tables, u: UserId, a: AgencyId)
    requires Consistent(t) && u in t.users && a in t.agencies && !Truthy(t.users[u].agencyId)
    ensures var t' := Joined(t, u, a);
      var r := Info(t', Some(TokenClaims(t'.users[u])));
      r.Ok? && u in r.value.hosts && r.value.agency.totalHosts == |r.value.hosts|
  {
    JoinKeepsConsistent(t, u, a);
    assert a != "";
  }

  /** A token issued before a leave still opens the agency's info, which no
      longer lists the caller among its hosts. */
  lemma {:induction false} StaleTokenAfterLeave(t: Tables, u: UserId)
    requires Consistent(t) && u in t.users && Truthy(t.users[u].agencyId)
    ensures var t' := Left(t, u);
      var r := Info(t', Some(TokenClaims(t.users[u])));
      r.Ok? && u !in r.value.hosts
  {
    LeaveKeepsConsistent(t, u);
  }

  // ---------------------------------------------------------------------
  // GET /agency/list

  function HostCount(a: Agency): int {
    a.totalHosts
  }

  /** The active agencies, each once, in no particular order (the
      `where: { isActive: true }` part of the query). */
  method ActiveAgencies(agencies: map<AgencyId, Agency>) returns (rows: seq<Agency>)
    requires forall a :: a in agencies ==> agencies[a].id == a
    ensures forall x :: x in rows <==> x in agencies.Values && x.isActive
    ensures Distinct(rows)
  {
    rows := [];
    var left := agencies.Keys;
    while left != {}
      invariant left <= agencies.Keys
      invariant forall k :: 0 <= k < |rows| ==>
        rows[k].isActive && rows[k].id in agencies.Keys - left && agencies[rows[k].id] == rows[k]
      invariant forall a :: a in agencies.Keys - left && agencies[a].isActive ==> agencies[a] in rows
      invariant Distinct(rows)
      decreases left
    {
      var a :| a in left;
      if agencies[a].isActive {
        rows := rows + [agencies[a]];
      }
      left := left - {a};
    }
  }

  /** GET /agency/list: every active agency once, most hosts first. */
  method List(db: Database) returns (r: AgencyList)
    requires db.Valid()
    ensures r.count == |r.agencies|
    ensures forall x :: x in r.agencies <==> x in db.agencies.Values && x.isActive
    ensures Distinct(r.agencies)
    ensures SortedDesc(r.agencies, HostCount)
  {
    var rows := ActiveAgencies(db.agencies);
    var sorted := SortDescBy(rows, HostCount);
    SortDescBySorted(rows, HostCount);
    SortDescByPermutes(rows, HostCount);
    DistinctPermutation(rows, sorted);
    assert forall x :: x in sorted <==> x in multiset(sorted);
    assert forall x :: x in rows <==> x in multiset(rows);
    r := AgencyList(sorted, |sorted|);
  }
}
