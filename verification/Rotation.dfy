/**
  The token handlers statement by statement (internal/httpapi/handlers_auth.go): a login checks the password and inserts
  a token, a refresh selects its token, revokes it whether or not it was revoked meanwhile, and inserts the new one, a
  password change checks, stores the new password and revokes the user's tokens. Any number of requests interleave.
 */
module Rotation {
  import opened Results
  import opened Ids
  import opened Tokens

  /** A login, a refresh or a password change between two of its statements. */
  datatype Pending =
    | Admitted(user: Id)
    | Checked(hash: string, user: Id)
    | Revoked(user: Id)
    | Changing(user: Id, password: string)
    | Changed(user: Id)

  datatype Store = Store(db: State, passwords: map<Id, string>, pending: map<Id, Pending>)

  datatype Action =
    | Whole(op: Op)
    | Admit(req: Id, user: Id, password: string)
    | Select(req: Id, hash: string)
    | Revoke(req: Id)
    | Insert(req: Id, newHash: string)
    | Confirm(req: Id, user: Id, current: string, password: string)
    | SetPassword(req: Id)
    | RevokeAll(req: Id)
    | Drop(req: Id)

  datatype Moment = At(action: Action, at: int)

  predicate Enabled(s: Store, action: Action) {
    match action
    case Whole(op) => op.Logout? || op.SetStatus? || op.Cleanup?
    case Admit(req, _, _) => req !in s.pending
    case Select(req, _) => req !in s.pending
    case Revoke(req) => req in s.pending && s.pending[req].Checked?
    case Insert(req, newHash) => req in s.pending && AboutToInsert(s.pending[req]) && newHash !in s.db.tokens
    case Confirm(req, _, _, _) => req !in s.pending
    case SetPassword(req) => req in s.pending && s.pending[req].Changing?
    case RevokeAll(req) => req in s.pending && s.pending[req].Changed?
    case Drop(req) => req in s.pending
  }

  predicate AboutToInsert(p: Pending) { p.Admitted? || p.Revoked? }

  predicate IsPassword(s: Store, user: Id, password: string) {
    user in s.passwords && s.passwords[user] == password
  }

  /** UPDATE refresh_tokens SET revoked_at = now() WHERE id. */
  function Overwritten(tokens: Table, hash: string, now: int): Table {
    if hash in tokens then tokens[hash := tokens[hash].(revoked := Some(now))] else tokens
  }

  /** The queries that start a request, with the checks after them; None answers it with an error. */
  function Begun(s: Store, action: Action, now: int): Option<Pending> {
    match action
    case Admit(_, user, password) =>
      if IsPassword(s, user, password) && user !in s.db.inactive then Some(Admitted(user)) else None
    case Select(_, hash) =>
      (match Holder(s.db.tokens, hash, now)
       case Some(user) => if user in s.db.inactive then None else Some(Checked(hash, user))
       case None => None)
    case Confirm(_, user, current, password) =>
      if IsPassword(s, user, current) then Some(Changing(user, password)) else None
    case _ => None
  }

  function Next(s: Store, action: Action, now: int): Store
    requires Enabled(s, action)
  {
    match action
    case Whole(op) => s.(db := Step(s.db, op, now).0)
    case Revoke(req) =>
      s.(db := s.db.(tokens := Overwritten(s.db.tokens, s.pending[req].hash, now)),
         pending := s.pending[req := Revoked(s.pending[req].user)])
    case Insert(req, newHash) =>
      s.(db := s.db.(tokens := Added(s.db.tokens, s.pending[req].user, newHash, now)), pending := s.pending - {req})
    case SetPassword(req) =>
      s.(passwords := s.passwords[s.pending[req].user := s.pending[req].password],
         pending := s.pending[req := Changed(s.pending[req].user)])
    case RevokeAll(req) =>
      s.(db := s.db.(tokens := AllRevoked(s.db.tokens, s.pending[req].user, now)), pending := s.pending - {req})
    case Drop(req) => s.(pending := s.pending - {req})
    case _ =>
      var begun := Begun(s, action, now);
      if begun.Some? then s.(pending := s.pending[action.req := begun.value]) else s
  }

  /** Statements at non-decreasing times lead from s to t. */
  ghost predicate Reaches(s: Store, trace: seq<Moment>, from: int, t: Store)
    decreases |trace|
  {
    if trace == [] then s == t
    else
      && from <= trace[0].at
      && Enabled(s, trace[0].action)
      && Reaches(Next(s, trace[0].action, trace[0].at), trace[1..], trace[0].at, t)
  }

  function End(trace: seq<Moment>, from: int): int {
    if trace == [] then from else trace[|trace| - 1].at
  }

  lemma EndOfTail(trace: seq<Moment>, from: int)
    requires trace != []
    ensures End(trace, from) == End(trace[1..], trace[0].at)
  {
  }

  // ---- Undisturbed, the statements of a request are its handler ----

  lemma LoginUndisturbed(s: Store, req: Id, user: Id, password: string, newHash: string, now: int)
    requires req !in s.pending && newHash !in s.db.tokens
    ensures var s1 := Next(s, Admit(req, user, password), now);
            var (db, out) := Step(s.db, Login(user, IsPassword(s, user, password), newHash, true), now);
            && (out.Issued? <==> req in s1.pending)
            && (out.Issued? ==> Enabled(s1, Insert(req, newHash)) && Next(s1, Insert(req, newHash), now) == s.(db := db))
            && (!out.Issued? ==> s1 == s && db == s.db)
  {
    var s1 := Next(s, Admit(req, user, password), now);
    assert req in s1.pending ==> s1.pending - {req} == s.pending;
  }

  lemma RefreshUndisturbed(s: Store, req: Id, hash: string, newHash: string, now: int)
    requires req !in s.pending && newHash !in s.db.tokens
    ensures var s1 := Next(s, Select(req, hash), now);
            var (db, out) := Step(s.db, Refresh(hash, newHash, true), now);
            && (out.Issued? <==> req in s1.pending)
            && (out.Issued? ==>
                  && Enabled(s1, Revoke(req))
                  && var s2 := Next(s1, Revoke(req), now);
                  && Enabled(s2, Insert(req, newHash)) && Next(s2, Insert(req, newHash), now) == s.(db := db))
            && (!out.Issued? ==> s1 == s && db == s.db)
  {
    var s1 := Next(s, Select(req, hash), now);
    if req in s1.pending {
      var s2 := Next(s1, Revoke(req), now);
      assert s2.pending - {req} == s.pending;
    }
  }

  lemma PasswordChangeUndisturbed(s: Store, req: Id, user: Id, current: string, password: string, now: int)
    requires req !in s.pending
    ensures var s1 := Next(s, Confirm(req, user, current, password), now);
            var (db, out) := Step(s.db, ChangePassword(user, IsPassword(s, user, current), true), now);
            && (out.Done? <==> req in s1.pending)
            && (out.Done? ==>
                  && Enabled(s1, SetPassword(req))
                  && var s2 := Next(s1, SetPassword(req), now);
                  && Enabled(s2, RevokeAll(req))
                  && Next(s2, RevokeAll(req), now) == s.(db := db, passwords := s.passwords[user := password]))
            && (!out.Done? ==> s1 == s && db == s.db)
  {
    var s1 := Next(s, Confirm(req, user, current, password), now);
    if req in s1.pending {
      var s2 := Next(s1, SetPassword(req), now);
      assert s2.pending - {req} == s.pending;
    }
  }

  // ---- Conservation ----

  function Waiting(s: Store, user: Id): set<Id> {
    set req | req in s.pending && Waits(s.pending[req], user)
  }

  predicate Waits(p: Pending, user: Id) { AboutToInsert(p) && p.user == user }

  /** Live tokens of a user, and the logins and refreshes that are about to insert one. */
  function Weight(s: Store, user: Id, now: int): nat {
    |Sessions(s.db.tokens, user, now)| + |Waiting(s, user)|
  }

  /** A refresh whose token was revoked, or ran out, between its first two statements. */
  predicate Stale(s: Store, action: Action, user: Id, now: int) {
    && action.Revoke? && action.req in s.pending && s.pending[action.req].Checked?
    && s.pending[action.req].user == user
    && s.pending[action.req].hash !in Sessions(s.db.tokens, user, now)
  }

  /** The revoking statement spends the token exactly when the token is still live; otherwise one token is made up. */
  lemma RevokeConserves(s: Store, req: Id, now: int)
    requires Enabled(s, Revoke(req))
    ensures var user := s.pending[req].user;
            Weight(Next(s, Revoke(req), now), user, now) ==
            Weight(s, user, now) + if Stale(s, Revoke(req), user, now) then 1 else 0
  {
    var user, hash := s.pending[req].user, s.pending[req].hash;
    var t := Next(s, Revoke(req), now);
    assert Waiting(t, user) == Waiting(s, user) + {req} && req !in Waiting(s, user);
    assert Sessions(t.db.tokens, user, now) == Sessions(s.db.tokens, user, now) - {hash};
  }

  lemma OtherUsersRevoke(s: Store, req: Id, user: Id, now: int)
    requires Enabled(s, Revoke(req)) && s.pending[req].user != user
    ensures Weight(Next(s, Revoke(req), now), user, now) <= Weight(s, user, now)
  {
    var t := Next(s, Revoke(req), now);
    assert Waiting(t, user) == Waiting(s, user);
    SubsetIsSmaller(Sessions(t.db.tokens, user, now), Sessions(s.db.tokens, user, now));
  }

  lemma AddedSessions(tokens: Table, owner: Id, newHash: string, user: Id, now: int)
    requires newHash !in tokens
    ensures var before, after := Sessions(tokens, user, now), Sessions(Added(tokens, owner, newHash, now), user, now);
            after == (if owner == user then before + {newHash} else before) && newHash !in before
  {
  }

  lemma InsertConserves(s: Store, req: Id, newHash: string, user: Id, now: int)
    requires Enabled(s, Insert(req, newHash))
    ensures Weight(Next(s, Insert(req, newHash), now), user, now) == Weight(s, user, now)
  {
    var t := Next(s, Insert(req, newHash), now);
    AddedSessions(s.db.tokens, s.pending[req].user, newHash, user, now);
    if s.pending[req].user == user {
      assert Waiting(t, user) == Waiting(s, user) - {req} && req in Waiting(s, user);
    } else {
      assert Waiting(t, user) == Waiting(s, user);
    }
  }

  /** A login with the user's present password. */
  predicate LogsIn(s: Store, action: Action, user: Id, now: int) {
    action.Admit? && Begun(s, action, now) == Some(Admitted(user))
  }

  lemma RevokeAllConserves(s: Store, req: Id, user: Id, now: int)
    requires Enabled(s, RevokeAll(req))
    ensures Weight(Next(s, RevokeAll(req), now), user, now) <= Weight(s, user, now)
  {
    var t := Next(s, RevokeAll(req), now);
    assert Waiting(t, user) == Waiting(s, user);
    SubsetIsSmaller(Sessions(t.db.tokens, user, now), Sessions(s.db.tokens, user, now));
  }

  lemma WaitingGrows(s: Store, t: Store, req: Id, p: Pending, user: Id)
    requires req !in s.pending && t.pending == s.pending[req := p] && Waits(p, user)
    ensures |Waiting(t, user)| == |Waiting(s, user)| + 1
  {
    forall q ensures q in Waiting(t, user) <==> q in Waiting(s, user) + {req} {
    }
    assert Waiting(t, user) == Waiting(s, user) + {req};
  }

  lemma WaitingStays(s: Store, t: Store, req: Id, p: Pending, user: Id)
    requires req !in s.pending && t.pending == s.pending[req := p] && !Waits(p, user)
    ensures Waiting(t, user) == Waiting(s, user)
  {
    forall q ensures q in Waiting(t, user) <==> q in Waiting(s, user) {
    }
  }

  lemma BeginConserves(s: Store, action: Action, user: Id, now: int)
    requires Enabled(s, action) && (action.Admit? || action.Select? || action.Confirm?)
    ensures Weight(Next(s, action, now), user, now) ==
            Weight(s, user, now) + if LogsIn(s, action, user, now) then 1 else 0
  {
    var begun := Begun(s, action, now);
    if begun.Some? {
      if LogsIn(s, action, user, now) {
        WaitingGrows(s, Next(s, action, now), action.req, begun.value, user);
      } else {
        WaitingStays(s, Next(s, action, now), action.req, begun.value, user);
      }
    }
  }

  lemma ActionConserves(s: Store, action: Action, user: Id, now: int)
    requires Enabled(s, action)
    ensures Weight(Next(s, action, now), user, now) <=
            Weight(s, user, now) + (if LogsIn(s, action, user, now) then 1 else 0)
            + if Stale(s, action, user, now) then 1 else 0
  {
    var t := Next(s, action, now);
    match action {
      case Whole(op) =>
        StepAddsAtMost(s.db, op, user, now);
        assert Waiting(t, user) == Waiting(s, user);
      case Revoke(req) =>
        if s.pending[req].user == user {
          RevokeConserves(s, req, now);
        } else {
          OtherUsersRevoke(s, req, user, now);
        }
      case Insert(req, newHash) => InsertConserves(s, req, newHash, user, now);
      case SetPassword(_) => assert Waiting(t, user) == Waiting(s, user);
      case RevokeAll(req) => RevokeAllConserves(s, req, user, now);
      case Drop(_) => SubsetIsSmaller(Waiting(t, user), Waiting(s, user));
      case _ => BeginConserves(s, action, user, now);
    }
  }

  /** Logins of a user along a run, and refreshes that found their token spent. */
  function Minted(s: Store, trace: seq<Moment>, user: Id): nat
    decreases |trace|
  {
    if trace == [] || !Enabled(s, trace[0].action) then 0
    else
      var e := trace[0];
      (if LogsIn(s, e.action, user, e.at) then 1 else 0) + (if Stale(s, e.action, user, e.at) then 1 else 0)
      + Minted(Next(s, e.action, e.at), trace[1..], user)
  }

  /** Over any interleaving, live tokens come from logins and from refreshes whose token was spent between their
      statements, and from nothing else. */
  lemma {:induction false} TokensAccounted(s: Store, trace: seq<Moment>, from: int, t: Store, user: Id)
    requires Reaches(s, trace, from, t)
    ensures Weight(t, user, End(trace, from)) <= Weight(s, user, from) + Minted(s, trace, user)
    decreases |trace|
  {
    if trace != [] {
      var e := trace[0];
      FewerLater(s.db.tokens, user, from, e.at);
      ActionConserves(s, e.action, user, e.at);
      TokensAccounted(Next(s, e.action, e.at), trace[1..], e.at, t, user);
      EndOfTail(trace, from);
    }
  }

  // ---- Two refreshes of one token ----

  /** Two refreshes that have both selected one token insert two. */
  lemma BothInsert(s: Store, a: Id, b: Id, hash: string, user: Id, h1: string, h2: string, now: int) returns (t: Store)
    requires a != b && a in s.pending && b in s.pending
    requires s.pending[a] == Checked(hash, user) && s.pending[b] == Checked(hash, user)
    requires h1 != h2 && h1 !in s.db.tokens && h2 !in s.db.tokens
    ensures Reaches(s, [At(Revoke(a), now), At(Revoke(b), now), At(Insert(a, h1), now), At(Insert(b, h2), now)], now, t)
    ensures Sessions(t.db.tokens, user, now) == Sessions(s.db.tokens, user, now) - {hash} + {h1, h2}
  {
    var s1 := Next(s, Revoke(a), now);
    var s2 := Next(s1, Revoke(b), now);
    assert Sessions(s2.db.tokens, user, now) == Sessions(s.db.tokens, user, now) - {hash};
    var s3 := Next(s2, Insert(a, h1), now);
    AddedSessions(s2.db.tokens, user, h1, user, now);
    t := Next(s3, Insert(b, h2), now);
    AddedSessions(s3.db.tokens, user, h2, user, now);
    assert Reaches(t, [], now, t);
    OneMore(s3, At(Insert(b, h2), now), [], now, t);
    OneMore(s2, At(Insert(a, h1), now), [At(Insert(b, h2), now)], now, t);
    OneMore(s1, At(Revoke(b), now), [At(Insert(a, h1), now), At(Insert(b, h2), now)], now, t);
    OneMore(s, At(Revoke(a), now),
      [At(Revoke(b), now), At(Insert(a, h1), now), At(Insert(b, h2), now)], now, t);
  }

  /** Both selected before either revoked: one token becomes two. */
  lemma TwoForOne(s: Store, a: Id, b: Id, hash: string, h1: string, h2: string, now: int) returns (t: Store)
    requires a != b && a !in s.pending && b !in s.pending
    requires h1 != h2 && h1 !in s.db.tokens && h2 !in s.db.tokens
    requires Holder(s.db.tokens, hash, now).Some? && s.db.tokens[hash].user !in s.db.inactive
    ensures Reaches(s, [At(Select(a, hash), now), At(Select(b, hash), now), At(Revoke(a), now),
                        At(Revoke(b), now), At(Insert(a, h1), now), At(Insert(b, h2), now)], now, t)
    ensures var user := s.db.tokens[hash].user;
            Sessions(t.db.tokens, user, now) == Sessions(s.db.tokens, user, now) - {hash} + {h1, h2}
  {
    var s1 := Next(s, Select(a, hash), now);
    var s2 := Next(s1, Select(b, hash), now);
    var rest := [At(Revoke(a), now), At(Revoke(b), now), At(Insert(a, h1), now), At(Insert(b, h2), now)];
    t := BothInsert(s2, a, b, hash, s.db.tokens[hash].user, h1, h2, now);
    OneMore(s1, At(Select(b, hash), now), rest, now, t);
    OneMore(s, At(Select(a, hash), now), [At(Select(b, hash), now)] + rest, now, t);
    assert [At(Select(a, hash), now)] + ([At(Select(b, hash), now)] + rest) ==
      [At(Select(a, hash), now), At(Select(b, hash), now), At(Revoke(a), now), At(Revoke(b), now),
       At(Insert(a, h1), now), At(Insert(b, h2), now)];
  }

  lemma OneMore(s: Store, e: Moment, rest: seq<Moment>, from: int, t: Store)
    requires from <= e.at && Enabled(s, e.action) && Reaches(Next(s, e.action, e.at), rest, e.at, t)
    ensures Reaches(s, [e] + rest, from, t)
  {
    assert ([e] + rest)[1..] == rest;
  }

  // ---- After a password change ----

  /** A login or a refresh of the user between its statements: it will still get to insert a token. */
  predicate Concerns(p: Pending, user: Id) {
    (p.Admitted? || p.Checked? || p.Revoked?) && p.user == user
  }

  ghost predicate NothingPending(s: Store, user: Id) {
    forall req :: req in s.pending ==> !Concerns(s.pending[req], user)
  }

  ghost predicate LoggedOut(s: Store, user: Id, now: int) {
    Sessions(s.db.tokens, user, now) == {} && NothingPending(s, user)
  }

  /** Nobody gets past the user's password; failed attempts, with an old one for instance, may occur. */
  predicate NoLogin(s: Store, trace: seq<Moment>, user: Id)
    decreases |trace|
  {
    trace == [] || !Enabled(s, trace[0].action)
    || (!LogsIn(s, trace[0].action, user, trace[0].at)
        && NoLogin(Next(s, trace[0].action, trace[0].at), trace[1..], user))
  }

  lemma StaysLoggedOut(s: Store, action: Action, user: Id, now: int)
    requires LoggedOut(s, user, now) && Enabled(s, action) && !LogsIn(s, action, user, now)
    ensures LoggedOut(Next(s, action, now), user, now)
  {
    if action.Whole? {
      StepAddsAtMost(s.db, action.op, user, now);
    } else if action.Select? {
      assert Holder(s.db.tokens, action.hash, now) == Some(user) <==> action.hash in Sessions(s.db.tokens, user, now);
    } else if action.Insert? {
      assert !Concerns(s.pending[action.req], user);
      AddedSessions(s.db.tokens, s.pending[action.req].user, action.newHash, user, now);
    } else if action.Revoke? {
      assert !Concerns(s.pending[action.req], user);
    }
  }

  lemma {:induction false} RunStaysLoggedOut(s: Store, trace: seq<Moment>, from: int, t: Store, user: Id)
    requires LoggedOut(s, user, from) && Reaches(s, trace, from, t) && NoLogin(s, trace, user)
    ensures LoggedOut(t, user, End(trace, from))
    decreases |trace|
  {
    if trace != [] {
      var e := trace[0];
      assert Sessions(s.db.tokens, user, e.at) <= Sessions(s.db.tokens, user, from);
      StaysLoggedOut(s, e.action, user, e.at);
      RunStaysLoggedOut(Next(s, e.action, e.at), trace[1..], e.at, t, user);
      EndOfTail(trace, from);
    }
  }

  /** Until somebody gets past the user's password, no live token of the user turns up. */
  ghost predicate LoggedOutForGood(s: Store, user: Id, now: int) {
    forall trace, t :: Reaches(s, trace, now, t) && NoLogin(s, trace, user) ==>
      Sessions(t.db.tokens, user, End(trace, now)) == {}
  }

  /** The revoking statement of a password change logs the user out everywhere exactly when no login and no refresh of
      the user is between its statements. */
  lemma PasswordChangeLogsOut(s: Store, change: Id, now: int)
    requires Enabled(s, RevokeAll(change))
    ensures var user := s.pending[change].user;
            LoggedOutForGood(Next(s, RevokeAll(change), now), user, now) <==> NothingPending(s, user)
  {
    var user := s.pending[change].user;
    var t := Next(s, RevokeAll(change), now);
    assert Sessions(t.db.tokens, user, now) == {};
    if NothingPending(s, user) {
      forall trace, u | Reaches(t, trace, now, u) && NoLogin(t, trace, user)
        ensures Sessions(u.db.tokens, user, End(trace, now)) == {}
      {
        RunStaysLoggedOut(t, trace, now, u, user);
      }
    } else {
      var req :| req in s.pending && Concerns(s.pending[req], user);
      PendingComesBack(t, req, user, now);
    }
  }

  lemma PendingComesBack(s: Store, req: Id, user: Id, now: int)
    requires req in s.pending && Concerns(s.pending[req], user)
    ensures !LoggedOutForGood(s, user, now)
  {
    if s.pending[req].Checked? {
      var t := Next(s, Revoke(req), now);
      var trace, u := InsertComesBack(t, req, user, now);
      var e := At(Revoke(req), now);
      OneMore(s, e, trace, now, u);
      EndOfTail([e] + trace, now);
      assert ([e] + trace)[1..] == trace;
      assert NoLogin(s, [e] + trace, user);
    } else {
      var trace, u := InsertComesBack(s, req, user, now);
    }
  }

  lemma InsertComesBack(s: Store, req: Id, user: Id, now: int) returns (trace: seq<Moment>, t: Store)
    requires req in s.pending && AboutToInsert(s.pending[req]) && s.pending[req].user == user
    ensures Reaches(s, trace, now, t) && NoLogin(s, trace, user) && Sessions(t.db.tokens, user, End(trace, now)) != {}
  {
    var newHash := FreshId(s.db.tokens.Keys);
    var e := At(Insert(req, newHash), now);
    trace := [e];
    t := Next(s, e.action, now);
    assert Reaches(t, [], now, t);
    OneMore(s, e, [], now, t);
    assert [e] + [] == [e] && [e][1..] == [];
    assert NoLogin(t, [], user);
    assert newHash in Sessions(t.db.tokens, user, now);
  }

  /** The rest of a password change, and then of a login that was admitted before. */
  lemma ChangeThenInsert(
    s: Store, login: Id, change: Id, user: Id, password: string, newHash: string, now: int) returns (t: Store)
    requires login != change && login in s.pending && change in s.pending && newHash !in s.db.tokens
    requires s.pending[login] == Admitted(user) && s.pending[change] == Changing(user, password)
    ensures Reaches(s, [At(SetPassword(change), now), At(RevokeAll(change), now), At(Insert(login, newHash), now)], now, t)
    ensures IsPassword(t, user, password) && Sessions(t.db.tokens, user, now) == {newHash}
  {
    var s1 := Next(s, SetPassword(change), now);
    var s2 := Next(s1, RevokeAll(change), now);
    t := Next(s2, Insert(login, newHash), now);
    assert Sessions(s2.db.tokens, user, now) == {};
    AddedSessions(s2.db.tokens, user, newHash, user, now);
    assert Reaches(t, [], now, t);
    OneMore(s2, At(Insert(login, newHash), now), [], now, t);
    OneMore(s1, At(RevokeAll(change), now), [At(Insert(login, newHash), now)], now, t);
    OneMore(s, At(SetPassword(change), now), [At(RevokeAll(change), now), At(Insert(login, newHash), now)], now, t);
  }

  /** An input that fails: a login has got past the old password when the change begins; once the change is complete,
      that login inserts its token. No refresh is involved. */
  lemma OldPasswordOutlivesChange(
    s: Store, login: Id, change: Id, user: Id, current: string, password: string, newHash: string, now: int)
    returns (t: Store)
    requires login != change && login !in s.pending && change !in s.pending && newHash !in s.db.tokens
    requires IsPassword(s, user, current) && user !in s.db.inactive
    ensures Reaches(s, [At(Admit(login, user, current), now), At(Confirm(change, user, current, password), now),
                        At(SetPassword(change), now), At(RevokeAll(change), now), At(Insert(login, newHash), now)], now, t)
    ensures IsPassword(t, user, password) && Sessions(t.db.tokens, user, now) == {newHash}
  {
    var admit, confirm := Admit(login, user, current), Confirm(change, user, current, password);
    var rest := [At(SetPassword(change), now), At(RevokeAll(change), now), At(Insert(login, newHash), now)];
    var s1 := Next(s, admit, now);
    var s2 := Next(s1, confirm, now);
    t := ChangeThenInsert(s2, login, change, user, password, newHash, now);
    OneMore(s1, At(confirm, now), rest, now, t);
    OneMore(s, At(admit, now), [At(confirm, now)] + rest, now, t);
    assert [At(admit, now)] + ([At(confirm, now)] + rest) ==
      [At(admit, now), At(confirm, now), At(SetPassword(change), now), At(RevokeAll(change), now),
       At(Insert(login, newHash), now)];
  }
}
