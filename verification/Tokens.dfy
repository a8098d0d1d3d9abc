/** Refresh tokens: login, refresh, logout, password change and the hourly cleanup
    (internal/httpapi/handlers_auth.go, cmd/server/main.go). */
module Tokens {
  import opened Results

  type Id = string

  const SECOND := 1_000_000_000
  const DAY := 24 * 60 * 60 * SECOND
  const REFRESH_TOKEN_TTL := 30 * DAY

  datatype Token = Token(user: Id, expires: int, revoked: Option<int>)

  /** Rows by token hash, which is unique. */
  type Table = map<string, Token>

  datatype Op =
    | Login(user: Id, password: bool, newHash: string, stored: bool)
    | Refresh(hash: string, newHash: string, stored: bool)
    | Logout(hash: string)
    | ChangePassword(user: Id, password: bool, revoked: bool)
    | SetStatus(user: Id, active: bool)
    | Cleanup

  datatype Outcome = Issued(user: Id) | Unauthorized | Forbidden | ServerError | Done

  /** `inactive` are the disabled accounts. */
  datatype State = State(tokens: Table, inactive: set<Id>)

  // ---- Specification ----

  predicate Usable(t: Token, now: int) { t.expires > now && t.revoked.None? }

  predicate Dead(t: Token, now: int) {
    t.expires < now || (t.revoked.Some? && t.revoked.value < now - 7 * DAY)
  }

  /** Whose live token a hash is. */
  function Holder(tokens: Table, hash: string, now: int): Option<Id> {
    if hash in tokens && Usable(tokens[hash], now) then Some(tokens[hash].user) else None
  }

  function Added(tokens: Table, user: Id, newHash: string, now: int): Table {
    tokens[newHash := Token(user, now + REFRESH_TOKEN_TTL, None)]
  }

  function RevokedAt(tokens: Table, hash: string, now: int): Table {
    if hash in tokens && tokens[hash].revoked.None? then tokens[hash := tokens[hash].(revoked := Some(now))] else tokens
  }

  function AllRevoked(tokens: Table, user: Id, now: int): Table {
    map hash | hash in tokens ::
      if tokens[hash].user == user && tokens[hash].revoked.None? then tokens[hash].(revoked := Some(now))
      else tokens[hash]
  }

  function Cleaned(tokens: Table, now: int): Table {
    map hash | hash in tokens && !Dead(tokens[hash], now) :: tokens[hash]
  }

  function Step(s: State, op: Op, now: int): (State, Outcome) {
    match op
    case Login(user, password, newHash, stored) =>
      if !password then (s, Unauthorized)
      else if user in s.inactive then (s, Forbidden)
      else if !stored then (s, ServerError)
      else (s.(tokens := Added(s.tokens, user, newHash, now)), Issued(user))
    case Refresh(hash, newHash, stored) =>
      (match Holder(s.tokens, hash, now)
       case None => (s, Unauthorized)
       case Some(user) =>
         if user in s.inactive then (s, Forbidden)
         else if !stored then (s.(tokens := RevokedAt(s.tokens, hash, now)), ServerError)
         else (s.(tokens := Added(RevokedAt(s.tokens, hash, now), user, newHash, now)), Issued(user)))
    case Logout(hash) => (s.(tokens := RevokedAt(s.tokens, hash, now)), Done)
    case ChangePassword(user, password, revoked) =>
      if !password then (s, Forbidden)
      else if revoked then (s.(tokens := AllRevoked(s.tokens, user, now)), Done)
      else (s, Done)
    case SetStatus(user, active) =>
      (s.(inactive := if active then s.inactive - {user} else s.inactive + {user}), Done)
    case Cleanup => (s.(tokens := Cleaned(s.tokens, now)), Done)
  }

  // ---- The handlers ----

  /** The database, with each handler taken as one transaction. A refresh token lives for thirty days, a revoked one is
      kept for seven; times are in nanoseconds. */
  class Store {
    var tokens: Table
    var inactive: set<Id>

    function View(): State
      reads this
    {
      State(tokens, inactive)
    }

    /** `stored`: the insert succeeds. */
    method IssueTokens(user: Id, newHash: string, stored: bool, now: int) returns (ok: bool)
      modifies this
      ensures ok == stored && inactive == old(inactive)
      ensures tokens == if stored then old(tokens)[newHash := Token(user, now + 2_592_000_000_000_000, None)] else old(tokens)
    {
      if !stored {
        return false;
      }
      tokens := tokens[newHash := Token(user, now + REFRESH_TOKEN_TTL, None)];
      return true;
    }

    method HandleLogin(user: Id, password: bool, newHash: string, stored: bool, now: int) returns (out: Outcome)
      modifies this
      ensures (View(), out) == Step(old(View()), Login(user, password, newHash, stored), now)
      ensures out ==
        if !password then Unauthorized
        else if user in old(inactive) then Forbidden
        else if !stored then ServerError
        else Issued(user)
      ensures inactive == old(inactive)
      ensures tokens ==
        if out == Issued(user) then old(tokens)[newHash := Token(user, now + 2_592_000_000_000_000, None)]
        else old(tokens)
    {
      if !password {
        return Unauthorized;
      }
      if user in inactive {
        return Forbidden;
      }
      var ok := IssueTokens(user, newHash, stored, now);
      return if ok then Issued(user) else ServerError;
    }

    /** The used token is revoked first: when the insert then fails, the user has lost it. */
    method HandleRefresh(hash: string, newHash: string, stored: bool, now: int) returns (out: Outcome)
      modifies this
      ensures (View(), out) == Step(old(View()), Refresh(hash, newHash, stored), now)
      ensures out ==
        if hash !in old(tokens) || old(tokens)[hash].expires <= now || old(tokens)[hash].revoked.Some? then Unauthorized
        else if old(tokens)[hash].user in old(inactive) then Forbidden
        else if !stored then ServerError
        else Issued(old(tokens)[hash].user)
      ensures inactive == old(inactive)
      ensures out.Unauthorized? || out.Forbidden? ==> tokens == old(tokens)
      ensures out.ServerError? ==> tokens == old(tokens)[hash := old(tokens)[hash].(revoked := Some(now))]
      ensures out.Issued? ==> tokens == old(tokens)[hash := old(tokens)[hash].(revoked := Some(now))]
                                                   [newHash := Token(out.user, now + 2_592_000_000_000_000, None)]
    {
      if hash !in tokens || !(tokens[hash].expires > now && tokens[hash].revoked.None?) {
        return Unauthorized;
      }
      var user := tokens[hash].user;
      if user in inactive {
        return Forbidden;
      }
      tokens := tokens[hash := tokens[hash].(revoked := Some(now))];
      var ok := IssueTokens(user, newHash, stored, now);
      return if ok then Issued(user) else ServerError;
    }

    method HandleLogout(hash: string, now: int) returns (out: Outcome)
      modifies this
      ensures (View(), out) == Step(old(View()), Logout(hash), now)
      ensures out == Done && inactive == old(inactive)
      ensures tokens ==
        if hash in old(tokens) && old(tokens)[hash].revoked.None?
        then old(tokens)[hash := old(tokens)[hash].(revoked := Some(now))]
        else old(tokens)
    {
      if hash in tokens && tokens[hash].revoked.None? {
        tokens := tokens[hash := tokens[hash].(revoked := Some(now))];
      }
      return Done;
    }

    /** The statement that revokes may fail unnoticed: `revoked` says whether it ran. */
    method HandleChangePassword(user: Id, password: bool, revoked: bool, now: int) returns (out: Outcome)
      modifies this
      ensures (View(), out) == Step(old(View()), ChangePassword(user, password, revoked), now)
      ensures out == (if password then Done else Forbidden) && inactive == old(inactive)
      ensures !password || !revoked ==> tokens == old(tokens)
      ensures password && revoked ==>
        && tokens.Keys == old(tokens).Keys
        && forall hash :: hash in tokens ==>
             tokens[hash] ==
             if old(tokens)[hash].user == user && old(tokens)[hash].revoked.None?
             then old(tokens)[hash].(revoked := Some(now))
             else old(tokens)[hash]
    {
      if !password {
        return Forbidden;
      }
      if !revoked {
        return Done;
      }
      var left := tokens.Keys;
      while left != {}
        invariant left <= tokens.Keys && tokens.Keys == old(tokens).Keys && inactive == old(inactive)
        invariant forall hash :: hash in left ==> tokens[hash] == old(tokens)[hash]
        invariant forall hash :: hash in tokens && hash !in left ==>
                    tokens[hash] == AllRevoked(old(tokens), user, now)[hash]
      {
        var hash :| hash in left;
        left := left - {hash};
        if tokens[hash].user == user && tokens[hash].revoked.None? {
          tokens := tokens[hash := tokens[hash].(revoked := Some(now))];
        }
      }
      assert tokens == AllRevoked(old(tokens), user, now);
      return Done;
    }

    /** The janitor's DELETE. */
    method CleanUp(now: int)
      modifies this
      ensures (View(), Done) == Step(old(View()), Cleanup, now)
      ensures inactive == old(inactive)
      ensures forall hash ::
        if hash in old(tokens) && now <= old(tokens)[hash].expires
           && (old(tokens)[hash].revoked.Some? ==> now - 604_800_000_000_000 <= old(tokens)[hash].revoked.value)
        then hash in tokens && tokens[hash] == old(tokens)[hash]
        else hash !in tokens
    {
      tokens := map hash | hash in tokens && !Dead(tokens[hash], now) :: tokens[hash];
    }
  }

  // ---- Traces ----

  datatype Event = Event(op: Op, at: int)

  predicate Forward(trace: seq<Event>, from: int) {
    trace == [] || (from <= trace[0].at && Forward(trace[1..], trace[0].at))
  }

  function NewHashes(op: Op): set<string> {
    if op.Login? || op.Refresh? then {op.newHash} else {}
  }

  /** Random tokens: no hash is issued twice. */
  predicate FreshHashes(trace: seq<Event>, used: set<string>) {
    trace == [] || (NewHashes(trace[0].op) !! used && FreshHashes(trace[1..], used + NewHashes(trace[0].op)))
  }

  function WithoutCleanup(trace: seq<Event>): seq<Event> {
    if trace == [] then []
    else (if trace[0].op.Cleanup? then [] else [trace[0]]) + WithoutCleanup(trace[1..])
  }

  function Outcomes(s: State, trace: seq<Event>): seq<Outcome>
    decreases trace
  {
    if trace == [] then []
    else
      var (s', out) := Step(s, trace[0].op, trace[0].at);
      (if trace[0].op.Cleanup? then [] else [out]) + Outcomes(s', trace[1..])
  }

  function After(s: State, trace: seq<Event>): State
    decreases trace
  {
    if trace == [] then s else After(Step(s, trace[0].op, trace[0].at).0, trace[1..])
  }

  // ---- The cleanup is invisible ----

  ghost predicate SameHolders(a: Table, b: Table, now: int) {
    forall hash :: Holder(a, hash, now) == Holder(b, hash, now)
  }

  /** The two tables differ in unusable rows only. */
  ghost predicate Alike(s: State, t: State, used: set<string>, now: int) {
    && s.inactive == t.inactive
    && s.tokens.Keys <= used && t.tokens.Keys <= used
    && (forall hash :: hash in s.tokens && Usable(s.tokens[hash], now) ==>
          hash in t.tokens && t.tokens[hash] == s.tokens[hash])
    && (forall hash :: hash in t.tokens && Usable(t.tokens[hash], now) ==>
          hash in s.tokens && s.tokens[hash] == t.tokens[hash])
  }

  lemma StepAlike(s: State, t: State, used: set<string>, op: Op, now: int)
    requires Alike(s, t, used, now) && !op.Cleanup?
    ensures Step(s, op, now).1 == Step(t, op, now).1
    ensures Alike(Step(s, op, now).0, Step(t, op, now).0, used + NewHashes(op), now)
  {
  }

  lemma CleanupAlike(s: State, t: State, used: set<string>, now: int)
    requires Alike(s, t, used, now)
    ensures Alike(Step(s, Cleanup, now).0, t, used, now)
  {
  }

  /** Every answer is the same as if no row were ever deleted, and so are the live tokens at the end. */
  lemma {:induction false} CleanupIsInvisible(s: State, t: State, trace: seq<Event>, used: set<string>, from: int)
    requires Alike(s, t, used, from) && Forward(trace, from) && FreshHashes(trace, used)
    ensures Outcomes(s, trace) == Outcomes(t, WithoutCleanup(trace))
    ensures forall now :: (forall i :: 0 <= i < |trace| ==> trace[i].at <= now) && from <= now ==>
              SameHolders(After(s, trace).tokens, After(t, WithoutCleanup(trace)).tokens, now)
    decreases trace
  {
    if trace != [] {
      var op, now := trace[0].op, trace[0].at;
      assert Alike(s, t, used, now);
      if op.Cleanup? {
        CleanupAlike(s, t, used, now);
        assert used + NewHashes(op) == used;
        CleanupIsInvisible(Step(s, op, now).0, t, trace[1..], used, now);
        assert WithoutCleanup(trace) == WithoutCleanup(trace[1..]);
      } else {
        StepAlike(s, t, used, op, now);
        CleanupIsInvisible(Step(s, op, now).0, Step(t, op, now).0, trace[1..], used + NewHashes(op), now);
        assert WithoutCleanup(trace)[1..] == WithoutCleanup(trace[1..]);
      }
    }
  }

  // ---- Sessions ----

  function Sessions(tokens: Table, user: Id, now: int): set<string> {
    set hash | hash in tokens && Holder(tokens, hash, now) == Some(user)
  }

  /** A refresh that succeeds swaps one live token for a new one, and touches no other user. */
  lemma RefreshSwaps(s: State, hash: string, newHash: string, stored: bool, now: int)
    requires newHash !in s.tokens && Step(s, Refresh(hash, newHash, stored), now).1.Issued?
    ensures var user := Step(s, Refresh(hash, newHash, stored), now).1.user;
            var t := Step(s, Refresh(hash, newHash, stored), now).0;
            && hash in Sessions(s.tokens, user, now)
            && Sessions(t.tokens, user, now) == Sessions(s.tokens, user, now) - {hash} + {newHash}
            && |Sessions(t.tokens, user, now)| == |Sessions(s.tokens, user, now)|
            && forall other :: other != user ==> Sessions(t.tokens, other, now) == Sessions(s.tokens, other, now)
  {
  }

  /** Logins of a user since the last password change that revoked, on top of n sessions. */
  function LoginsOn(n: nat, trace: seq<Event>, user: Id): nat
    decreases trace
  {
    if trace == [] then n
    else
      match trace[0].op
      case Login(u, password, _, stored) =>
        LoginsOn(if u == user && password && stored then n + 1 else n, trace[1..], user)
      case ChangePassword(u, password, revoked) =>
        LoginsOn(if u == user && password && revoked then 0 else n, trace[1..], user)
      case _ => LoginsOn(n, trace[1..], user)
  }

  /** A password change leaves its user no live token, unless there were some and the revocation failed. */
  lemma NoneAfterPasswordChange(s: State, user: Id, revoked: bool, now: int)
    ensures Sessions(Step(s, ChangePassword(user, true, revoked), now).0.tokens, user, now) == {} <==>
            revoked || Sessions(s.tokens, user, now) == {}
  {
  }

  lemma RefreshAddsNone(s: State, hash: string, newHash: string, stored: bool, user: Id, now: int)
    ensures |Sessions(Step(s, Refresh(hash, newHash, stored), now).0.tokens, user, now)| <= |Sessions(s.tokens, user, now)|
  {
    var before, after := Sessions(s.tokens, user, now), Sessions(Step(s, Refresh(hash, newHash, stored), now).0.tokens, user, now);
    if hash in before && user !in s.inactive {
      SubsetIsSmaller(after, before - {hash} + {newHash});
    } else {
      SubsetIsSmaller(after, before);
    }
  }

  lemma StepAddsAtMost(s: State, op: Op, user: Id, now: int)
    ensures |Sessions(Step(s, op, now).0.tokens, user, now)| <=
            |Sessions(s.tokens, user, now)| + if op.Login? && op.user == user && op.password && op.stored then 1 else 0
  {
    var before, after := Sessions(s.tokens, user, now), Sessions(Step(s, op, now).0.tokens, user, now);
    if op.Refresh? {
      RefreshAddsNone(s, op.hash, op.newHash, op.stored, user, now);
    } else if op.Login? && op.user == user && op.password && op.stored {
      SubsetIsSmaller(after, before + {op.newHash});
    } else {
      SubsetIsSmaller(after, before);
    }
  }

  /** Over any run, a user never has more live tokens than logins since the last password change that revoked:
      refreshing does not multiply them. */
  lemma {:induction false} SessionsBounded(s: State, trace: seq<Event>, user: Id, n: nat, from: int, now: int)
    requires |Sessions(s.tokens, user, from)| <= n && Forward(trace, from) && from <= now
    requires forall i :: 0 <= i < |trace| ==> trace[i].at <= now
    ensures |Sessions(After(s, trace).tokens, user, now)| <= LoginsOn(n, trace, user)
    decreases trace
  {
    if trace == [] {
      FewerLater(s.tokens, user, from, now);
    } else {
      var op, at := trace[0].op, trace[0].at;
      FewerLater(s.tokens, user, from, at);
      StepAddsAtMost(s, op, user, at);
      if op.ChangePassword? && op.user == user && op.password && op.revoked {
        NoneAfterPasswordChange(s, user, true, at);
        SessionsBounded(Step(s, op, at).0, trace[1..], user, 0, at, now);
      } else {
        var more := if op.Login? && op.user == user && op.password && op.stored then 1 else 0;
        SessionsBounded(Step(s, op, at).0, trace[1..], user, n + more, at, now);
      }
    }
  }

  lemma FewerLater(tokens: Table, user: Id, now: int, later: int)
    requires now <= later
    ensures |Sessions(tokens, user, later)| <= |Sessions(tokens, user, now)|
  {
    SubsetIsSmaller(Sessions(tokens, user, later), Sessions(tokens, user, now));
  }

  lemma SubsetIsSmaller(a: set<string>, b: set<string>)
    requires a <= b
    ensures |a| <= |b|
  {
    assert b == a + (b - a);
  }
}
