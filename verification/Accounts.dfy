/** Users and tokens against the calls alone: who exists, with which password and roles, who may log in, and which
    tokens redeem. */
module Accounts {
  import opened Models
  import opened Sequences
  import opened Tokens
  import Users

  datatype Account = Account(username: string, password: string, roles: seq<string>, since: Time)

  // ---------------------------------------------------------------- accounts, read off the calls

  predicate Named(a: Option<Account>, username: string) {
    a.Some? && a.value.username == username
  }

  /** What the calls have made of a user id: created under a free name with a long enough password, then given new roles
      or a new password, until deleted. */
  ghost function Given(calls: seq<Call>, id: string): Option<Account>
  {
    if calls == [] then None else
      var before := Given(Front(calls), id);
      match Last(calls)
      case CreateUser(x, username, password, roles, now) =>
        if x == id && |password| >= 8 && (forall other :: !Named(Given(Front(calls), other), username))
        then Some(Account(username, password, if roles == [] then ["viewer"] else roles, now)) else before
      case UpdateUser(x, roles, password) =>
        if x != id || before.None? || 0 < |password| < 8 then before
        else Some(before.value.(roles := if roles.Some? then roles.value else before.value.roles,
                                password := if password == "" then before.value.password else password))
      case DeleteUser(x) => if x == id then None else before
      case _ => before
  }

  /** The record of an account: its password is kept as a hash. */
  function RecordOf(id: string, a: Account): Users.User {
    Users.User(id, a.username, Users.Bcrypt(a.password), a.roles, a.since)
  }

  ghost predicate AsGiven(calls: seq<Call>, users: map<string, Users.User>) {
    && (forall id :: id in users <==> Given(calls, id).Some?)
    && (forall id :: id in users ==> users[id] == RecordOf(id, Given(calls, id).value))
  }

  lemma NamedMeansTaken(calls: seq<Call>, users: map<string, Users.User>, username: string)
    requires AsGiven(calls, users)
    ensures (exists id :: Named(Given(calls, id), username)) <==> Users.Taken(users, username)
  {
    if Users.Taken(users, username) {
      var id :| id in users && users[id].username == username;
      assert Named(Given(calls, id), username);
    }
    forall id | Named(Given(calls, id), username) ensures Users.Taken(users, username) {
      assert id in users && users[id].username == username;
    }
  }

  lemma CreatesAsGiven(ttl: nat, calls: seq<Call>, before: State)
    requires calls != [] && Last(calls).CreateUser? && Enabled(before, Last(calls))
    requires AsGiven(Front(calls), before.store.users)
    ensures AsGiven(calls, Apply(ttl, before, Last(calls)).store.users)
  {
    NamedMeansTaken(Front(calls), before.store.users, Last(calls).username);
  }

  lemma UpdatesAsGiven(ttl: nat, calls: seq<Call>, before: State)
    requires calls != [] && Last(calls).UpdateUser?
    requires AsGiven(Front(calls), before.store.users)
    ensures AsGiven(calls, Apply(ttl, before, Last(calls)).store.users)
  {
  }

  lemma OthersAsGiven(ttl: nat, calls: seq<Call>, before: State)
    requires calls != [] && !Last(calls).CreateUser? && !Last(calls).UpdateUser? && Enabled(before, Last(calls))
    requires AsGiven(Front(calls), before.store.users)
    ensures AsGiven(calls, Apply(ttl, before, Last(calls)).store.users)
  {
  }

  /** In every history the users are exactly the accounts the calls have given, each with its name, its last password,
      its last roles and its time of creation. */
  lemma {:induction false} UsersAsGiven(ttl: nat, calls: seq<Call>, s: State)
    requires Exec(ttl, calls) == Some(s)
    ensures AsGiven(calls, s.store.users)
  {
    if calls != [] {
      var before := Exec(ttl, Front(calls)).value;
      UsersAsGiven(ttl, Front(calls), before);
      if Last(calls).CreateUser? {
        CreatesAsGiven(ttl, calls, before);
      } else if Last(calls).UpdateUser? {
        UpdatesAsGiven(ttl, calls, before);
      } else {
        OthersAsGiven(ttl, calls, before);
      }
    }
  }

  // ---------------------------------------------------------------- logging in

  /** The name and the password are those of the account. */
  ghost predicate Opens(calls: seq<Call>, id: string, username: string, password: string) {
    Named(Given(calls, id), username) && Given(calls, id).value.password == password
  }

  /** The lookup by name finds the account that opens, and the comparison of hashes is one of passwords. */
  lemma OpensFound(calls: seq<Call>, s: State, c: Call, id: string)
    requires AsGiven(calls, s.store.users) && Users.UniqueNames(s.store.users) && c.Login? && Enabled(s, c)
    ensures Opens(calls, id, c.username, c.password)
       <==> c.found == Some(id) && s.store.users[id].passwordHash == Users.Bcrypt(c.password)
  {
    assert Named(Given(calls, id), c.username) <==> id in s.store.users && s.store.users[id].username == c.username;
  }

  /** In every reachable state, a login issues a token, good for the lifetime of tokens, if and only if the name and the
      password presented are those of an account; it is that account's. Otherwise nothing is stored. */
  lemma LoginExactly(ttl: nat, calls: seq<Call>, s: State, c: Call, id: string)
    requires Exec(ttl, calls) == Some(s) && c.Login? && Enabled(s, c)
    ensures var s' := Apply(ttl, s, c);
            && (s'.log == s.log + [Issued(c.drawn, id, c.now + ttl, None)] <==>
                Opens(calls, id, c.username, c.password))
            && ((forall x :: !Opens(calls, x, c.username, c.password)) ==> s'.log == s.log && s'.store == s.store)
  {
    UsersAsGiven(ttl, calls, s);
    AlwaysUnique(ttl, calls, s);
    OpensFound(calls, s, c, id);
    if c.found.Some? {
      OpensFound(calls, s, c, c.found.value);
    }
    if Apply(ttl, s, c).log == s.log + [Issued(c.drawn, id, c.now + ttl, None)] {
      assert Last(Apply(ttl, s, c).log).user == id;
    }
  }

  lemma NamesStep(ttl: nat, s: State, c: Call)
    requires Users.UniqueNames(s.store.users) && Enabled(s, c)
    requires forall id :: id in s.store.users ==> s.store.users[id].id == id
    ensures Users.UniqueNames(Apply(ttl, s, c).store.users)
  {
    var users, users' := s.store.users, Apply(ttl, s, c).store.users;
    if c.CreateUser? && users' != users {
      assert forall id :: id in users ==> users[id].username != c.username;
    } else {
      assert forall id :: id in users' ==> id in users && users'[id].username == users[id].username;
    }
  }

  lemma {:induction false} AlwaysUnique(ttl: nat, calls: seq<Call>, s: State)
    requires Exec(ttl, calls) == Some(s)
    ensures Users.UniqueNames(s.store.users)
  {
    if calls != [] {
      var before := Exec(ttl, Front(calls)).value;
      AlwaysUnique(ttl, Front(calls), before);
      AlwaysSound(ttl, Front(calls), before);
      NamesStep(ttl, before, Last(calls));
    }
  }

  // ---------------------------------------------------------------- where tokens come from

  /** The call issued the token at position k of the log: a login to the account it opened, or a refresh to the user
      whose token it had just redeemed; either for the lifetime of tokens. */
  ghost predicate IssuedBy(ttl: nat, calls: seq<Call>, i: nat, log: seq<Entry>, k: nat)
    requires i < |calls| && k < |log| && log[k].Issued?
  {
    var c, e := calls[i], log[k];
    && (c.Login? || c.Refresh?) && e.token == c.drawn && e.expires == c.now + ttl
    && (c.Login? ==> e.parent.None? && Opens(calls[..i], e.user, c.username, c.password))
    && (c.Refresh? ==> e.parent == Some(c.token) && k > 0 && log[k - 1] == Redeemed(c.token, e.user, c.now))
  }

  /** What a call that issues no token leaves on record: an accepted new password, the deletion of a user there was,
      every logout. */
  ghost function Ends(calls: seq<Call>, c: Call): seq<Entry> {
    match c
    case UpdateUser(id, _, password) => if Given(calls, id).Some? && |password| >= 8 then [PasswordChanged(id)] else []
    case DeleteUser(id) => if Given(calls, id).Some? then [UserDeleted(id)] else []
    case Logout(token) => [LoggedOut(token)]
    case _ => []
  }

  lemma EndsLogged(ttl: nat, calls: seq<Call>, s: State, c: Call)
    requires Exec(ttl, calls) == Some(s) && Enabled(s, c) && !c.Login? && !c.Refresh?
    ensures Apply(ttl, s, c).log == s.log + Ends(calls, c)
  {
    UsersAsGiven(ttl, calls, s);
  }

  /** What a call adds to the log. */
  lemma LogAfter(ttl: nat, calls: seq<Call>, s: State)
    requires Exec(ttl, calls) == Some(s) && calls != []
    ensures var log, c := Exec(ttl, Front(calls)).value.log, Last(calls);
            && log <= s.log && |s.log| <= |log| + 2
            && forall k :: |log| <= k < |s.log| && s.log[k].Issued? ==> IssuedBy(ttl, calls, |calls| - 1, s.log, k)
  {
    var before, c := Exec(ttl, Front(calls)).value, Last(calls);
    AlwaysSound(ttl, Front(calls), before);
    assert calls[..|calls| - 1] == Front(calls);
    if c.Login? && c.found.Some? {
      LoginExactly(ttl, Front(calls), before, c, c.found.value);
    }
  }

  /** In every history, each token was issued by some login or refresh, on these grounds. */
  lemma {:induction false} IssuesJustified(ttl: nat, calls: seq<Call>, s: State, k: nat) returns (i: nat)
    requires Exec(ttl, calls) == Some(s) && k < |s.log| && s.log[k].Issued?
    ensures i < |calls| && IssuedBy(ttl, calls, i, s.log, k)
  {
    LogAfter(ttl, calls, s);
    var before := Exec(ttl, Front(calls)).value;
    if k < |before.log| {
      i := IssuesJustified(ttl, Front(calls), before, k);
      assert Front(calls)[..i] == calls[..i];
    } else {
      i := |calls| - 1;
    }
  }

  // ---------------------------------------------------------------- which tokens redeem

  /** Issued at position k, not expired at this time, and nothing since has ended it. */
  ghost predicate GoodSince(log: seq<Entry>, k: nat, token: string, now: Time) {
    && k < |log| && log[k].Issued? && log[k].token == token && now <= log[k].expires
    && forall i :: k < i < |log| ==> !Kills(log[i], token, log[k].user)
  }

  lemma {:induction false} StandsSince(log: seq<Entry>, token: string) returns (k: nat)
    requires Standing(log, token).Some?
    ensures k < |log| && log[k].Issued? && log[k].token == token
    ensures Standing(log, token) == Some((log[k].user, log[k].expires))
    ensures forall i :: k < i < |log| ==> !Kills(log[i], token, log[k].user)
  {
    if Last(log).Issued? && Last(log).token == token {
      k := |log| - 1;
    } else {
      k := StandsSince(Front(log), token);
      assert forall i :: 0 <= i < |log| - 1 ==> log[i] == Front(log)[i];
    }
  }

  lemma {:induction false} UnkilledStands(log: seq<Entry>, k: nat, j: nat, token: string)
    requires WellKept(log) && k < j <= |log| && log[k].Issued? && log[k].token == token
    requires forall i :: k < i < j ==> !Kills(log[i], token, log[k].user)
    ensures Standing(log[..j], token) == Some((log[k].user, log[k].expires))
  {
    assert log[..j] == log[..j - 1] + [log[j - 1]];
    StandingAppend(log[..j - 1], log[j - 1], token);
    if k < j - 1 {
      UnkilledStands(log, k, j - 1, token);
      assert Fits(log[..j - 1], log[j - 1]);
      OwnerFixed(log, k, j - 1, token);
    }
  }

  lemma GoodMeansRedeemable(s: State, token: string, now: Time)
    requires Sound(s) && WellKept(s.log)
    ensures forall k: nat :: GoodSince(s.log, k, token, now) ==>
              Redeemable(s, token, now).Some? && Redeemable(s, token, now).value.userId == s.log[k].user
    ensures (forall k: nat :: !GoodSince(s.log, k, token, now)) ==> Redeemable(s, token, now).None?
  {
    assert s.log[..|s.log|] == s.log;
    forall k: nat | GoodSince(s.log, k, token, now)
      ensures Standing(s.log, token) == Some((s.log[k].user, s.log[k].expires))
    {
      UnkilledStands(s.log, k, |s.log|, token);
    }
    if Standing(s.log, token).Some? {
      var k := StandsSince(s.log, token);
      assert now <= s.log[k].expires ==> GoodSince(s.log, k, token, now);
    }
  }

  lemma RefreshLog(ttl: nat, s: State, c: Call)
    requires Sound(s) && c.Refresh? && Enabled(s, c)
    ensures var rt, s' := Redeemable(s, c.token, c.now), Apply(ttl, s, c);
            if rt.None? then s'.log == s.log && s'.store == s.store
            else s'.log == s.log + [Redeemed(c.token, rt.value.userId, c.now),
                                    Issued(c.drawn, rt.value.userId, c.now + ttl, Some(c.token))]
  {
  }

  /** In every reachable state, a refresh succeeds if and only if the token was issued, has not expired and has not been
      ended since: by a redemption, a logout, or a new password or the deletion of its user. Then it is redeemed, and
      replaced by a new one for the same user; otherwise nothing is stored. */
  lemma RefreshExactly(ttl: nat, calls: seq<Call>, s: State, c: Call)
    requires Exec(ttl, calls) == Some(s) && c.Refresh? && Enabled(s, c)
    ensures forall k: nat :: GoodSince(s.log, k, c.token, c.now) ==>
              Apply(ttl, s, c).log == s.log + [Redeemed(c.token, s.log[k].user, c.now),
                                               Issued(c.drawn, s.log[k].user, c.now + ttl, Some(c.token))]
    ensures (forall k: nat :: !GoodSince(s.log, k, c.token, c.now)) ==>
              Apply(ttl, s, c).log == s.log && Apply(ttl, s, c).store == s.store
  {
    AlwaysSound(ttl, calls, s);
    GoodMeansRedeemable(s, c.token, c.now);
    RefreshLog(ttl, s, c);
  }

  // ---------------------------------------------------------------- deletion

  /** Users whose deletion is on record are gone, their ids used up, and were issued no token since. */
  ghost predicate Buried(s: State) {
    forall k :: 0 <= k < |s.log| && s.log[k].UserDeleted? ==>
      s.log[k].user in s.ids && s.log[k].user !in s.store.users && NoIssueAfter(s.log, k, s.log[k].user)
  }

  ghost predicate NoIssueAfter(log: seq<Entry>, k: nat, user: string) {
    forall j :: k < j < |log| ==> !(log[j].Issued? && log[j].user == user)
  }

  lemma BuriedStep(ttl: nat, s: State, c: Call)
    requires Sound(s) && Buried(s) && Enabled(s, c)
    ensures Buried(Apply(ttl, s, c))
  {
    var s' := Apply(ttl, s, c);
    assert s.log <= s'.log;
    forall k | 0 <= k < |s'.log| && s'.log[k].UserDeleted?
      ensures s'.log[k].user in s'.ids && s'.log[k].user !in s'.store.users && NoIssueAfter(s'.log, k, s'.log[k].user)
    {
      if k < |s.log| {
        assert s.log[k] == s'.log[k];
      }
    }
  }

  lemma {:induction false} AlwaysBuried(ttl: nat, calls: seq<Call>, s: State)
    requires Exec(ttl, calls) == Some(s)
    ensures Buried(s)
  {
    if calls != [] {
      var before := Exec(ttl, Front(calls)).value;
      AlwaysBuried(ttl, Front(calls), before);
      AlwaysSound(ttl, Front(calls), before);
      BuriedStep(ttl, before, Last(calls));
    }
  }

  lemma {:induction false} LogGrows(ttl: nat, a: seq<Call>, b: seq<Call>, s: State) returns (m: State)
    requires Exec(ttl, a + b) == Some(s)
    ensures Exec(ttl, a) == Some(m) && m.log <= s.log
  {
    if b == [] {
      assert a + b == a;
      m := s;
    } else {
      assert Front(a + b) == a + Front(b);
      m := LogGrows(ttl, a, Front(b), Exec(ttl, a + Front(b)).value);
      LogAfter(ttl, a + b, s);
    }
  }

  /** Once an existing user is deleted, no later state has that id, and no token is issued to it any more. */
  lemma DeletedForGood(ttl: nat, a: seq<Call>, m: State, id: string, b: seq<Call>, s: State)
    requires Exec(ttl, a) == Some(m) && id in m.store.users && Exec(ttl, a + [DeleteUser(id)] + b) == Some(s)
    ensures id !in s.store.users
    ensures forall j :: |m.log| <= j < |s.log| ==> !(s.log[j].Issued? && s.log[j].user == id)
  {
    AlwaysBuried(ttl, a + [DeleteUser(id)] + b, s);
    var m' := LogGrows(ttl, a + [DeleteUser(id)], b, s);
    assert Front(a + [DeleteUser(id)]) == a && Last(a + [DeleteUser(id)]) == DeleteUser(id);
    AlwaysSound(ttl, a, m);
    assert m'.log == m.log + [UserDeleted(id)];
    assert s.log[|m.log|] == UserDeleted(id);
    assert NoIssueAfter(s.log, |m.log|, id);
  }
}
