/** Refresh tokens over whole histories of authentication calls, each call being one step. */
module Tokens {
  import opened Models
  import opened Sequences
  import Users

  const MIN_PASSWORD: nat := 8
  const VIEWER: string := "viewer"

  /** What happened to tokens, in order. */
  datatype Entry =
    | Issued(token: string, user: string, expires: Time, parent: Option<string>)   // parent: the token replaced, if any
    | Redeemed(token: string, user: string, at: Time)
    | LoggedOut(token: string)
    | PasswordChanged(user: string)
    | UserDeleted(user: string)

  datatype State = State(
    store: Users.State,
    clock: Time,
    tokens: set<string>,      // random tokens ever drawn
    ids: set<string>,         // user ids ever drawn
    log: seq<Entry>)

  const BEGINNING: State := State(Users.EMPTY, ZERO_TIME, {}, {}, [])

  /** `now`, `drawn` and `id` are what the clock and the random generators return during the call. */
  datatype Call =
    | CreateUser(id: string, username: string, password: string, roles: seq<string>, now: Time)
    | UpdateUser(id: string, newRoles: Option<seq<string>>, password: string)
    | DeleteUser(id: string)
    | Login(username: string, password: string, found: Option<string>, drawn: string, now: Time)
    | Refresh(token: string, drawn: string, now: Time)
    | Logout(token: string)

  /** The clock does not run backwards, random values are new, and a lookup by name finds a user of that name if any. */
  predicate Enabled(s: State, c: Call) {
    match c
    case CreateUser(id, _, _, _, now) => id !in s.ids && now >= s.clock
    case Login(username, _, found, drawn, now) =>
      && drawn !in s.tokens && now >= s.clock && now > ZERO_TIME
      && (found.None? <==> !Users.Taken(s.store.users, username))
      && (found.Some? ==> found.value in s.store.users && s.store.users[found.value].username == username)
    case Refresh(_, drawn, now) => drawn !in s.tokens && now >= s.clock && now > ZERO_TIME
    case _ => true
  }

  function Issue(s: State, ttl: nat, user: string, drawn: string, now: Time, parent: Option<string>): State {
    var rt := Users.RefreshToken(Users.Sha256(drawn), user, now + ttl, now);
    s.(store := s.store.(refresh := s.store.refresh[rt.tokenHash := rt]),
       tokens := s.tokens + {drawn}, log := s.log + [Issued(drawn, user, now + ttl, parent)])
  }

  function Drop(s: State, token: string, e: Entry): State {
    s.(store := s.store.(refresh := s.store.refresh - {Users.Sha256(token)}), log := s.log + [e])
  }

  function Redeemable(s: State, token: string, now: Time): Option<Users.RefreshToken> {
    var h := Users.Sha256(token);
    if h in s.store.refresh && !Users.Expired(s.store.refresh[h], now) then Some(s.store.refresh[h]) else None
  }

  function Apply(ttl: nat, s: State, c: Call): State
    requires Enabled(s, c)
  {
    match c
    case CreateUser(id, username, password, roles, now) =>
      if |password| < MIN_PASSWORD then s.(clock := now) else
        var u := Users.User(id, username, Users.Bcrypt(password), if roles == [] then [VIEWER] else roles, now);
        s.(store := Users.Created(s.store, u), ids := s.ids + {id}, clock := now)
    case UpdateUser(id, roles, password) =>
      if id !in s.store.users || 0 < |password| < MIN_PASSWORD then s else
        var u := Users.Edited(s.store.users[id], roles, if password == "" then None else Some(password));
        var written := s.(store := Users.Updated(s.store, u));
        if password == "" then written
        else written.(store := Users.Revoked(written.store, u.id), log := s.log + [PasswordChanged(u.id)])
    case DeleteUser(id) =>
      if id !in s.store.users then s else s.(store := Users.Deleted(s.store, id), log := s.log + [UserDeleted(id)])
    case Login(_, password, found, drawn, now) =>
      var s' := s.(clock := now);
      if found.Some? && s.store.users[found.value].passwordHash == Users.Bcrypt(password)
      then Issue(s', ttl, s.store.users[found.value].id, drawn, now, None)
      else s'
    case Refresh(token, drawn, now) =>
      var s', rt := s.(clock := now), Redeemable(s, token, now);
      if rt.None? then s' else
        var dropped := Drop(s', token, Redeemed(token, rt.value.userId, now));
        if rt.value.userId in s.store.users
        then Issue(dropped, ttl, s.store.users[rt.value.userId].id, drawn, now, Some(token))
        else dropped
    case Logout(token) => Drop(s, token, LoggedOut(token))
  }

  function Exec(ttl: nat, calls: seq<Call>): Option<State> {
    if calls == [] then Some(BEGINNING) else
      var before := Exec(ttl, Front(calls));
      if before.Some? && Enabled(before.value, Last(calls)) then Some(Apply(ttl, before.value, Last(calls))) else None
  }

  // ---------------------------------------------------------------- what a history says about a token

  /** The owner and the expiry of a token that is still good, judging by the history alone. */
  function Standing(log: seq<Entry>, token: string): Option<(string, Time)> {
    if log == [] then None else StandingStep(Standing(Front(log), token), Last(log), token)
  }

  function StandingStep(before: Option<(string, Time)>, e: Entry, token: string): Option<(string, Time)> {
    match e
    case Issued(x, user, expires, _) => if x == token then Some((user, expires)) else before
    case Redeemed(x, _, _) => if x == token then None else before
    case LoggedOut(x) => if x == token then None else before
    case PasswordChanged(user) => if before.Some? && before.value.0 == user then None else before
    case UserDeleted(user) => if before.Some? && before.value.0 == user then None else before
  }

  predicate WasIssued(log: seq<Entry>, token: string) {
    if log == [] then false else (Last(log).Issued? && Last(log).token == token) || WasIssued(Front(log), token)
  }

  lemma StandingAppend(log: seq<Entry>, e: Entry, token: string)
    ensures Standing(log + [e], token) == StandingStep(Standing(log, token), e, token)
    ensures WasIssued(log + [e], token) <==> WasIssued(log, token) || (e.Issued? && e.token == token)
  {
    assert Front(log + [e]) == log;
  }

  /** The token store holds exactly the tokens the history leaves standing. */
  ghost predicate Faithful(s: State) {
    forall token ::
      var h := Users.Sha256(token);
      && (h in s.store.refresh <==> Standing(s.log, token).Some?)
      && (h in s.store.refresh ==>
          Standing(s.log, token) == Some((s.store.refresh[h].userId, s.store.refresh[h].expiresAt)))
  }

  ghost predicate Sound(s: State) {
    && Faithful(s)
    && (forall id :: id in s.store.users ==> s.store.users[id].id == id && id in s.ids)
    && (forall h :: h in s.store.refresh ==>
        s.store.refresh[h].userId in s.store.users && s.store.refresh[h].expiresAt > ZERO_TIME)
    && (forall token :: WasIssued(s.log, token) ==> token in s.tokens)
  }

  /** Only standing, unexpired tokens are redeemed, and only new tokens are issued. */
  ghost predicate Fits(before: seq<Entry>, e: Entry) {
    && (e.Issued? ==> !WasIssued(before, e.token))
    && (e.Redeemed? ==> Standing(before, e.token).Some? && Standing(before, e.token).value.0 == e.user
                        && e.at <= Standing(before, e.token).value.1)
  }

  ghost predicate WellKept(log: seq<Entry>) {
    forall j :: 0 <= j < |log| ==> Fits(log[..j], log[j])
  }

  lemma WellKeptAppend(log: seq<Entry>, e: Entry)
    requires WellKept(log) && Fits(log, e)
    ensures WellKept(log + [e])
  {
    var all := log + [e];
    forall j | 0 <= j < |all| ensures Fits(all[..j], all[j]) {
      assert all[..j] == log[..j];
      assert log[..|log|] == log;
    }
  }

  lemma IssueSound(s: State, ttl: nat, user: string, drawn: string, now: Time, parent: Option<string>)
    requires Sound(s) && WellKept(s.log) && drawn !in s.tokens && user in s.store.users && now > ZERO_TIME
    ensures Sound(Issue(s, ttl, user, drawn, now, parent)) && WellKept(Issue(s, ttl, user, drawn, now, parent).log)
  {
    var e := Issued(drawn, user, now + ttl, parent);
    forall token ensures Standing(s.log + [e], token) == StandingStep(Standing(s.log, token), e, token)
                         && (WasIssued(s.log + [e], token) <==> WasIssued(s.log, token) || token == drawn) {
      StandingAppend(s.log, e, token);
    }
    WellKeptAppend(s.log, e);
  }

  lemma DropSound(s: State, token: string, e: Entry)
    requires Sound(s) && WellKept(s.log) && Fits(s.log, e) && ((e.Redeemed? || e.LoggedOut?) && e.token == token)
    ensures Sound(Drop(s, token, e)) && WellKept(Drop(s, token, e).log)
  {
    forall x ensures Standing(s.log + [e], x) == StandingStep(Standing(s.log, x), e, x)
                     && WasIssued(s.log + [e], x) == WasIssued(s.log, x) {
      StandingAppend(s.log, e, x);
    }
    WellKeptAppend(s.log, e);
  }

  lemma RevokeSound(s: State, s': State, user: string, e: Entry)
    requires Sound(s) && WellKept(s.log) && (e == PasswordChanged(user) || e == UserDeleted(user))
    requires s'.log == s.log + [e] && s'.store.refresh == Users.Revoked(s.store, user).refresh && s'.tokens == s.tokens
    requires s'.ids == s.ids && forall id :: id in s.store.users && id != user ==> id in s'.store.users
    requires forall id :: id in s'.store.users ==> id in s.store.users && s'.store.users[id].id == id
    ensures Sound(s') && WellKept(s'.log)
  {
    forall x ensures Standing(s'.log, x) == StandingStep(Standing(s.log, x), e, x)
                     && WasIssued(s'.log, x) == WasIssued(s.log, x) {
      StandingAppend(s.log, e, x);
    }
    WellKeptAppend(s.log, e);
  }

  lemma UserCallSound(ttl: nat, s: State, c: Call)
    requires Sound(s) && WellKept(s.log) && Enabled(s, c) && (c.CreateUser? || c.UpdateUser? || c.DeleteUser?)
    ensures Sound(Apply(ttl, s, c)) && WellKept(Apply(ttl, s, c).log)
  {
    var s' := Apply(ttl, s, c);
    if s'.log != s.log {
      RevokeSound(s, s', c.id, Last(s'.log));
    }
  }

  lemma TokenCallSound(ttl: nat, s: State, c: Call)
    requires Sound(s) && WellKept(s.log) && Enabled(s, c) && (c.Login? || c.Refresh? || c.Logout?)
    ensures Sound(Apply(ttl, s, c)) && WellKept(Apply(ttl, s, c).log)
  {
    match c
    case Login(_, password, found, drawn, now) =>
      var s' := s.(clock := now);
      assert Sound(s');
      if found.Some? {
        IssueSound(s', ttl, found.value, drawn, now, None);
      }
    case Refresh(token, drawn, now) =>
      var s', rt := s.(clock := now), Redeemable(s, token, now);
      assert Sound(s');
      if rt.Some? {
        var e := Redeemed(token, rt.value.userId, now);
        DropSound(s', token, e);
        IssueSound(Drop(s', token, e), ttl, rt.value.userId, drawn, now, Some(token));
      }
    case Logout(token) => DropSound(s, token, LoggedOut(token));
  }

  /** In every history the store holds exactly the standing tokens, each of an existing user, and the log is well
      kept. */
  lemma {:induction false} AlwaysSound(ttl: nat, calls: seq<Call>, s: State)
    requires Exec(ttl, calls) == Some(s)
    ensures Sound(s) && WellKept(s.log)
  {
    if calls != [] {
      var before, c := Exec(ttl, Front(calls)).value, Last(calls);
      AlwaysSound(ttl, Front(calls), before);
      if c.CreateUser? || c.UpdateUser? || c.DeleteUser? {
        UserCallSound(ttl, before, c);
      } else {
        TokenCallSound(ttl, before, c);
      }
    }
  }

  // ---------------------------------------------------------------- what well-kept histories guarantee

  predicate Kills(e: Entry, token: string, user: string) {
    match e
    case Redeemed(x, _, _) => x == token
    case LoggedOut(x) => x == token
    case PasswordChanged(u) => u == user
    case UserDeleted(u) => u == user
    case Issued(_, _, _, _) => false
  }

  lemma {:induction false} StandingWasIssued(log: seq<Entry>, token: string)
    requires Standing(log, token).Some?
    ensures WasIssued(log, token)
  {
    if !(Last(log).Issued? && Last(log).token == token) {
      StandingWasIssued(Front(log), token);
    }
  }

  /** A token, once gone, does not come back. */
  lemma {:induction false} NoRevival(log: seq<Entry>, i: nat, j: nat, token: string)
    requires i <= j <= |log| && WellKept(log) && WasIssued(log[..i], token) && Standing(log[..i], token).None?
    ensures WasIssued(log[..j], token) && Standing(log[..j], token).None?
  {
    if i < j {
      NoRevival(log, i, j - 1, token);
      assert Fits(log[..j - 1], log[j - 1]);
      assert log[..j] == log[..j - 1] + [log[j - 1]];
      StandingAppend(log[..j - 1], log[j - 1], token);
    }
  }

  /** From its issue on, a token stands for the user it was issued to or not at all. */
  lemma {:induction false} OwnerFixed(log: seq<Entry>, k: nat, j: nat, token: string)
    requires k < j <= |log| && WellKept(log) && log[k].Issued? && log[k].token == token
    ensures WasIssued(log[..j], token)
    ensures Standing(log[..j], token).Some? ==> Standing(log[..j], token).value == (log[k].user, log[k].expires)
  {
    assert log[..j] == log[..j - 1] + [log[j - 1]];
    StandingAppend(log[..j - 1], log[j - 1], token);
    if k < j - 1 {
      OwnerFixed(log, k, j - 1, token);
      assert Fits(log[..j - 1], log[j - 1]);
    }
  }

  lemma KilledIsGone(log: seq<Entry>, k: nat, i: nat, token: string)
    requires k < i < |log| && WellKept(log) && log[k].Issued? && log[k].token == token
             && Kills(log[i], token, log[k].user)
    ensures WasIssued(log[..i + 1], token) && Standing(log[..i + 1], token).None?
  {
    OwnerFixed(log, k, i, token);
    assert log[..i + 1] == log[..i] + [log[i]];
    StandingAppend(log[..i], log[i], token);
  }

  /** No token is redeemed after it was redeemed or logged out, or after its user changed password or was deleted. */
  lemma NeverRedeemedAfter(ttl: nat, calls: seq<Call>, s: State, k: nat, i: nat, j: nat, token: string)
    requires Exec(ttl, calls) == Some(s) && k < i < j < |s.log|
    requires s.log[k].Issued? && s.log[k].token == token && Kills(s.log[i], token, s.log[k].user)
    ensures !(s.log[j].Redeemed? && s.log[j].token == token)
  {
    AlwaysSound(ttl, calls, s);
    KilledIsGone(s.log, k, i, token);
    NoRevival(s.log, i + 1, j, token);
    assert Fits(s.log[..j], s.log[j]);
  }

  lemma {:induction false} FindIssue(log: seq<Entry>, j: nat, token: string) returns (k: nat)
    requires j <= |log| && WasIssued(log[..j], token)
    ensures k < j && log[k].Issued? && log[k].token == token
  {
    assert Front(log[..j]) == log[..j - 1];
    if Last(log[..j]).Issued? && Last(log[..j]).token == token {
      k := j - 1;
    } else {
      k := FindIssue(log, j - 1, token);
    }
  }

  /** Every redemption is of a token issued before to that user, no later than its expiry, and nothing in between had
      ended it. */
  lemma RedemptionsJustified(ttl: nat, calls: seq<Call>, s: State, j: nat) returns (k: nat)
    requires Exec(ttl, calls) == Some(s) && j < |s.log| && s.log[j].Redeemed?
    ensures k < j && s.log[k].Issued? && s.log[k].token == s.log[j].token && s.log[k].user == s.log[j].user
    ensures s.log[j].at <= s.log[k].expires
    ensures forall i :: k < i < j ==> !Kills(s.log[i], s.log[j].token, s.log[j].user)
  {
    AlwaysSound(ttl, calls, s);
    var token := s.log[j].token;
    assert Fits(s.log[..j], s.log[j]);
    StandingWasIssued(s.log[..j], token);
    k := FindIssue(s.log, j, token);
    OwnerFixed(s.log, k, j, token);
    forall i | k < i < j ensures !Kills(s.log[i], token, s.log[j].user) {
      if Kills(s.log[i], token, s.log[k].user) {
        NeverRedeemedAfter(ttl, calls, s, k, i, j, token);
      }
    }
  }

  /** Each token is redeemed at most once. */
  lemma RedeemedOnce(ttl: nat, calls: seq<Call>, s: State, i: nat, j: nat)
    requires Exec(ttl, calls) == Some(s) && i <= j < |s.log|
    requires s.log[i].Redeemed? && s.log[j].Redeemed? && s.log[i].token == s.log[j].token
    ensures i == j
  {
    var k := RedemptionsJustified(ttl, calls, s, i);
    if i < j {
      NeverRedeemedAfter(ttl, calls, s, k, i, j, s.log[i].token);
    }
  }

  // ---------------------------------------------------------------- lineage

  /** The token a login began with, from which this one descends by rotation. */
  function Origin(log: seq<Entry>, token: string): string {
    if log == [] then token
    else if Last(log).Issued? && Last(log).token == token && Last(log).parent.Some?
    then Origin(Front(log), Last(log).parent.value)
    else Origin(Front(log), token)
  }

  lemma OriginAppend(log: seq<Entry>, e: Entry, token: string)
    ensures Origin(log + [e], token)
         == if e.Issued? && e.token == token && e.parent.Some? then Origin(log, e.parent.value) else Origin(log, token)
  {
    assert Front(log + [e]) == log;
  }

  lemma {:induction false} OriginOfNew(log: seq<Entry>, token: string)
    requires !WasIssued(log, token)
    ensures Origin(log, token) == token
  {
    if log != [] {
      OriginOfNew(Front(log), token);
    }
  }

  ghost predicate OneLiveEach(s: State) {
    && (forall x, y :: Standing(s.log, x).Some? && Standing(s.log, y).Some? && Origin(s.log, x) == Origin(s.log, y) ==>
        x == y)
    && (forall x :: Standing(s.log, x).Some? ==> Origin(s.log, x) in s.tokens)
  }

  /** Rotation, or a login: the new token takes its parent's place, or starts a line of its own. */
  lemma IssueOneLive(s: State, ttl: nat, user: string, drawn: string, now: Time, parent: Option<string>)
    requires OneLiveEach(s) && Sound(s) && drawn !in s.tokens
    requires parent.Some? ==> Origin(s.log, parent.value) in s.tokens
                              && forall x :: Standing(s.log, x).Some? ==>
                                  Origin(s.log, x) != Origin(s.log, parent.value)
    ensures OneLiveEach(Issue(s, ttl, user, drawn, now, parent))
  {
    var e := Issued(drawn, user, now + ttl, parent);
    OriginOfNew(s.log, drawn);
    forall x ensures Standing(s.log + [e], x) == StandingStep(Standing(s.log, x), e, x)
                     && (x != drawn ==> Origin(s.log + [e], x) == Origin(s.log, x))
                     && (x == drawn ==> Origin(s.log + [e], x) == if parent.Some? then Origin(s.log, parent.value)
                         else drawn) {
      StandingAppend(s.log, e, x);
      OriginAppend(s.log, e, x);
    }
  }

  /** Ending tokens cannot give a login a second live one. */
  lemma LossOneLive(s: State, s': State, e: Entry)
    requires OneLiveEach(s) && s'.log == s.log + [e] && !e.Issued? && s.tokens <= s'.tokens
    ensures OneLiveEach(s')
  {
    forall x ensures (Standing(s'.log, x).Some? ==> Standing(s.log, x).Some?) && Origin(s'.log, x) == Origin(s.log, x) {
      StandingAppend(s.log, e, x);
      OriginAppend(s.log, e, x);
    }
  }

  lemma RefreshOneLive(s: State, ttl: nat, token: string, user: string, drawn: string, now: Time)
    requires OneLiveEach(s) && Sound(s) && WellKept(s.log) && drawn !in s.tokens && Standing(s.log, token).Some?
    requires Fits(s.log, Redeemed(token, user, now))
    ensures OneLiveEach(Drop(s, token, Redeemed(token, user, now)))
    ensures OneLiveEach(Issue(Drop(s, token, Redeemed(token, user, now)), ttl, user, drawn, now, Some(token)))
  {
    var e := Redeemed(token, user, now);
    var dropped := Drop(s, token, e);
    LossOneLive(s, dropped, e);
    DropSound(s, token, e);
    forall x ensures Origin(dropped.log, x) == Origin(s.log, x)
                     && (Standing(dropped.log, x).Some? ==> Standing(s.log, x).Some? && x != token) {
      StandingAppend(s.log, e, x);
      OriginAppend(s.log, e, x);
    }
    IssueOneLive(dropped, ttl, user, drawn, now, Some(token));
  }

  lemma CallOneLive(ttl: nat, s: State, c: Call)
    requires OneLiveEach(s) && Sound(s) && WellKept(s.log) && Enabled(s, c)
    ensures OneLiveEach(Apply(ttl, s, c))
  {
    var s' := Apply(ttl, s, c);
    if c.Login? {
      if s'.log != s.log {
        var s1 := s.(clock := c.now);
        assert Sound(s1) && OneLiveEach(s1);
        IssueOneLive(s1, ttl, s.store.users[c.found.value].id, c.drawn, c.now, None);
      }
    } else if c.Refresh? {
      var rt := Redeemable(s, c.token, c.now);
      if rt.Some? {
        var s1 := s.(clock := c.now);
        assert Sound(s1) && OneLiveEach(s1);
        RefreshOneLive(s1, ttl, c.token, rt.value.userId, c.drawn, c.now);
      }
    } else if s'.log != s.log {
      LossOneLive(s, s', Last(s'.log));
    }
  }

  /** Every login has at most one live token descending from it, and every stored token an existing owner. */
  lemma {:induction false} OneLivePerLogin(ttl: nat, calls: seq<Call>, s: State)
    requires Exec(ttl, calls) == Some(s)
    ensures OneLiveEach(s)
    ensures forall h :: h in s.store.refresh ==> s.store.refresh[h].userId in s.store.users
    ensures forall x, y :: Users.Sha256(x) in s.store.refresh && Users.Sha256(y) in s.store.refresh && x != y ==>
              Origin(s.log, x) != Origin(s.log, y)
  {
    if calls != [] {
      var before := Exec(ttl, Front(calls)).value;
      OneLivePerLogin(ttl, Front(calls), before);
      AlwaysSound(ttl, Front(calls), before);
      CallOneLive(ttl, before, Last(calls));
    }
    AlwaysSound(ttl, calls, s);
  }

  // ---------------------------------------------------------------- the service as an object

  /** A state seen only through its store, at a given time. */
  function At(store: Users.State, now: Time): State {
    State(store, now, {}, {}, [])
  }

  class AuthService {
    const users: Users.MemoryUsers
    const refreshTTL: nat

    constructor (users: Users.MemoryUsers, refreshTTL: int)
      ensures this.users == users
      ensures this.refreshTTL == if refreshTTL <= 0 then 7 * 24 * 3_600_000_000_000 else refreshTTL
    {
      this.users := users;
      this.refreshTTL := if refreshTTL <= 0 then 7 * 24 * 3_600_000_000_000 else refreshTTL;
    }

    ghost predicate Keyed()
      reads users
    {
      forall id :: id in users.users ==> users.users[id].id == id
    }

    method CreateUser(id: string, username: string, password: string, roles: seq<string>, now: Time) returns (ok: bool)
      requires Keyed()
      modifies users
      ensures users.View() == Apply(refreshTTL, At(old(users.View()), now),
                                    Call.CreateUser(id, username, password, roles, now)).store
      ensures ok == (|password| >= MIN_PASSWORD && !Users.Taken(old(users.users), username)) && Keyed()
    {
      if |password| < MIN_PASSWORD {
        return false;
      }
      var granted := roles;
      if |granted| == 0 {
        granted := [VIEWER];
      }
      ok := users.CreateUser(Users.User(id, username, Users.Bcrypt(password), granted, now));
    }

    /** Creates the user only when the name is free; afterwards it is taken, unless the password was too short. */
    method EnsureUser(id: string, username: string, password: string, roles: seq<string>, now: Time)
      returns (created: bool)
      requires Keyed()
      modifies users
      ensures created == (!Users.Taken(old(users.users), username) && |password| >= MIN_PASSWORD)
      ensures Users.Taken(users.users, username) <==> Users.Taken(old(users.users), username) || created
      ensures users.View() == if Users.Taken(old(users.users), username) then old(users.View()) else
                Apply(refreshTTL, At(old(users.View()), now), Call.CreateUser(id, username, password, roles, now)).store
      ensures Keyed()
    {
      var u := users.GetUserByUsername(username);
      if u.Some? {
        return false;
      }
      created := CreateUser(id, username, password, roles, now);
      assert created ==> id in users.users && users.users[id].username == username;
    }

    method UpdateUser(id: string, roles: Option<seq<string>>, password: string) returns (ok: bool)
      requires Keyed()
      modifies users
      ensures users.View() == Apply(refreshTTL, At(old(users.View()), ZERO_TIME),
                                    Call.UpdateUser(id, roles, password)).store
      ensures ok == (id in old(users.users) && (password == "" || |password| >= MIN_PASSWORD)) && Keyed()
    {
      var found := users.GetUserByID(id);
      if found.None? {
        return false;
      }
      var u := found.value;
      if roles.Some? {
        u := u.(roles := roles.value);
      }
      if password != "" {
        if |password| < MIN_PASSWORD {
          return false;
        }
        u := u.(passwordHash := Users.Bcrypt(password));
      }
      ok := users.UpdateUser(u);
      if ok && password != "" {
        users.DeleteUserRefreshTokens(u.id);
      }
    }

    method DeleteUser(id: string) returns (ok: bool)
      modifies users
      ensures users.View() == Apply(refreshTTL, At(old(users.View()), ZERO_TIME), Call.DeleteUser(id)).store
      ensures ok == (id in old(users.users))
    {
      ok := users.DeleteUser(id);
    }

    method Login(username: string, password: string, drawn: string, now: Time)
      returns (token: Option<string>, ghost found: Option<string>)
      requires Keyed() && now > ZERO_TIME
      modifies users
      ensures Enabled(At(old(users.View()), now), Call.Login(username, password, found, drawn, now))
      ensures users.View() == Apply(refreshTTL, At(old(users.View()), now),
                                    Call.Login(username, password, found, drawn, now)).store
      ensures token == if found.Some?
              && old(users.users)[found.value].passwordHash == Users.Bcrypt(password) then Some(drawn) else None
    {
      var u := users.GetUserByUsername(username);
      if u.None? {
        return None, None;
      }
      found := Some(u.value.id);
      if u.value.passwordHash != Users.Bcrypt(password) {
        return None, found;
      }
      token := IssueTokens(u.value, drawn, now);
    }

    method Refresh(presented: string, drawn: string, now: Time) returns (token: Option<string>)
      requires Keyed() && now > ZERO_TIME
      modifies users
      ensures users.View() == Apply(refreshTTL, At(old(users.View()), now), Call.Refresh(presented, drawn, now)).store
      ensures token == var rt := Redeemable(At(old(users.View()), now), presented, now);
                       if rt.Some? && rt.value.userId in old(users.users) then Some(drawn) else None
    {
      var h := Users.Sha256(presented);
      var rt := users.GetRefreshToken(h, now);
      if rt.None? {
        return None;
      }
      users.DeleteRefreshToken(h);
      var u := users.GetUserByID(rt.value.userId);
      if u.None? {
        return None;
      }
      token := IssueTokens(u.value, drawn, now);
    }

    method Logout(presented: string)
      modifies users
      ensures users.View() == Apply(refreshTTL, At(old(users.View()), ZERO_TIME), Call.Logout(presented)).store
    {
      users.DeleteRefreshToken(Users.Sha256(presented));
    }

    method IssueTokens(u: Users.User, drawn: string, now: Time) returns (token: Option<string>)
      modifies users
      ensures users.View() == Issue(At(old(users.View()), now), refreshTTL, u.id, drawn, now, None).store
              && token == Some(drawn)
      ensures var h := Users.Sha256(drawn);
              users.refresh == old(users.refresh)[h := Users.RefreshToken(h, u.id, now + refreshTTL, now)]
    {
      users.StoreRefreshToken(Users.RefreshToken(Users.Sha256(drawn), u.id, now + refreshTTL, now));
      token := Some(drawn);
    }
  }
}
