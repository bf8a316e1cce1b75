/** Users and refresh tokens in memory, and what survives when service calls interleave between their store calls. */
module Users {
  import opened Models
  import opened Sequences

  /** Hashing is taken to be injective, and a bcrypt comparison to succeed exactly on the hashed password. */
  datatype PasswordHash = Bcrypt(password: string)

  datatype TokenHash = Sha256(token: string)

  datatype User = User(id: string, username: string, passwordHash: PasswordHash, roles: seq<string>, createdAt: Time)

  datatype RefreshToken = RefreshToken(tokenHash: TokenHash, userId: string, expiresAt: Time, createdAt: Time)

  datatype State = State(users: map<string, User>, refresh: map<TokenHash, RefreshToken>)

  const EMPTY: State := State(map[], map[])

  predicate Taken(users: map<string, User>, username: string) {
    exists id :: id in users && users[id].username == username
  }

  function Created(s: State, u: User): State {
    if Taken(s.users, u.username) then s else s.(users := s.users[u.id := u])
  }

  function Updated(s: State, u: User): State {
    if u.id in s.users then s.(users := s.users[u.id := u]) else s
  }

  function Revoked(s: State, id: string): State {
    s.(refresh := map h | h in s.refresh && s.refresh[h].userId != id :: s.refresh[h])
  }

  function Deleted(s: State, id: string): State {
    if id in s.users then Revoked(s.(users := s.users - {id}), id) else s
  }

  predicate Expired(rt: RefreshToken, now: Time) {
    rt.expiresAt != ZERO_TIME && now > rt.expiresAt
  }

  // ---------------------------------------------------------------- the store as an object

  class MemoryUsers {
    var users: map<string, User>
    var refresh: map<TokenHash, RefreshToken>

    function View(): State
      reads this
    {
      State(users, refresh)
    }

    constructor ()
      ensures View() == EMPTY
    {
      users, refresh := map[], map[];
    }

    method CreateUser(u: User) returns (ok: bool)
      modifies this
      ensures ok == !Taken(old(users), u.username) && View() == Created(old(View()), u)
    {
      var rest := users.Keys;
      while rest != {}
        invariant rest <= users.Keys
        invariant forall id :: id in users.Keys - rest ==> users[id].username != u.username
      {
        var id :| id in rest;
        if users[id].username == u.username {
          return false;
        }
        rest := rest - {id};
      }
      users := users[u.id := u];
      return true;
    }

    method GetUserByUsername(username: string) returns (r: Option<User>)
      ensures r.None? <==> !Taken(users, username)
      ensures r.Some? ==> r.value.username == username && exists id :: id in users && users[id] == r.value
    {
      var rest := users.Keys;
      while rest != {}
        invariant rest <= users.Keys
        invariant forall id :: id in users.Keys - rest ==> users[id].username != username
      {
        var id :| id in rest;
        if users[id].username == username {
          return Some(users[id]);
        }
        rest := rest - {id};
      }
      return None;
    }

    method GetUserByID(id: string) returns (r: Option<User>)
      ensures r == if id in users then Some(users[id]) else None
    {
      if id in users {
        return Some(users[id]);
      }
      return None;
    }

    method UpdateUser(u: User) returns (ok: bool)
      modifies this
      ensures ok == (u.id in old(users)) && View() == Updated(old(View()), u)
    {
      if u.id !in users {
        return false;
      }
      users := users[u.id := u];
      return true;
    }

    method DeleteUser(id: string) returns (ok: bool)
      modifies this
      ensures ok == (id in old(users)) && View() == Deleted(old(View()), id)
      ensures id !in users && forall x :: x != id ==> (x in users <==> x in old(users))
                                                      && (x in users ==> users[x] == old(users)[x])
    {
      if id !in users {
        return false;
      }
      users := users - {id};
      DeleteUserRefreshTokens(id);
      return true;
    }

    method StoreRefreshToken(rt: RefreshToken)
      modifies this
      ensures View() == old(View()).(refresh := old(refresh)[rt.tokenHash := rt])
    {
      refresh := refresh[rt.tokenHash := rt];
    }

    method GetRefreshToken(h: TokenHash, now: Time) returns (r: Option<RefreshToken>)
      ensures r.Some? <==> h in refresh && (refresh[h].expiresAt == ZERO_TIME || now <= refresh[h].expiresAt)
      ensures r.Some? ==> r.value == refresh[h]
    {
      if h !in refresh || (refresh[h].expiresAt != ZERO_TIME && now > refresh[h].expiresAt) {
        return None;
      }
      return Some(refresh[h]);
    }

    method DeleteRefreshToken(h: TokenHash)
      modifies this
      ensures View() == old(View()).(refresh := old(refresh) - {h})
    {
      refresh := refresh - {h};
    }

    /** Deletes while iterating. */
    method DeleteUserRefreshTokens(id: string)
      modifies this
      ensures View() == Revoked(old(View()), id)
    {
      var rest := refresh.Keys;
      while rest != {}
        invariant rest <= refresh.Keys <= old(refresh.Keys) && users == old(users)
        invariant forall h :: h in old(refresh) && h !in rest ==> (h in refresh <==> old(refresh)[h].userId != id)
        invariant forall h :: h in refresh ==> refresh[h] == old(refresh)[h]
      {
        var h :| h in rest;
        if refresh[h].userId == id {
          refresh := refresh - {h};
        }
        rest := rest - {h};
      }
    }
  }

  // ---------------------------------------------------------------- interleaved service calls

  /** A service call between two of its store calls. */
  datatype Pending =
    | Ensuring(username: string)                    // EnsureUser has looked and not found
    | Writing(copy: User, revoke: bool)             // UpdateUser holds its edited copy of the record it read
    | Revoking(id: string)                          // and has written it, with a new password

  /** The store, the calls in progress, and the username each id was created with. */
  datatype World = World(store: State, pending: map<nat, Pending>, created: map<string, string>)

  const BEGINNING: World := World(EMPTY, map[], map[])

  datatype Label =
    | Create(user: User)                            // CreateUser, one store call
    | EnsureLook(call: nat, username: string)
    | EnsureCreate(call: nat, user: User)
    | UpdateRead(call: nat, id: string, roles: Option<seq<string>>, password: Option<string>)
    | UpdateWrite(call: nat)
    | UpdateRevoke(call: nat)
    | Delete(id: string)

  predicate Enabled(w: World, l: Label) {
    match l
    case Create(u) => u.id !in w.created                                // ids are fresh UUIDs
    case EnsureLook(c, _) => c !in w.pending
    case EnsureCreate(c, u) =>
      c in w.pending && w.pending[c].Ensuring? && u.username == w.pending[c].username && u.id !in w.created
    case UpdateRead(c, _, _, _) => c !in w.pending
    case UpdateWrite(c) => c in w.pending && w.pending[c].Writing?
    case UpdateRevoke(c) => c in w.pending && w.pending[c].Revoking?
    case Delete(_) => true
  }

  /** The edits UpdateUser makes to its copy. */
  function Edited(u: User, roles: Option<seq<string>>, password: Option<string>): User {
    u.(roles := if roles.Some? then roles.value else u.roles,
       passwordHash := if password.Some? then Bcrypt(password.value) else u.passwordHash)
  }

  function Born(w: World, u: User): World {
    World(Created(w.store, u), w.pending,
          if Taken(w.store.users, u.username) then w.created else w.created[u.id := u.username])
  }

  function Apply(w: World, l: Label): World
    requires Enabled(w, l)
  {
    match l
    case Create(u) => Born(w, u)
    case EnsureLook(c, username) =>
      if Taken(w.store.users, username) then w else w.(pending := w.pending[c := Ensuring(username)])
    case EnsureCreate(c, u) => Born(w, u).(pending := w.pending - {c})
    case UpdateRead(c, id, roles, password) =>
      if id !in w.store.users then w
      else w.(pending := w.pending[c := Writing(Edited(w.store.users[id], roles, password), password.Some?)])
    case UpdateWrite(c) =>
      var p := w.pending[c];
      w.(store := Updated(w.store, p.copy),
         pending := if p.copy.id in w.store.users && p.revoke then w.pending[c := Revoking(p.copy.id)]
             else w.pending - {c})
    case UpdateRevoke(c) => w.(store := Revoked(w.store, w.pending[c].id), pending := w.pending - {c})
    case Delete(id) => w.(store := Deleted(w.store, id))
  }

  function Exec(w0: World, run: seq<Label>): Option<World> {
    if run == [] then Some(w0) else
      var before := Exec(w0, Front(run));
      if before.Some? && Enabled(before.value, Last(run)) then Some(Apply(before.value, Last(run))) else None
  }

  ghost predicate UniqueNames(users: map<string, User>) {
    forall i, j :: i in users && j in users && users[i].username == users[j].username ==> i == j
  }

  /** Records and in-flight copies alike carry the name their id was created with; no two users share one. */
  ghost predicate Named(w: World) {
    && (forall id :: id in w.store.users ==> id in w.created && w.store.users[id].id == id
                                             && w.store.users[id].username == w.created[id])
    && (forall c :: c in w.pending && w.pending[c].Writing? ==>
          w.pending[c].copy.id in w.created && w.pending[c].copy.username == w.created[w.pending[c].copy.id])
    && UniqueNames(w.store.users)
  }

  lemma BornNamed(w: World, u: User)
    requires Named(w) && u.id !in w.created
    ensures Named(Born(w, u)) && forall id :: id in w.created ==>
            id in Born(w, u).created && Born(w, u).created[id] == w.created[id]
  {
  }

  /** A copy overwrites a record with the very name it had. */
  lemma WriteNamed(w: World, c: nat)
    requires Named(w) && Enabled(w, UpdateWrite(c))
    ensures Named(Apply(w, UpdateWrite(c)))
  {
  }

  lemma NamedStep(w: World, l: Label)
    requires Named(w) && Enabled(w, l)
    ensures Named(Apply(w, l))
    ensures forall id :: id in w.created ==> id in Apply(w, l).created && Apply(w, l).created[id] == w.created[id]
  {
    match l
    case Create(u) => BornNamed(w, u);
    case EnsureCreate(_, u) => BornNamed(w, u);
    case UpdateWrite(c) => WriteNamed(w, c);
    case _ =>
  }

  lemma {:induction false} NamesKept(w0: World, run: seq<Label>, w: World)
    requires Named(w0) && Exec(w0, run) == Some(w)
    ensures Named(w)
    ensures forall id :: id in w0.created ==> id in w.created && w.created[id] == w0.created[id]
  {
    if run != [] {
      var before := Exec(w0, Front(run)).value;
      NamesKept(w0, Front(run), before);
      NamedStep(before, Last(run));
    }
  }

  /** However the calls interleave, usernames are unique and an id keeps the name it has, although updates overwrite
      whole records from copies that may be stale. */
  lemma UsernamesUniqueAndStable(run: seq<Label>, w: World, more: seq<Label>, w': World)
    requires Exec(BEGINNING, run) == Some(w) && Exec(w, more) == Some(w')
    ensures UniqueNames(w'.store.users)
    ensures forall id :: id in w.store.users && id in w'.store.users ==>
              w'.store.users[id].username == w.store.users[id].username
  {
    NamesKept(BEGINNING, run, w);
    NamesKept(w, more, w');
  }

  // ---------------------------------------------------------------- deletion

  /** The id was drawn and is not in the store. */
  ghost predicate Gone(w: World, id: string) {
    Named(w) && id in w.created && id !in w.store.users
  }

  lemma {:induction false} StaysGone(w: World, more: seq<Label>, w': World, id: string)
    requires Gone(w, id) && Exec(w, more) == Some(w')
    ensures Gone(w', id)
  {
    if more != [] {
      StaysGone(w, Front(more), Exec(w, Front(more)).value, id);
      NamedStep(Exec(w, Front(more)).value, Last(more));
    }
  }

  /** A deleted user does not come back, whatever updates still hold copies of the record. */
  lemma DeletedForGood(run: seq<Label>, w: World, id: string, more: seq<Label>, w': World)
    requires Exec(BEGINNING, run) == Some(w) && id in w.store.users
    requires Exec(w, [Delete(id)] + more) == Some(w')
    ensures id !in w'.store.users
  {
    NamesKept(BEGINNING, run, w);
    NamedStep(w, Delete(id));
    var m := ExecSplit(w, [Delete(id)], more);
    assert Front([Delete(id)]) == [];
    StaysGone(m, more, w', id);
  }

  lemma {:induction false} ExecSplit(w0: World, a: seq<Label>, b: seq<Label>) returns (m: World)
    requires Exec(w0, a + b).Some?
    ensures Exec(w0, a) == Some(m) && Exec(m, b) == Exec(w0, a + b)
  {
    if b == [] {
      assert a + b == a;
      m := Exec(w0, a).value;
    } else {
      assert Front(a + b) == a + Front(b) && Last(a + b) == Last(b);
      m := ExecSplit(w0, a, Front(b));
    }
  }

  /** Whose record a step can touch. */
  predicate Concerns(w: World, l: Label, id: string)
    requires Enabled(w, l)
  {
    match l
    case Create(u) => u.id == id
    case EnsureCreate(_, u) => u.id == id
    case UpdateWrite(c) => w.pending[c].copy.id == id
    case Delete(x) => x == id
    case _ => false
  }

  /** Every other user keeps its record. */
  lemma OthersUntouched(w: World, l: Label, id: string)
    requires Enabled(w, l) && !Concerns(w, l, id)
    ensures id in Apply(w, l).store.users <==> id in w.store.users
    ensures id in w.store.users ==> Apply(w, l).store.users[id] == w.store.users[id]
  {
  }

  // ---------------------------------------------------------------- what a creation does

  /** A creation adds just that user if nobody has the name, and otherwise nothing. */
  lemma CreationAdds(w: World, l: Label)
    requires Enabled(w, l) && (l.Create? || l.EnsureCreate?)
    ensures var users, u := w.store.users, l.user;
            Apply(w, l).store.users
            == if forall id :: id in users ==> users[id].username != u.username then users[u.id := u] else users
  {
  }

  /** EnsureUser, alone: afterwards somebody has the name, and whoever had one before has it still. */
  lemma EnsuredName(w: World, c: nat, u: User) returns (run: seq<Label>, w': World)
    requires c !in w.pending && u.id !in w.created && u.id !in w.store.users
    ensures Exec(w, run) == Some(w') && w'.pending == w.pending
    ensures exists id :: id in w'.store.users && w'.store.users[id].username == u.username
    ensures forall id :: id in w.store.users ==> id in w'.store.users && w'.store.users[id] == w.store.users[id]
  {
    run, w' := Extend(w, [], w, EnsureLook(c, u.username));
    if !Taken(w.store.users, u.username) {
      run, w' := Extend(w, run, w', EnsureCreate(c, u));
      assert u.id in w'.store.users && w'.store.users[u.id].username == u.username;
    }
  }

  // ---------------------------------------------------------------- what an update does

  /** The update in progress holds these edits of this user's record. */
  ghost predicate HoldsEdits(w: World, c: nat, id: string, roles: Option<seq<string>>, password: Option<string>) {
    && c in w.pending && w.pending[c].Writing? && w.pending[c].copy.id == id
    && (roles.Some? ==> w.pending[c].copy.roles == roles.value)
    && (password.Some? ==> w.pending[c].copy.passwordHash == Bcrypt(password.value))
  }

  lemma {:induction false} EditsHeld(w: World, more: seq<Label>, w': World, c: nat, id: string,
                                     roles: Option<seq<string>>, password: Option<string>)
    requires HoldsEdits(w, c, id, roles, password) && Exec(w, more) == Some(w') && UpdateWrite(c) !in more
    ensures HoldsEdits(w', c, id, roles, password)
  {
    if more != [] {
      EditsHeld(w, Front(more), Exec(w, Front(more)).value, c, id, roles, password);
      assert Last(more) in more && Front(more) + [Last(more)] == more;
    }
  }

  /** Whatever happens between its read and its write, an update leaves the user, unless deleted meanwhile, with the
      roles and the password it was given. */
  lemma UpdateTakesEffect(run: seq<Label>, w: World, c: nat, id: string, roles: Option<seq<string>>,
                          password: Option<string>, between: seq<Label>, w': World)
    requires Exec(BEGINNING, run) == Some(w) && id in w.store.users
    requires Exec(w, [UpdateRead(c, id, roles, password)] + between + [UpdateWrite(c)]) == Some(w')
    requires UpdateWrite(c) !in between && id in w'.store.users
    ensures roles.Some? ==> w'.store.users[id].roles == roles.value
    ensures password.Some? ==> w'.store.users[id].passwordHash == Bcrypt(password.value)
  {
    NamesKept(BEGINNING, run, w);
    var read, write := [UpdateRead(c, id, roles, password)], [UpdateWrite(c)];
    var m := ExecSplit(w, read + between, write);
    var m1 := ExecSplit(w, read, between);
    assert Front(read) == [] && Front(write) == [];
    assert Exec(w, Front(read)) == Some(w) && Exec(m, Front(write)) == Some(m);
    EditsHeld(m1, between, m, c, id, roles, password);
  }

  lemma Extend(w0: World, run: seq<Label>, w: World, l: Label) returns (run': seq<Label>, w': World)
    requires Exec(w0, run) == Some(w) && Enabled(w, l)
    ensures run' == run + [l] && w' == Apply(w, l) && Exec(w0, run') == Some(w')
  {
    run', w' := run + [l], Apply(w, l);
    assert Front(run') == run;
  }

  /** A password change that reads, writes and revokes while another call holds a copy of the record. */
  lemma PasswordChange(w0: World, run0: seq<Label>, w: World, id: string, b: nat, password: string)
    returns (run: seq<Label>, w': World)
    requires Exec(w0, run0) == Some(w) && id in w.store.users && w.store.users[id].id == id && b !in w.pending
    ensures run0 + [UpdateRead(b, id, None, Some(password))] <= run && Exec(w0, run) == Some(w')
    ensures w'.store.users == w.store.users[id := Edited(w.store.users[id], None, Some(password))]
    ensures w'.pending == w.pending && w'.created == w.created
  {
    run, w' := Extend(w0, run0, w, UpdateRead(b, id, None, Some(password)));
    run, w' := Extend(w0, run, w', UpdateWrite(b));
    assert w'.pending[b] == Revoking(id);
    run, w' := Extend(w0, run, w', UpdateRevoke(b));
  }

  /** The rest of the record is not so safe: a role change that read before a password change and writes after it puts
      the old password back, although the password change has finished. */
  lemma StaleCopyRestoresPassword(w: World, id: string, a: nat, b: nat, roles: seq<string>, password: string)
    returns (run: seq<Label>, w': World)
    requires id in w.store.users && w.store.users[id].id == id && a !in w.pending && b !in w.pending && a != b
    ensures Exec(w, run) == Some(w') && UpdateRead(b, id, None, Some(password)) in run
    ensures id in w'.store.users && w'.store.users[id] == w.store.users[id].(roles := roles)
    ensures w'.pending == w.pending
  {
    run, w' := Extend(w, [], w, UpdateRead(a, id, Some(roles), None));
    ghost var prefix := run + [UpdateRead(b, id, None, Some(password))];
    run, w' := PasswordChange(w, run, w', id, b, password);
    assert prefix[1] in run;
    run, w' := Extend(w, run, w', UpdateWrite(a));
  }

  // ---------------------------------------------------------------- when a password holds

  /** No call reads the user's record in order to give it a new password. */
  ghost predicate NoNewPassword(run: seq<Label>, id: string) {
    forall i :: 0 <= i < |run| ==> !(run[i].UpdateRead? && run[i].id == id && run[i].password.Some?)
  }

  /** Whatever happens short of that, as long as the user exists its password hash is this one. */
  ghost predicate PasswordHolds(w: World, id: string, hash: PasswordHash) {
    forall more: seq<Label> ::
      Exec(w, more).Some? && NoNewPassword(more, id) && id in Exec(w, more).value.store.users ==>
        Exec(w, more).value.store.users[id].passwordHash == hash
  }

  /** Every update in progress that holds a copy of the user's record holds this hash. */
  ghost predicate CopiesCarry(w: World, id: string, hash: PasswordHash) {
    forall c :: c in w.pending && w.pending[c].Writing? && w.pending[c].copy.id == id ==>
           w.pending[c].copy.passwordHash == hash
  }

  ghost predicate Keeps(w: World, id: string, hash: PasswordHash) {
    && Named(w) && id in w.created && CopiesCarry(w, id, hash)
    && (id in w.store.users ==> w.store.users[id].passwordHash == hash)
  }

  lemma KeepsStep(w: World, l: Label, id: string, hash: PasswordHash)
    requires Keeps(w, id, hash) && Enabled(w, l) && !(l.UpdateRead? && l.id == id && l.password.Some?)
    ensures Keeps(Apply(w, l), id, hash)
  {
    NamedStep(w, l);
  }

  lemma {:induction false} KeepsOn(w: World, more: seq<Label>, w': World, id: string, hash: PasswordHash)
    requires Keeps(w, id, hash) && Exec(w, more) == Some(w') && NoNewPassword(more, id)
    ensures Keeps(w', id, hash)
  {
    if more != [] {
      var before := Exec(w, Front(more)).value;
      KeepsOn(w, Front(more), before, id, hash);
      KeepsStep(before, Last(more), id, hash);
    }
  }

  /** In every reachable world, a user's password stays what it is, until somebody sets out to change it, if and only
      if no update in progress holds a copy of the record with another one. */
  lemma PasswordHoldsExactly(run: seq<Label>, w: World, id: string)
    requires Exec(BEGINNING, run) == Some(w) && id in w.store.users
    ensures PasswordHolds(w, id, w.store.users[id].passwordHash) <==> CopiesCarry(w, id, w.store.users[id].passwordHash)
  {
    NamesKept(BEGINNING, run, w);
    var hash := w.store.users[id].passwordHash;
    if CopiesCarry(w, id, hash) {
      forall more: seq<Label> | Exec(w, more).Some? && NoNewPassword(more, id) && id in Exec(w, more).value.store.users
        ensures Exec(w, more).value.store.users[id].passwordHash == hash
      {
        KeepsOn(w, more, Exec(w, more).value, id, hash);
      }
    } else {
      var c :| c in w.pending && w.pending[c].Writing? && w.pending[c].copy.id == id
          && w.pending[c].copy.passwordHash != hash;
      var more, w' := Extend(w, [], w, UpdateWrite(c));
      assert NoNewPassword(more, id);
      assert Exec(w, more).value.store.users[id].passwordHash != hash;
    }
  }
}
