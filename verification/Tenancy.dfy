/** Tenant independence: what a tenant's users and tokens are after a run does not depend on the calls
    of other tenants, save for the OAuth states, which all tenants share. */
module Tenancy {
  import opened Domain
  import opened Keyspace
  import opened Users
  import opened Machine
  import RateLimiting
  import opened Invariants
  import opened Runs

  predicate BornIn(born: map<Id, User>, id: Id, a: Tenant) {
    id in born && born[id].tenant == a
  }

  /** The id of a user of another tenant. */
  predicate BornElsewhere(born: map<Id, User>, id: Id, a: Tenant) {
    id in born && born[id].tenant != a
  }

  /** An entry tenant a can see: a shared OAuth state, or a token of one of its users. */
  predicate Visible(born: map<Id, User>, key: Key, e: Entry, a: Tenant) {
    key.kind == OAuthState || (key.kind != RateLimit && e.value.OfUser? && BornIn(born, e.value.id, a))
  }

  /** The key holds nothing that tenant a cannot see. */
  ghost predicate NotTheirs(w: World, key: Key, a: Tenant) {
    key in w.kv ==> Visible(w.born, key, w.kv[key], a)
  }

  /** The next command of p concerns no row of another tenant and no token owned by one of its users. */
  ghost predicate Mine(a: Tenant, w: World, p: Proc) {
    match p
    case InsertUser(row, _) => row.tenant == a
    case SelectLogin(tenant, _, _) => tenant == a
    case SelectRequest(_, tenant, _) => tenant == a
    case SetToken(_, id) => !BornElsewhere(w.born, id, a)
    case GetOwner(kind, token, _) => NotTheirs(w, Key(kind, token), a)
    case SelectOwner(_, _, _, id, _) => !BornElsewhere(w.born, id, a)
    case DelToken(_, _, user, _, _) => !BornElsewhere(w.born, user.id, a)
    case SetRefresh(user, _) => !BornElsewhere(w.born, user.id, a)
    case SelectById(id, _) => !BornElsewhere(w.born, id, a)
    case UpdateUser(user, _) => !BornElsewhere(w.born, user.id, a)
    case SetState(_) => true
    case GetState(tenant, _, _, _) => tenant == a
    case DelState(tenant, _, _, _, _) => tenant == a
    case SelectOAuth(tenant, _, _) => tenant == a
    case DelRefresh(token) => NotTheirs(w, Key(Refresh, token), a)
    case DeleteRow(id) => !BornElsewhere(w.born, id, a)
    case RunScript(_) => false
    case Done(_) => true
  }

  // ---------- what a tenant can see ----------

  ghost predicate SimUsers(a: Tenant, users: Table, seen: Table) {
    && (forall id :: id in seen <==> id in users && users[id].tenant == a)
    && (forall id :: id in seen ==> seen[id] == users[id])
  }

  ghost predicate SimBorn(a: Tenant, born: map<Id, User>, seen: map<Id, User>) {
    && (forall id :: id in seen <==> BornIn(born, id, a))
    && (forall id :: id in seen ==> seen[id] == born[id])
  }

  ghost predicate SimKv(a: Tenant, born: map<Id, User>, kv: Store, seen: Store) {
    && (forall key :: key in seen <==> key in kv && Visible(born, key, kv[key], a))
    && (forall key :: key in seen ==> seen[key] == kv[key])
  }

  /** v is what tenant a can see of w. */
  ghost predicate Sim(a: Tenant, w: World, v: World) {
    && v.now <= w.now && v.seen <= w.seen
    && SimUsers(a, w.users, v.users) && SimBorn(a, w.born, v.born) && SimKv(a, w.born, w.kv, v.kv)
  }

  /** The world with only a tenant's users and tokens in it. */
  ghost function ViewOf(a: Tenant, w: World): World {
    w.(users := map id | id in w.users && w.users[id].tenant == a :: w.users[id],
       born := map id | id in w.born && w.born[id].tenant == a :: w.born[id],
       kv := map key | key in w.kv && Visible(w.born, key, w.kv[key], a) :: w.kv[key])
  }

  lemma ViewOfSim(a: Tenant, w: World)
    ensures Sim(a, w, ViewOf(a, w))
  {
  }

  // ---------- the tables ----------

  lemma SameSelections(a: Tenant, users: Table, seen: Table, email: string, provider: string, subject: string)
    requires SimUsers(a, users, seen)
    ensures ByEmail(seen, a, email) == ByEmail(users, a, email)
    ensures ByOAuth(seen, a, provider, subject) == ByOAuth(users, a, provider, subject)
  {
  }

  lemma SameRow(a: Tenant, users: Table, born: map<Id, User>, seen: Table, id: Id)
    requires SimUsers(a, users, seen) && Consistent(users, born) && !BornElsewhere(born, id, a)
    ensures id in seen <==> id in users
    ensures id in users ==> users[id].tenant == a && users[id].id == id && seen[id] == users[id]
  {
  }

  /** The picked row is the same on both sides, and was born in the tenant. */
  lemma SamePick(a: Tenant, users: Table, born: map<Id, User>, seen: Table, email: string, provider: string,
          subject: string)
    requires SimUsers(a, users, seen) && Consistent(users, born)
    ensures Pick(ByEmail(seen, a, email)) == Pick(ByEmail(users, a, email))
    ensures Pick(ByOAuth(seen, a, provider, subject)) == Pick(ByOAuth(users, a, provider, subject))
    ensures var r := Pick(ByEmail(users, a, email));
            r.Some? ==> r.value in users && r.value in seen && seen[r.value] == users[r.value] &&
                        users[r.value].id == r.value && BornIn(born, r.value, a)
    ensures var r := Pick(ByOAuth(users, a, provider, subject));
            r.Some? ==> r.value in users && r.value in seen && seen[r.value] == users[r.value] &&
                        users[r.value].id == r.value && BornIn(born, r.value, a)
  {
    SameSelections(a, users, seen, email, provider, subject);
  }

  lemma InsertMine(a: Tenant, users: Table, seen: Table, u: User, out: Outcome)
    requires SimUsers(a, users, seen) && u.tenant == a && u.id !in users
    ensures SimUsers(a, Insert(users, u, out).0, Insert(seen, u, out).0)
    ensures Insert(users, u, out).1 == Insert(seen, u, out).1
    ensures Insert(users, u, out).0 == users <==> Insert(seen, u, out).0 == seen
  {
    SameSelections(a, users, seen, u.email, "", "");
    hide ByEmail;
    assert u.id in Insert(users, u, out).0 <==> u.id in Insert(seen, u, out).0;
  }

  lemma InsertForeign(a: Tenant, users: Table, seen: Table, u: User, out: Outcome)
    requires SimUsers(a, users, seen) && u.tenant != a && u.id !in users
    ensures SimUsers(a, Insert(users, u, out).0, seen)
  {
    hide ByEmail;
  }

  lemma UpdateMine(a: Tenant, users: Table, seen: Table, u: User, out: Outcome)
    requires SimUsers(a, users, seen) && (u.id in users ==> users[u.id].tenant == a)
    ensures SimUsers(a, Update(users, u, out).0, Update(seen, u, out).0)
    ensures Update(users, u, out).1 == Update(seen, u, out).1
  {
    SameSelections(a, users, seen, u.email, "", "");
    hide ByEmail;
  }

  lemma UpdateForeign(a: Tenant, users: Table, seen: Table, u: User, out: Outcome)
    requires SimUsers(a, users, seen) && (u.id in users ==> users[u.id].tenant != a)
    ensures SimUsers(a, Update(users, u, out).0, seen)
  {
    hide ByEmail;
  }

  lemma DeleteEither(a: Tenant, users: Table, seen: Table, id: Id, out: Outcome)
    requires SimUsers(a, users, seen) && id in users
    ensures users[id].tenant == a ==> SimUsers(a, Delete(users, id, out), Delete(seen, id, out))
    ensures users[id].tenant != a ==> SimUsers(a, Delete(users, id, out), seen)
  {
  }

  lemma BirthMine(a: Tenant, born: map<Id, User>, seen: map<Id, User>, kv: Store, vkv: Store, u: User)
    requires SimBorn(a, born, seen) && SimKv(a, born, kv, vkv) && u.id !in born && u.tenant == a
    requires OwnersBorn(born, kv)
    ensures SimBorn(a, born[u.id := u], seen[u.id := u]) && SimKv(a, born[u.id := u], kv, vkv)
  {
  }

  lemma BirthForeign(a: Tenant, born: map<Id, User>, seen: map<Id, User>, kv: Store, vkv: Store, u: User)
    requires SimBorn(a, born, seen) && SimKv(a, born, kv, vkv) && u.id !in born && u.tenant != a
    requires OwnersBorn(born, kv)
    ensures SimBorn(a, born[u.id := u], seen) && SimKv(a, born[u.id := u], kv, vkv)
  {
  }

  // ---------- the keyspace ----------

  lemma SetVisible(a: Tenant, born: map<Id, User>, kv: Store, seen: Store, now: Time, key: Key, value: Value,
          ttl: Time, out: Outcome)
    requires SimKv(a, born, kv, seen) && Visible(born, key, Entry(value, now + ttl), a)
    ensures SimKv(a, born, Set(kv, now, key, value, ttl, out), Set(seen, now, key, value, ttl, out))
  {
  }

  lemma SetInvisible(a: Tenant, born: map<Id, User>, kv: Store, seen: Store, now: Time, key: Key, value: Value,
          ttl: Time, out: Outcome)
    requires SimKv(a, born, kv, seen) && !Visible(born, key, Entry(value, now + ttl), a) && key !in kv
    ensures SimKv(a, born, Set(kv, now, key, value, ttl, out), seen)
  {
  }

  lemma DelVisible(a: Tenant, born: map<Id, User>, kv: Store, seen: Store, key: Key, out: Outcome)
    requires SimKv(a, born, kv, seen)
    ensures SimKv(a, born, Del(kv, key, out), Del(seen, key, out))
    ensures key !in seen ==> SimKv(a, born, Del(kv, key, out), seen)
  {
  }

  lemma SameGet(a: Tenant, born: map<Id, User>, kv: Store, seen: Store, now: Time, key: Key, out: Outcome)
    requires SimKv(a, born, kv, seen) && (key in kv ==> Visible(born, key, kv[key], a))
    ensures Get(seen, now, key, out) == Get(kv, now, key, out)
  {
  }

  // ---------- one command, seen and unseen ----------

  /** The time that other tenants' commands took is waited out instead. */
  function Retime(io: Io, d: nat): Io {
    io.(wait := io.wait + d)
  }

  ghost predicate Ready(a: Tenant, w: World, v: World, p: Proc, io: Io) {
    && Consistent(w.users, w.born) && NIL_ID !in w.born && OwnersBorn(w.born, w.kv) && KeysSeen(w)
    && Familiar(w, p) && Fair(w, p, io) && Sim(a, w, v)
  }

  ghost predicate OwnOk(cfg: Config, a: Tenant, w: World, v: World, p: Proc, io: Io)
    requires !p.Done? && v.now <= w.now
  {
    var (w1, p1) := Next(cfg, w, p, io);
    var (v1, q1) := Next(cfg, v, p, Retime(io, w.now - v.now));
    q1 == p1 && Sim(a, w1, v1) && v1.now == w1.now && Mine(a, w1, p1)
  }

  lemma OwnSelects(cfg: Config, a: Tenant, w: World, v: World, p: Proc, io: Io)
    requires p.SelectLogin? || p.SelectRequest? || p.SelectOAuth?
    requires Ready(a, w, v, p, io) && Mine(a, w, p)
    ensures OwnOk(cfg, a, w, v, p, io)
  {
    hide SimUsers, SimBorn, SimKv, ByEmail, ByOAuth, Consistent, CodeValid, RateLimiting.Throttled, TokenCommand;
    if p.SelectOAuth? {
      SamePick(a, w.users, w.born, v.users, "", p.provider, p.found.subject);
    } else {
      SamePick(a, w.users, w.born, v.users, p.email, "", "");
    }
  }

  lemma OwnGetsOwner(cfg: Config, a: Tenant, w: World, v: World, p: Proc, io: Io)
    requires p.GetOwner? && Ready(a, w, v, p, io) && Mine(a, w, p)
    ensures OwnOk(cfg, a, w, v, p, io)
  {
    hide SimUsers, SimBorn, SimKv, Consistent, CodeValid, RowCommand;
    SameGet(a, w.born, w.kv, v.kv, w.now + io.wait, Key(p.kind, p.token), io.out);
  }

  lemma OwnGetsState(cfg: Config, a: Tenant, w: World, v: World, p: Proc, io: Io)
    requires p.GetState? && Ready(a, w, v, p, io) && Mine(a, w, p)
    ensures OwnOk(cfg, a, w, v, p, io)
  {
    hide SimUsers, SimBorn, SimKv, Consistent, CodeValid, Get, RowCommand;
    SameGet(a, w.born, w.kv, v.kv, w.now + io.wait, Key(OAuthState, p.state), io.out);
  }

  lemma OwnSelectsById(cfg: Config, a: Tenant, w: World, v: World, p: Proc, io: Io)
    requires p.SelectById? && Ready(a, w, v, p, io) && Mine(a, w, p)
    ensures OwnOk(cfg, a, w, v, p, io)
  {
    hide SimUsers, SimBorn, SimKv, Consistent, CodeValid, RateLimiting.Throttled, TokenCommand;
    SameRow(a, w.users, w.born, v.users, p.id);
  }

  lemma OwnSelectsOwner(cfg: Config, a: Tenant, w: World, v: World, p: Proc, io: Io)
    requires p.SelectOwner? && Ready(a, w, v, p, io) && Mine(a, w, p)
    ensures OwnOk(cfg, a, w, v, p, io)
  {
    hide SimUsers, SimBorn, SimKv, Consistent, CodeValid, RateLimiting.Throttled, TokenCommand;
    SameRow(a, w.users, w.born, v.users, p.id);
  }

  lemma OwnInsert(cfg: Config, a: Tenant, w: World, v: World, p: Proc, io: Io)
    requires p.InsertUser? && Ready(a, w, v, p, io) && Mine(a, w, p)
    ensures OwnOk(cfg, a, w, v, p, io)
  {
    hide SimUsers, SimBorn, SimKv, Insert, Consistent, CodeValid, RateLimiting.Throttled, TokenCommand;
    var u := p.row.(id := io.id, createdAt := w.now + io.wait, updatedAt := w.now + io.wait);
    InsertMine(a, w.users, v.users, u, io.out);
    BirthMine(a, w.born, v.born, w.kv, v.kv, u);
    InsertedOrNot(w.users, u, io.out);
  }

  lemma InsertedOrNot(users: Table, u: User, out: Outcome)
    requires u.id !in users
    ensures Insert(users, u, out).1.Applied? ==> Insert(users, u, out).0 != users
  {
    assert Insert(users, u, out).1.Applied? ==> u.id in Insert(users, u, out).0;
  }

  lemma OwnUpdate(cfg: Config, a: Tenant, w: World, v: World, p: Proc, io: Io)
    requires p.UpdateUser? && Ready(a, w, v, p, io) && Mine(a, w, p)
    ensures OwnOk(cfg, a, w, v, p, io)
  {
    hide SimUsers, SimBorn, SimKv, Update, Consistent, CodeValid, RateLimiting.Throttled, TokenCommand;
    SameRow(a, w.users, w.born, v.users, p.user.id);
    UpdateMine(a, w.users, v.users, p.user, io.out);
  }

  lemma OwnDelete(cfg: Config, a: Tenant, w: World, v: World, p: Proc, io: Io)
    requires p.DeleteRow? && Ready(a, w, v, p, io) && Mine(a, w, p)
    ensures OwnOk(cfg, a, w, v, p, io)
  {
    hide SimUsers, SimBorn, SimKv, Delete, Consistent, CodeValid, RateLimiting.Throttled, TokenCommand;
    SameRow(a, w.users, w.born, v.users, p.id);
    if p.id in w.users {
      DeleteEither(a, w.users, v.users, p.id, io.out);
    } else {
      DeleteAbsent(w.users, p.id, io.out);
      DeleteAbsent(v.users, p.id, io.out);
    }
  }

  lemma DeleteAbsent(users: Table, id: Id, out: Outcome)
    requires id !in users
    ensures Delete(users, id, out) == users
  {
  }

  lemma OwnMints(cfg: Config, a: Tenant, w: World, v: World, p: Proc, io: Io)
    requires p.SetToken? || p.SetState?
    requires Ready(a, w, v, p, io) && Mine(a, w, p)
    ensures OwnOk(cfg, a, w, v, p, io)
  {
    hide SimUsers, SimBorn, SimKv, Set, Consistent, CodeValid, RateLimiting.Throttled, RowCommand;
    var key := Key(if p.SetToken? then p.kind else OAuthState, io.token);
    var value := if p.SetToken? then OfUser(p.id) else OfProvider(p.provider);
    SetVisible(a, w.born, w.kv, v.kv, w.now + io.wait, key, value, Ttl(cfg, key.kind), io.out);
  }

  lemma OwnSession(cfg: Config, a: Tenant, w: World, v: World, p: Proc, io: Io)
    requires p.SetRefresh? && Ready(a, w, v, p, io) && Mine(a, w, p)
    ensures OwnOk(cfg, a, w, v, p, io)
  {
    hide SimUsers, SimBorn, SimKv, Set, Consistent, CodeValid, RateLimiting.Throttled, RowCommand;
    var key := Key(Refresh, io.token);
    SetVisible(a, w.born, w.kv, v.kv, w.now + io.wait, key, OfUser(p.user.id), Ttl(cfg, Refresh), io.out);
  }

  lemma OwnDelsToken(cfg: Config, a: Tenant, w: World, v: World, p: Proc, io: Io)
    requires p.DelToken? && Ready(a, w, v, p, io) && Mine(a, w, p)
    ensures OwnOk(cfg, a, w, v, p, io)
  {
    hide SimUsers, SimBorn, SimKv, Del, Consistent, RowCommand;
    DelVisible(a, w.born, w.kv, v.kv, Key(p.kind, p.token), io.out);
  }

  lemma OwnDelsState(cfg: Config, a: Tenant, w: World, v: World, p: Proc, io: Io)
    requires p.DelState? && Ready(a, w, v, p, io) && Mine(a, w, p)
    ensures OwnOk(cfg, a, w, v, p, io)
  {
    hide SimUsers, SimBorn, SimKv, Del, Consistent, RowCommand;
    DelVisible(a, w.born, w.kv, v.kv, Key(OAuthState, p.state), io.out);
  }

  lemma OwnDelsRefresh(cfg: Config, a: Tenant, w: World, v: World, p: Proc, io: Io)
    requires p.DelRefresh? && Ready(a, w, v, p, io) && Mine(a, w, p)
    ensures OwnOk(cfg, a, w, v, p, io)
  {
    hide SimUsers, SimBorn, SimKv, Del, Consistent, RowCommand;
    DelVisible(a, w.born, w.kv, v.kv, Key(Refresh, p.token), io.out);
  }

  lemma NotScript(a: Tenant, w: World, p: Proc)
    requires Mine(a, w, p)
    ensures !p.RunScript?
  {
  }

  lemma OwnStep(cfg: Config, a: Tenant, w: World, v: World, p: Proc, io: Io)
    requires !p.Done? && Ready(a, w, v, p, io) && Mine(a, w, p)
    ensures OwnOk(cfg, a, w, v, p, io)
  {
    NotScript(a, w, p);
    hide Ready, Mine, OwnOk;
    if p.SelectLogin? || p.SelectRequest? || p.SelectOAuth? {
      OwnSelects(cfg, a, w, v, p, io);
    } else if p.GetOwner? {
      OwnGetsOwner(cfg, a, w, v, p, io);
    } else if p.GetState? {
      OwnGetsState(cfg, a, w, v, p, io);
    } else if p.SelectOwner? || p.SelectById? {
      if p.SelectOwner? {
        OwnSelectsOwner(cfg, a, w, v, p, io);
      } else {
        OwnSelectsById(cfg, a, w, v, p, io);
      }
    } else if p.InsertUser? {
      OwnInsert(cfg, a, w, v, p, io);
    } else if p.UpdateUser? {
      OwnUpdate(cfg, a, w, v, p, io);
    } else if p.DeleteRow? {
      OwnDelete(cfg, a, w, v, p, io);
    } else if p.DelToken? {
      OwnDelsToken(cfg, a, w, v, p, io);
    } else if p.DelState? {
      OwnDelsState(cfg, a, w, v, p, io);
    } else if p.DelRefresh? {
      OwnDelsRefresh(cfg, a, w, v, p, io);
    } else if p.SetRefresh? {
      OwnSession(cfg, a, w, v, p, io);
    } else {
      OwnMints(cfg, a, w, v, p, io);
    }
  }

  /** A call of another tenant once the shared states are behind it: tenant a sees nothing of it. */
  ghost predicate Foreign(a: Tenant, w: World, p: Proc) {
    p.Done? || (!Mine(a, w, p) && !p.GetState? && !p.DelState?)
  }

  ghost predicate ForeignOk(cfg: Config, a: Tenant, w: World, v: World, p: Proc, io: Io)
    requires !p.Done?
  {
    var (w1, p1) := Next(cfg, w, p, io);
    Sim(a, w1, v) && Foreign(a, w1, p1)
  }

  lemma ForeignReads(cfg: Config, a: Tenant, w: World, v: World, p: Proc, io: Io)
    requires p.SelectLogin? || p.SelectRequest? || p.SelectOAuth?
    requires Ready(a, w, v, p, io) && Foreign(a, w, p)
    ensures ForeignOk(cfg, a, w, v, p, io)
  {
    hide SimUsers, SimBorn, SimKv, UniqueEmails, CodeValid, AfterGet, AfterOwner, AfterRow, RateLimiting.Throttled,
         TokenCommand;
  }

  lemma ForeignRows(cfg: Config, a: Tenant, w: World, v: World, p: Proc, io: Io)
    requires p.SelectOwner? || p.SelectById?
    requires Ready(a, w, v, p, io) && Foreign(a, w, p)
    ensures ForeignOk(cfg, a, w, v, p, io)
  {
    hide SimUsers, SimBorn, SimKv, UniqueEmails, CodeValid, AfterLogin, AfterOAuth, ByEmail, ByOAuth,
         RateLimiting.Throttled, TokenCommand;
  }

  lemma ForeignTokens(cfg: Config, a: Tenant, w: World, v: World, p: Proc, io: Io)
    requires p.GetOwner? && Ready(a, w, v, p, io) && Foreign(a, w, p)
    ensures ForeignOk(cfg, a, w, v, p, io)
  {
    hide SimUsers, SimBorn, SimKv, UniqueEmails, CodeValid, AfterLogin, AfterOAuth, ByEmail, ByOAuth,
         RateLimiting.Throttled, RowCommand;
  }

  /** A row of another tenant. */
  lemma ForeignRow(a: Tenant, users: Table, born: map<Id, User>, id: Id)
    requires Consistent(users, born) && BornElsewhere(born, id, a)
    ensures id in users ==> users[id].tenant != a
  {
  }

  lemma ForeignInsert(cfg: Config, a: Tenant, w: World, v: World, p: Proc, io: Io)
    requires p.InsertUser? && Ready(a, w, v, p, io) && Foreign(a, w, p)
    ensures ForeignOk(cfg, a, w, v, p, io)
  {
    hide SimUsers, SimBorn, SimKv, Insert, Consistent, CodeValid, RateLimiting.Throttled, TokenCommand;
    var u := p.row.(id := io.id, createdAt := w.now + io.wait, updatedAt := w.now + io.wait);
    InsertForeign(a, w.users, v.users, u, io.out);
    BirthForeign(a, w.born, v.born, w.kv, v.kv, u);
    InsertedOrNot(w.users, u, io.out);
  }

  lemma ForeignUpdate(cfg: Config, a: Tenant, w: World, v: World, p: Proc, io: Io)
    requires p.UpdateUser? && Ready(a, w, v, p, io) && Foreign(a, w, p)
    ensures ForeignOk(cfg, a, w, v, p, io)
  {
    hide SimUsers, SimBorn, SimKv, Update, Consistent, CodeValid, RateLimiting.Throttled, TokenCommand;
    ForeignRow(a, w.users, w.born, p.user.id);
    UpdateForeign(a, w.users, v.users, p.user, io.out);
  }

  lemma ForeignDelete(cfg: Config, a: Tenant, w: World, v: World, p: Proc, io: Io)
    requires p.DeleteRow? && Ready(a, w, v, p, io) && Foreign(a, w, p)
    ensures ForeignOk(cfg, a, w, v, p, io)
  {
    hide SimUsers, SimBorn, SimKv, Delete, Consistent, CodeValid, RateLimiting.Throttled, TokenCommand;
    ForeignRow(a, w.users, w.born, p.id);
    if p.id in w.users {
      DeleteEither(a, w.users, v.users, p.id, io.out);
    } else {
      DeleteAbsent(w.users, p.id, io.out);
    }
  }

  lemma ForeignMints(cfg: Config, a: Tenant, w: World, v: World, p: Proc, io: Io)
    requires p.SetToken? || p.SetRefresh?
    requires Ready(a, w, v, p, io) && Foreign(a, w, p)
    ensures ForeignOk(cfg, a, w, v, p, io)
  {
    hide SimUsers, SimBorn, SimKv, Set, Consistent, CodeValid, RateLimiting.Throttled, RowCommand;
    var key := Key(if p.SetToken? then p.kind else Refresh, io.token);
    var owner := OfUser(if p.SetToken? then p.id else p.user.id);
    SetInvisible(a, w.born, w.kv, v.kv, w.now + io.wait, key, owner, Ttl(cfg, key.kind), io.out);
  }

  lemma ForeignDels(cfg: Config, a: Tenant, w: World, v: World, p: Proc, io: Io)
    requires p.DelToken? || p.DelRefresh?
    requires Ready(a, w, v, p, io) && Foreign(a, w, p)
    ensures ForeignOk(cfg, a, w, v, p, io)
  {
    hide SimUsers, SimBorn, SimKv, Del, Consistent, CodeValid, RateLimiting.Throttled, RowCommand;
    var key := if p.DelToken? then Key(p.kind, p.token) else Key(Refresh, p.token);
    InvisibleKey(a, w.born, w.kv, v.kv, key);
    DelVisible(a, w.born, w.kv, v.kv, key, io.out);
  }

  lemma ForeignThrottle(cfg: Config, a: Tenant, w: World, v: World, p: Proc, io: Io)
    requires p.RunScript? && Ready(a, w, v, p, io)
    ensures ForeignOk(cfg, a, w, v, p, io)
  {
    hide RateLimiting.Throttled, RowCommand;
  }

  lemma InvisibleKey(a: Tenant, born: map<Id, User>, kv: Store, seen: Store, key: Key)
    requires SimKv(a, born, kv, seen) && !(key in kv && Visible(born, key, kv[key], a))
    ensures key !in seen
  {
  }

  lemma ForeignStep(cfg: Config, a: Tenant, w: World, v: World, p: Proc, io: Io)
    requires !p.Done? && Ready(a, w, v, p, io) && Foreign(a, w, p)
    ensures ForeignOk(cfg, a, w, v, p, io)
  {
    hide Ready, ForeignOk;
    match p
    case InsertUser(_, _) => ForeignInsert(cfg, a, w, v, p, io);
    case UpdateUser(_, _) => ForeignUpdate(cfg, a, w, v, p, io);
    case DeleteRow(_) => ForeignDelete(cfg, a, w, v, p, io);
    case SetToken(_, _) => ForeignMints(cfg, a, w, v, p, io);
    case SetRefresh(_, _) => ForeignMints(cfg, a, w, v, p, io);
    case DelToken(_, _, _, _, _) => ForeignDels(cfg, a, w, v, p, io);
    case DelRefresh(_) => ForeignDels(cfg, a, w, v, p, io);
    case RunScript(_) => ForeignThrottle(cfg, a, w, v, p, io);
    case GetOwner(_, _, _) => ForeignTokens(cfg, a, w, v, p, io);
    case SelectOwner(_, _, _, _, _) => ForeignRows(cfg, a, w, v, p, io);
    case SelectById(_, _) => ForeignRows(cfg, a, w, v, p, io);
    case _ => ForeignReads(cfg, a, w, v, p, io);
  }

  // ---------- whole calls ----------

  lemma GoodIsReady(cfg: Config, a: Tenant, w: World, v: World, p: Proc, io: Io)
    requires Good(cfg, w) && Fits(cfg, w, p) && Fair(w, p, io) && Sim(a, w, v)
    ensures Ready(a, w, v, p, io)
  {
    FitsIsFamiliar(cfg, w, p);
    hide Familiar, Fits, Fair, SimUsers, SimBorn, SimKv, Consistent;
  }

  /** ios with a longer wait before command k. */
  function Delay(ios: seq<Io>, k: nat, d: nat): seq<Io> {
    if k < |ios| then ios[k := Retime(ios[k], d)] else ios
  }

  /** A call does not look at what was decided for commands it has already made. */
  lemma {:induction false} RunTail(cfg: Config, w: World, p: Proc, xs: seq<Io>, ys: seq<Io>, k: nat)
    requires k <= |xs| == |ys| && forall j :: k <= j < |xs| ==> xs[j] == ys[j]
    ensures Run(cfg, w, p, xs, k) == Run(cfg, w, p, ys, k)
    ensures FairRun(cfg, w, p, xs, k) == FairRun(cfg, w, p, ys, k)
    decreases |xs| - k
  {
    hide Next, Fair;
    if !p.Done? && k < |xs| {
      var (w1, p1) := Next(cfg, w, p, xs[k]);
      RunTail(cfg, w1, p1, xs, ys, k + 1);
    }
  }

  lemma FairBelow(a: Tenant, w: World, v: World, p: Proc, io: Io, d: nat)
    requires Sim(a, w, v) && Fair(w, p, io)
    ensures Fair(v, p, Retime(io, d))
  {
  }

  lemma RetimeNothing(ios: seq<Io>, k: nat)
    ensures Delay(ios, k, 0) == ios
  {
  }

  /** A call of the tenant does the same, and answers the same, whether or not others' users and tokens
      are there. */
  lemma {:induction false} OwnRun(cfg: Config, a: Tenant, w: World, v: World, p: Proc, ios: seq<Io>, k: nat)
    requires k <= |ios| && Good(cfg, w) && Fits(cfg, w, p) && FairRun(cfg, w, p, ios, k)
    requires Sim(a, w, v) && Mine(a, w, p)
    ensures var ios1 := Delay(ios, k, w.now - v.now);
            var (w1, p1) := Run(cfg, w, p, ios, k);
            var (v1, q1) := Run(cfg, v, p, ios1, k);
            q1 == p1 && Sim(a, w1, v1) && FairRun(cfg, v, p, ios1, k)
    decreases |ios| - k
  {
    var d := w.now - v.now;
    hide Next, Good, Fits, Fair, Mine, SimUsers, SimBorn, SimKv;
    if !p.Done? && k < |ios| {
      var io := ios[k];
      GoodIsReady(cfg, a, w, v, p, io);
      OwnStep(cfg, a, w, v, p, io);
      GoodStep(cfg, w, p, io);
      FairBelow(a, w, v, p, io, d);
      var (w1, p1) := Next(cfg, w, p, io);
      var (v1, q1) := Next(cfg, v, p, Retime(io, d));
      OwnRun(cfg, a, w1, v1, p1, ios, k + 1);
      RetimeNothing(ios, k + 1);
      RunTail(cfg, v1, p1, Delay(ios, k, d), ios, k + 1);
    }
  }

  lemma {:induction false} ForeignRun(cfg: Config, a: Tenant, w: World, v: World, p: Proc, ios: seq<Io>, k: nat)
    requires k <= |ios| && Good(cfg, w) && Fits(cfg, w, p) && FairRun(cfg, w, p, ios, k)
    requires Sim(a, w, v) && Foreign(a, w, p)
    ensures Sim(a, Run(cfg, w, p, ios, k).0, v)
    decreases |ios| - k
  {
    hide Next, Good, Fits, Fair, Foreign, Sim;
    if !p.Done? && k < |ios| {
      GoodIsReady(cfg, a, w, v, p, ios[k]);
      ForeignStep(cfg, a, w, v, p, ios[k]);
      GoodStep(cfg, w, p, ios[k]);
      var (w1, p1) := Next(cfg, w, p, ios[k]);
      ForeignRun(cfg, a, w1, v, p1, ios, k + 1);
    }
  }

  /** Another tenant's callback reduced to what it does to the shared states: the same callback, with the
      exchange of its code failing. */
  predicate SharedPart(p: Proc) {
    p.GetState? || p.DelState?
  }

  function Mirror(p: Proc): Proc {
    match p
    case GetState(tenant, provider, state, _) => GetState(tenant, provider, state, None)
    case DelState(tenant, provider, state, _, readAt) => DelState(tenant, provider, state, None, readAt)
    case _ => p
  }

  lemma MirrorStep(cfg: Config, a: Tenant, w: World, v: World, p: Proc, io: Io)
    requires SharedPart(p) && p.tenant != a && Ready(a, w, v, p, io)
    ensures var (w1, p1) := Next(cfg, w, p, io);
            var (v1, q1) := Next(cfg, v, Mirror(p), Retime(io, w.now - v.now));
            && Sim(a, w1, v1) && v1.now == w1.now
            && (SharedPart(p1) ==> q1 == Mirror(p1) && p1.tenant != a)
            && (!SharedPart(p1) ==> q1.Done? && Foreign(a, w1, p1))
  {
    hide SimUsers, SimBorn, SimKv, Get, Del, Consistent, CodeValid, AfterInsert, AfterLogin, AfterGet, AfterOwner,
         AfterRow, RateLimiting.Throttled, RowCommand;
    SameGet(a, w.born, w.kv, v.kv, w.now + io.wait, Key(OAuthState, p.state), io.out);
    DelVisible(a, w.born, w.kv, v.kv, Key(OAuthState, p.state), io.out);
  }

  lemma {:induction false} MirrorRun(cfg: Config, a: Tenant, w: World, v: World, p: Proc, ios: seq<Io>, k: nat)
    requires k <= |ios| && Good(cfg, w) && Fits(cfg, w, p) && FairRun(cfg, w, p, ios, k)
    requires Sim(a, w, v) && SharedPart(p) && p.tenant != a
    ensures var ios1 := Delay(ios, k, w.now - v.now);
            && Sim(a, Run(cfg, w, p, ios, k).0, Run(cfg, v, Mirror(p), ios1, k).0)
            && FairRun(cfg, v, Mirror(p), ios1, k)
    decreases |ios| - k
  {
    var d := w.now - v.now;
    hide Next, Good, Fits, Fair, Foreign, SimUsers, SimBorn, SimKv;
    if k < |ios| {
      var io := ios[k];
      GoodIsReady(cfg, a, w, v, p, io);
      MirrorStep(cfg, a, w, v, p, io);
      GoodStep(cfg, w, p, io);
      MirrorFair(a, w, v, p, io, d);
      var (w1, p1) := Next(cfg, w, p, io);
      var (v1, q1) := Next(cfg, v, Mirror(p), Retime(io, d));
      if SharedPart(p1) {
        MirrorRun(cfg, a, w1, v1, p1, ios, k + 1);
        RetimeNothing(ios, k + 1);
        RunTail(cfg, v1, q1, Delay(ios, k, d), ios, k + 1);
      } else {
        ForeignRun(cfg, a, w1, v1, p1, ios, k + 1);
      }
    }
  }

  lemma MirrorFair(a: Tenant, w: World, v: World, p: Proc, io: Io, d: nat)
    requires Sim(a, w, v) && Fair(w, p, io)
    ensures Fair(v, Mirror(p), Retime(io, d))
  {
  }

  // ---------- whole runs ----------

  /** The calls that begin with nothing of another tenant's are kept, other tenants' callbacks are reduced to
      their effect on the shared states, and all other calls are dropped. */
  ghost function ProjectStep(cfg: Config, a: Tenant, w: World, v: World, step: Step): seq<Step> {
    var p := Start(cfg, step.call);
    var ios := Delay(step.ios, 0, if v.now <= w.now then w.now - v.now else 0);
    if p.Done? then []
    else if SharedPart(p) && p.tenant != a then [Step(step.call.(info := None), ios)]
    else if Mine(a, Begin(w, step.call), p) then [Step(step.call, ios)]
    else []
  }

  predicate ForeignCallback(a: Tenant, call: Call) {
    call.OAuthCallback? && call.tenant != a
  }

  /** What a kept call may be. */
  ghost predicate KeptFor(a: Tenant, w: World, cfg: Config, original: Step, kept: Step) {
    && Presented(kept.call) == Presented(original.call)
    && if ForeignCallback(a, original.call) then kept.call == original.call.(info := None)
       else kept.call == original.call && Mine(a, Begin(w, original.call), Start(cfg, original.call))
  }

  lemma SharedIsCallback(cfg: Config, call: Call)
    ensures SharedPart(Start(cfg, call)) <==> call.OAuthCallback?
    ensures call.OAuthCallback? ==>
              Start(cfg, call).tenant == call.tenant && Start(cfg, call.(info := None)) == Mirror(Start(cfg, call))
    ensures !Start(cfg, call).DelState?
  {
  }

  lemma BeginSim(a: Tenant, w: World, v: World, call: Call)
    requires Sim(a, w, v)
    ensures Sim(a, Begin(w, call), Begin(v, call)) && Sim(a, Begin(w, call), v)
  {
  }

  ghost predicate StepProjected(cfg: Config, a: Tenant, w: World, v: World, step: Step) {
    var ps := ProjectStep(cfg, a, w, v, step);
    var (w1, p1) := Do(cfg, w, step);
    && |ps| <= 1
    && (ps == [] ==> Sim(a, w1, v))
    && (|ps| == 1 ==>
          && KeptFor(a, w, cfg, step, ps[0]) && FairStep(cfg, v, ps[0])
          && var (v1, q1) := Do(cfg, v, ps[0]);
             Sim(a, w1, v1) && (!ForeignCallback(a, step.call) ==> q1 == p1))
  }

  lemma ProjectsDropped(cfg: Config, a: Tenant, w: World, v: World, step: Step)
    requires Good(cfg, w) && FairStep(cfg, w, step) && Sim(a, w, v)
    requires ProjectStep(cfg, a, w, v, step) == []
    ensures StepProjected(cfg, a, w, v, step)
  {
    var b, p := Begin(w, step.call), Start(cfg, step.call);
    GoodBegin(cfg, w, step.call);
    BeginSim(a, w, v, step.call);
    hide Good, Fits, Next, Fair, Mine, Sim, Start, Run, FairRun, Begin;
    if p.Done? {
      NothingRuns(cfg, b, p, step.ios);
    } else {
      ForeignRun(cfg, a, b, v, p, step.ios, 0);
    }
  }

  lemma CallbackRuns(cfg: Config, a: Tenant, w: World, v: World, step: Step)
    requires Good(cfg, w) && FairStep(cfg, w, step) && Sim(a, w, v) && v.now <= w.now && ForeignCallback(a, step.call)
    ensures var kept := Step(step.call.(info := None), Delay(step.ios, 0, w.now - v.now));
            FairStep(cfg, v, kept) && Sim(a, Do(cfg, w, step).0, Do(cfg, v, kept).0)
  {
    hide Good, Fits, Next, Fair, Mine, Sim, Start, Run, FairRun;
    GoodBegin(cfg, w, step.call);
    BeginSim(a, w, v, step.call);
    SharedIsCallback(cfg, step.call);
    MirrorRun(cfg, a, Begin(w, step.call), Begin(v, step.call), Start(cfg, step.call), step.ios, 0);
  }

  lemma ProjectsCallback(cfg: Config, a: Tenant, w: World, v: World, step: Step)
    requires Good(cfg, w) && FairStep(cfg, w, step) && Sim(a, w, v) && v.now <= w.now
    requires ForeignCallback(a, step.call)
    ensures StepProjected(cfg, a, w, v, step)
  {
    hide Good, FairStep, Mine, Sim, Start, Do, Begin;
    SharedIsCallback(cfg, step.call);
    CallbackRuns(cfg, a, w, v, step);
  }

  lemma OwnCallRuns(cfg: Config, a: Tenant, w: World, v: World, step: Step)
    requires Good(cfg, w) && FairStep(cfg, w, step) && Sim(a, w, v) && v.now <= w.now
    requires Mine(a, Begin(w, step.call), Start(cfg, step.call))
    ensures var alone := Step(step.call, Delay(step.ios, 0, w.now - v.now));
            var (w1, p1) := Do(cfg, w, step);
            var (v1, q1) := Do(cfg, v, alone);
            FairStep(cfg, v, alone) && q1 == p1 && Sim(a, w1, v1)
  {
    hide Good, Fits, Next, Fair, Mine, Sim, Start, Run, FairRun, Presented;
    GoodBegin(cfg, w, step.call);
    BeginSim(a, w, v, step.call);
    OwnRun(cfg, a, Begin(w, step.call), Begin(v, step.call), Start(cfg, step.call), step.ios, 0);
  }

  lemma ProjectsOwn(cfg: Config, a: Tenant, w: World, v: World, step: Step)
    requires Good(cfg, w) && FairStep(cfg, w, step) && Sim(a, w, v) && v.now <= w.now
    requires !ForeignCallback(a, step.call) && ProjectStep(cfg, a, w, v, step) != []
    ensures StepProjected(cfg, a, w, v, step)
  {
    hide Good, FairStep, Mine, Sim, Start, Do, Begin, SharedPart, Presented;
    SharedIsCallback(cfg, step.call);
    OwnCallRuns(cfg, a, w, v, step);
  }

  lemma ProjectsOneCall(cfg: Config, a: Tenant, w: World, v: World, step: Step)
    requires Good(cfg, w) && FairStep(cfg, w, step) && Sim(a, w, v)
    ensures StepProjected(cfg, a, w, v, step)
  {
    hide Good, FairStep, Sim, StepProjected, ProjectStep;
    SimTime(a, w, v);
    if ProjectStep(cfg, a, w, v, step) == [] {
      ProjectsDropped(cfg, a, w, v, step);
    } else if ForeignCallback(a, step.call) {
      ProjectsCallback(cfg, a, w, v, step);
    } else {
      ProjectsOwn(cfg, a, w, v, step);
    }
  }

  lemma NothingRuns(cfg: Config, w: World, p: Proc, ios: seq<Io>)
    requires p.Done?
    ensures Run(cfg, w, p, ios, 0) == (w, p)
  {
  }

  lemma SimTime(a: Tenant, w: World, v: World)
    requires Sim(a, w, v)
    ensures v.now <= w.now
  {
  }

  /** The calls tenant a is left with from the first n calls of a run. */
  ghost function Projected(cfg: Config, a: Tenant, w0: World, v0: World, steps: seq<Step>, n: nat): seq<Step>
    requires n <= |steps|
  {
    if n == 0 then []
    else
      var kept := Projected(cfg, a, w0, v0, steps, n - 1);
      kept + ProjectStep(cfg, a, WorldAfter(cfg, w0, steps, n - 1), WorldAfter(cfg, v0, kept, |kept|), steps[n - 1])
  }

  lemma {:induction false} AfterPrefix(cfg: Config, w: World, xs: seq<Step>, ys: seq<Step>, n: nat)
    requires n <= |xs|
    ensures WorldAfter(cfg, w, xs + ys, n) == WorldAfter(cfg, w, xs, n)
  {
    hide Do;
    if n > 0 {
      AfterPrefix(cfg, w, xs, ys, n - 1);
    }
  }

  lemma AppendFair(cfg: Config, w: World, xs: seq<Step>, step: Step)
    requires FairSteps(cfg, w, xs) && FairStep(cfg, WorldAfter(cfg, w, xs, |xs|), step)
    ensures FairSteps(cfg, w, xs + [step])
    ensures WorldAfter(cfg, w, xs + [step], |xs| + 1) == Do(cfg, WorldAfter(cfg, w, xs, |xs|), step).0
  {
    hide Do, FairStep;
    forall i | 0 <= i < |xs| + 1 ensures FairStep(cfg, WorldAfter(cfg, w, xs + [step], i), (xs + [step])[i]) {
      AfterPrefix(cfg, w, xs, [step], i);
    }
    AfterPrefix(cfg, w, xs, [step], |xs|);
  }

  /** One more call, projected, extends the projected run. */
  lemma KeepsOn(cfg: Config, a: Tenant, w: World, v0: World, kept: seq<Step>, step: Step)
    requires FairSteps(cfg, v0, kept) && StepProjected(cfg, a, w, WorldAfter(cfg, v0, kept, |kept|), step)
    ensures var more := kept + ProjectStep(cfg, a, w, WorldAfter(cfg, v0, kept, |kept|), step);
            FairSteps(cfg, v0, more) && Sim(a, Do(cfg, w, step).0, WorldAfter(cfg, v0, more, |more|))
  {
    hide Sim, FairStep, FairSteps, ProjectStep, Do, KeptFor, WorldAfter;
    var more := ProjectStep(cfg, a, w, WorldAfter(cfg, v0, kept, |kept|), step);
    if more == [] {
      assert kept + more == kept;
    } else {
      assert more == [more[0]];
      AppendFair(cfg, v0, kept, more[0]);
    }
  }

  lemma {:induction false} ProjectionRuns(cfg: Config, a: Tenant, w0: World, v0: World, steps: seq<Step>, n: nat)
    requires Good(cfg, w0) && FairSteps(cfg, w0, steps) && Sim(a, w0, v0) && n <= |steps|
    ensures var kept := Projected(cfg, a, w0, v0, steps, n);
            FairSteps(cfg, v0, kept) && Sim(a, WorldAfter(cfg, w0, steps, n), WorldAfter(cfg, v0, kept, |kept|))
  {
    hide Good, Sim, FairStep, FairSteps, StepProjected, ProjectStep, Do, Evolves;
    if n == 0 {
      NoStepsFair(cfg, v0);
    } else {
      ProjectionRuns(cfg, a, w0, v0, steps, n - 1);
      RunsKeep(cfg, w0, steps, n - 1, n - 1);
      FairAt(cfg, w0, steps, n - 1);
      var kept := Projected(cfg, a, w0, v0, steps, n - 1);
      var w := WorldAfter(cfg, w0, steps, n - 1);
      ProjectsOneCall(cfg, a, w, WorldAfter(cfg, v0, kept, |kept|), steps[n - 1]);
      KeepsOn(cfg, a, w, v0, kept, steps[n - 1]);
    }
  }

  lemma NoStepsFair(cfg: Config, w: World)
    ensures FairSteps(cfg, w, [])
  {
  }

  /** Tenant independence. From a world in which only the tenant's users and tokens exist, the calls it
      is left with are a fair run, and end with exactly the same users and tokens of the tenant; and each
      of its own calls is answered as in the full run. */
  lemma TenantsAreIndependent(cfg: Config, a: Tenant, w0: World, v0: World, steps: seq<Step>, n: nat)
    requires Good(cfg, w0) && FairSteps(cfg, w0, steps) && Sim(a, w0, v0) && n <= |steps|
    ensures var kept := Projected(cfg, a, w0, v0, steps, n);
            && FairSteps(cfg, v0, kept)
            && Sim(a, WorldAfter(cfg, w0, steps, n), WorldAfter(cfg, v0, kept, |kept|))
            && (n < |steps| ==>
                  StepProjected(cfg, a, WorldAfter(cfg, w0, steps, n), WorldAfter(cfg, v0, kept, |kept|), steps[n]))
  {
    hide Good, Sim, FairStep, FairSteps, Projected, StepProjected, WorldAfter;
    ProjectionRuns(cfg, a, w0, v0, steps, n);
    if n < |steps| {
      RunsKeep(cfg, w0, steps, n, n);
      FairAt(cfg, w0, steps, n);
      var kept := Projected(cfg, a, w0, v0, steps, n);
      ProjectsOneCall(cfg, a, WorldAfter(cfg, w0, steps, n), WorldAfter(cfg, v0, kept, |kept|), steps[n]);
    }
  }
}
