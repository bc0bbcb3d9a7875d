/** What each storage command of a call does and where it leaves the call, in plain terms. */
module Commands {
  import opened Domain
  import opened Keyspace
  import RateLimiting
  import opened Users
  import opened Machine
  import opened Invariants
  import opened Runs

  /** Some row of the tenant has this email. */
  ghost predicate Taken(users: Table, tenant: Tenant, email: string) {
    exists id :: id in users && users[id].tenant == tenant && users[id].email == email
  }

  ghost predicate TakenByAnother(users: Table, id: Id, tenant: Tenant, email: string) {
    exists other :: other in users && other != id && users[other].tenant == tenant && users[other].email == email
  }

  /** Some row of the tenant is of this identity. */
  ghost predicate Known(users: Table, tenant: Tenant, provider: string, subject: string) {
    exists id :: id in users && users[id].tenant == tenant && users[id].provider == provider &&
                 users[id].subject == subject
  }

  lemma TakenMeans(users: Table, tenant: Tenant, email: string)
    ensures Taken(users, tenant, email) <==> ByEmail(users, tenant, email) != {}
  {
    if id :| id in users && users[id].tenant == tenant && users[id].email == email {
      assert id in ByEmail(users, tenant, email);
    }
    if id :| id in ByEmail(users, tenant, email) {
      assert Taken(users, tenant, email);
    }
  }

  lemma TakenByAnotherMeans(users: Table, id: Id, tenant: Tenant, email: string)
    ensures TakenByAnother(users, id, tenant, email) <==> ByEmail(users, tenant, email) - {id} != {}
  {
    var others := ByEmail(users, tenant, email) - {id};
    if other :| other in users && other != id && users[other].tenant == tenant && users[other].email == email {
      assert other in others;
    }
    if other :| other in others {
      assert TakenByAnother(users, id, tenant, email);
    }
  }

  lemma KnownMeans(users: Table, tenant: Tenant, provider: string, subject: string)
    ensures Known(users, tenant, provider, subject) <==> ByOAuth(users, tenant, provider, subject) != {}
  {
    if id :| id in users && users[id].tenant == tenant && users[id].provider == provider &&
             users[id].subject == subject
    {
      assert id in ByOAuth(users, tenant, provider, subject);
    }
    if id :| id in ByOAuth(users, tenant, provider, subject) {
      assert Known(users, tenant, provider, subject);
    }
  }

  // ---------- the users table ----------

  lemma Inserts(cfg: Config, w: World, row: User, after: After, io: Io)
    requires io.id !in w.users
    ensures var now, (w1, p1) := w.now + io.wait, Next(cfg, w, InsertUser(row, after), io);
            var u := row.(id := io.id, createdAt := now, updatedAt := now);
            var taken := Taken(w.users, row.tenant, row.email);
            && w1.now == now && w1.kv == w.kv
            && w1.users == (if io.out.Refused? || taken then w.users else w.users[io.id := u])
            && p1 == AfterInsert(u, after,
                                 if !io.out.Acked? then DbError else if taken then UniqueViolation else Applied)
  {
    TakenMeans(w.users, row.tenant, row.email);
    hide TokenCommand, AfterInsert, ByEmail, Taken;
  }

  lemma SelectsLogin(cfg: Config, w: World, tenant: Tenant, email: string, password: string, io: Io, id: Id)
    requires UniqueEmails(w.users) && id in w.users && w.users[id].tenant == tenant && w.users[id].email == email
    ensures Next(cfg, w, SelectLogin(tenant, email, password), io) ==
            (w.(now := w.now + io.wait), AfterLogin(if io.out.Acked? then Some(w.users[id]) else None, password))
  {
    PickByEmail(w.users, id);
    hide TokenCommand, AfterLogin, ByEmail, UniqueEmails;
  }

  lemma SelectsNoLogin(cfg: Config, w: World, tenant: Tenant, email: string, password: string, io: Io)
    requires !Taken(w.users, tenant, email)
    ensures Next(cfg, w, SelectLogin(tenant, email, password), io) ==
            (w.(now := w.now + io.wait), Done(Failed(Unauthorized)))
  {
    TakenMeans(w.users, tenant, email);
    hide TokenCommand, ByEmail, Taken;
  }

  lemma SelectsRequest(cfg: Config, w: World, kind: Kind, tenant: Tenant, email: string, io: Io, id: Id)
    requires Keyed(w.users) && UniqueEmails(w.users)
    requires id in w.users && w.users[id].tenant == tenant && w.users[id].email == email
    ensures Next(cfg, w, SelectRequest(kind, tenant, email), io) ==
            (w.(now := w.now + io.wait), if io.out.Acked? then SetToken(kind, id) else Done(Accepted))
  {
    PickByEmail(w.users, id);
    hide TokenCommand, ByEmail, UniqueEmails;
  }

  lemma SelectsNoRequest(cfg: Config, w: World, kind: Kind, tenant: Tenant, email: string, io: Io)
    requires !Taken(w.users, tenant, email)
    ensures Next(cfg, w, SelectRequest(kind, tenant, email), io) == (w.(now := w.now + io.wait), Done(Accepted))
  {
    TakenMeans(w.users, tenant, email);
    hide TokenCommand, ByEmail, Taken;
  }

  lemma SelectsOwner(cfg: Config, w: World, kind: Kind, token: Token, arg: string, id: Id, readAt: Time, io: Io)
    ensures var now := w.now + io.wait;
            var found := if io.out.Acked? && id in w.users then Some(w.users[id]) else None;
            Next(cfg, w, SelectOwner(kind, token, arg, id, readAt), io) ==
            (w.(now := now), AfterOwner(cfg, kind, token, arg, found, readAt, now))
  {
    hide TokenCommand, AfterOwner;
  }

  lemma SelectsById(cfg: Config, w: World, id: Id, edit: Edit, io: Io)
    ensures var now := w.now + io.wait;
            var found := if io.out.Acked? && id in w.users then Some(w.users[id]) else None;
            Next(cfg, w, SelectById(id, edit), io) ==
            (w.(now := now), AfterRow(cfg, edit, io.out.Acked?, found, io.secret, now))
  {
    hide TokenCommand, AfterRow;
  }

  /** Tenant, identity and creation time are as stored in a row that was read. */
  lemma Updates(cfg: Config, w: World, u: User, why: Why, io: Io)
    requires u.id in w.users
    requires var row := w.users[u.id]; SameIdentity(u, row)
    ensures var (w1, p1) := Next(cfg, w, UpdateUser(u, why), io);
            var taken := TakenByAnother(w.users, u.id, u.tenant, u.email);
            && w1.now == w.now + io.wait && w1.kv == w.kv
            && w1.users == (if io.out.Refused? || taken then w.users else w.users[u.id := u])
            && p1 == Done(if io.out.Acked? && !taken then Written(u, why) else Failed(Internal))
  {
    TakenByAnotherMeans(w.users, u.id, u.tenant, u.email);
    assert Merge(w.users[u.id], u) == u;
    hide TokenCommand, Written, ByEmail, TakenByAnother, Merge;
  }

  /** An UPDATE of a row that is gone writes nothing, and is no error. */
  lemma UpdatesNothing(cfg: Config, w: World, u: User, why: Why, io: Io)
    requires u.id !in w.users
    ensures Next(cfg, w, UpdateUser(u, why), io) ==
            (w.(now := w.now + io.wait), Done(if io.out.Acked? then Written(u, why) else Failed(Internal)))
  {
    assert w.log + [] == w.log;
    hide TokenCommand, Written, ByEmail, Merge;
  }

  lemma SelectsOAuth(cfg: Config, w: World, tenant: Tenant, provider: string, info: Info, io: Io, id: Id)
    requires UniqueOAuth(w.users) && provider != "" && id in w.users
    requires w.users[id].tenant == tenant && w.users[id].provider == provider && w.users[id].subject == info.subject
    ensures Next(cfg, w, SelectOAuth(tenant, provider, info), io) ==
            (w.(now := w.now + io.wait),
             if io.out.Acked? then SetRefresh(w.users[id], ByProvider) else Done(Failed(Internal)))
  {
    PickByOAuth(w.users, id);
    hide TokenCommand, ByOAuth, UniqueOAuth;
  }

  lemma SelectsNoOAuth(cfg: Config, w: World, tenant: Tenant, provider: string, info: Info, io: Io)
    requires !Known(w.users, tenant, provider, info.subject)
    ensures var row := User(NIL_ID, tenant, info.email, OfRandomBytes, Member, true, false, "", true,
                            provider, info.subject, "", 0, 0);
            Next(cfg, w, SelectOAuth(tenant, provider, info), io) ==
            (w.(now := w.now + io.wait), if io.out.Acked? then InsertUser(row, SignIn) else Done(Failed(Internal)))
  {
    KnownMeans(w.users, tenant, provider, info.subject);
    hide TokenCommand, ByOAuth, Known;
  }

  lemma DeletesRow(cfg: Config, w: World, id: Id, io: Io)
    ensures var (w1, p1) := Next(cfg, w, DeleteRow(id), io);
            && w1.now == w.now + io.wait && w1.kv == w.kv
            && w1.users == (if io.out.Refused? then w.users else w.users - {id})
            && p1 == Done(if io.out.Acked? then Accepted else Failed(Internal))
  {
    hide TokenCommand;
  }

  // ---------- Redis ----------

  /** The keyspace after a SET with a time to live, unless the command is refused. */
  function Put(kv: Store, key: Key, value: Value, until: Time, out: Outcome): Store {
    if out.Refused? then kv else kv[key := Entry(value, until)]
  }

  function Drop(kv: Store, key: Key, out: Outcome): Store {
    if out.Refused? then kv else kv - {key}
  }

  lemma SetsToken(cfg: Config, w: World, kind: Kind, id: Id, io: Io)
    ensures var now, (w1, p1) := w.now + io.wait, Next(cfg, w, SetToken(kind, id), io);
            && w1.now == now && w1.users == w.users
            && w1.kv == Put(w.kv, Key(kind, io.token), OfUser(id), now + Ttl(cfg, kind), io.out)
            && p1 == Done(if kind == Mfa then MfaRequired(io.token) else Accepted)
  {
    hide RowCommand, Ttl;
  }

  lemma SetsRefresh(cfg: Config, w: World, u: User, via: Via, io: Io)
    ensures var now, (w1, p1) := w.now + io.wait, Next(cfg, w, SetRefresh(u, via), io);
            && w1.now == now && w1.users == w.users
            && w1.kv == Put(w.kv, Key(Refresh, io.token), OfUser(u.id), now + cfg.refreshTtl, io.out)
            && p1 == Done(if io.out.Acked? then Session(u.id, u.email, u.role, cfg.accessTtl, io.token)
                          else Failed(Internal))
  {
    hide RowCommand;
  }

  lemma SetsState(cfg: Config, w: World, provider: string, io: Io)
    ensures var now, (w1, p1) := w.now + io.wait, Next(cfg, w, SetState(provider), io);
            && w1.now == now && w1.users == w.users
            && w1.kv == Put(w.kv, Key(OAuthState, io.token), OfProvider(provider), now + 600_000, io.out)
            && p1 == Done(if io.out.Acked? then StateIssued(cfg.authUrl(provider, io.token), io.token)
                          else Failed(Internal))
  {
    hide RowCommand;
  }

  /** The token is in force at a time, and stands for a user. */
  ghost predicate InForce(kv: Store, key: Key, id: Id, time: Time) {
    key in kv && time < kv[key].expiry && kv[key].value == OfUser(id)
  }

  ghost predicate Lapsed(kv: Store, key: Key, time: Time) {
    key !in kv || time >= kv[key].expiry
  }

  lemma GetsOwner(cfg: Config, w: World, kind: Kind, token: Token, arg: string, id: Id, io: Io)
    requires InForce(w.kv, Key(kind, token), id, w.now + io.wait)
    ensures var now := w.now + io.wait;
            Next(cfg, w, GetOwner(kind, token, arg), io) ==
            (w.(now := now),
             if io.out.Acked? then SelectOwner(kind, token, arg, id, now)
             else Done(Failed(if kind == Refresh then Internal else InvalidToken)))
  {
    hide RowCommand;
  }

  lemma GetsNothing(cfg: Config, w: World, kind: Kind, token: Token, arg: string, io: Io)
    requires Lapsed(w.kv, Key(kind, token), w.now + io.wait)
    ensures Next(cfg, w, GetOwner(kind, token, arg), io) ==
            (w.(now := w.now + io.wait),
             Done(Failed(if kind == Refresh && !io.out.Acked? then Internal else InvalidToken)))
  {
    hide RowCommand;
  }

  /** A stored text that is no id: a refresh rejects it, any other call goes on with the nil id. */
  lemma GetsOther(cfg: Config, w: World, kind: Kind, token: Token, arg: string, io: Io)
    requires var key, now := Key(kind, token), w.now + io.wait;
             !Lapsed(w.kv, key, now) && !w.kv[key].value.OfUser? && io.out.Acked?
    ensures var now := w.now + io.wait;
            Next(cfg, w, GetOwner(kind, token, arg), io) ==
            (w.(now := now),
             if kind == Refresh then Done(Failed(InvalidToken)) else SelectOwner(kind, token, arg, 0, now))
  {
    hide RowCommand;
  }

  lemma Deletes(cfg: Config, w: World, kind: Kind, token: Token, u: User, next: Then, readAt: Time, io: Io)
    ensures var (w1, p1) := Next(cfg, w, DelToken(kind, token, u, next, readAt), io);
            && w1.now == w.now + io.wait && w1.users == w.users && w1.kv == Drop(w.kv, Key(kind, token), io.out)
            && p1 == if next.Open? then SetRefresh(u, next.via) else UpdateUser(u, next.why)
  {
    hide RowCommand;
  }

  lemma GetsState(cfg: Config, w: World, tenant: Tenant, provider: string, state: Token, info: Option<Info>, io: Io)
    ensures var now, key := w.now + io.wait, Key(OAuthState, state);
            var live := key in w.kv && now < w.kv[key].expiry;
            var valid := io.out.Acked? && live && w.kv[key].value == OfProvider(provider);
            Next(cfg, w, GetState(tenant, provider, state, info), io) ==
            (w.(now := now), if valid then DelState(tenant, provider, state, info, now) else Done(Failed(InvalidState)))
  {
    hide RowCommand;
  }

  lemma DeletesState(cfg: Config, w: World, tenant: Tenant, provider: string, state: Token, info: Option<Info>,
          readAt: Time, io: Io)
    ensures var (w1, p1) := Next(cfg, w, DelState(tenant, provider, state, info, readAt), io);
            && w1.now == w.now + io.wait && w1.users == w.users && w1.kv == Drop(w.kv, Key(OAuthState, state), io.out)
            && p1 == if provider != "google" && provider != "github" then Done(Failed(UnsupportedProvider))
                     else if info.None? then Done(Failed(OAuthExchange))
                     else SelectOAuth(tenant, provider, info.value)
  {
    hide RowCommand;
  }

  lemma Revokes(cfg: Config, w: World, token: Token, io: Io)
    ensures var (w1, p1) := Next(cfg, w, DelRefresh(token), io);
            && w1.now == w.now + io.wait && w1.users == w.users && w1.kv == Drop(w.kv, Key(Refresh, token), io.out)
            && p1 == Done(if io.out.Acked? then Accepted else Failed(Internal))
  {
    hide RowCommand;
  }

  /** A counter that is in force is counted up to the limit and keeps its expiry, unless it is 0; otherwise a
      new one is set to 1 for 60 seconds. Only an acknowledged refusal is answered as one. */
  lemma Counts(cfg: Config, w: World, ip: string, io: Io)
    requires var key := Key(RateLimit, ip); !Lapsed(w.kv, key, w.now + io.wait) ==> w.kv[key].value.Count?
    ensures var now, key, (w1, p1) := w.now + io.wait, Key(RateLimit, ip), Next(cfg, w, RunScript(ip), io);
            var open := key in w.kv && now < w.kv[key].expiry;
            var current := if open then w.kv[key].value.n else 0;
            var until := if open && current != 0 then w.kv[key].expiry else now + 60_000;
            var full := current + 1 > cfg.requestsPerMinute;
            && w1.now == now && w1.users == w.users
            && w1.kv == (if full then w.kv else Put(w.kv, key, Count(current + 1), until, io.out))
            && p1 == Done(if io.out.Acked? && full then Failed(RateLimited) else Accepted)
  {
    hide RowCommand;
  }

  /** A counter in force that holds no number: the script fails, and the request is let through. */
  lemma CountsNothing(cfg: Config, w: World, ip: string, io: Io)
    requires var key := Key(RateLimit, ip); !Lapsed(w.kv, key, w.now + io.wait) && !w.kv[key].value.Count?
    ensures Next(cfg, w, RunScript(ip), io) == (w.(now := w.now + io.wait), Done(Accepted))
  {
    hide RowCommand;
  }
}
