/** When calls succeed: what a token must be for its call to go through, and sign-in from end to end,
    given that every command is acknowledged. */
module Completeness {
  import opened Domain
  import opened Keyspace
  import opened Users
  import opened Machine
  import RateLimiting
  import opened Invariants
  import opened Runs
  import opened Calls
  import opened Sequential
  import opened Effects

  ghost predicate AllAcked(ios: seq<Io>) {
    forall k :: 0 <= k < |ios| ==> ios[k].out.Acked?
  }

  lemma Unroll(cfg: Config, w: World, p: Proc, ios: seq<Io>, k: nat)
    requires k < |ios| && !p.Done?
    ensures var (w1, p1) := Next(cfg, w, p, ios[k]); Run(cfg, w, p, ios, k) == Run(cfg, w1, p1, ios, k + 1)
  {
  }

  predicate UsesUserToken(call: Call) {
    call.VerifyMfa? || call.ConfirmEmail? || call.ConfirmReset? || call.RefreshToken?
  }

  /** The token is in force when it is read, its owner exists, and the checks of the call are met: an
      active owner to sign in, a valid code for a challenge, a valid password for a reset. */
  ghost predicate Usable(cfg: Config, w: World, call: Call, readAt: Time, checkedAt: Time)
    requires UsesUserToken(call)
  {
    var key := Target(call).value;
    && Live(w.kv, readAt, key) && w.kv[key].value.OfUser? && w.kv[key].value.id in w.users
    && var u := w.users[w.kv[key].value.id];
       match call
       case VerifyMfa(_, code) => u.active && CodeValid(cfg, u.mfaSecret, code, checkedAt)
       case RefreshToken(_) => u.active
       case ConfirmReset(_, password) => ValidPassword(password)
       case _ => true
  }

  function ArgOf(call: Call): string {
    match call
    case VerifyMfa(_, code) => code
    case ConfirmReset(_, password) => password
    case _ => ""
  }

  lemma ReadsToken(cfg: Config, w: World, call: Call, io: Io)
    requires UsesUserToken(call) && KeysGood(w) && io.out.Acked?
    ensures var key, now, p := Target(call).value, w.now + io.wait, Start(cfg, call);
            if p.Done? then p.reply.Failed? && call.ConfirmReset? && !ValidPassword(call.password)
            else
              && (call.ConfirmReset? ==> ValidPassword(call.password))
              && var (w1, p1) := Next(cfg, w, p, io);
                 && w1 == w.(now := now)
                 && (Live(w.kv, now, key) ==>
                       w.kv[key].value.OfUser? &&
                       p1 == SelectOwner(key.kind, key.token, ArgOf(call), w.kv[key].value.id, now))
                 && (!Live(w.kv, now, key) ==> p1.Done? && p1.reply.Failed?)
  {
    hide CodeValid, RateLimiting.Throttled, RowCommand;
  }

  lemma ChecksOwner(cfg: Config, w: World, p: Proc, io: Io)
    requires p.SelectOwner? && UserKind(p.kind) && Keyed(w.users) && io.out.Acked?
    ensures var (w1, p1) := Next(cfg, w, p, io);
            && w1 == w.(now := w.now + io.wait)
            && if p.id in w.users && Passes(cfg, p.kind, p.arg, w.users[p.id], w.now + io.wait)
               then p1.DelToken? && p1.user.id == p.id && p1.user.email == w.users[p.id].email &&
                    (p1.next.Open? <==> p.kind == Refresh || p.kind == Mfa)
               else p1.Done? && p1.reply.Failed?
  {
    hide CodeValid, RateLimiting.Throttled, TokenCommand;
  }

  lemma DeletesToken(cfg: Config, w: World, p: Proc, io: Io)
    requires p.DelToken? && io.out.Acked?
    ensures var (w1, p1) := Next(cfg, w, p, io);
            w1.users == w.users &&
            p1 == if p.next.Open? then SetRefresh(p.user, p.next.via) else UpdateUser(p.user, p.next.why)
  {
    hide RowCommand;
  }

  /** A new session, or a write that leaves the email as it is, meets no obstacle. */
  lemma Finishes(cfg: Config, w: World, p: Proc, io: Io)
    requires p.SetRefresh? || p.UpdateUser?
    requires UniqueEmails(w.users) && io.out.Acked?
    requires p.UpdateUser? ==> p.user.id in w.users && p.user.email == w.users[p.user.id].email
    ensures var p1 := Next(cfg, w, p, io).1;
            && p1.Done? && Succeeded(p1.reply)
            && (p.SetRefresh? ==> p1.reply == Session(p.user.id, p.user.email, p.user.role, cfg.accessTtl, io.token))
  {
    if p.UpdateUser? {
      var u := w.users[p.user.id];
      assert ByEmail(w.users, u.tenant, p.user.email) - {p.user.id} == {};
    }
  }

  /** With every command acknowledged, a call with a user's token succeeds if and only if the token
      is usable. */
  lemma SucceedsExactlyWhenUsable(cfg: Config, w: World, call: Call, ios: seq<Io>)
    requires UsesUserToken(call) && Good(cfg, w) && AllAcked(ios) && |ios| >= 4
    ensures var p1 := Do(cfg, w, Step(call, ios)).1;
            && p1.Done?
            && (Succeeded(p1.reply) <==> Usable(cfg, w, call, w.now + ios[0].wait, w.now + ios[0].wait + ios[1].wait))
            && (Succeeded(p1.reply) && (call.VerifyMfa? || call.RefreshToken?) ==>
                  p1.reply.Session? && Owns(w, Target(call).value, p1.reply.id))
  {
    hide Next, Start, Good, CodeValid, Run, UniqueEmails, Keyed, KeysGood;
    var b, p, key := Begin(w, call), Start(cfg, call), Target(call).value;
    BeginKeeps(cfg, w, call);
    ReadsToken(cfg, b, call, ios[0]);
    if p.Done? {
      NothingLeft(cfg, b, p, ios, 0);
    } else {
      Unroll(cfg, b, p, ios, 0);
      var (w1, p1) := Next(cfg, b, p, ios[0]);
      if p1.Done? {
        NothingLeft(cfg, w1, p1, ios, 1);
      } else {
        OwnerDecides(cfg, w1, p1, ios);
      }
    }
  }

  lemma BeginKeeps(cfg: Config, w: World, call: Call)
    requires Good(cfg, w)
    ensures var b := Begin(w, call);
            && KeysGood(b) && Keyed(b.users) && UniqueEmails(b.users)
            && b.users == w.users && b.kv == w.kv && b.now == w.now
  {
    GoodBegin(cfg, w, call);
  }

  lemma NothingLeft(cfg: Config, w: World, p: Proc, ios: seq<Io>, k: nat)
    requires p.Done? && k <= |ios|
    ensures Run(cfg, w, p, ios, k) == (w, p)
  {
  }

  lemma OwnerDecides(cfg: Config, w: World, p: Proc, ios: seq<Io>)
    requires p.SelectOwner? && UserKind(p.kind) && Keyed(w.users) && UniqueEmails(w.users)
    requires AllAcked(ios) && |ios| >= 4
    ensures var p1 := Run(cfg, w, p, ios, 1).1;
            && p1.Done?
            && (Succeeded(p1.reply) <==>
                  p.id in w.users && Passes(cfg, p.kind, p.arg, w.users[p.id], w.now + ios[1].wait))
            && (Succeeded(p1.reply) && (p.kind == Refresh || p.kind == Mfa) ==>
                  p1.reply.Session? && p1.reply.id == p.id)
  {
    hide Next, Run, Keyed, UniqueEmails, Passes;
    Unroll(cfg, w, p, ios, 1);
    ChecksOwner(cfg, w, p, ios[1]);
    var (w1, p1) := Next(cfg, w, p, ios[1]);
    if p1.Done? {
      NothingLeft(cfg, w1, p1, ios, 2);
    } else {
      Unroll(cfg, w1, p1, ios, 2);
      DeletesToken(cfg, w1, p1, ios[2]);
      var (w2, p2) := Next(cfg, w1, p1, ios[2]);
      Unroll(cfg, w2, p2, ios, 3);
      Finishes(cfg, w2, p2, ios[3]);
      var (w3, p3) := Next(cfg, w2, p2, ios[3]);
      NothingLeft(cfg, w3, p3, ios, 4);
    }
  }

  // ---------- OAuth callbacks ----------

  /** The state is in force for this provider, the exchange answers, and the identity is known in the tenant
      or its email is free there: an account with the same email is not linked. */
  ghost predicate Admissible(w: World, tenant: Tenant, provider: string, state: Token, info: Option<Info>,
          readAt: Time) {
    && Live(w.kv, readAt, Key(OAuthState, state)) && w.kv[Key(OAuthState, state)].value == OfProvider(provider)
    && Supported(provider) && info.Some?
    && (|| ByOAuth(w.users, tenant, provider, info.value.subject) != {}
        || ByEmail(w.users, tenant, info.value.email) == {})
  }

  lemma ConsumesState(cfg: Config, w: World, tenant: Tenant, provider: string, state: Token, info: Option<Info>,
          io: Io, io1: Io)
    requires io.out.Acked? && io1.out.Acked?
    ensures var (w1, p1) := Next(cfg, w, GetState(tenant, provider, state, info), io);
            var key := Key(OAuthState, state);
            && w1.users == w.users
            && if Live(w.kv, w.now + io.wait, key) && w.kv[key].value == OfProvider(provider)
               then p1.DelState? &&
                    var (w2, p2) := Next(cfg, w1, p1, io1);
                    w2.users == w.users &&
                    if Supported(provider) && info.Some? then p2 == SelectOAuth(tenant, provider, info.value)
                    else p2.Done? && p2.reply.Failed?
               else p1.Done? && p1.reply.Failed?
  {
    hide RowCommand;
  }

  lemma LooksUp(cfg: Config, w: World, tenant: Tenant, provider: string, info: Info, io: Io)
    requires io.out.Acked?
    ensures var (w1, p1) := Next(cfg, w, SelectOAuth(tenant, provider, info), io);
            && w1.users == w.users
            && if ByOAuth(w.users, tenant, provider, info.subject) != {} then p1.SetRefresh?
               else p1.InsertUser? && p1.after == SignIn && p1.row.tenant == tenant && p1.row.email == info.email
  {
    hide ByOAuth, TokenCommand;
    var ids := ByOAuth(w.users, tenant, provider, info.subject);
    if ids != {} {
      assert Pick(ids).value in w.users by { OfTheIdentity(w.users, tenant, provider, info.subject); }
    }
  }

  lemma OfTheIdentity(users: Table, tenant: Tenant, provider: string, subject: string)
    ensures ByOAuth(users, tenant, provider, subject) <= users.Keys
  {
  }

  lemma InsertsUser(cfg: Config, w: World, p: Proc, io: Io)
    requires p.InsertUser? && p.after == SignIn && io.out.Acked? && io.id !in w.users
    ensures var (w1, p1) := Next(cfg, w, p, io);
            if ByEmail(w.users, p.row.tenant, p.row.email) == {} then p1.SetRefresh? else p1.Done? && p1.reply.Failed?
  {
    hide ByEmail, TokenCommand;
  }

  lemma OpensSession(cfg: Config, w: World, p: Proc, io: Io)
    requires p.SetRefresh? && io.out.Acked?
    ensures var (w1, p1) := Next(cfg, w, p, io);
            && w1.users == w.users && w1.now == w.now + io.wait
            && p1 == Done(Session(p.user.id, p.user.email, p.user.role, cfg.accessTtl, io.token))
  {
    hide RowCommand;
  }

  /** With every command acknowledged, a callback signs in if and only if it is admissible. */
  lemma CallbackSucceedsExactlyWhen(cfg: Config, w: World, tenant: Tenant, provider: string, state: Token,
          info: Option<Info>, ios: seq<Io>)
    requires AllAcked(ios) && |ios| >= 5 && ios[3].id !in w.users
    ensures var p1 := Do(cfg, w, Step(OAuthCallback(tenant, provider, state, info), ios)).1;
            && p1.Done?
            && (Succeeded(p1.reply) <==> Admissible(w, tenant, provider, state, info, w.now + ios[0].wait))
  {
    hide Next, Run, ByEmail, ByOAuth;
    var b, p := Begin(w, OAuthCallback(tenant, provider, state, info)), GetState(tenant, provider, state, info);
    ConsumesState(cfg, b, tenant, provider, state, info, ios[0], ios[1]);
    Unroll(cfg, b, p, ios, 0);
    var (w1, p1) := Next(cfg, b, p, ios[0]);
    if p1.Done? {
      NothingLeft(cfg, w1, p1, ios, 1);
    } else {
      Unroll(cfg, w1, p1, ios, 1);
      var (w2, p2) := Next(cfg, w1, p1, ios[1]);
      if p2.Done? {
        NothingLeft(cfg, w2, p2, ios, 2);
      } else {
        IdentityDecides(cfg, w2, tenant, provider, info.value, ios);
      }
    }
  }

  lemma IdentityDecides(cfg: Config, w: World, tenant: Tenant, provider: string, info: Info, ios: seq<Io>)
    requires AllAcked(ios) && |ios| >= 5 && ios[3].id !in w.users
    ensures var p1 := Run(cfg, w, SelectOAuth(tenant, provider, info), ios, 2).1;
            && p1.Done?
            && (Succeeded(p1.reply) <==>
                ByOAuth(w.users, tenant, provider, info.subject) != {} || ByEmail(w.users, tenant, info.email) == {})
  {
    hide Next, Run, ByEmail, ByOAuth;
    LooksUp(cfg, w, tenant, provider, info, ios[2]);
    Unroll(cfg, w, SelectOAuth(tenant, provider, info), ios, 2);
    var (w1, p1) := Next(cfg, w, SelectOAuth(tenant, provider, info), ios[2]);
    Unroll(cfg, w1, p1, ios, 3);
    var (w2, p2) := Next(cfg, w1, p1, ios[3]);
    if p1.SetRefresh? {
      OpensSession(cfg, w1, p1, ios[3]);
      NothingLeft(cfg, w2, p2, ios, 4);
    } else {
      InsertsUser(cfg, w1, p1, ios[3]);
      if p2.Done? {
        NothingLeft(cfg, w2, p2, ios, 4);
      } else {
        Unroll(cfg, w2, p2, ios, 4);
        OpensSession(cfg, w2, p2, ios[4]);
        NothingLeft(cfg, Next(cfg, w2, p2, ios[4]).0, Next(cfg, w2, p2, ios[4]).1, ios, 5);
      }
    }
  }

  // ---------- sign-in from end to end ----------

  lemma LoginAnswers(cfg: Config, w: World, id: Id, email: string, password: string, ios: seq<Io>)
    requires Good(cfg, w) && id in w.users && AllAcked(ios) && |ios| >= 2
    requires w.users[id].active && w.users[id].password.Matches(password) && cfg.clean(email) == Some(w.users[id].email)
    ensures var (w1, p1) := Do(cfg, w, Step(Login(w.users[id].tenant, email, password), ios));
            && w1.users == w.users && w1.now == w.now + ios[0].wait + ios[1].wait
            && if w.users[id].mfaEnabled
               then p1 == Done(MfaRequired(ios[1].token)) &&
                    var key := Key(Mfa, ios[1].token);
                    key in w1.kv && w1.kv[key] == Entry(OfUser(id), w1.now + Ttl(cfg, Mfa))
               else p1 == Done(Session(id, w.users[id].email, w.users[id].role, cfg.accessTtl, ios[1].token))
  {
    hide Run, Next, Good, UniqueEmails, ByEmail, KeysGood;
    var u := w.users[id];
    var call := Login(u.tenant, email, password);
    var b, p := Begin(w, call), SelectLogin(u.tenant, u.email, password);
    BeginKeeps(cfg, w, call);
    LoginLooksUp(cfg, b, id, password, ios[0]);
    Unroll(cfg, b, p, ios, 0);
    var (w1, p1) := Next(cfg, b, p, ios[0]);
    Unroll(cfg, w1, p1, ios, 1);
    ChallengeNeverOpens(cfg, w1, id, ios[1]);
    if !u.mfaEnabled {
      OpensSession(cfg, w1, p1, ios[1]);
    }
    var (w2, p2) := Next(cfg, w1, p1, ios[1]);
    NothingLeft(cfg, w2, p2, ios, 2);
  }

  lemma RegisterAnswers(cfg: Config, w: World, tenant: Tenant, email: string, password: string, ios: seq<Io>)
    requires Good(cfg, w) && AllAcked(ios) && |ios| >= 2
    requires FairStep(cfg, w, Step(Register(tenant, email, password), ios))
    requires cfg.clean(email).Some? && ValidPassword(password)
    ensures var (w1, p1) := Do(cfg, w, Step(Register(tenant, email, password), ios));
            var id := ios[0].id;
            if ByEmail(w.users, tenant, cfg.clean(email).value) == {}
            then p1 == Done(Accepted) && id in w1.users && w1.users.Keys == w.users.Keys + {id} &&
                 var u := w1.users[id];
                 && u.tenant == tenant && u.email == cfg.clean(email).value && u.password == Bcrypt(password)
                 && u.role == Member && u.active && !u.mfaEnabled && !u.emailVerified && u.provider == ""
                 && Owns(w1, Key(EmailVerify, ios[1].token), id)
            else p1 == Done(Failed(Conflict)) && w1.users == w.users && w1.kv == w.kv
  {
    var call := Register(tenant, email, password);
    var b, p := Begin(w, call), Start(cfg, call);
    hide Run, Good, ByEmail;
    Unroll(cfg, b, p, ios, 0);
    var (w1, p1) := Next(cfg, b, p, ios[0]);
    if p1.Done? {
      NothingLeft(cfg, w1, p1, ios, 1);
    } else {
      Unroll(cfg, w1, p1, ios, 1);
      var (w2, p2) := Next(cfg, w1, p1, ios[1]);
      NothingLeft(cfg, w2, p2, ios, 2);
    }
  }

  /** Who registers an address that is not taken can log in with the same address and password, and with
      no other password. */
  lemma RegisterThenLogin(cfg: Config, w: World, tenant: Tenant, email: string, password: string, attempt: string,
          ios: seq<Io>, ios2: seq<Io>)
    requires Good(cfg, w) && AllAcked(ios) && |ios| >= 2 && AllAcked(ios2) && |ios2| >= 2
    requires FairStep(cfg, w, Step(Register(tenant, email, password), ios))
    requires cfg.clean(email).Some? && ValidPassword(password) && ByEmail(w.users, tenant, cfg.clean(email).value) == {}
    ensures var w1 := Do(cfg, w, Step(Register(tenant, email, password), ios)).0;
            var p2 := Do(cfg, w1, Step(Login(tenant, email, attempt), ios2)).1;
            if attempt != password then p2 == Done(Failed(Unauthorized))
            else p2 == Done(Session(ios[0].id, cfg.clean(email).value, Member, cfg.accessTtl, ios2[1].token))
  {
    hide Do, Good, FairStep;
    var step := Step(Register(tenant, email, password), ios);
    RegisterAnswers(cfg, w, tenant, email, password, ios);
    DoKeeps(cfg, w, step);
    var w1 := Do(cfg, w, step).0;
    if attempt == password {
      LoginAnswers(cfg, w1, ios[0].id, email, attempt, ios2);
    } else {
      GoodKeys(cfg, w1);
      LoginTestsPassword(cfg, w1, ios[0].id, email, attempt, ios2);
    }
  }
}
