/** The use cases as they run: methods that call the repositories one command at a time and assign
    fields in between (auth_usecase.go, scim_usecase.go). Each is proved to leave in the stores, and
    to answer, exactly what its run in the state machine does. */
module AuthUseCases {
  import opened Domain
  import opened Keyspace
  import opened Users
  import opened Machine
  import opened Invariants
  import opened Runs
  import RateLimiting
  import Totp

  /** The most commands any call makes. */
  const ENOUGH: nat := 5

  lemma SessionStored(cfg: Config, w: World, user: User, via: Via, io: Io)
    ensures var (w1, p1) := Next(cfg, w, SetRefresh(user, via), io);
            var now := w.now + io.wait;
            && w1.users == w.users && w1.now == now
            && w1.kv == Set(w.kv, now, Key(Refresh, io.token), OfUser(user.id), cfg.refreshTtl, io.out)
            && p1 == Done(if io.out.Acked? then Session(user.id, user.email, user.role, cfg.accessTtl, io.token)
                          else Failed(Internal))
  {
    hide RowCommand, Set;
  }

  class AuthUseCase {
    const userRepo: UserRepository
    const sessionRepo: SessionRepository
    const limiter: RateLimiting.RateLimiter
    const cfg: Config
    /** The machine's view of both stores, with its history. */
    ghost var w: World
    /** Where the run of the current call will end. */
    ghost var outcome: (World, Proc)

    ghost predicate Linked()
      reads this, userRepo, sessionRepo.redis
    {
      limiter.redis == sessionRepo.redis && limiter.limit == cfg.requestsPerMinute &&
      userRepo.users == w.users && sessionRepo.Contents() == w.kv && sessionRepo.redis.now == w.now
    }

    ghost predicate Valid()
      reads this, userRepo, sessionRepo.redis
    {
      Linked() && Good(cfg, w)
    }

    /** The current call is at p, before command k of its run. */
    ghost predicate InCall(p: Proc, ios: seq<Io>, k: nat)
      reads this, userRepo, sessionRepo.redis
    {
      Valid() && Fits(cfg, w, p) && k <= |ios| && FairRun(cfg, w, p, ios, k) && Run(cfg, w, p, ios, k) == outcome
    }

    constructor (userRepo: UserRepository, sessionRepo: SessionRepository, limiter: RateLimiting.RateLimiter,
            cfg: Config)
      requires limiter.redis == sessionRepo.redis && limiter.limit == cfg.requestsPerMinute
      requires Consistent(userRepo.users, userRepo.users) && UniqueOAuth(userRepo.users) && NIL_ID !in userRepo.users
      requires sessionRepo.redis.flat == map[]
      ensures this.userRepo == userRepo && this.sessionRepo == sessionRepo && this.limiter == limiter && this.cfg == cfg
      ensures Valid() && w == Initial(userRepo.users, sessionRepo.redis.now)
    {
      this.userRepo, this.sessionRepo, this.limiter, this.cfg := userRepo, sessionRepo, limiter, cfg;
      w := Initial(userRepo.users, sessionRepo.redis.now);
      new;
      InitialGood(cfg, userRepo.users, sessionRepo.redis.now);
    }

    // ---------- the machine alongside ----------

    ghost predicate Ready(call: Call, ios: seq<Io>)
      reads this, userRepo, sessionRepo.redis
    {
      Valid() && |ios| >= ENOUGH && FairStep(cfg, w, Step(call, ios))
    }

    /** The call arrives: the tokens it presents are known from now on. */
    ghost method Arrive(call: Call, ios: seq<Io>) returns (p: Proc)
      requires Ready(call, ios)
      modifies this`w, this`outcome
      ensures p == Start(cfg, call) && InCall(p, ios, 0)
      ensures outcome == old(Do(cfg, w, Step(call, ios)))
    {
      GoodBegin(cfg, w, call);
      outcome := Do(cfg, w, Step(call, ios));
      p := Start(cfg, call);
      w := Begin(w, call);
    }

    /** The machine makes the command that has just been made on the stores. */
    ghost method Advance(p: Proc, ios: seq<Io>, k: nat) returns (p1: Proc)
      requires !p.Done? && k < |ios| && Good(cfg, w) && Fits(cfg, w, p) && FairRun(cfg, w, p, ios, k)
      modifies this`w
      ensures (w, p1) == Next(cfg, old(w), p, ios[k])
      ensures Run(cfg, w, p1, ios, k + 1) == Run(cfg, old(w), p, ios, k)
      ensures Good(cfg, w) && Fits(cfg, w, p1) && FairRun(cfg, w, p1, ios, k + 1)
    {
      hide Next, Good, Fits, Fair;
      GoodStep(cfg, w, p, ios[k]);
      var (w1, q) := Next(cfg, w, p, ios[k]);
      w, p1 := w1, q;
    }

    lemma AtEnd(p: Proc, ios: seq<Io>, k: nat)
      requires InCall(p, ios, k) && p.Done?
      ensures Valid() && outcome == (w, p)
    {
      hide Good, Fits;
    }

    // ---------- one command each ----------

    method CreateUser(row: User, after: After, ios: seq<Io>, k: nat) returns (u: User, r: DbResult, ghost p: Proc)
      requires k < |ios| && InCall(InsertUser(row, after), ios, k)
      modifies this`w, userRepo, sessionRepo.redis
      ensures InCall(p, ios, k + 1) && p == AfterInsert(u, after, r)
    {
      hide Good, Fits, Fair, FairRun, Run, Set, Get, Del, View, TokenCommand;
      sessionRepo.redis.Elapse(ios[k].wait);
      var now := sessionRepo.redis.now;
      u := row.(id := ios[k].id, createdAt := now, updatedAt := now);
      r := userRepo.Create(u, ios[k].out);
      p := Advance(InsertUser(row, after), ios, k);
    }

    lemma EmailRow(tenant: Tenant, email: string, found: Option<User>)
      requires Good(cfg, w)
      requires found.None? <==> ByEmail(w.users, tenant, email) == {}
      requires found.Some? ==> exists id :: id in ByEmail(w.users, tenant, email) && found.value == w.users[id]
      ensures found == Answer(w.users, Pick(ByEmail(w.users, tenant, email)), Acked)
    {
      if found.Some? {
        var id :| id in ByEmail(w.users, tenant, email) && found.value == w.users[id];
        PickByEmail(w.users, id);
      }
    }

    lemma OAuthRow(tenant: Tenant, provider: string, subject: string, found: Option<User>)
      requires Good(cfg, w) && provider != ""
      requires found.None? <==> ByOAuth(w.users, tenant, provider, subject) == {}
      requires found.Some? ==>
                 exists id :: id in ByOAuth(w.users, tenant, provider, subject) && found.value == w.users[id]
      ensures found == Answer(w.users, Pick(ByOAuth(w.users, tenant, provider, subject)), Acked)
    {
      if found.Some? {
        var id :| id in ByOAuth(w.users, tenant, provider, subject) && found.value == w.users[id];
        PickByOAuth(w.users, id);
      }
    }

    method GetByEmail(tenant: Tenant, email: string, ios: seq<Io>, k: nat, ghost p: Proc)
      returns (found: Option<User>, ghost p1: Proc)
      requires k < |ios| && InCall(p, ios, k)
      requires (p.SelectLogin? || p.SelectRequest?) && p.tenant == tenant && p.email == email
      modifies this`w, sessionRepo.redis
      ensures InCall(p1, ios, k + 1)
      ensures p.SelectLogin? ==> p1 == AfterLogin(found, p.password)
      ensures p.SelectRequest? ==> p1 == if found.None? then Done(Accepted) else SetToken(p.kind, found.value.id)
    {
      hide Good, Fits, Fair, FairRun, Run, ByEmail, ByOAuth, TokenCommand;
      sessionRepo.redis.Elapse(ios[k].wait);
      found := userRepo.GetByEmail(tenant, email);
      EmailRow(tenant, email, found);
      if !ios[k].out.Acked? {
        found := None;
      }
      p1 := Advance(p, ios, k);
    }

    method GetUserIDByToken(kind: Kind, token: Token, ghost arg: string, ios: seq<Io>, k: nat)
      returns (got: GetResult, ghost p: Proc)
      requires k < |ios| && InCall(GetOwner(kind, token, arg), ios, k)
      modifies this`w, sessionRepo.redis
      ensures InCall(p, ios, k + 1) && p == AfterGet(kind, token, arg, got, sessionRepo.redis.now)
    {
      hide Good, Fits, Fair, FairRun, Run, Set, Get, Del, View, RowCommand;
      sessionRepo.redis.Elapse(ios[k].wait);
      got := sessionRepo.Read(kind, token, ios[k].out);
      p := Advance(GetOwner(kind, token, arg), ios, k);
    }

    method GetOwnerByID(id: Id, ios: seq<Io>, k: nat, ghost p: Proc) returns (found: Option<User>, ghost p1: Proc)
      requires k < |ios| && InCall(p, ios, k) && p.SelectOwner? && p.id == id
      modifies this`w, sessionRepo.redis
      ensures InCall(p1, ios, k + 1)
      ensures p1 == AfterOwner(cfg, p.kind, p.token, p.arg, found, p.readAt, sessionRepo.redis.now)
    {
      hide Good, Fits, Fair, FairRun, Run, CodeValid, TokenCommand;
      sessionRepo.redis.Elapse(ios[k].wait);
      found := userRepo.GetByID(id);
      if !ios[k].out.Acked? {
        found := None;
      }
      p1 := Advance(p, ios, k);
    }

    method GetByID(id: Id, ios: seq<Io>, k: nat, ghost edit: Edit)
      returns (ok: bool, found: Option<User>, ghost p: Proc)
      requires k < |ios| && InCall(SelectById(id, edit), ios, k)
      modifies this`w, sessionRepo.redis
      ensures InCall(p, ios, k + 1) && p == AfterRow(cfg, edit, ok, found, ios[k].secret, sessionRepo.redis.now)
    {
      hide Good, Fits, Fair, FairRun, Run, CodeValid, TokenCommand;
      sessionRepo.redis.Elapse(ios[k].wait);
      found := userRepo.GetByID(id);
      ok := ios[k].out.Acked?;
      if !ok {
        found := None;
      }
      p := Advance(SelectById(id, edit), ios, k);
    }

    /** DEL, its error discarded. */
    method RevokeToken(kind: Kind, token: Token, ios: seq<Io>, k: nat, ghost p: Proc) returns (ghost p1: Proc)
      requires k < |ios| && InCall(p, ios, k) && p.DelToken? && p.kind == kind && p.token == token
      modifies this`w, sessionRepo.redis
      ensures InCall(p1, ios, k + 1)
      ensures p1 == if p.next.Open? then SetRefresh(p.user, p.next.via) else UpdateUser(p.user, p.next.why)
    {
      hide Good, Fits, Fair, FairRun, Run, Set, Get, Del, View, RowCommand;
      sessionRepo.redis.Elapse(ios[k].wait);
      var _ := sessionRepo.Revoke(kind, token, ios[k].out);
      p1 := Advance(p, ios, k);
    }

    /** SET of a token whose error is discarded: a challenge or a mailed confirmation. */
    method StoreToken(kind: Kind, id: Id, ios: seq<Io>, k: nat) returns (ghost p: Proc)
      requires k < |ios| && InCall(SetToken(kind, id), ios, k)
      modifies this`w, sessionRepo.redis
      ensures InCall(p, ios, k + 1) && p == Done(if kind == Mfa then MfaRequired(ios[k].token) else Accepted)
    {
      hide Good, Fits, Fair, FairRun, Run, Set, Get, Del, View, RowCommand;
      sessionRepo.redis.Elapse(ios[k].wait);
      var _ := sessionRepo.Store(kind, ios[k].token, OfUser(id), Ttl(cfg, kind), ios[k].out);
      p := Advance(SetToken(kind, id), ios, k);
    }

    method GenerateSession(user: User, ghost via: Via, ios: seq<Io>, k: nat) returns (res: Reply)
      requires k < |ios| && InCall(SetRefresh(user, via), ios, k)
      modifies this`w, sessionRepo.redis
      ensures Valid() && outcome == (w, Done(res))
    {
      hide Good, Fits, Fair, FairRun, Run, Next, Set, View;
      SessionStored(cfg, w, user, via, ios[k]);
      sessionRepo.redis.Elapse(ios[k].wait);
      var ok := sessionRepo.Store(Refresh, ios[k].token, OfUser(user.id), cfg.refreshTtl, ios[k].out);
      res := if ok then Session(user.id, user.email, user.role, cfg.accessTtl, ios[k].token) else Failed(Internal);
      ghost var p := Advance(SetRefresh(user, via), ios, k);
      AtEnd(p, ios, k + 1);
    }

    method SaveUser(user: User, ghost why: Why, ios: seq<Io>, k: nat) returns (ok: bool)
      requires k < |ios| && InCall(UpdateUser(user, why), ios, k)
      modifies this`w, userRepo, sessionRepo.redis
      ensures Valid() && outcome == (w, Done(if ok then Written(user, why) else Failed(Internal)))
    {
      hide Good, Fits, Fair, FairRun, Run, Update, TokenCommand;
      sessionRepo.redis.Elapse(ios[k].wait);
      var r := userRepo.Save(user, ios[k].out);
      ok := r == Applied;
      ghost var p := Advance(UpdateUser(user, why), ios, k);
      AtEnd(p, ios, k + 1);
    }

    method CodeMatches(secret: string, code: string) returns (ok: bool)
      ensures ok == CodeValid(cfg, secret, code, sessionRepo.redis.now)
    {
      hide Totp.Accepts;
      ok := Totp.ValidateCode(cfg.hmac, secret, code, sessionRepo.redis.now / 1000);
    }

    // ---------- the rate limiter, before every call ----------

    method Throttle(ip: string, ios: seq<Io>) returns (res: Reply)
      requires Ready(Call.Throttle(ip), ios)
      modifies this, userRepo, sessionRepo.redis
      ensures Valid() && (w, Done(res)) == old(Do(cfg, w, Step(Call.Throttle(ip), ios)))
    {
      hide Good, Fits, Fair, FairRun, Run, Do, View, RateLimiting.Throttled, RowCommand;
      ghost var p := Arrive(Call.Throttle(ip), ios);
      sessionRepo.redis.Elapse(ios[0].wait);
      var served := limiter.Middleware(ip, ios[0].out);
      p := Advance(p, ios, 0);
      AtEnd(p, ios, 1);
      return if served then Accepted else Failed(RateLimited);
    }

    // ---------- the calls ----------

    method Register(tenant: Tenant, email: string, password: string, ios: seq<Io>) returns (res: Reply)
      requires Ready(Call.Register(tenant, email, password), ios)
      modifies this, userRepo, sessionRepo.redis
      ensures Valid() && (w, Done(res)) == old(Do(cfg, w, Step(Call.Register(tenant, email, password), ios)))
    {
      hide InCall, Valid, Next, Do;
      ghost var p := Arrive(Call.Register(tenant, email, password), ios);
      var cleaned := cfg.clean(email);
      if cleaned.None? {
        AtEnd(p, ios, 0);
        return Failed(Validation);
      }
      if |password| < 8 || |password| > 72 {
        AtEnd(p, ios, 0);
        return Failed(Validation);
      }
      var user := NewUser(tenant, cleaned.value, Bcrypt(password), true, false, "", "", "");
      var u, r;
      u, r, p := CreateUser(user, SendVerification, ios, 0);
      if r != Applied {
        AtEnd(p, ios, 1);
        return Failed(if r == UniqueViolation then Conflict else Internal);
      }
      p := StoreToken(EmailVerify, u.id, ios, 1);
      AtEnd(p, ios, 2);
      return Accepted;
    }

    method Login(tenant: Tenant, email: string, password: string, ios: seq<Io>) returns (res: Reply)
      requires Ready(Call.Login(tenant, email, password), ios)
      modifies this, userRepo, sessionRepo.redis
      ensures Valid() && (w, Done(res)) == old(Do(cfg, w, Step(Call.Login(tenant, email, password), ios)))
    {
      hide InCall, Valid, Next, Do;
      ghost var p := Arrive(Call.Login(tenant, email, password), ios);
      var cleaned := cfg.clean(email);
      if cleaned.None? {
        AtEnd(p, ios, 0);
        return Failed(Unauthorized);
      }
      var user;
      user, p := GetByEmail(tenant, cleaned.value, ios, 0, p);
      if user.None? || !user.value.active {
        AtEnd(p, ios, 1);
        return Failed(Unauthorized);
      }
      if !user.value.password.Matches(password) {
        AtEnd(p, ios, 1);
        return Failed(Unauthorized);
      }
      if user.value.mfaEnabled {
        p := StoreToken(Mfa, user.value.id, ios, 1);
        AtEnd(p, ios, 2);
        return MfaRequired(ios[1].token);
      }
      res := GenerateSession(user.value, ByPassword, ios, 1);
    }

    method VerifyMFAChallenge(mfaToken: Token, code: string, ios: seq<Io>) returns (res: Reply)
      requires Ready(VerifyMfa(mfaToken, code), ios)
      modifies this, userRepo, sessionRepo.redis
      ensures Valid() && (w, Done(res)) == old(Do(cfg, w, Step(VerifyMfa(mfaToken, code), ios)))
    {
      hide InCall, Valid, Next, Do, CodeValid;
      ghost var p := Arrive(VerifyMfa(mfaToken, code), ios);
      var got;
      got, p := GetUserIDByToken(Mfa, mfaToken, code, ios, 0);
      if !got.Found? {
        AtEnd(p, ios, 1);
        return Failed(InvalidToken);
      }
      var userID := if got.value.OfUser? then got.value.id else NIL_ID;
      var user;
      user, p := GetOwnerByID(userID, ios, 1, p);
      if user.None? || !user.value.active {
        AtEnd(p, ios, 2);
        return Failed(Unauthorized);
      }
      var ok := CodeMatches(user.value.mfaSecret, code);
      if !ok {
        AtEnd(p, ios, 2);
        return Failed(InvalidMfaCode);
      }
      ghost var via := p.next.via;
      p := RevokeToken(Mfa, mfaToken, ios, 2, p);
      res := GenerateSession(user.value, via, ios, 3);
    }

    method SetupMFA(userID: Id, ios: seq<Io>) returns (res: Reply)
      requires Ready(SetupMfa(userID), ios)
      modifies this, userRepo, sessionRepo.redis
      ensures Valid() && (w, Done(res)) == old(Do(cfg, w, Step(SetupMfa(userID), ios)))
    {
      hide InCall, Valid, Next, Do;
      ghost var p := Arrive(SetupMfa(userID), ios);
      var ok, found;
      ok, found, p := GetByID(userID, ios, 0, NewSecret);
      if found.None? {
        AtEnd(p, ios, 1);
        return Failed(NotFound);
      }
      var user := found.value;
      user := user.(mfaSecret := ios[0].secret);
      user := user.(updatedAt := sessionRepo.redis.now);
      ok := SaveUser(user, Enrol, ios, 1);
      return if ok then Enrolled(user.mfaSecret, Totp.ProvisioningUri(user.email, user.mfaSecret))
             else Failed(Internal);
    }

    method ConfirmMFASetup(userID: Id, code: string, ios: seq<Io>) returns (res: Reply)
      requires Ready(ConfirmMfa(userID, code), ios)
      modifies this, userRepo, sessionRepo.redis
      ensures Valid() && (w, Done(res)) == old(Do(cfg, w, Step(ConfirmMfa(userID, code), ios)))
    {
      hide InCall, Valid, Next, Do, CodeValid;
      ghost var p := Arrive(ConfirmMfa(userID, code), ios);
      var ok, found;
      ok, found, p := GetByID(userID, ios, 0, Enable(code));
      if found.None? {
        AtEnd(p, ios, 1);
        return Failed(NotFound);
      }
      var user := found.value;
      var matches := CodeMatches(user.mfaSecret, code);
      if !matches {
        AtEnd(p, ios, 1);
        return Failed(InvalidMfaCode);
      }
      user := user.(mfaEnabled := true);
      user := user.(updatedAt := sessionRepo.redis.now);
      ok := SaveUser(user, Activate, ios, 1);
      return if ok then Accepted else Failed(Internal);
    }

    method RequestEmailVerification(tenant: Tenant, email: string, ios: seq<Io>) returns (res: Reply)
      requires Ready(Call.RequestEmailVerification(tenant, email), ios)
      modifies this, userRepo, sessionRepo.redis
      ensures Valid() && (w, Done(res)) == old(Do(cfg, w, Step(Call.RequestEmailVerification(tenant, email), ios)))
    {
      hide InCall, Valid, Next, Do;
      ghost var p := Arrive(Call.RequestEmailVerification(tenant, email), ios);
      var user;
      user, p := GetByEmail(tenant, email, ios, 0, p);
      if user.None? {
        AtEnd(p, ios, 1);
        return Accepted;
      }
      p := StoreToken(EmailVerify, user.value.id, ios, 1);
      AtEnd(p, ios, 2);
      return Accepted;
    }

    method ConfirmEmailVerification(token: Token, ios: seq<Io>) returns (res: Reply)
      requires Ready(ConfirmEmail(token), ios)
      modifies this, userRepo, sessionRepo.redis
      ensures Valid() && (w, Done(res)) == old(Do(cfg, w, Step(ConfirmEmail(token), ios)))
    {
      hide InCall, Valid, Next, Do;
      ghost var p := Arrive(ConfirmEmail(token), ios);
      var got;
      got, p := GetUserIDByToken(EmailVerify, token, "", ios, 0);
      if !got.Found? {
        AtEnd(p, ios, 1);
        return Failed(InvalidToken);
      }
      var userID := if got.value.OfUser? then got.value.id else NIL_ID;
      var found;
      found, p := GetOwnerByID(userID, ios, 1, p);
      if found.None? {
        AtEnd(p, ios, 2);
        return Failed(NotFound);
      }
      var user := found.value;
      user := user.(emailVerified := true);
      user := user.(updatedAt := sessionRepo.redis.now);
      p := RevokeToken(EmailVerify, token, ios, 2, p);
      var ok := SaveUser(user, Verify, ios, 3);
      return if ok then Accepted else Failed(Internal);
    }

    method RequestPasswordReset(tenant: Tenant, email: string, ios: seq<Io>) returns (res: Reply)
      requires Ready(RequestReset(tenant, email), ios)
      modifies this, userRepo, sessionRepo.redis
      ensures Valid() && (w, Done(res)) == old(Do(cfg, w, Step(RequestReset(tenant, email), ios)))
    {
      hide InCall, Valid, Next, Do;
      ghost var p := Arrive(RequestReset(tenant, email), ios);
      var user;
      user, p := GetByEmail(tenant, email, ios, 0, p);
      if user.None? {
        AtEnd(p, ios, 1);
        return Accepted;
      }
      p := StoreToken(PwdReset, user.value.id, ios, 1);
      AtEnd(p, ios, 2);
      return Accepted;
    }

    method ConfirmPasswordReset(token: Token, newPassword: string, ios: seq<Io>) returns (res: Reply)
      requires Ready(ConfirmReset(token, newPassword), ios)
      modifies this, userRepo, sessionRepo.redis
      ensures Valid() && (w, Done(res)) == old(Do(cfg, w, Step(ConfirmReset(token, newPassword), ios)))
    {
      hide InCall, Valid, Next, Do;
      ghost var p := Arrive(ConfirmReset(token, newPassword), ios);
      if |newPassword| < 8 || |newPassword| > 72 {
        AtEnd(p, ios, 0);
        return Failed(Validation);
      }
      var got;
      got, p := GetUserIDByToken(PwdReset, token, newPassword, ios, 0);
      if !got.Found? {
        AtEnd(p, ios, 1);
        return Failed(InvalidToken);
      }
      var userID := if got.value.OfUser? then got.value.id else NIL_ID;
      var found;
      found, p := GetOwnerByID(userID, ios, 1, p);
      if found.None? {
        AtEnd(p, ios, 2);
        return Failed(NotFound);
      }
      var user := found.value;
      user := user.(password := Bcrypt(newPassword));
      user := user.(updatedAt := sessionRepo.redis.now);
      p := RevokeToken(PwdReset, token, ios, 2, p);
      var ok := SaveUser(user, Reset, ios, 3);
      return if ok then Accepted else Failed(Internal);
    }

    method OAuthLoginURL(provider: string, ios: seq<Io>) returns (res: Reply)
      requires Ready(OAuthUrl(provider), ios)
      modifies this, userRepo, sessionRepo.redis
      ensures Valid() && (w, Done(res)) == old(Do(cfg, w, Step(OAuthUrl(provider), ios)))
    {
      hide Good, Fits, Fair, FairRun, Run, Do, Set, Get, Del, View, RowCommand;
      ghost var p := Arrive(OAuthUrl(provider), ios);
      if provider != "google" && provider != "github" {
        AtEnd(p, ios, 0);
        return Failed(UnsupportedProvider);
      }
      sessionRepo.redis.Elapse(ios[0].wait);
      var ok := sessionRepo.Store(OAuthState, ios[0].token, OfProvider(provider), Ttl(cfg, OAuthState), ios[0].out);
      p := Advance(p, ios, 0);
      AtEnd(p, ios, 1);
      return if ok then StateIssued(cfg.authUrl(provider, ios[0].token), ios[0].token) else Failed(Internal);
    }

    /** The two commands of ValidateAndConsumeOAuthState. */
    method ConsumeState(provider: string, state: Token, ios: seq<Io>, ghost p: Proc)
      returns (valid: bool, ghost p1: Proc)
      requires |ios| >= ENOUGH && InCall(p, ios, 0) && p.GetState? && p.provider == provider && p.state == state
      modifies this`w, sessionRepo.redis
      ensures !valid ==> p1 == Done(Failed(InvalidState)) && InCall(p1, ios, 1)
      ensures valid ==> InCall(p1, ios, 2)
      ensures valid ==> p1 == if !Supported(provider) then Done(Failed(UnsupportedProvider))
                              else if p.info.None? then Done(Failed(OAuthExchange))
                              else SelectOAuth(p.tenant, provider, p.info.value)
    {
      hide Good, Fits, Fair, FairRun, Run, Set, Get, Del, View, RowCommand;
      sessionRepo.redis.Elapse(ios[0].wait);
      valid := sessionRepo.ValidateAndConsumeOAuthState(state, provider, ios[0].out, ios[1].wait, ios[1].out);
      p1 := Advance(p, ios, 0);
      if valid {
        p1 := Advance(p1, ios, 1);
      }
    }

    method GetByOAuth(tenant: Tenant, provider: string, info: Info, ios: seq<Io>)
      returns (ok: bool, found: Option<User>, ghost p: Proc)
      requires |ios| >= ENOUGH && InCall(SelectOAuth(tenant, provider, info), ios, 2) && provider != ""
      modifies this`w, sessionRepo.redis
      ensures InCall(p, ios, 3) && p == AfterOAuth(tenant, provider, info, ok, found)
    {
      hide Good, Fits, Fair, FairRun, Run, ByOAuth, TokenCommand;
      sessionRepo.redis.Elapse(ios[2].wait);
      found := userRepo.GetByOAuth(tenant, provider, info.subject);
      OAuthRow(tenant, provider, info.subject, found);
      ok := ios[2].out.Acked?;
      p := Advance(SelectOAuth(tenant, provider, info), ios, 2);
    }

    /** info is what the provider answers for the code, or None when the exchange fails. */
    method HandleOAuthCallback(tenant: Tenant, provider: string, state: Token, info: Option<Info>, ios: seq<Io>)
      returns (res: Reply)
      requires Ready(OAuthCallback(tenant, provider, state, info), ios)
      modifies this, userRepo, sessionRepo.redis
      ensures Valid() && (w, Done(res)) == old(Do(cfg, w, Step(OAuthCallback(tenant, provider, state, info), ios)))
    {
      hide InCall, Valid, Next, Do, CodeValid;
      ghost var p := Arrive(OAuthCallback(tenant, provider, state, info), ios);
      var valid;
      valid, p := ConsumeState(provider, state, ios, p);
      if !valid {
        AtEnd(p, ios, 1);
        return Failed(InvalidState);
      }
      if provider != "google" && provider != "github" {
        AtEnd(p, ios, 2);
        return Failed(UnsupportedProvider);
      }
      if info.None? {
        AtEnd(p, ios, 2);
        return Failed(OAuthExchange);
      }
      var ok, found;
      ok, found, p := GetByOAuth(tenant, provider, info.value, ios);
      if !ok {
        AtEnd(p, ios, 3);
        return Failed(Internal);
      }
      if found.Some? {
        res := GenerateSession(found.value, ByProvider, ios, 3);
        return;
      }
      var user := NewUser(tenant, info.value.email, OfRandomBytes, true, true, provider, info.value.subject, "");
      var u, r;
      u, r, p := CreateUser(user, SignIn, ios, 3);
      if r != Applied {
        AtEnd(p, ios, 4);
        return Failed(if r == UniqueViolation then Conflict else Internal);
      }
      res := GenerateSession(u, ByProvider, ios, 4);
    }

    method RefreshToken(rawRefreshToken: Token, ios: seq<Io>) returns (res: Reply)
      requires Ready(Call.RefreshToken(rawRefreshToken), ios)
      modifies this, userRepo, sessionRepo.redis
      ensures Valid() && (w, Done(res)) == old(Do(cfg, w, Step(Call.RefreshToken(rawRefreshToken), ios)))
    {
      hide InCall, Valid, Next, Do;
      ghost var p := Arrive(Call.RefreshToken(rawRefreshToken), ios);
      var got;
      got, p := GetUserIDByToken(Refresh, rawRefreshToken, "", ios, 0);
      if !got.Found? {
        AtEnd(p, ios, 1);
        return Failed(if got.Nil? then InvalidToken else Internal);
      }
      if !got.value.OfUser? {
        AtEnd(p, ios, 1);
        return Failed(InvalidToken);
      }
      var user;
      user, p := GetOwnerByID(got.value.id, ios, 1, p);
      if user.None? || !user.value.active {
        AtEnd(p, ios, 2);
        return Failed(Unauthorized);
      }
      p := RevokeToken(Refresh, rawRefreshToken, ios, 2, p);
      res := GenerateSession(user.value, ByRotation(rawRefreshToken), ios, 3);
    }

    method Logout(rawRefreshToken: Token, ios: seq<Io>) returns (res: Reply)
      requires Ready(Call.Logout(rawRefreshToken), ios)
      modifies this, userRepo, sessionRepo.redis
      ensures Valid() && (w, Done(res)) == old(Do(cfg, w, Step(Call.Logout(rawRefreshToken), ios)))
    {
      hide Good, Fits, Fair, FairRun, Run, Do, Set, Get, Del, View, RowCommand;
      ghost var p := Arrive(Call.Logout(rawRefreshToken), ios);
      sessionRepo.redis.Elapse(ios[0].wait);
      var ok := sessionRepo.Revoke(Refresh, rawRefreshToken, ios[0].out);
      p := Advance(p, ios, 0);
      AtEnd(p, ios, 1);
      return if ok then Accepted else Failed(Internal);
    }

    // ---------- SCIM ----------

    method ScimCreateUser(tenant: Tenant, userName: string, emails: seq<string>, active: bool, externalId: string,
            ios: seq<Io>)
      returns (res: Reply)
      requires Ready(ScimCreate(tenant, userName, emails, active, externalId), ios)
      modifies this, userRepo, sessionRepo.redis
      ensures Valid()
      ensures (w, Done(res)) ==
              old(Do(cfg, w, Step(ScimCreate(tenant, userName, emails, active, externalId), ios)))
    {
      hide InCall, Valid, Next, Do;
      ghost var p := Arrive(ScimCreate(tenant, userName, emails, active, externalId), ios);
      var email := userName;
      if |emails| > 0 && emails[0] != "" {
        email := emails[0];
      }
      var user := NewUser(tenant, email, OfRandomBytes, active, true, "", "", externalId);
      var u, r;
      u, r, p := CreateUser(user, Report, ios, 0);
      AtEnd(p, ios, 1);
      return if r == Applied then Resource(ToScim(u)) else Failed(if r == UniqueViolation then Conflict else Internal);
    }

    method ScimUpdateUser(id: Id, emails: seq<string>, active: bool, externalId: string, ios: seq<Io>)
      returns (res: Reply)
      requires Ready(ScimUpdate(id, emails, active, externalId), ios)
      modifies this, userRepo, sessionRepo.redis
      ensures Valid() && (w, Done(res)) == old(Do(cfg, w, Step(ScimUpdate(id, emails, active, externalId), ios)))
    {
      hide InCall, Valid, Next, Do;
      ghost var p := Arrive(ScimUpdate(id, emails, active, externalId), ios);
      var ok, found;
      ok, found, p := GetByID(id, ios, 0, Replace(emails, active, externalId));
      if found.None? {
        AtEnd(p, ios, 1);
        return Failed(if ok then NotFound else Internal);
      }
      var u := found.value;
      if |emails| > 0 && emails[0] != "" {
        u := u.(email := emails[0]);
      }
      u := u.(active := active);
      u := u.(externalId := externalId);
      u := u.(updatedAt := sessionRepo.redis.now);
      ok := SaveUser(u, Provision, ios, 1);
      return if ok then Resource(ToScim(u)) else Failed(Internal);
    }

    method ScimDeleteUser(id: Id, ios: seq<Io>) returns (res: Reply)
      requires Ready(ScimDelete(id), ios)
      modifies this, userRepo, sessionRepo.redis
      ensures Valid() && (w, Done(res)) == old(Do(cfg, w, Step(ScimDelete(id), ios)))
    {
      hide Good, Fits, Fair, FairRun, Run, Do, Set, Get, Del, View, TokenCommand;
      ghost var p := Arrive(ScimDelete(id), ios);
      sessionRepo.redis.Elapse(ios[0].wait);
      userRepo.Remove(id, ios[0].out);
      p := Advance(p, ios, 0);
      AtEnd(p, ios, 1);
      return if ios[0].out.Acked? then Accepted else Failed(Internal);
    }
  }
}
