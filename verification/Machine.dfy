/** The service as a state machine (auth_usecase.go, scim_usecase.go): every call is a sequence of
    single storage commands over one users table and one expiring keyspace. */
module Machine {
  import opened Domain
  import opened Keyspace
  import RateLimiting
  import opened Users
  import Totp

  type Duration = t: Time | t > 0 witness 1

  /** The deployment: email cleaning, HMAC and the providers' URLs are whatever functions they are. */
  datatype Config = Config(
    clean: string -> Option<string>, hmac: Totp.Hmac, authUrl: (string, Token) -> string,
    refreshTtl: Duration, accessTtl: Time, requestsPerMinute: int)

  function Ttl(cfg: Config, kind: Kind): Time {
    match kind
    case Refresh => cfg.refreshTtl
    case Mfa => 5 * 60_000
    case EmailVerify => 24 * 3_600_000
    case PwdReset => 3_600_000
    case OAuthState => 10 * 60_000
    case RateLimit => RateLimiting.WINDOW
  }

  function CodeValid(cfg: Config, secret: string, code: string, now: Time): bool {
    Totp.Accepts(cfg.hmac, secret, code, now / 1000)
  }

  function ValidPassword(password: string): bool {
    8 <= |password| <= 72
  }

  /** What the provider answers for an authorization code. */
  datatype Info = Info(subject: string, email: string)

  datatype Call =
    | Register(tenant: Tenant, email: string, password: string)
    | Login(tenant: Tenant, email: string, password: string)
    | VerifyMfa(challenge: Token, code: string)
    | SetupMfa(id: Id)
    | ConfirmMfa(id: Id, code: string)
    | RequestEmailVerification(tenant: Tenant, email: string)
    | ConfirmEmail(token: Token)
    | RequestReset(tenant: Tenant, email: string)
    | ConfirmReset(token: Token, password: string)
    | OAuthUrl(provider: string)
    | OAuthCallback(tenant: Tenant, provider: string, state: Token, info: Option<Info>)
    | RefreshToken(token: Token)
    | Logout(token: Token)
    | ScimCreate(tenant: Tenant, userName: string, emails: seq<string>, active: bool, externalId: string)
    | ScimUpdate(id: Id, emails: seq<string>, active: bool, externalId: string)
    | ScimDelete(id: Id)
    | Throttle(ip: string)

  /** How a session came to be opened. */
  datatype Via = ByPassword | ByMfa(code: string, checkedAt: Time) | ByProvider | ByRotation(parent: Token)

  /** Which call an UPDATE belongs to. */
  datatype Why = Enrol | Activate | Verify | Reset | Provision

  datatype Then = Open(via: Via) | Write(why: Why)

  datatype After = SendVerification | SignIn | Report

  datatype Edit = NewSecret | Enable(code: string) | Replace(emails: seq<string>, active: bool, externalId: string)

  /** A call between two commands: its next command and what it remembers. */
  datatype Proc =
    | InsertUser(row: User, after: After)
    | SelectLogin(tenant: Tenant, email: string, password: string)
    | SelectRequest(kind: Kind, tenant: Tenant, email: string)
    | SetToken(kind: Kind, id: Id)
    | GetOwner(kind: Kind, token: Token, arg: string)
    | SelectOwner(kind: Kind, token: Token, arg: string, id: Id, readAt: Time)
    | DelToken(kind: Kind, token: Token, user: User, next: Then, readAt: Time)
    | SetRefresh(user: User, via: Via)
    | SelectById(id: Id, edit: Edit)
    | UpdateUser(user: User, why: Why)
    | SetState(provider: string)
    | GetState(tenant: Tenant, provider: string, state: Token, info: Option<Info>)
    | DelState(tenant: Tenant, provider: string, state: Token, info: Option<Info>, readAt: Time)
    | SelectOAuth(tenant: Tenant, provider: string, found: Info)
    | DelRefresh(token: Token)
    | DeleteRow(id: Id)
    | RunScript(ip: string)
    | Done(reply: Reply)

  /** The history: what the commands of all calls have issued, spent and changed. row is the
      stored row of the session's user when the session was opened. */
  datatype Event =
    | Issued(kind: Kind, token: Token, owner: Value, at: Time, until: Time)
    | Opened(id: Id, role: Role, via: Via, row: Option<User>, at: Time)
    | Consumed(kind: Kind, token: Token, owner: Value, at: Time)
    | Wrote(id: Id, why: Why)
    | Removed(id: Id)

  /** seen: every token drawn or presented so far; born: every row ever inserted, as inserted;
      root: for each refresh token, the first of its lineage. */
  datatype World = World(
    users: Table, kv: Store, now: Time,
    seen: set<Token>, born: map<Id, User>, root: map<Token, Token>, log: seq<Event>)

  /** What chance and the network decide about one command: the time before it, how it ends, and the
      token, id and secret drawn for it. */
  datatype Io = Io(wait: nat, out: Outcome, token: Token, id: Id, secret: string)

  function ScimEmail(emails: seq<string>, otherwise: string): string {
    if |emails| > 0 && emails[0] != "" then emails[0] else otherwise
  }

  function NewUser(tenant: Tenant, email: string, password: Hash, active: bool, verified: bool,
                   provider: string, subject: string, externalId: string): User {
    User(NIL_ID, tenant, email, password, Member, active, false, "", verified, provider, subject, externalId, 0, 0)
  }

  /** The checks a call makes before its first command. */
  function Start(cfg: Config, call: Call): Proc {
    match call
    case Register(tenant, email, password) =>
      var cleaned := cfg.clean(email);
      if cleaned.None? || !ValidPassword(password) then Done(Failed(Validation))
      else InsertUser(NewUser(tenant, cleaned.value, Bcrypt(password), true, false, "", "", ""), SendVerification)
    case Login(tenant, email, password) =>
      var cleaned := cfg.clean(email);
      if cleaned.None? then Done(Failed(Unauthorized)) else SelectLogin(tenant, cleaned.value, password)
    case VerifyMfa(challenge, code) => GetOwner(Mfa, challenge, code)
    case SetupMfa(id) => SelectById(id, NewSecret)
    case ConfirmMfa(id, code) => SelectById(id, Enable(code))
    case RequestEmailVerification(tenant, email) => SelectRequest(EmailVerify, tenant, email)
    case ConfirmEmail(token) => GetOwner(EmailVerify, token, "")
    case RequestReset(tenant, email) => SelectRequest(PwdReset, tenant, email)
    case ConfirmReset(token, password) =>
      if !ValidPassword(password) then Done(Failed(Validation)) else GetOwner(PwdReset, token, password)
    case OAuthUrl(provider) =>
      if Supported(provider) then SetState(provider) else Done(Failed(UnsupportedProvider))
    case OAuthCallback(tenant, provider, state, info) => GetState(tenant, provider, state, info)
    case RefreshToken(token) => GetOwner(Refresh, token, "")
    case Logout(token) => DelRefresh(token)
    case ScimCreate(tenant, userName, emails, active, externalId) =>
      InsertUser(NewUser(tenant, ScimEmail(emails, userName), OfRandomBytes, active, true, "", "", externalId), Report)
    case ScimUpdate(id, emails, active, externalId) => SelectById(id, Replace(emails, active, externalId))
    case ScimDelete(id) => DeleteRow(id)
    case Throttle(ip) => RunScript(ip)
  }

  predicate Supported(provider: string) {
    provider == "google" || provider == "github"
  }

  function Presented(call: Call): set<Token> {
    match call
    case VerifyMfa(t, _) => {t}
    case ConfirmEmail(t) => {t}
    case ConfirmReset(t, _) => {t}
    case OAuthCallback(_, _, t, _) => {t}
    case RefreshToken(t) => {t}
    case Logout(t) => {t}
    case _ => {}
  }

  // ---------- one command ----------

  /** SET of a freshly drawn token. */
  ghost function Mint(cfg: Config, w: World, kind: Kind, owner: Value, io: Io): World {
    w.(kv := Set(w.kv, w.now, Key(kind, io.token), owner, Ttl(cfg, kind), io.out),
       seen := w.seen + {io.token},
       log := w.log + if io.out.Refused? then [] else [Issued(kind, io.token, owner, w.now, w.now + Ttl(cfg, kind))])
  }

  /** DEL of a token that was read as owner's. */
  ghost function Spend(w: World, kind: Kind, token: Token, owner: Value, readAt: Time, io: Io): World {
    w.(kv := Del(w.kv, Key(kind, token), io.out),
       log := w.log + if io.out.Refused? then [] else [Consumed(kind, token, owner, readAt)])
  }

  function RootOf(root: map<Token, Token>, via: Via, token: Token): Token {
    if via.ByRotation? && via.parent in root then root[via.parent] else token
  }

  ghost function OpenSession(cfg: Config, w: World, user: User, via: Via, io: Io): (World, Proc) {
    var w1 := Mint(cfg, w, Refresh, OfUser(user.id), io);
    var stored := if user.id in w.users then Some(w.users[user.id]) else None;
    (if io.out.Refused? then w1 else
       w1.(root := w.root[io.token := RootOf(w.root, via, io.token)],
           log := w1.log + [Opened(user.id, user.role, via, stored, w.now)]),
     Done(if io.out.Acked? then Session(user.id, user.email, user.role, cfg.accessTtl, io.token) else Failed(Internal)))
  }

  /** The row a SELECT answers with; an error and an absent row are treated alike. */
  ghost function Answer(users: Table, id: Option<Id>, out: Outcome): Option<User> {
    if out.Acked? && id.Some? && id.value in users then Some(users[id.value]) else None
  }

  function AfterInsert(u: User, after: After, r: DbResult): Proc {
    match r
    case DbError => Done(Failed(Internal))
    case UniqueViolation => Done(Failed(Conflict))
    case Applied =>
      match after
      case SendVerification => SetToken(EmailVerify, u.id)
      case SignIn => SetRefresh(u, ByProvider)
      case Report => Done(Resource(ToScim(u)))
  }

  ghost function StepInsert(w: World, row: User, after: After, io: Io): (World, Proc) {
    var u := row.(id := io.id, createdAt := w.now, updatedAt := w.now);
    var (users, r) := Insert(w.users, u, io.out);
    (w.(users := users, born := if users == w.users then w.born else w.born[u.id := u]), AfterInsert(u, after, r))
  }

  function AfterLogin(found: Option<User>, password: string): Proc {
    if found.None? then Done(Failed(Unauthorized))
    else
      var u := found.value;
      if !u.active || !u.password.Matches(password) then Done(Failed(Unauthorized))
      else if u.mfaEnabled then SetToken(Mfa, u.id)
      else SetRefresh(u, ByPassword)
  }

  function AfterGet(kind: Kind, token: Token, arg: string, got: GetResult, now: Time): Proc {
    match got
    case Broken => Done(Failed(if kind == Refresh then Internal else InvalidToken))
    case Nil => Done(Failed(InvalidToken))
    case Found(OfUser(id)) => SelectOwner(kind, token, arg, id, now)
    case Found(_) =>
      // text that is not an id: only RefreshToken looks at the parse error
      if kind == Refresh then Done(Failed(InvalidToken)) else SelectOwner(kind, token, arg, NIL_ID, now)
  }

  function AfterOwner(cfg: Config, kind: Kind, token: Token, arg: string, found: Option<User>, readAt: Time,
          now: Time): Proc {
    var signsIn := kind == Refresh || kind == Mfa;
    if found.None? then Done(Failed(if signsIn then Unauthorized else NotFound))
    else
      var u := found.value;
      if signsIn && !u.active then Done(Failed(Unauthorized))
      else if kind == Mfa then
        if CodeValid(cfg, u.mfaSecret, arg, now) then DelToken(kind, token, u, Open(ByMfa(arg, now)), readAt)
        else Done(Failed(InvalidMfaCode))
      else if kind == Refresh then DelToken(kind, token, u, Open(ByRotation(token)), readAt)
      else if kind == EmailVerify then
        DelToken(kind, token, u.(emailVerified := true, updatedAt := now), Write(Verify), readAt)
      else DelToken(kind, token, u.(password := Bcrypt(arg), updatedAt := now), Write(Reset), readAt)
  }

  /** ok tells an error of the database from an absent row, as SCIM does. */
  function AfterRow(cfg: Config, edit: Edit, ok: bool, found: Option<User>, secret: string, now: Time): Proc {
    if found.None? then Done(Failed(if edit.Replace? && !ok then Internal else NotFound))
    else
      var u := found.value.(updatedAt := now);
      match edit
      case NewSecret => UpdateUser(u.(mfaSecret := secret), Enrol)
      case Enable(code) =>
        if CodeValid(cfg, u.mfaSecret, code, now) then UpdateUser(u.(mfaEnabled := true), Activate)
        else Done(Failed(InvalidMfaCode))
      case Replace(emails, active, externalId) =>
        UpdateUser(u.(email := ScimEmail(emails, u.email), active := active, externalId := externalId), Provision)
  }

  function Written(user: User, why: Why): Reply {
    match why
    case Enrol => Enrolled(user.mfaSecret, Totp.ProvisioningUri(user.email, user.mfaSecret))
    case Provision => Resource(ToScim(user))
    case _ => Accepted
  }

  ghost function StepUpdate(w: World, user: User, why: Why, io: Io): (World, Proc) {
    var (users, r) := Update(w.users, user, io.out);
    (w.(users := users, log := w.log + if users == w.users then [] else [Wrote(user.id, why)]),
     Done(if r.Applied? then Written(user, why) else Failed(Internal)))
  }

  ghost function StepGetState(w: World, tenant: Tenant, provider: string, state: Token, info: Option<Info>,
          io: Io): (World, Proc) {
    (w,
     if Get(w.kv, w.now, Key(OAuthState, state), io.out) == Found(OfProvider(provider))
     then DelState(tenant, provider, state, info, w.now)
     else Done(Failed(InvalidState)))
  }

  ghost function StepDelState(w: World, tenant: Tenant, provider: string, state: Token, info: Option<Info>,
          readAt: Time, io: Io): (World, Proc) {
    (Spend(w, OAuthState, state, OfProvider(provider), readAt, io),
     if !Supported(provider) then Done(Failed(UnsupportedProvider))
     else if info.None? then Done(Failed(OAuthExchange))
     else SelectOAuth(tenant, provider, info.value))
  }

  function AfterOAuth(tenant: Tenant, provider: string, info: Info, ok: bool, found: Option<User>): Proc {
    if !ok then Done(Failed(Internal))
    else if found.None? then
      InsertUser(NewUser(tenant, info.email, OfRandomBytes, true, true, provider, info.subject, ""), SignIn)
    else SetRefresh(found.value, ByProvider)
  }

  ghost function StepSelectOAuth(w: World, tenant: Tenant, provider: string, info: Info, io: Io): (World, Proc) {
    var found := Answer(w.users, Pick(ByOAuth(w.users, tenant, provider, info.subject)), io.out);
    (w, AfterOAuth(tenant, provider, info, io.out.Acked?, found))
  }

  /** Whether the next command goes to the users table; otherwise it goes to Redis. */
  predicate OnTable(p: Proc) {
    p.InsertUser? || p.SelectLogin? || p.SelectRequest? || p.SelectOwner? || p.SelectById? || p.UpdateUser? ||
    p.SelectOAuth? || p.DeleteRow?
  }

  ghost function RowCommand(cfg: Config, w: World, p: Proc, io: Io): (r: (World, Proc))
    requires OnTable(p)
    ensures r.0 == w.(users := r.0.users, born := r.0.born, log := r.0.log)
    ensures w.log <= r.0.log && forall i :: |w.log| <= i < |r.0.log| ==> r.0.log[i].Wrote? || r.0.log[i].Removed?
    ensures !r.1.GetOwner? && !r.1.DelRefresh? && !r.1.RunScript? && (r.1.Done? ==> !r.1.reply.Session?)
  {
    match p
    case InsertUser(row, after) => StepInsert(w, row, after, io)
    case SelectLogin(tenant, email, password) =>
      (w, AfterLogin(Answer(w.users, Pick(ByEmail(w.users, tenant, email)), io.out), password))
    case SelectRequest(kind, tenant, email) =>
      var found := Answer(w.users, Pick(ByEmail(w.users, tenant, email)), io.out);
      (w, if found.None? then Done(Accepted) else SetToken(kind, found.value.id))
    case SelectOwner(kind, token, arg, id, readAt) =>
      (w, AfterOwner(cfg, kind, token, arg, Answer(w.users, Some(id), io.out), readAt, w.now))
    case SelectById(id, edit) =>
      (w, AfterRow(cfg, edit, io.out.Acked?, Answer(w.users, Some(id), io.out), io.secret, w.now))
    case UpdateUser(user, why) => StepUpdate(w, user, why, io)
    case SelectOAuth(tenant, provider, info) => StepSelectOAuth(w, tenant, provider, info, io)
    case DeleteRow(id) =>
      (w.(users := Delete(w.users, id, io.out),
          log := w.log + if io.out.Refused? || id !in w.users then [] else [Removed(id)]),
       Done(if io.out.Acked? then Accepted else Failed(Internal)))
  }

  ghost function TokenCommand(cfg: Config, w: World, p: Proc, io: Io): (r: (World, Proc))
    requires !p.Done? && !OnTable(p)
    ensures r.0 == w.(kv := r.0.kv, seen := r.0.seen, root := r.0.root, log := r.0.log)
    ensures w.log <= r.0.log
    ensures !r.1.GetOwner? && !r.1.DelRefresh? && !r.1.InsertUser? && !r.1.RunScript?
  {
    match p
    case SetToken(kind, id) =>
      (Mint(cfg, w, kind, OfUser(id), io), Done(if kind == Mfa then MfaRequired(io.token) else Accepted))
    case GetOwner(kind, token, arg) =>
      (w, AfterGet(kind, token, arg, Get(w.kv, w.now, Key(kind, token), io.out), w.now))
    case DelToken(kind, token, user, next, readAt) =>
      (Spend(w, kind, token, OfUser(user.id), readAt, io),
       if next.Open? then SetRefresh(user, next.via) else UpdateUser(user, next.why))
    case SetRefresh(user, via) => OpenSession(cfg, w, user, via, io)
    case SetState(provider) =>
      (Mint(cfg, w, OAuthState, OfProvider(provider), io),
       Done(if io.out.Acked? then StateIssued(cfg.authUrl(provider, io.token), io.token) else Failed(Internal)))
    case GetState(tenant, provider, state, info) => StepGetState(w, tenant, provider, state, info, io)
    case DelState(tenant, provider, state, info, readAt) => StepDelState(w, tenant, provider, state, info, readAt, io)
    case DelRefresh(token) =>
      (w.(kv := Del(w.kv, Key(Refresh, token), io.out)), Done(if io.out.Acked? then Accepted else Failed(Internal)))
    case RunScript(ip) =>
      var (kv, served) := RateLimiting.Throttled(cfg.requestsPerMinute, w.kv, w.now, ip, io.out);
      (w.(kv := kv), Done(if served then Accepted else Failed(RateLimited)))
  }

  /** Execute the next command of a call. */
  ghost function Next(cfg: Config, before: World, p: Proc, io: Io): (World, Proc)
    requires !p.Done?
  {
    var w := before.(now := before.now + io.wait);
    if OnTable(p) then RowCommand(cfg, w, p, io) else TokenCommand(cfg, w, p, io)
  }

  /** What is assumed of chance and of Redis: drawn tokens and ids are new, and the DEL that spends
      a token, whose error the code discards, is executed. */
  ghost predicate Fair(w: World, p: Proc, io: Io) {
    && io.token !in w.seen
    && io.id !in w.born && io.id !in w.users && io.id != NIL_ID
    && (p.DelToken? || p.DelState? ==> !io.out.Refused?)
  }

  // ---------- calls that do not overlap ----------

  ghost function Begin(w: World, call: Call): World {
    w.(seen := w.seen + Presented(call))
  }

  /** Run a call from command k on; it stops part-way if ios has too few entries. */
  ghost function Run(cfg: Config, w: World, p: Proc, ios: seq<Io>, k: nat): (World, Proc)
    requires k <= |ios|
    decreases |ios| - k
  {
    if p.Done? || k == |ios| then (w, p)
    else
      var (w1, p1) := Next(cfg, w, p, ios[k]);
      Run(cfg, w1, p1, ios, k + 1)
  }

  ghost predicate FairRun(cfg: Config, w: World, p: Proc, ios: seq<Io>, k: nat)
    requires k <= |ios|
    decreases |ios| - k
  {
    p.Done? || k == |ios| ||
    (Fair(w, p, ios[k]) &&
     var (w1, p1) := Next(cfg, w, p, ios[k]);
     FairRun(cfg, w1, p1, ios, k + 1))
  }

  /** One call of a run, with what chance decides about its commands. */
  datatype Step = Step(call: Call, ios: seq<Io>)

  ghost function Do(cfg: Config, w: World, step: Step): (World, Proc) {
    Run(cfg, Begin(w, step.call), Start(cfg, step.call), step.ios, 0)
  }

  ghost predicate FairStep(cfg: Config, w: World, step: Step) {
    FairRun(cfg, Begin(w, step.call), Start(cfg, step.call), step.ios, 0)
  }

  /** The world after the first n calls of a run. */
  ghost function WorldAfter(cfg: Config, w: World, steps: seq<Step>, n: nat): World
    requires n <= |steps|
  {
    if n == 0 then w else Do(cfg, WorldAfter(cfg, w, steps, n - 1), steps[n - 1]).0
  }

  ghost predicate FairSteps(cfg: Config, w: World, steps: seq<Step>) {
    forall i :: 0 <= i < |steps| ==> FairStep(cfg, WorldAfter(cfg, w, steps, i), steps[i])
  }
}
