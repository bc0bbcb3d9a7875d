/** What every command of every run of non-overlapping calls keeps, wherever a call stops. */
module Invariants {
  import opened Domain
  import opened Keyspace
  import opened Users
  import opened Machine
  import RateLimiting

  predicate UserKind(kind: Kind) {
    kind == Refresh || kind == Mfa || kind == EmailVerify || kind == PwdReset
  }

  // ---------- between calls ----------

  /** Emails and OAuth identities are unique, and every row has the identity it was born with. */
  ghost predicate TableGood(w: World) {
    Consistent(w.users, w.born) && UniqueOAuth(w.users) && NIL_ID !in w.born
  }

  /** Every stored token was drawn or presented. */
  ghost predicate KeysSeen(w: World) {
    forall key | key in w.kv && key.kind != RateLimit :: key.token in w.seen
  }

  /** OAuth states belong to providers, and all other tokens to users once born. */
  ghost predicate OwnersBorn(born: map<Id, User>, kv: Store) {
    forall key | key in kv && key.kind != RateLimit ::
      if key.kind == OAuthState then kv[key].value.OfProvider? else kv[key].value.OfUser? && kv[key].value.id in born
  }

  ghost predicate KeysGood(w: World) {
    KeysSeen(w) && OwnersBorn(w.born, w.kv)
  }

  ghost predicate HasRefresh(w: World, t: Token) {
    Key(Refresh, t) in w.kv
  }

  ghost predicate RootsSeen(w: World) {
    forall t :: t in w.root ==> t in w.seen && w.root[t] in w.seen
  }

  /** No two stored refresh tokens belong to one lineage. */
  ghost predicate LineageGood(w: World) {
    && RootsSeen(w)
    && (forall t :: HasRefresh(w, t) ==> t in w.root)
    && (forall s, t :: HasRefresh(w, s) && HasRefresh(w, t) && w.root[s] == w.root[t] ==> s == t)
  }

  /** Entry i issues the token to owner, and is in force at time t. */
  ghost predicate IssueAt(log: seq<Event>, i: int, kind: Kind, token: Token, owner: Value, t: Time) {
    0 <= i < |log| && log[i].Issued? && log[i].kind == kind && log[i].token == token && log[i].owner == owner &&
    log[i].at <= t < log[i].until
  }

  ghost predicate IssuedBefore(log: seq<Event>, n: int, kind: Kind, token: Token, owner: Value, t: Time) {
    exists i :: i < n && IssueAt(log, i, kind, token, owner, t)
  }

  /** Drawn tokens are never drawn twice, and carry the time to live of their kind. */
  ghost predicate IssuesGood(cfg: Config, w: World) {
    && (forall i | 0 <= i < |w.log| && w.log[i].Issued? ::
          w.log[i].token in w.seen && w.log[i].at <= w.now && w.log[i].until == w.log[i].at + Ttl(cfg, w.log[i].kind))
    && (forall i, j | 0 <= i < j < |w.log| && w.log[i].Issued? && w.log[j].Issued? :: w.log[i].token != w.log[j].token)
  }

  ghost predicate KeyIssued(w: World, key: Key, t: Time)
    requires key in w.kv
  {
    IssuedBefore(w.log, |w.log|, key.kind, key.token, w.kv[key].value, t)
  }

  /** Every stored token is in the log as issued, to the same owner and until the same time. */
  ghost predicate KeysIssued(w: World) {
    forall key | key in w.kv && key.kind != RateLimit ::
      KeyIssued(w, key, w.kv[key].expiry - 1)
  }

  /** Every consumption is of a token issued before, in force when it was read; it is gone, and was
      consumed only once. */
  ghost predicate ConsumptionsGood(w: World) {
    && (forall j | 0 <= j < |w.log| && w.log[j].Consumed? ::
          && w.log[j].kind != RateLimit && Key(w.log[j].kind, w.log[j].token) !in w.kv
          && w.log[j].token in w.seen
          && IssuedBefore(w.log, j, w.log[j].kind, w.log[j].token, w.log[j].owner, w.log[j].at))
    && (forall i, j | 0 <= i < j < |w.log| && w.log[i].Consumed? && w.log[j].Consumed? ::
          !(w.log[i].kind == w.log[j].kind && w.log[i].token == w.log[j].token))
  }

  /** The row a session is opened for passes the checks of the way it was opened. */
  ghost predicate ViaFits(cfg: Config, u: User, via: Via) {
    && (!via.ByProvider? ==> u.active)
    && (via.ByPassword? ==> !u.mfaEnabled)
    && (via.ByMfa? ==> CodeValid(cfg, u.mfaSecret, via.code, via.checkedAt))
  }

  ghost predicate OpenedHonestly(cfg: Config, e: Event)
    requires e.Opened?
  {
    e.row.Some? && e.row.value.id == e.id && e.row.value.role == e.role && ViaFits(cfg, e.row.value, e.via)
  }

  /** Every session was opened for a row stored at that moment, with its role. */
  ghost predicate SessionsGood(cfg: Config, w: World) {
    forall i | 0 <= i < |w.log| && w.log[i].Opened? :: OpenedHonestly(cfg, w.log[i])
  }

  ghost predicate Good(cfg: Config, w: World) {
    && TableGood(w) && KeysGood(w) && LineageGood(w) && IssuesGood(cfg, w)
    && KeysIssued(w) && ConsumptionsGood(w) && SessionsGood(cfg, w)
  }

  // ---------- between the commands of a call ----------

  ghost predicate Stored(w: World, u: User) {
    u.id in w.users && w.users[u.id] == u
  }

  /** A row about to be written differs from the stored one only as its call says. */
  ghost predicate Pending(w: World, u: User, why: Why) {
    && u.id in w.users
    && var row := w.users[u.id];
       && SameIdentity(u, row)
       && (row.mfaEnabled ==> u.mfaEnabled) && (row.emailVerified ==> u.emailVerified)
       && (why != Reset ==> u.password == row.password)
       && (why != Provision ==> u.active == row.active && u.email == row.email)
  }

  ghost predicate Holds(w: World, kind: Kind, token: Token, owner: Value, readAt: Time) {
    && Key(kind, token) in w.kv && w.kv[Key(kind, token)].value == owner
    && IssuedBefore(w.log, |w.log|, kind, token, owner, readAt)
  }

  ghost predicate ThenFits(cfg: Config, w: World, kind: Kind, token: Token, u: User, next: Then) {
    match next
    case Open(via) =>
      && Stored(w, u) && ViaFits(cfg, u, via)
      && (via.ByRotation? ==> kind == Refresh && via.parent == token)
    case Write(why) => Pending(w, u, why)
  }

  ghost predicate LineageEnded(w: World, parent: Token) {
    parent in w.root && forall t :: HasRefresh(w, t) ==> t in w.root && w.root[t] != w.root[parent]
  }

  /** What a call in flight may rely on when no other call has run since it began. */
  ghost predicate Fits(cfg: Config, w: World, p: Proc) {
    match p
    case InsertUser(row, after) =>
      if after.SignIn? then Supported(row.provider) && ByOAuth(w.users, row.tenant, row.provider, row.subject) == {}
      else row.provider == ""
    case SelectRequest(kind, _, _) => kind == EmailVerify || kind == PwdReset
    case SetToken(kind, id) => UserKind(kind) && kind != Refresh && id in w.born
    case GetOwner(kind, token, _) => UserKind(kind) && token in w.seen
    case SelectOwner(kind, token, _, id, readAt) => UserKind(kind) && Holds(w, kind, token, OfUser(id), readAt)
    case DelToken(kind, token, user, next, readAt) =>
      UserKind(kind) && Holds(w, kind, token, OfUser(user.id), readAt) && ThenFits(cfg, w, kind, token, user, next)
    case SetRefresh(user, via) =>
      Stored(w, user) && ViaFits(cfg, user, via) && (via.ByRotation? ==> LineageEnded(w, via.parent))
    case UpdateUser(user, why) => Pending(w, user, why)
    case DelState(_, provider, state, _, readAt) => Holds(w, OAuthState, state, OfProvider(provider), readAt)
    case SelectOAuth(_, provider, _) => Supported(provider)
    case _ => true
  }

  // ---------- what does not need a call to be alone ----------

  ghost predicate RowBorn(w: World, u: User) {
    u.id in w.born && SameIdentity(u, w.born[u.id])
  }

  /** If a token is still stored, it is stored for this user. */
  ghost predicate TokenOf(w: World, kind: Kind, token: Token, id: Id) {
    UserKind(kind) && token in w.seen && (Key(kind, token) in w.kv ==> w.kv[Key(kind, token)].value == OfUser(id))
  }

  /** A call remembers rows under the identity they were born with, and tokens with their owners. */
  ghost predicate Familiar(w: World, p: Proc) {
    match p
    case SelectRequest(kind, _, _) => UserKind(kind)
    case SetToken(kind, id) => UserKind(kind) && id in w.born
    case GetOwner(kind, token, _) => UserKind(kind) && token in w.seen
    case SelectOwner(kind, token, _, id, _) => TokenOf(w, kind, token, id)
    case DelToken(kind, token, user, _, _) => TokenOf(w, kind, token, user.id) && RowBorn(w, user)
    case SetRefresh(user, _) => RowBorn(w, user)
    case UpdateUser(user, _) => RowBorn(w, user)
    case _ => true
  }

  lemma FitsIsFamiliar(cfg: Config, w: World, p: Proc)
    requires TableGood(w) && KeysSeen(w) && Fits(cfg, w, p)
    ensures Familiar(w, p)
  {
    hide CodeValid, IssuedBefore, UniqueEmails, UniqueOAuth, ByOAuth, HasRefresh;
  }

  // ---------- every command keeps them ----------

  lemma TableStep(cfg: Config, w: World, p: Proc, io: Io)
    requires !p.Done? && TableGood(w) && Fits(cfg, w, p) && Fair(w, p, io)
    ensures TableGood(Next(cfg, w, p, io).0)
  {
    hide Insert, Update, Delete, Consistent, UniqueOAuth, CodeValid, AfterInsert, AfterLogin, AfterGet, AfterOwner,
         AfterRow, AfterOAuth, RateLimiting.Throttled, TokenCommand;
    match p
    case InsertUser(row, _) =>
      var u := row.(id := io.id, createdAt := w.now + io.wait, updatedAt := w.now + io.wait);
      InsertConsistent(w.users, w.born, u, io.out);
      InsertKeepsOAuth(w.users, u, io.out);
    case UpdateUser(user, _) =>
      UpdateConsistent(w.users, w.born, user, io.out);
      UpdateKeepsOAuth(w.users, user, io.out);
    case DeleteRow(id) =>
      DeleteConsistent(w.users, w.born, id, io.out);
      DeleteKeepsOAuth(w.users, id, io.out);
    case _ =>
  }

  lemma KeysMint(cfg: Config, w: World, p: Proc, io: Io)
    requires p.SetToken? || p.SetRefresh? || p.SetState?
    requires TableGood(w) && KeysGood(w) && Fits(cfg, w, p)
    ensures KeysGood(Next(cfg, w, p, io).0)
  {
    hide CodeValid, UniqueEmails, UniqueOAuth, RateLimiting.Throttled, RowCommand;
  }

  lemma KeysOnTable(cfg: Config, w: World, p: Proc, io: Io)
    requires OnTable(p) && KeysGood(w)
    ensures KeysGood(Next(cfg, w, p, io).0)
  {
    hide Insert, Update, Delete, AfterInsert, AfterLogin, AfterOwner, AfterRow, AfterOAuth, TokenCommand;
  }

  lemma KeysElse(cfg: Config, w: World, p: Proc, io: Io)
    requires !p.Done? && !OnTable(p) && !p.SetToken? && !p.SetRefresh? && !p.SetState? && KeysGood(w)
    ensures KeysGood(Next(cfg, w, p, io).0)
  {
    hide RowCommand, RateLimiting.Throttled;
  }

  lemma KeysStep(cfg: Config, w: World, p: Proc, io: Io)
    requires !p.Done? && TableGood(w) && KeysGood(w) && Fits(cfg, w, p)
    ensures KeysGood(Next(cfg, w, p, io).0)
  {
    hide Next, TableGood, KeysGood, Fits, OnTable;
    if p.SetToken? || p.SetRefresh? || p.SetState? {
      KeysMint(cfg, w, p, io);
    } else if OnTable(p) {
      KeysOnTable(cfg, w, p, io);
    } else {
      KeysElse(cfg, w, p, io);
    }
  }

  lemma LineageMint(cfg: Config, w: World, p: Proc, io: Io)
    requires p.SetRefresh? && LineageGood(w) && Fits(cfg, w, p) && Fair(w, p, io)
    ensures LineageGood(Next(cfg, w, p, io).0)
  {
    hide Pending, Stored, ViaFits, IssuedBefore, CodeValid, RateLimiting.Throttled, RowCommand;
  }

  lemma LineageElse(cfg: Config, w: World, p: Proc, io: Io)
    requires !p.Done? && !p.SetRefresh? && LineageGood(w) && Fits(cfg, w, p)
    ensures LineageGood(Next(cfg, w, p, io).0)
  {
    hide Insert, Update, Delete, Pending, Stored, ViaFits, IssuedBefore, CodeValid, Holds, ThenFits, AfterInsert,
         AfterLogin, AfterGet, AfterOwner, AfterRow, AfterOAuth, RateLimiting.Throttled, RowCommand;
  }

  lemma LineageStep(cfg: Config, w: World, p: Proc, io: Io)
    requires !p.Done? && LineageGood(w) && Fits(cfg, w, p) && Fair(w, p, io)
    ensures LineageGood(Next(cfg, w, p, io).0)
  {
    hide Next, Fits, Fair, LineageGood;
    if p.SetRefresh? {
      LineageMint(cfg, w, p, io);
    } else {
      LineageElse(cfg, w, p, io);
    }
  }

  lemma IssuesStep(cfg: Config, w: World, p: Proc, io: Io)
    requires !p.Done? && IssuesGood(cfg, w) && Fits(cfg, w, p) && Fair(w, p, io)
    ensures IssuesGood(cfg, Next(cfg, w, p, io).0)
  {
    hide Insert, Update, CodeValid, AfterInsert, AfterLogin, AfterGet, AfterOwner, AfterRow, AfterOAuth,
         RateLimiting.Throttled, RowCommand;
  }

  lemma LogGrows(cfg: Config, w: World, p: Proc, io: Io)
    requires !p.Done?
    ensures w.log <= Next(cfg, w, p, io).0.log
  {
    hide Insert, Update, CodeValid, AfterInsert, AfterLogin, AfterGet, AfterOwner, AfterRow, AfterOAuth,
         RateLimiting.Throttled, RowCommand, TokenCommand;
  }

  lemma StaysIssued(log: seq<Event>, later: seq<Event>, n: int, m: int, kind: Kind, token: Token, owner: Value, t: Time)
    requires log <= later && n <= m && IssuedBefore(log, n, kind, token, owner, t)
    ensures IssuedBefore(later, m, kind, token, owner, t)
  {
    var i :| i < n && IssueAt(log, i, kind, token, owner, t);
    assert IssueAt(later, i, kind, token, owner, t);
  }

  lemma KeysIssuedStep(cfg: Config, w: World, p: Proc, io: Io)
    requires !p.Done? && KeysIssued(w) && Fits(cfg, w, p) && Fair(w, p, io)
    ensures KeysIssued(Next(cfg, w, p, io).0)
  {
    hide Next, Fits, Fair, IssuedBefore;
    LogGrows(cfg, w, p, io);
    var w1 := Next(cfg, w, p, io).0;
    forall key | key in w1.kv && key.kind != RateLimit ensures KeyIssued(w1, key, w1.kv[key].expiry - 1) {
      if key in w.kv && w.kv[key] == w1.kv[key] {
        StaysIssued(w.log, w1.log, |w.log|, |w1.log|, key.kind, key.token, w.kv[key].value, w.kv[key].expiry - 1);
      } else {
        NewKeysLogged(cfg, w, p, io, key);
        MintedIsIssued(cfg, w1.log, |w.log|, key, w1.kv[key]);
      }
    }
  }

  /** A command that stores a token logs it as issued. */
  lemma NewKeysLogged(cfg: Config, w: World, p: Proc, io: Io, key: Key)
    requires !p.Done? && key.kind != RateLimit
    requires key in Next(cfg, w, p, io).0.kv && !(key in w.kv && w.kv[key] == Next(cfg, w, p, io).0.kv[key])
    ensures var w1 := Next(cfg, w, p, io).0;
            var e := w1.kv[key];
            && |w.log| < |w1.log|
            && w1.log[|w.log|] == Issued(key.kind, key.token, e.value, e.expiry - Ttl(cfg, key.kind), e.expiry)
  {
    hide Insert, Update, Delete, CodeValid, AfterInsert, AfterLogin, AfterGet, AfterOwner, AfterRow, AfterOAuth,
         RateLimiting.Throttled, RowCommand;
  }

  lemma MintedIsIssued(cfg: Config, log: seq<Event>, i: nat, key: Key, e: Entry)
    requires i < |log| && key.kind != RateLimit
    requires log[i] == Issued(key.kind, key.token, e.value, e.expiry - Ttl(cfg, key.kind), e.expiry)
    ensures IssuedBefore(log, |log|, key.kind, key.token, e.value, e.expiry - 1)
  {
    assert IssueAt(log, i, key.kind, key.token, e.value, e.expiry - 1);
  }

  lemma StaysConsumed(cfg: Config, w: World, p: Proc, io: Io, j: nat)
    requires !p.Done? && ConsumptionsGood(w) && j < |w.log| && w.log[j].Consumed?
    ensures var log := Next(cfg, w, p, io).0.log;
            j < |log| && log[j] == w.log[j] && IssuedBefore(log, j, log[j].kind, log[j].token, log[j].owner, log[j].at)
  {
    hide Next, IssuedBefore;
    LogGrows(cfg, w, p, io);
    var e := w.log[j];
    StaysIssued(w.log, Next(cfg, w, p, io).0.log, j, j, e.kind, e.token, e.owner, e.at);
  }

  lemma ConsumptionsDel(cfg: Config, w: World, p: Proc, io: Io)
    requires p.DelToken? || p.DelState?
    requires KeysGood(w) && ConsumptionsGood(w) && Fits(cfg, w, p)
    ensures ConsumptionsGood(Next(cfg, w, p, io).0)
  {
    hide CodeValid, IssuedBefore, ThenFits, RateLimiting.Throttled, RowCommand;
    var w1 := Next(cfg, w, p, io).0;
    forall j | 0 <= j < |w1.log| && w1.log[j].Consumed?
      ensures IssuedBefore(w1.log, j, w1.log[j].kind, w1.log[j].token, w1.log[j].owner, w1.log[j].at)
    {
      if j < |w.log| {
        StaysConsumed(cfg, w, p, io, j);
      } else {
        StaysIssued(w.log, w1.log, |w.log|, j, w1.log[j].kind, w1.log[j].token, w1.log[j].owner, w1.log[j].at);
      }
    }
  }

  lemma ConsumptionsElse(cfg: Config, w: World, p: Proc, io: Io)
    requires !p.Done? && !p.DelToken? && !p.DelState?
    requires ConsumptionsGood(w) && Fair(w, p, io)
    ensures ConsumptionsGood(Next(cfg, w, p, io).0)
  {
    hide Insert, Update, Delete, CodeValid, IssuedBefore, AfterInsert, AfterLogin, AfterGet, AfterOwner, AfterRow,
         AfterOAuth, RateLimiting.Throttled, RowCommand;
    var w1 := Next(cfg, w, p, io).0;
    forall j | 0 <= j < |w1.log| && w1.log[j].Consumed?
      ensures j < |w.log| && IssuedBefore(w1.log, j, w1.log[j].kind, w1.log[j].token, w1.log[j].owner, w1.log[j].at)
    {
      StaysConsumed(cfg, w, p, io, j);
    }
  }

  lemma ConsumptionsStep(cfg: Config, w: World, p: Proc, io: Io)
    requires !p.Done? && KeysGood(w) && ConsumptionsGood(w) && Fits(cfg, w, p) && Fair(w, p, io)
    ensures ConsumptionsGood(Next(cfg, w, p, io).0)
  {
    hide Next, KeysGood, ConsumptionsGood, Fits, Fair;
    if p.DelToken? || p.DelState? {
      ConsumptionsDel(cfg, w, p, io);
    } else {
      ConsumptionsElse(cfg, w, p, io);
    }
  }

  lemma SessionsStep(cfg: Config, w: World, p: Proc, io: Io)
    requires !p.Done? && SessionsGood(cfg, w) && Fits(cfg, w, p)
    ensures SessionsGood(cfg, Next(cfg, w, p, io).0)
  {
    hide Insert, Update, CodeValid, AfterInsert, AfterLogin, AfterGet, AfterOwner, AfterRow, AfterOAuth,
         RateLimiting.Throttled, RowCommand;
  }

  lemma FitsAfterGet(cfg: Config, w: World, p: Proc, io: Io)
    requires p.GetOwner? || p.GetState?
    requires KeysGood(w) && IssuesGood(cfg, w) && KeysIssued(w) && Fits(cfg, w, p)
    ensures var (w1, p1) := Next(cfg, w, p, io); Fits(cfg, w1, p1)
  {
    hide CodeValid, IssuedBefore, IssuesGood, KeysIssued, RateLimiting.Throttled, RowCommand;
    if p.GetOwner? {
      LiveIsIssued(cfg, w, Key(p.kind, p.token), w.now + io.wait);
    } else {
      LiveIsIssued(cfg, w, Key(OAuthState, p.state), w.now + io.wait);
    }
  }

  lemma FitsAfterDel(cfg: Config, w: World, p: Proc, io: Io)
    requires p.DelToken? || p.DelState?
    requires LineageGood(w) && Fits(cfg, w, p) && Fair(w, p, io)
    ensures var (w1, p1) := Next(cfg, w, p, io); Fits(cfg, w1, p1)
  {
    hide CodeValid, IssuedBefore, RateLimiting.Throttled, RowCommand;
    if p.DelToken? {
      assert p.kind == Refresh ==> HasRefresh(w, p.token);
      var w1 := Next(cfg, w, p, io).0;
      assert forall t :: HasRefresh(w1, t) ==> HasRefresh(w, t) && Key(Refresh, t) != Key(p.kind, p.token);
    }
  }

  lemma FitsAfterOwner(cfg: Config, w: World, p: Proc, io: Io)
    requires p.SelectOwner? && TableGood(w) && Fits(cfg, w, p)
    ensures var (w1, p1) := Next(cfg, w, p, io); Fits(cfg, w1, p1)
  {
    hide CodeValid, IssuedBefore, UniqueEmails, UniqueOAuth, RateLimiting.Throttled, TokenCommand;
  }

  lemma FitsAfterInsert(cfg: Config, w: World, p: Proc, io: Io)
    requires p.InsertUser? && TableGood(w) && Fits(cfg, w, p) && Fair(w, p, io)
    ensures var (w1, p1) := Next(cfg, w, p, io); Fits(cfg, w1, p1)
  {
    hide CodeValid, UniqueEmails, UniqueOAuth, ByEmail, TokenCommand;
  }

  lemma FitsAfterById(cfg: Config, w: World, p: Proc, io: Io)
    requires p.SelectById? && TableGood(w)
    ensures var (w1, p1) := Next(cfg, w, p, io); Fits(cfg, w1, p1)
  {
    hide CodeValid, UniqueEmails, UniqueOAuth, TokenCommand;
  }

  lemma FitsAfterTable(cfg: Config, w: World, p: Proc, io: Io)
    requires OnTable(p) && !p.InsertUser? && !p.SelectOwner? && !p.SelectById?
    requires TableGood(w) && Fits(cfg, w, p)
    ensures var (w1, p1) := Next(cfg, w, p, io); Fits(cfg, w1, p1)
  {
    hide CodeValid, UniqueEmails, UniqueOAuth, Insert, Update, Delete, AfterGet, AfterOwner, AfterInsert, AfterRow,
         TokenCommand;
  }

  lemma FitsAfterToken(cfg: Config, w: World, p: Proc, io: Io)
    requires !p.Done? && !OnTable(p) && !p.GetOwner? && !p.GetState? && !p.DelToken? && !p.DelState? && !p.SelectOwner?
    requires TableGood(w) && Fits(cfg, w, p) && Fair(w, p, io)
    ensures var (w1, p1) := Next(cfg, w, p, io); Fits(cfg, w1, p1)
  {
    hide CodeValid, IssuedBefore, UniqueEmails, UniqueOAuth, Update, Mint, AfterGet, AfterOwner,
         RateLimiting.Throttled, RowCommand;
  }

  lemma FitsAfterRow(cfg: Config, w: World, p: Proc, io: Io)
    requires !p.Done? && !p.GetOwner? && !p.GetState? && !p.DelToken? && !p.DelState? && !p.SelectOwner?
    requires TableGood(w) && Fits(cfg, w, p) && Fair(w, p, io)
    ensures var (w1, p1) := Next(cfg, w, p, io); Fits(cfg, w1, p1)
  {
    hide Next, Fits, Fair, TableGood, OnTable;
    if p.InsertUser? {
      FitsAfterInsert(cfg, w, p, io);
    } else if p.SelectById? {
      FitsAfterById(cfg, w, p, io);
    } else if OnTable(p) {
      FitsAfterTable(cfg, w, p, io);
    } else {
      FitsAfterToken(cfg, w, p, io);
    }
  }

  lemma FitsStep(cfg: Config, w: World, p: Proc, io: Io)
    requires !p.Done? && Good(cfg, w) && Fits(cfg, w, p) && Fair(w, p, io)
    ensures var (w1, p1) := Next(cfg, w, p, io); Fits(cfg, w1, p1)
  {
    hide Fits, Next;
    if p.GetOwner? || p.GetState? {
      FitsAfterGet(cfg, w, p, io);
    } else if p.DelToken? || p.DelState? {
      FitsAfterDel(cfg, w, p, io);
    } else if p.SelectOwner? {
      FitsAfterOwner(cfg, w, p, io);
    } else {
      FitsAfterRow(cfg, w, p, io);
    }
  }

  /** A token that can be read is issued, and in force at the time of reading. */
  lemma LiveIsIssued(cfg: Config, w: World, key: Key, now: Time)
    requires KeysIssued(w) && IssuesGood(cfg, w) && key.kind != RateLimit && now >= w.now
    ensures Live(w.kv, now, key) ==> KeyIssued(w, key, now)
  {
    if Live(w.kv, now, key) {
      var i :| i < |w.log| && IssueAt(w.log, i, key.kind, key.token, w.kv[key].value, w.kv[key].expiry - 1);
      assert IssueAt(w.log, i, key.kind, key.token, w.kv[key].value, now);
    }
  }
}
