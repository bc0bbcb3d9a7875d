/** How far along a call is, whatever other calls do: which token it spends, and whether it has. */
module Calls {
  import opened Domain
  import opened Keyspace
  import opened Users
  import opened Machine
  import RateLimiting

  /** The token a call may spend or revoke. */
  function Target(call: Call): Option<Key> {
    match call
    case VerifyMfa(t, _) => Some(Key(Mfa, t))
    case ConfirmEmail(t) => Some(Key(EmailVerify, t))
    case ConfirmReset(t, _) => Some(Key(PwdReset, t))
    case OAuthCallback(_, _, t, _) => Some(Key(OAuthState, t))
    case RefreshToken(t) => Some(Key(Refresh, t))
    case Logout(t) => Some(Key(Refresh, t))
    case _ => None
  }

  predicate HasOAuth(u: User, tenant: Tenant, provider: string, subject: string) {
    u.tenant == tenant && u.provider == provider && u.subject == subject
  }

  function Succeeded(reply: Reply): bool {
    !reply.Failed?
  }

  /** The checks the owner of a token has to pass. */
  predicate Passes(cfg: Config, kind: Kind, arg: string, u: User, now: Time) {
    (kind == Refresh || kind == Mfa ==> u.active) && (kind == Mfa ==> CodeValid(cfg, u.mfaSecret, arg, now))
  }

  /** The call has read its token but not yet spent it. */
  predicate Holding(call: Call, p: Proc) {
    match call
    case RefreshToken(t) =>
      || (p.SelectOwner? && p.kind == Refresh && p.token == t)
      || (p.DelToken? && p.kind == Refresh && p.token == t && p.next == Open(ByRotation(t)))
    case VerifyMfa(t, code) =>
      || (p.SelectOwner? && p.kind == Mfa && p.token == t && p.arg == code)
      || (p.DelToken? && p.kind == Mfa && p.token == t && p.next.Open? && p.next.via.ByMfa? && p.next.via.code == code)
    case ConfirmEmail(t) =>
      || (p.SelectOwner? && p.kind == EmailVerify && p.token == t)
      || (p.DelToken? && p.kind == EmailVerify && p.token == t && p.next == Write(Verify))
    case ConfirmReset(t, password) =>
      || (p.SelectOwner? && p.kind == PwdReset && p.token == t && p.arg == password)
      || (p.DelToken? && p.kind == PwdReset && p.token == t && p.next == Write(Reset) &&
            p.user.password == Bcrypt(password))
    case OAuthCallback(tenant, provider, t, info) =>
      p.DelState? && p.tenant == tenant && p.provider == provider && p.state == t && p.info == info
    case _ => false
  }

  /** An OAuth callback looking up, creating or signing in the user of an identity. */
  predicate SigningIn(tenant: Tenant, provider: string, info: Info, p: Proc) {
    || p == SelectOAuth(tenant, provider, info)
    || (p.InsertUser? && p.after == SignIn && HasOAuth(p.row, tenant, provider, info.subject) &&
          p.row.email == info.email)
    || (p.SetRefresh? && p.via == ByProvider && HasOAuth(p.user, tenant, provider, info.subject))
  }

  /** The call has spent its token and has not failed since. */
  predicate Spent(call: Call, p: Proc) {
    match call
    case RefreshToken(t) => (p.SetRefresh? && p.via == ByRotation(t)) || (p.Done? && p.reply.Session?)
    case VerifyMfa(_, code) => (p.SetRefresh? && p.via.ByMfa? && p.via.code == code) || (p.Done? && p.reply.Session?)
    case ConfirmEmail(_) => (p.UpdateUser? && p.why == Verify) || p == Done(Accepted)
    case ConfirmReset(_, password) =>
      (p.UpdateUser? && p.why == Reset && p.user.password == Bcrypt(password)) || p == Done(Accepted)
    case OAuthCallback(tenant, provider, _, info) =>
      || (Supported(provider) && info.Some? && SigningIn(tenant, provider, info.value, p))
      || (p.Done? && p.reply.Session?)
    case Logout(_) => p == Done(Accepted)
    case _ => false
  }

  predicate Failing(p: Proc) {
    p.Done? && p.reply.Failed?
  }

  /** Every place a call that spends a token can be. */
  predicate Tracks(cfg: Config, call: Call, p: Proc) {
    Target(call).Some? ==> p == Start(cfg, call) || Holding(call, p) || Spent(call, p) || Failing(p)
  }

  /** A call gets past spending its token only by a DEL of that token, and gets to hold it only by
      reading it while it is stored. */
  ghost predicate SpendsByDel(w: World, w1: World, call: Call, p: Proc, p1: Proc) {
    && (Spent(call, p1) && !Spent(call, p) ==> Target(call).value !in w1.kv && (call.Logout? || Holding(call, p)))
    && (Holding(call, p1) && !Holding(call, p) ==> Target(call).value in w.kv)
  }

  ghost predicate StepsWell(cfg: Config, w: World, call: Call, p: Proc, io: Io)
    requires !p.Done?
  {
    var (w1, p1) := Next(cfg, w, p, io);
    Tracks(cfg, call, p1) && SpendsByDel(w, w1, call, p, p1)
  }

  lemma TracksStart(cfg: Config, call: Call)
    ensures Tracks(cfg, call, Start(cfg, call))
    ensures !Spent(call, Start(cfg, call)) && !Holding(call, Start(cfg, call))
  {
  }

  lemma RotationOnTable(cfg: Config, w: World, call: Call, p: Proc, io: Io)
    requires OnTable(p) && Tracks(cfg, call, p) && Fair(w, p, io) && call.RefreshToken?
    ensures StepsWell(cfg, w, call, p, io)
  {
    hide CodeValid, StepInsert, AfterLogin, AfterRow, StepUpdate, StepGetState, StepDelState, StepSelectOAuth,
         RateLimiting.Throttled, TokenCommand;
  }

  lemma RotationOnTokens(cfg: Config, w: World, call: Call, p: Proc, io: Io)
    requires !p.Done? && !OnTable(p) && Tracks(cfg, call, p) && Fair(w, p, io) && call.RefreshToken?
    ensures StepsWell(cfg, w, call, p, io)
  {
    hide CodeValid, StepInsert, AfterLogin, AfterRow, StepUpdate, StepGetState, StepDelState, StepSelectOAuth,
         RateLimiting.Throttled, RowCommand;
  }

  lemma RotationSteps(cfg: Config, w: World, call: Call, p: Proc, io: Io)
    requires !p.Done? && Tracks(cfg, call, p) && Fair(w, p, io) && call.RefreshToken?
    ensures StepsWell(cfg, w, call, p, io)
  {
    hide Tracks, Fair, StepsWell, OnTable;
    if OnTable(p) {
      RotationOnTable(cfg, w, call, p, io);
    } else {
      RotationOnTokens(cfg, w, call, p, io);
    }
  }

  lemma LogoutSteps(cfg: Config, w: World, call: Call, p: Proc, io: Io)
    requires !p.Done? && Tracks(cfg, call, p) && call.Logout?
    ensures StepsWell(cfg, w, call, p, io)
  {
  }

  lemma ChallengeOnTable(cfg: Config, w: World, call: Call, p: Proc, io: Io)
    requires OnTable(p) && Tracks(cfg, call, p) && Fair(w, p, io) && call.VerifyMfa?
    ensures StepsWell(cfg, w, call, p, io)
  {
    hide CodeValid, StepInsert, AfterLogin, AfterRow, StepUpdate, StepGetState, StepDelState, StepSelectOAuth,
         RateLimiting.Throttled, TokenCommand;
  }

  lemma ChallengeOnTokens(cfg: Config, w: World, call: Call, p: Proc, io: Io)
    requires !p.Done? && !OnTable(p) && Tracks(cfg, call, p) && Fair(w, p, io) && call.VerifyMfa?
    ensures StepsWell(cfg, w, call, p, io)
  {
    hide CodeValid, StepInsert, AfterLogin, AfterRow, StepUpdate, StepGetState, StepDelState, StepSelectOAuth,
         RateLimiting.Throttled, RowCommand;
  }

  lemma ChallengeSteps(cfg: Config, w: World, call: Call, p: Proc, io: Io)
    requires !p.Done? && Tracks(cfg, call, p) && Fair(w, p, io) && call.VerifyMfa?
    ensures StepsWell(cfg, w, call, p, io)
  {
    hide Tracks, Fair, StepsWell, OnTable;
    if OnTable(p) {
      ChallengeOnTable(cfg, w, call, p, io);
    } else {
      ChallengeOnTokens(cfg, w, call, p, io);
    }
  }

  lemma EmailOnTable(cfg: Config, w: World, call: Call, p: Proc, io: Io)
    requires OnTable(p) && Tracks(cfg, call, p) && Fair(w, p, io) && call.ConfirmEmail?
    ensures StepsWell(cfg, w, call, p, io)
  {
    hide CodeValid, Update, StepInsert, AfterLogin, AfterRow, StepGetState, StepDelState, StepSelectOAuth,
         RateLimiting.Throttled, TokenCommand;
  }

  lemma EmailOnTokens(cfg: Config, w: World, call: Call, p: Proc, io: Io)
    requires !p.Done? && !OnTable(p) && Tracks(cfg, call, p) && Fair(w, p, io) && call.ConfirmEmail?
    ensures StepsWell(cfg, w, call, p, io)
  {
    hide CodeValid, Update, StepInsert, AfterLogin, AfterRow, StepGetState, StepDelState, StepSelectOAuth,
         RateLimiting.Throttled, RowCommand;
  }

  lemma EmailSteps(cfg: Config, w: World, call: Call, p: Proc, io: Io)
    requires !p.Done? && Tracks(cfg, call, p) && Fair(w, p, io) && call.ConfirmEmail?
    ensures StepsWell(cfg, w, call, p, io)
  {
    hide Tracks, Fair, StepsWell, OnTable;
    if OnTable(p) {
      EmailOnTable(cfg, w, call, p, io);
    } else {
      EmailOnTokens(cfg, w, call, p, io);
    }
  }

  lemma ResetOnTable(cfg: Config, w: World, call: Call, p: Proc, io: Io)
    requires OnTable(p) && Tracks(cfg, call, p) && Fair(w, p, io) && call.ConfirmReset?
    ensures StepsWell(cfg, w, call, p, io)
  {
    hide CodeValid, Update, StepInsert, AfterLogin, AfterRow, StepGetState, StepDelState, StepSelectOAuth,
         RateLimiting.Throttled, TokenCommand;
  }

  lemma ResetOnTokens(cfg: Config, w: World, call: Call, p: Proc, io: Io)
    requires !p.Done? && !OnTable(p) && Tracks(cfg, call, p) && Fair(w, p, io) && call.ConfirmReset?
    ensures StepsWell(cfg, w, call, p, io)
  {
    hide CodeValid, Update, StepInsert, AfterLogin, AfterRow, StepGetState, StepDelState, StepSelectOAuth,
         RateLimiting.Throttled, RowCommand;
  }

  lemma ResetSteps(cfg: Config, w: World, call: Call, p: Proc, io: Io)
    requires !p.Done? && Tracks(cfg, call, p) && Fair(w, p, io) && call.ConfirmReset?
    ensures StepsWell(cfg, w, call, p, io)
  {
    hide Tracks, Fair, StepsWell, OnTable;
    if OnTable(p) {
      ResetOnTable(cfg, w, call, p, io);
    } else {
      ResetOnTokens(cfg, w, call, p, io);
    }
  }

  lemma CallbackOnTable(cfg: Config, w: World, call: Call, p: Proc, io: Io)
    requires OnTable(p) && Tracks(cfg, call, p) && Fair(w, p, io) && call.OAuthCallback?
    ensures StepsWell(cfg, w, call, p, io)
  {
    hide Insert, AfterLogin, AfterGet, AfterOwner, AfterRow, StepUpdate, RateLimiting.Throttled, TokenCommand;
  }

  lemma CallbackOnTokens(cfg: Config, w: World, call: Call, p: Proc, io: Io)
    requires !p.Done? && !OnTable(p) && Tracks(cfg, call, p) && Fair(w, p, io) && call.OAuthCallback?
    ensures StepsWell(cfg, w, call, p, io)
  {
    hide Insert, AfterLogin, AfterGet, AfterOwner, AfterRow, StepUpdate, RateLimiting.Throttled, RowCommand;
  }

  lemma CallbackSteps(cfg: Config, w: World, call: Call, p: Proc, io: Io)
    requires !p.Done? && Tracks(cfg, call, p) && Fair(w, p, io) && call.OAuthCallback?
    ensures StepsWell(cfg, w, call, p, io)
  {
    hide Tracks, Fair, StepsWell, OnTable;
    if OnTable(p) {
      CallbackOnTable(cfg, w, call, p, io);
    } else {
      CallbackOnTokens(cfg, w, call, p, io);
    }
  }

  lemma OtherSteps(cfg: Config, w: World, call: Call, p: Proc, io: Io)
    requires !p.Done? && Target(call).None?
    ensures StepsWell(cfg, w, call, p, io)
  {
    hide Next;
  }

  lemma CallSteps(cfg: Config, w: World, call: Call, p: Proc, io: Io)
    requires !p.Done? && Tracks(cfg, call, p) && Fair(w, p, io)
    ensures StepsWell(cfg, w, call, p, io)
  {
    hide Tracks, Fair, StepsWell;
    match call
    case RefreshToken(_) => RotationSteps(cfg, w, call, p, io);
    case Logout(_) => LogoutSteps(cfg, w, call, p, io);
    case VerifyMfa(_, _) => ChallengeSteps(cfg, w, call, p, io);
    case OAuthCallback(_, _, _, _) => CallbackSteps(cfg, w, call, p, io);
    case ConfirmEmail(_) => EmailSteps(cfg, w, call, p, io);
    case ConfirmReset(_, _) => ResetSteps(cfg, w, call, p, io);
    case _ => OtherSteps(cfg, w, call, p, io);
  }
}
