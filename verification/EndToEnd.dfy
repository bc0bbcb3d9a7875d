/** Calls that belong together, from end to end: what is requested can be confirmed until its time runs out,
    and what is set up can be signed in with. */
module EndToEnd {
  import opened Domain
  import opened Keyspace
  import Totp
  import opened Users
  import opened Machine
  import opened Invariants
  import opened Runs
  import opened Commands
  import opened Completeness
  import opened Answers

  lemma AckedAt(ios: seq<Io>, k: nat)
    requires AllAcked(ios) && k < |ios|
    ensures ios[k].out.Acked?
  {
  }

  lemma AckedCall(ios: seq<Io>)
    requires AllAcked(ios) && |ios| >= 5
    ensures ios[0].out.Acked? && ios[1].out.Acked? && ios[2].out.Acked? && ios[3].out.Acked? && ios[4].out.Acked?
  {
  }

  lemma GoodAfter(cfg: Config, w: World, step: Step)
    requires Good(cfg, w) && FairStep(cfg, w, step)
    ensures Good(cfg, Do(cfg, w, step).0)
  {
    hide Good, Do, FairStep, Evolves, Fits;
    DoKeeps(cfg, w, step);
  }

  // ---------- one-time codes ----------

  /** The time steps whose codes are good at a Unix second are the previous, the current and the next one. */
  ghost predicate CodeInWindow(cfg: Config, secret: string, code: string, second: nat)
    requires 30 <= second
  {
    exists step: nat :: second / 30 - 1 <= step <= second / 30 + 1 && Totp.CodeAt(cfg.hmac, secret, step) == Some(code)
  }

  lemma WindowDecides(cfg: Config, secret: string, code: string, second: nat)
    requires 30 <= second < 0x1_0000_0000_0000_0000 - 30
    ensures Totp.Accepts(cfg.hmac, secret, code, second) <==> CodeInWindow(cfg, secret, code, second)
  {
    hide Totp.Accepts, Totp.CodeAt;
    Totp.AcceptanceWindow(cfg.hmac, secret, code, second);
  }

  /** A challenge in force of an active user, answered with a code at some millisecond: it signs in if and only
      if the code is in the window of that second. */
  lemma ChallengeByWindow(cfg: Config, w: World, token: Token, code: string, id: Id, ios: seq<Io>)
    requires Good(cfg, w) && |ios| >= 5 && AllAcked(ios)
    requires InForce(w.kv, Key(Mfa, token), id, w.now + ios[0].wait) && id in w.users && w.users[id].active
    requires 30 <= (w.now + ios[0].wait + ios[1].wait) / 1000 < 0x1_0000_0000_0000_0000 - 30
    ensures var u, second := w.users[id], (w.now + ios[0].wait + ios[1].wait) / 1000;
            Do(cfg, w, Step(VerifyMfa(token, code), ios)).1 ==
            Done(if CodeInWindow(cfg, u.mfaSecret, code, second)
                 then Session(id, u.email, u.role, cfg.accessTtl, ios[3].token) else Failed(InvalidMfaCode))
  {
    hide Good, Do, AllAcked, CodeInWindow, Totp.Accepts;
    AckedCall(ios);
    WindowDecides(cfg, w.users[id].mfaSecret, code, T1(w, ios) / 1000);
    VerifyMfaEnds(cfg, w, token, code, id, ios);
  }

  lemma ActivationByWindow(cfg: Config, w: World, id: Id, code: string, ios: seq<Io>)
    requires Good(cfg, w) && |ios| >= 5 && AllAcked(ios) && id in w.users
    requires 30 <= (w.now + ios[0].wait) / 1000 < 0x1_0000_0000_0000_0000 - 30
    ensures var valid := CodeInWindow(cfg, w.users[id].mfaSecret, code, (w.now + ios[0].wait) / 1000);
            var (w1, p1) := Do(cfg, w, Step(ConfirmMfa(id, code), ios));
            && p1 == Done(if valid then Accepted else Failed(InvalidMfaCode))
            && w1.users == if !valid then w.users
                           else w.users[id := w.users[id].(mfaEnabled := true, updatedAt := w.now + ios[0].wait)]
  {
    hide Good, Do, AllAcked, CodeInWindow, Totp.Accepts;
    AckedCall(ios);
    WindowDecides(cfg, w.users[id].mfaSecret, code, T0(w, ios) / 1000);
    ConfirmMfaEnds(cfg, w, id, code, ios);
  }

  /** The code an authenticator shows within 30 seconds of the check is in the window. */
  lemma ShownCodeInWindow(cfg: Config, secret: string, code: string, shownAt: nat, second: nat)
    requires 30 <= second < 0x1_0000_0000_0000_0000 - 60 && second - 30 <= shownAt <= second + 30
    requires Totp.Code(cfg.hmac, secret, shownAt) == Some(code)
    ensures CodeInWindow(cfg, secret, code, second)
  {
    hide Totp.CodeAt;
    assert Totp.CodeAt(cfg.hmac, secret, shownAt / 30) == Some(code);
  }

  lemma ChallengeWithShownCode(cfg: Config, w: World, token: Token, code: string, shownAt: nat, id: Id, ios: seq<Io>)
    requires Good(cfg, w) && |ios| >= 5 && AllAcked(ios)
    requires InForce(w.kv, Key(Mfa, token), id, w.now + ios[0].wait) && id in w.users && w.users[id].active
    requires var second := (w.now + ios[0].wait + ios[1].wait) / 1000;
             30 <= second < 0x1_0000_0000_0000_0000 - 60 && second - 30 <= shownAt <= second + 30
    requires Totp.Code(cfg.hmac, w.users[id].mfaSecret, shownAt) == Some(code)
    ensures var u := w.users[id];
            Do(cfg, w, Step(VerifyMfa(token, code), ios)).1 ==
            Done(Session(id, u.email, u.role, cfg.accessTtl, ios[3].token))
  {
    hide Good, Do, AllAcked, CodeInWindow, Totp.Code, InForce;
    ShownCodeInWindow(cfg, w.users[id].mfaSecret, code, shownAt, (w.now + ios[0].wait + ios[1].wait) / 1000);
    ChallengeByWindow(cfg, w, token, code, id, ios);
  }

  /** An enrolled user logs in with the right password and answers the challenge: within five minutes the code
      decides, and after five minutes the challenge is refused. */
  lemma MfaSignIn(cfg: Config, w: World, id: Id, email: string, password: string, code: string, ios: seq<Io>,
          ios2: seq<Io>)
    requires Good(cfg, w) && |ios| >= 5 && AllAcked(ios) && |ios2| >= 5 && AllAcked(ios2) && id in w.users
    requires FairStep(cfg, w, Step(Login(w.users[id].tenant, email, password), ios))
    requires var u := w.users[id];
             u.active && u.mfaEnabled && u.password == Bcrypt(password) && cfg.clean(email) == Some(u.email)
    requires 30 <= (w.now + ios[0].wait + ios[1].wait + ios2[0].wait + ios2[1].wait) / 1000 <
             0x1_0000_0000_0000_0000 - 30
    ensures var u, second := w.users[id], (w.now + ios[0].wait + ios[1].wait + ios2[0].wait + ios2[1].wait) / 1000;
            var (w1, p1) := Do(cfg, w, Step(Login(u.tenant, email, password), ios));
            && p1 == Done(MfaRequired(ios[1].token))
            && Do(cfg, w1, Step(VerifyMfa(ios[1].token, code), ios2)).1 ==
               Done(if ios2[0].wait >= 300_000 then Failed(InvalidToken)
                    else if CodeInWindow(cfg, u.mfaSecret, code, second)
                    then Session(id, u.email, u.role, cfg.accessTtl, ios2[3].token) else Failed(InvalidMfaCode))
  {
    hide Good, Do, AllAcked, CodeInWindow, FairStep;
    AckedCall(ios);
    AckedCall(ios2);
    LoginEnds(cfg, w, email, password, id, ios);
    var step := Step(Login(w.users[id].tenant, email, password), ios);
    GoodAfter(cfg, w, step);
    var w1 := Do(cfg, w, step).0;
    if ios2[0].wait >= 300_000 {
      LapsedEnds(cfg, w1, VerifyMfa(ios[1].token, code), ios2);
    } else {
      ChallengeByWindow(cfg, w1, ios[1].token, code, id, ios2);
    }
  }

  // ---------- passwords ----------

  /** Login of an active user, whatever the state of MFA: the password decides. */
  lemma LoginByPassword(cfg: Config, w: World, id: Id, email: string, attempt: string, ios: seq<Io>)
    requires Good(cfg, w) && |ios| >= 5 && AllAcked(ios) && id in w.users
    requires w.users[id].active && cfg.clean(email) == Some(w.users[id].email)
    ensures var u := w.users[id];
            Do(cfg, w, Step(Login(u.tenant, email, attempt), ios)).1 ==
            Done(if u.password != Bcrypt(attempt) then Failed(Unauthorized)
                 else if u.mfaEnabled then MfaRequired(ios[1].token)
                 else Session(id, u.email, u.role, cfg.accessTtl, ios[1].token))
  {
    hide Good, Do, AllAcked;
    AckedCall(ios);
    LoginEnds(cfg, w, email, attempt, id, ios);
  }

  /** A reset requested for a stored address, and confirmed with the token drawn: within an hour it sets the
      password and nothing else, and afterwards it is refused. */
  lemma RequestThenReset(cfg: Config, w: World, id: Id, password: string, ios: seq<Io>, ios2: seq<Io>)
    requires Good(cfg, w) && |ios| >= 5 && AllAcked(ios) && |ios2| >= 5 && AllAcked(ios2) && id in w.users
    requires FairStep(cfg, w, Step(RequestReset(w.users[id].tenant, w.users[id].email), ios))
    requires 8 <= |password| <= 72
    ensures var u := w.users[id];
            var (w1, p1) := Do(cfg, w, Step(RequestReset(u.tenant, u.email), ios));
            var (w2, p2) := Do(cfg, w1, Step(ConfirmReset(ios[1].token, password), ios2));
            && p1 == Done(Accepted) && w1.users == w.users
            && if ios2[0].wait < 3_600_000
               then p2 == Done(Accepted) &&
                    w2.users == w.users[id := u.(password := Bcrypt(password),
                                                 updatedAt := w1.now + ios2[0].wait + ios2[1].wait)]
               else p2 == Done(Failed(InvalidToken)) && w2.users == w.users
  {
    hide Good, Do, AllAcked, FairStep;
    AckedCall(ios);
    AckedCall(ios2);
    var step := Step(RequestReset(w.users[id].tenant, w.users[id].email), ios);
    RequestEnds(cfg, w, step.call, id, ios);
    GoodAfter(cfg, w, step);
    var w1 := Do(cfg, w, step).0;
    RowIds(cfg, w, id);
    if ios2[0].wait < 3_600_000 {
      ConfirmResetEnds(cfg, w1, ios[1].token, password, id, ios2);
    } else {
      LapsedEnds(cfg, w1, ConfirmReset(ios[1].token, password), ios2);
    }
  }

  lemma RowIds(cfg: Config, w: World, id: Id)
    requires Good(cfg, w) && id in w.users
    ensures w.users[id].id == id
  {
  }

  /** After such a reset an active owner logs in with the new password and with no other. */
  lemma ResetThenLogin(cfg: Config, w: World, id: Id, email: string, password: string, attempt: string, ios: seq<Io>,
          ios2: seq<Io>, ios3: seq<Io>)
    requires Good(cfg, w) && |ios| >= 5 && AllAcked(ios) && |ios2| >= 5 && AllAcked(ios2) && id in w.users
    requires |ios3| >= 5 && AllAcked(ios3) && 8 <= |password| <= 72 && ios2[0].wait < 3_600_000
    requires w.users[id].active && cfg.clean(email) == Some(w.users[id].email)
    requires FairStep(cfg, w, Step(RequestReset(w.users[id].tenant, w.users[id].email), ios))
    requires var w1 := Do(cfg, w, Step(RequestReset(w.users[id].tenant, w.users[id].email), ios)).0;
             FairStep(cfg, w1, Step(ConfirmReset(ios[1].token, password), ios2))
    ensures var u := w.users[id];
            var w1 := Do(cfg, w, Step(RequestReset(u.tenant, u.email), ios)).0;
            var w2 := Do(cfg, w1, Step(ConfirmReset(ios[1].token, password), ios2)).0;
            Do(cfg, w2, Step(Login(u.tenant, email, attempt), ios3)).1 ==
            Done(if attempt != password then Failed(Unauthorized)
                 else if u.mfaEnabled then MfaRequired(ios3[1].token)
                 else Session(id, u.email, u.role, cfg.accessTtl, ios3[1].token))
  {
    hide Good, Do, AllAcked, FairStep;
    RequestThenReset(cfg, w, id, password, ios, ios2);
    var step := Step(RequestReset(w.users[id].tenant, w.users[id].email), ios);
    GoodAfter(cfg, w, step);
    var w1 := Do(cfg, w, step).0;
    GoodAfter(cfg, w1, Step(ConfirmReset(ios[1].token, password), ios2));
    var w2 := Do(cfg, w1, Step(ConfirmReset(ios[1].token, password), ios2)).0;
    LoginByPassword(cfg, w2, id, email, attempt, ios3);
  }

  // ---------- email addresses ----------

  /** A verification requested for a stored address, and confirmed with the token drawn: within a day it sets
      the flag and nothing else, and afterwards it is refused. */
  lemma RequestThenVerify(cfg: Config, w: World, id: Id, ios: seq<Io>, ios2: seq<Io>)
    requires Good(cfg, w) && |ios| >= 5 && AllAcked(ios) && |ios2| >= 5 && AllAcked(ios2) && id in w.users
    requires FairStep(cfg, w, Step(RequestEmailVerification(w.users[id].tenant, w.users[id].email), ios))
    ensures var u := w.users[id];
            var (w1, p1) := Do(cfg, w, Step(RequestEmailVerification(u.tenant, u.email), ios));
            var (w2, p2) := Do(cfg, w1, Step(ConfirmEmail(ios[1].token), ios2));
            && p1 == Done(Accepted) && w1.users == w.users
            && if ios2[0].wait < 86_400_000
               then p2 == Done(Accepted) &&
                    w2.users == w.users[id := u.(emailVerified := true,
                                                 updatedAt := w1.now + ios2[0].wait + ios2[1].wait)]
               else p2 == Done(Failed(InvalidToken)) && w2.users == w.users
  {
    hide Good, Do, AllAcked, FairStep;
    AckedCall(ios);
    AckedCall(ios2);
    var step := Step(RequestEmailVerification(w.users[id].tenant, w.users[id].email), ios);
    RequestEnds(cfg, w, step.call, id, ios);
    GoodAfter(cfg, w, step);
    var w1 := Do(cfg, w, step).0;
    RowIds(cfg, w, id);
    if ios2[0].wait < 86_400_000 {
      ConfirmEmailEnds(cfg, w1, ios[1].token, id, ios2);
    } else {
      LapsedEnds(cfg, w1, ConfirmEmail(ios[1].token), ios2);
    }
  }

  /** So can the address of a new account be confirmed with the token mailed at registration. */
  lemma RegisterThenVerify(cfg: Config, w: World, tenant: Tenant, email: string, password: string, ios: seq<Io>,
          ios2: seq<Io>)
    requires Good(cfg, w) && |ios| >= 5 && AllAcked(ios) && |ios2| >= 5 && AllAcked(ios2)
    requires FairStep(cfg, w, Step(Register(tenant, email, password), ios)) && ios[0].id !in w.users
    requires cfg.clean(email).Some? && !Taken(w.users, tenant, cfg.clean(email).value) && 8 <= |password| <= 72
    ensures var (w1, p1) := Do(cfg, w, Step(Register(tenant, email, password), ios));
            var (w2, p2) := Do(cfg, w1, Step(ConfirmEmail(ios[1].token), ios2));
            var id := ios[0].id;
            && p1 == Done(Accepted) && id in w1.users && !w1.users[id].emailVerified
            && if ios2[0].wait < 86_400_000 then p2 == Done(Accepted) && id in w2.users && w2.users[id].emailVerified
               else p2 == Done(Failed(InvalidToken)) && w2.users == w1.users
  {
    hide Good, Do, AllAcked, FairStep, Taken;
    AckedCall(ios);
    AckedCall(ios2);
    var step := Step(Register(tenant, email, password), ios);
    RegisterEnds(cfg, w, tenant, email, password, ios);
    GoodAfter(cfg, w, step);
    var w1 := Do(cfg, w, step).0;
    if ios2[0].wait < 86_400_000 {
      ConfirmEmailEnds(cfg, w1, ios[1].token, ios[0].id, ios2);
    } else {
      LapsedEnds(cfg, w1, ConfirmEmail(ios[1].token), ios2);
    }
  }

  /** A request for an address that is not stored is answered the same, and changes nothing. */
  lemma UnknownRequest(cfg: Config, w: World, call: Call, ios: seq<Io>)
    requires (call.RequestReset? || call.RequestEmailVerification?) && |ios| >= 5
    requires !Taken(w.users, call.tenant, call.email)
    ensures var (w1, p1) := Do(cfg, w, Step(call, ios)); p1 == Done(Accepted) && w1.users == w.users && w1.kv == w.kv
  {
    hide Do, Taken;
    UnknownRequestEnds(cfg, w, call, ios);
  }

  // ---------- OAuth ----------

  /** Whom a callback signs in: the user of the identity, a new one if the email is free, else nobody. */
  ghost predicate SignsIn(cfg: Config, users: Table, tenant: Tenant, provider: string, info: Option<Info>, ios: seq<Io>,
          reply: Reply)
    requires |ios| >= 5
  {
    if info.None? then reply == Failed(OAuthExchange)
    else if Known(users, tenant, provider, info.value.subject) then
      exists id :: id in users && users[id].tenant == tenant && users[id].provider == provider &&
                   users[id].subject == info.value.subject &&
                   reply == Session(id, users[id].email, users[id].role, cfg.accessTtl, ios[3].token)
    else if Taken(users, tenant, info.value.email) then reply == Failed(Conflict)
    else reply == Session(ios[3].id, info.value.email, Member, cfg.accessTtl, ios[4].token)
  }

  lemma FittingCallback(cfg: Config, w: World, tenant: Tenant, provider: string, state: Token, info: Option<Info>,
          ios: seq<Io>)
    requires Good(cfg, w) && |ios| >= 5 && AllAcked(ios) && ios[3].id !in w.users
    requires (provider == "google" || provider == "github") && StateFits(w.kv, state, provider, w.now + ios[0].wait)
    ensures var p1 := Do(cfg, w, Step(OAuthCallback(tenant, provider, state, info), ios)).1;
            p1.Done? && SignsIn(cfg, w.users, tenant, provider, info, ios, p1.reply)
  {
    hide Good, Do, AllAcked, StateFits, Taken;
    AckedCall(ios);
    if info.None? {
      NoExchangeEnds(cfg, w, tenant, provider, state, info, ios);
    } else if Known(w.users, tenant, provider, info.value.subject) {
      var id :| id in w.users && w.users[id].tenant == tenant && w.users[id].provider == provider &&
                w.users[id].subject == info.value.subject;
      KnownCallbackEnds(cfg, w, tenant, provider, state, info.value, id, ios);
      assert info == Some(info.value);
    } else {
      NewCallbackEnds(cfg, w, tenant, provider, state, info.value, ios);
      assert info == Some(info.value);
    }
  }

  /** A login URL is asked for, and its state comes back: within ten minutes, from the provider it was drawn for,
      it passes the check and the identity decides; from the other provider, or later, it is refused. */
  lemma UrlThenCallback(cfg: Config, w: World, provider: string, other: string, tenant: Tenant, info: Option<Info>,
          ios: seq<Io>, ios2: seq<Io>)
    requires Good(cfg, w) && |ios| >= 5 && AllAcked(ios) && |ios2| >= 5 && AllAcked(ios2)
    requires provider == "google" || provider == "github"
    requires FairStep(cfg, w, Step(OAuthUrl(provider), ios)) && ios2[3].id !in w.users
    ensures var state := ios[0].token;
            var (w1, p1) := Do(cfg, w, Step(OAuthUrl(provider), ios));
            var (w2, p2) := Do(cfg, w1, Step(OAuthCallback(tenant, other, state, info), ios2));
            && p1 == Done(StateIssued(cfg.authUrl(provider, state), state)) && p2.Done?
            && if other == provider && ios2[0].wait < 600_000
               then SignsIn(cfg, w.users, tenant, provider, info, ios2, p2.reply)
               else p2.reply == Failed(InvalidState) && w2.users == w1.users && w2.kv == w1.kv
  {
    hide Good, Do, AllAcked, FairStep, SignsIn;
    AckedCall(ios);
    AckedCall(ios2);
    OAuthUrlEnds(cfg, w, provider, ios);
    GoodAfter(cfg, w, Step(OAuthUrl(provider), ios));
    var w1 := Do(cfg, w, Step(OAuthUrl(provider), ios)).0;
    if other == provider && ios2[0].wait < 600_000 {
      FittingCallback(cfg, w1, tenant, provider, ios[0].token, info, ios2);
    } else {
      BadStateEnds(cfg, w1, tenant, other, ios[0].token, info, ios2);
    }
  }

  // ---------- SCIM ----------

  /** Writing back what the SCIM view of a user shows changes nothing but the time of the update. */
  lemma ScimRoundTrip(cfg: Config, w: World, id: Id, ios: seq<Io>)
    requires Good(cfg, w) && |ios| >= 5 && AllAcked(ios) && id in w.users
    ensures var view := ToScim(w.users[id]);
            var (w1, p1) := Do(cfg, w, Step(ScimUpdate(view.id, [view.email], view.active, view.externalId), ios));
            && w1.users == w.users[id := w.users[id].(updatedAt := w.now + ios[0].wait)] && w1.kv == w.kv
            && p1 == Done(Resource(view.(lastModified := w.now + ios[0].wait)))
  {
    hide Good, Do, AllAcked, TakenByAnother;
    AckedCall(ios);
    RowIds(cfg, w, id);
    var u := w.users[id];
    ScimUpdateEnds(cfg, w, id, [u.email], u.active, u.externalId, ios);
    GoodParts(cfg, w);
    EmailIsOwn(w.users, id, u);
  }
}
