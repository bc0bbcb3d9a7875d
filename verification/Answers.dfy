/** Every call from its arrival to its answer: which rows and tokens it leaves and what it answers, for every
    way its commands can end, when no other call runs meanwhile. No call needs more than five commands, so five
    outcomes are enough for any of them. */
module Answers {
  import opened Domain
  import opened Keyspace
  import RateLimiting
  import Totp
  import opened Users
  import opened Machine
  import opened Invariants
  import opened Runs
  import opened Commands
  import opened Completeness

  /** The call answers, and leaves the clock, the table and the keyspace like this. */
  ghost predicate Ends(cfg: Config, w: World, call: Call, ios: seq<Io>, now: Time, users: Table, kv: Store,
          reply: Reply) {
    var (w1, p1) := Do(cfg, w, Step(call, ios));
    w1.now == now && w1.users == users && w1.kv == kv && p1 == Done(reply)
  }

  function T0(w: World, ios: seq<Io>): Time
    requires |ios| >= 1
  {
    w.now + ios[0].wait
  }

  function T1(w: World, ios: seq<Io>): Time
    requires |ios| >= 2
  {
    T0(w, ios) + ios[1].wait
  }

  function T2(w: World, ios: seq<Io>): Time
    requires |ios| >= 3
  {
    T1(w, ios) + ios[2].wait
  }

  function T3(w: World, ios: seq<Io>): Time
    requires |ios| >= 4
  {
    T2(w, ios) + ios[3].wait
  }

  function T4(w: World, ios: seq<Io>): Time
    requires |ios| >= 5
  {
    T3(w, ios) + ios[4].wait
  }

  lemma GoodParts(cfg: Config, w: World)
    requires Good(cfg, w)
    ensures Keyed(w.users) && UniqueEmails(w.users) && UniqueOAuth(w.users)
  {
  }

  // ---------- accounts ----------

  lemma RegisterEnds(cfg: Config, w: World, tenant: Tenant, email: string, password: string, ios: seq<Io>)
    requires |ios| >= 5 && ios[0].id !in w.users
    ensures var call, cleaned, id := Register(tenant, email, password), cfg.clean(email), ios[0].id;
            if cleaned.None? || |password| < 8 || |password| > 72
            then Ends(cfg, w, call, ios, w.now, w.users, w.kv, Failed(Validation))
            else
              var t0, t1, taken := T0(w, ios), T1(w, ios), Taken(w.users, tenant, cleaned.value);
              var row := User(id, tenant, cleaned.value, Bcrypt(password), Member, true, false, "", false,
                              "", "", "", t0, t0);
              var users := if ios[0].out.Refused? || taken then w.users else w.users[id := row];
              if !ios[0].out.Acked? then Ends(cfg, w, call, ios, t0, users, w.kv, Failed(Internal))
              else if taken then Ends(cfg, w, call, ios, t0, w.users, w.kv, Failed(Conflict))
              else Ends(cfg, w, call, ios, t1, users,
                        Put(w.kv, Key(EmailVerify, ios[1].token), OfUser(id), t1 + 86_400_000, ios[1].out), Accepted)
  {
    hide Next, Run, Taken;
    var b, p := Begin(w, Register(tenant, email, password)), Start(cfg, Register(tenant, email, password));
    if p.Done? {
      NothingLeft(cfg, b, p, ios, 0);
    } else {
      Inserts(cfg, b, p.row, p.after, ios[0]);
      Unroll(cfg, b, p, ios, 0);
      var (w1, p1) := Next(cfg, b, p, ios[0]);
      if p1.Done? {
        NothingLeft(cfg, w1, p1, ios, 1);
      } else {
        SetsToken(cfg, w1, EmailVerify, ios[0].id, ios[1]);
        Unroll(cfg, w1, p1, ios, 1);
        var (w2, p2) := Next(cfg, w1, p1, ios[1]);
        NothingLeft(cfg, w2, p2, ios, 2);
      }
    }
  }

  lemma LoginEnds(cfg: Config, w: World, email: string, password: string, id: Id, ios: seq<Io>)
    requires Good(cfg, w) && |ios| >= 5 && id in w.users && cfg.clean(email) == Some(w.users[id].email)
    ensures var u := w.users[id];
            var call, t0, t1 := Login(u.tenant, email, password), T0(w, ios), T1(w, ios);
            if !ios[0].out.Acked? || !u.active || u.password != Bcrypt(password)
            then Ends(cfg, w, call, ios, t0, w.users, w.kv, Failed(Unauthorized))
            else if u.mfaEnabled
            then Ends(cfg, w, call, ios, t1, w.users,
                      Put(w.kv, Key(Mfa, ios[1].token), OfUser(id), t1 + 300_000, ios[1].out),
                      MfaRequired(ios[1].token))
            else Ends(cfg, w, call, ios, t1, w.users,
                      Put(w.kv, Key(Refresh, ios[1].token), OfUser(id), t1 + cfg.refreshTtl, ios[1].out),
                      if ios[1].out.Acked? then Session(id, u.email, u.role, cfg.accessTtl, ios[1].token)
                      else Failed(Internal))
  {
    hide Next, Run, Good, UniqueEmails, UniqueOAuth;
    var u := w.users[id];
    var b, p := Begin(w, Login(u.tenant, email, password)), SelectLogin(u.tenant, u.email, password);
    GoodParts(cfg, w);
    SelectsLogin(cfg, b, u.tenant, u.email, password, ios[0], id);
    Unroll(cfg, b, p, ios, 0);
    var (w1, p1) := Next(cfg, b, p, ios[0]);
    if p1.Done? {
      NothingLeft(cfg, w1, p1, ios, 1);
    } else {
      SetsToken(cfg, w1, Mfa, id, ios[1]);
      SetsRefresh(cfg, w1, u, ByPassword, ios[1]);
      Unroll(cfg, w1, p1, ios, 1);
      var (w2, p2) := Next(cfg, w1, p1, ios[1]);
      NothingLeft(cfg, w2, p2, ios, 2);
    }
  }

  lemma UnknownLoginEnds(cfg: Config, w: World, tenant: Tenant, email: string, password: string, ios: seq<Io>)
    requires |ios| >= 5
    requires var cleaned := cfg.clean(email); cleaned.Some? ==> !Taken(w.users, tenant, cleaned.value)
    ensures Ends(cfg, w, Login(tenant, email, password), ios, if cfg.clean(email).None? then w.now else T0(w, ios),
                 w.users, w.kv, Failed(Unauthorized))
  {
    hide Next, Run, Taken;
    var b, p := Begin(w, Login(tenant, email, password)), Start(cfg, Login(tenant, email, password));
    if p.Done? {
      NothingLeft(cfg, b, p, ios, 0);
    } else {
      SelectsNoLogin(cfg, b, tenant, p.email, password, ios[0]);
      Unroll(cfg, b, p, ios, 0);
      var (w1, p1) := Next(cfg, b, p, ios[0]);
      NothingLeft(cfg, w1, p1, ios, 1);
    }
  }

  // ---------- requests for mailed tokens ----------

  predicate IsRequest(call: Call) {
    call.RequestEmailVerification? || call.RequestReset?
  }

  /** The address is looked up as it is written, and the answer never says whether it is known. */
  lemma RequestEnds(cfg: Config, w: World, call: Call, id: Id, ios: seq<Io>)
    requires IsRequest(call) && Good(cfg, w) && |ios| >= 5
    requires id in w.users && w.users[id].tenant == call.tenant && w.users[id].email == call.email
    ensures var t0, t1 := T0(w, ios), T1(w, ios);
            var (kind, ttl) := if call.RequestReset? then (PwdReset, 3_600_000) else (EmailVerify, 86_400_000);
            if !ios[0].out.Acked? then Ends(cfg, w, call, ios, t0, w.users, w.kv, Accepted)
            else Ends(cfg, w, call, ios, t1, w.users,
                      Put(w.kv, Key(kind, ios[1].token), OfUser(id), t1 + ttl, ios[1].out), Accepted)
  {
    hide Next, Run, Good, UniqueEmails, UniqueOAuth, Keyed;
    var b, p := Begin(w, call), Start(cfg, call);
    GoodParts(cfg, w);
    SelectsRequest(cfg, b, p.kind, call.tenant, call.email, ios[0], id);
    Unroll(cfg, b, p, ios, 0);
    var (w1, p1) := Next(cfg, b, p, ios[0]);
    if p1.Done? {
      NothingLeft(cfg, w1, p1, ios, 1);
    } else {
      SetsToken(cfg, w1, p.kind, id, ios[1]);
      Unroll(cfg, w1, p1, ios, 1);
      var (w2, p2) := Next(cfg, w1, p1, ios[1]);
      NothingLeft(cfg, w2, p2, ios, 2);
    }
  }

  lemma UnknownRequestEnds(cfg: Config, w: World, call: Call, ios: seq<Io>)
    requires IsRequest(call) && |ios| >= 5 && !Taken(w.users, call.tenant, call.email)
    ensures Ends(cfg, w, call, ios, T0(w, ios), w.users, w.kv, Accepted)
  {
    hide Next, Run, Taken;
    var b, p := Begin(w, call), Start(cfg, call);
    SelectsNoRequest(cfg, b, p.kind, call.tenant, call.email, ios[0]);
    Unroll(cfg, b, p, ios, 0);
    var (w1, p1) := Next(cfg, b, p, ios[0]);
    NothingLeft(cfg, w1, p1, ios, 1);
  }

  // ---------- calls with a user's token ----------

  /** The key a token is presented for. */
  function Presents(call: Call): Key
    requires UsesUserToken(call)
  {
    match call
    case VerifyMfa(t, _) => Key(Mfa, t)
    case ConfirmEmail(t) => Key(EmailVerify, t)
    case ConfirmReset(t, _) => Key(PwdReset, t)
    case RefreshToken(t) => Key(Refresh, t)
  }

  /** A reset with a password that is too short or too long is rejected before anything is read. */
  predicate Rejected(call: Call) {
    call.ConfirmReset? && (|call.password| < 8 || |call.password| > 72)
  }

  lemma RejectedEnds(cfg: Config, w: World, call: Call, ios: seq<Io>)
    requires |ios| >= 5 && Rejected(call)
    ensures Ends(cfg, w, call, ios, w.now, w.users, w.kv, Failed(Validation))
  {
    hide Next, Run;
    NothingLeft(cfg, Begin(w, call), Start(cfg, call), ios, 0);
  }

  lemma StartsReading(cfg: Config, call: Call)
    requires UsesUserToken(call) && !Rejected(call)
    ensures var key := Presents(call); Start(cfg, call) == GetOwner(key.kind, key.token, ArgOf(call))
  {
  }

  /** A token that has lapsed when it is read, or cannot be read, is refused. */
  lemma LapsedEnds(cfg: Config, w: World, call: Call, ios: seq<Io>)
    requires UsesUserToken(call) && !Rejected(call) && |ios| >= 5 && Lapsed(w.kv, Presents(call), T0(w, ios))
    ensures Ends(cfg, w, call, ios, T0(w, ios), w.users, w.kv,
                 Failed(if call.RefreshToken? && !ios[0].out.Acked? then Internal else InvalidToken))
  {
    hide Next, Run, Start, Lapsed;
    var b, key := Begin(w, call), Presents(call);
    StartsReading(cfg, call);
    GetsNothing(cfg, b, key.kind, key.token, ArgOf(call), ios[0]);
    Unroll(cfg, b, Start(cfg, call), ios, 0);
    var (w1, p1) := Next(cfg, b, Start(cfg, call), ios[0]);
    NothingLeft(cfg, w1, p1, ios, 1);
  }

  lemma UnreadEnds(cfg: Config, w: World, call: Call, id: Id, ios: seq<Io>)
    requires UsesUserToken(call) && !Rejected(call) && |ios| >= 5 && InForce(w.kv, Presents(call), id, T0(w, ios))
    requires !ios[0].out.Acked?
    ensures Ends(cfg, w, call, ios, T0(w, ios), w.users, w.kv,
                 Failed(if call.RefreshToken? then Internal else InvalidToken))
  {
    hide Next, Run, Start, InForce;
    var b, key := Begin(w, call), Presents(call);
    StartsReading(cfg, call);
    GetsOwner(cfg, b, key.kind, key.token, ArgOf(call), id, ios[0]);
    Unroll(cfg, b, Start(cfg, call), ios, 0);
    var (w1, p1) := Next(cfg, b, Start(cfg, call), ios[0]);
    NothingLeft(cfg, w1, p1, ios, 1);
  }

  /** The owner is not there, cannot be read, or fails a check of the call. */
  lemma FailsCheck(cfg: Config, w: World, call: Call, id: Id, error: Error, ios: seq<Io>)
    requires UsesUserToken(call) && !Rejected(call) && |ios| >= 5 && InForce(w.kv, Presents(call), id, T0(w, ios))
    requires ios[0].out.Acked?
    requires var found := if ios[1].out.Acked? && id in w.users then Some(w.users[id]) else None;
             AfterOwner(cfg, Presents(call).kind, Presents(call).token, ArgOf(call), found, T0(w, ios), T1(w, ios)) ==
             Done(Failed(error))
    ensures Ends(cfg, w, call, ios, T1(w, ios), w.users, w.kv, Failed(error))
  {
    hide Next, Run, Start, InForce, AfterOwner;
    var b, key := Begin(w, call), Presents(call);
    StartsReading(cfg, call);
    GetsOwner(cfg, b, key.kind, key.token, ArgOf(call), id, ios[0]);
    Unroll(cfg, b, Start(cfg, call), ios, 0);
    var (w1, p1) := Next(cfg, b, Start(cfg, call), ios[0]);
    SelectsOwner(cfg, w1, key.kind, key.token, ArgOf(call), id, T0(w, ios), ios[1]);
    Unroll(cfg, w1, p1, ios, 1);
    var (w2, p2) := Next(cfg, w1, p1, ios[1]);
    NothingLeft(cfg, w2, p2, ios, 2);
  }

  lemma ReachesDel(cfg: Config, w: World, call: Call, id: Id, u: User, next: Then, ios: seq<Io>)
    requires UsesUserToken(call) && !Rejected(call) && |ios| >= 5 && InForce(w.kv, Presents(call), id, T0(w, ios))
    requires ios[0].out.Acked? && ios[1].out.Acked? && id in w.users
    requires var key := Presents(call);
             AfterOwner(cfg, key.kind, key.token, ArgOf(call), Some(w.users[id]), T0(w, ios), T1(w, ios)) ==
             DelToken(key.kind, key.token, u, next, T0(w, ios))
    ensures var (w2, p2) := Run(cfg, Begin(w, call), Start(cfg, call), ios, 0);
            exists v: World ::
              v.now == T2(w, ios) && v.users == w.users && v.kv == Drop(w.kv, Presents(call), ios[2].out) &&
              (w2, p2) == Run(cfg, v, if next.Open? then SetRefresh(u, next.via) else UpdateUser(u, next.why), ios, 3)
  {
    hide Next, Run, Start, InForce, AfterOwner, Drop;
    var b, key := Begin(w, call), Presents(call);
    StartsReading(cfg, call);
    GetsOwner(cfg, b, key.kind, key.token, ArgOf(call), id, ios[0]);
    Unroll(cfg, b, Start(cfg, call), ios, 0);
    var (w1, p1) := Next(cfg, b, Start(cfg, call), ios[0]);
    SelectsOwner(cfg, w1, key.kind, key.token, ArgOf(call), id, T0(w, ios), ios[1]);
    Unroll(cfg, w1, p1, ios, 1);
    var (w2, p2) := Next(cfg, w1, p1, ios[1]);
    Deletes(cfg, w2, key.kind, key.token, u, next, T0(w, ios), ios[2]);
    Unroll(cfg, w2, p2, ios, 2);
    var (w3, p3) := Next(cfg, w2, p2, ios[2]);
    assert w3.now == T2(w, ios) && w3.users == w.users && w3.kv == Drop(w.kv, Presents(call), ios[2].out);
  }

  lemma OpensAfterDel(cfg: Config, w: World, call: Call, id: Id, via: Via, ios: seq<Io>)
    requires UsesUserToken(call) && !Rejected(call) && |ios| >= 5 && InForce(w.kv, Presents(call), id, T0(w, ios))
    requires ios[0].out.Acked? && ios[1].out.Acked? && id in w.users && w.users[id].id == id
    requires var key := Presents(call);
             AfterOwner(cfg, key.kind, key.token, ArgOf(call), Some(w.users[id]), T0(w, ios), T1(w, ios)) ==
             DelToken(key.kind, key.token, w.users[id], Open(via), T0(w, ios))
    ensures Rotated(cfg, w, call, id, ios)
  {
    hide Next, Run, Start, InForce, AfterOwner, Drop, Put;
    ReachesDel(cfg, w, call, id, w.users[id], Open(via), ios);
    var (w1, p1) := Run(cfg, Begin(w, call), Start(cfg, call), ios, 0);
    var v: World :| v.now == T2(w, ios) && v.users == w.users && v.kv == Drop(w.kv, Presents(call), ios[2].out) &&
      (w1, p1) == Run(cfg, v, SetRefresh(w.users[id], via), ios, 3);
    SetsRefresh(cfg, v, w.users[id], via, ios[3]);
    Unroll(cfg, v, SetRefresh(w.users[id], via), ios, 3);
    var (w2, p2) := Next(cfg, v, SetRefresh(w.users[id], via), ios[3]);
    NothingLeft(cfg, w2, p2, ios, 4);
  }

  /** The token is gone, and a refresh token of its owner is stored and answered. */
  ghost predicate Rotated(cfg: Config, w: World, call: Call, id: Id, ios: seq<Io>)
    requires UsesUserToken(call) && |ios| >= 5 && id in w.users
  {
    var u, t3 := w.users[id], T3(w, ios);
    Ends(cfg, w, call, ios, t3, w.users,
         Put(Drop(w.kv, Presents(call), ios[2].out), Key(Refresh, ios[3].token), OfUser(id), t3 + cfg.refreshTtl,
             ios[3].out),
         if ios[3].out.Acked? then Session(id, u.email, u.role, cfg.accessTtl, ios[3].token) else Failed(Internal))
  }

  lemma RefreshEnds(cfg: Config, w: World, token: Token, id: Id, ios: seq<Io>)
    requires Good(cfg, w) && |ios| >= 5 && InForce(w.kv, Key(Refresh, token), id, T0(w, ios)) && ios[0].out.Acked?
    ensures var call := RefreshToken(token);
            if !ios[1].out.Acked? || id !in w.users || !w.users[id].active
            then Ends(cfg, w, call, ios, T1(w, ios), w.users, w.kv, Failed(Unauthorized))
            else Rotated(cfg, w, call, id, ios)
  {
    hide Ends, Rotated, Good, InForce, UniqueEmails, UniqueOAuth, CodeValid;
    GoodParts(cfg, w);
    if !ios[1].out.Acked? || id !in w.users || !w.users[id].active {
      FailsCheck(cfg, w, RefreshToken(token), id, Unauthorized, ios);
    } else {
      OpensAfterDel(cfg, w, RefreshToken(token), id, ByRotation(token), ios);
    }
  }

  /** seconds is the Unix time at which the code is checked. */
  lemma VerifyMfaEnds(cfg: Config, w: World, token: Token, code: string, id: Id, ios: seq<Io>)
    requires Good(cfg, w) && |ios| >= 5 && InForce(w.kv, Key(Mfa, token), id, T0(w, ios)) && ios[0].out.Acked?
    ensures var call, seconds := VerifyMfa(token, code), T1(w, ios) / 1000;
            if !ios[1].out.Acked? || id !in w.users || !w.users[id].active
            then Ends(cfg, w, call, ios, T1(w, ios), w.users, w.kv, Failed(Unauthorized))
            else if !Totp.Accepts(cfg.hmac, w.users[id].mfaSecret, code, seconds)
            then Ends(cfg, w, call, ios, T1(w, ios), w.users, w.kv, Failed(InvalidMfaCode))
            else Rotated(cfg, w, call, id, ios)
  {
    hide Ends, Rotated, Good, InForce, UniqueEmails, UniqueOAuth, Totp.Accepts;
    GoodParts(cfg, w);
    if !ios[1].out.Acked? || id !in w.users || !w.users[id].active {
      FailsCheck(cfg, w, VerifyMfa(token, code), id, Unauthorized, ios);
    } else if !CodeValid(cfg, w.users[id].mfaSecret, code, T1(w, ios)) {
      FailsCheck(cfg, w, VerifyMfa(token, code), id, InvalidMfaCode, ios);
    } else {
      OpensAfterDel(cfg, w, VerifyMfa(token, code), id, ByMfa(code, T1(w, ios)), ios);
    }
  }

  /** A confirmation that passes its checks deletes its token and writes the row; the UPDATE may fail. */
  lemma WritesAfterDel(cfg: Config, w: World, call: Call, id: Id, u: User, why: Why, ios: seq<Io>)
    requires UsesUserToken(call) && !Rejected(call) && |ios| >= 5 && InForce(w.kv, Presents(call), id, T0(w, ios))
    requires ios[0].out.Acked? && ios[1].out.Acked? && id in w.users && UniqueEmails(w.users)
    requires u.id == id && SameIdentity(u, w.users[id]) && u.email == w.users[id].email
    requires var key := Presents(call);
             AfterOwner(cfg, key.kind, key.token, ArgOf(call), Some(w.users[id]), T0(w, ios), T1(w, ios)) ==
             DelToken(key.kind, key.token, u, Write(why), T0(w, ios))
    requires Written(u, why) == Accepted
    ensures Confirms(cfg, w, call, u, ios)
  {
    hide Next, Run, Start, InForce, AfterOwner, Drop, UniqueEmails, TakenByAnother, SameIdentity, Written;
    ReachesDel(cfg, w, call, id, u, Write(why), ios);
    var (w1, p1) := Run(cfg, Begin(w, call), Start(cfg, call), ios, 0);
    var v: World :| v.now == T2(w, ios) && v.users == w.users && v.kv == Drop(w.kv, Presents(call), ios[2].out) &&
      (w1, p1) == Run(cfg, v, UpdateUser(u, why), ios, 3);
    EmailIsOwn(w.users, id, u);
    Updates(cfg, v, u, why, ios[3]);
    Unroll(cfg, v, UpdateUser(u, why), ios, 3);
    var (w2, p2) := Next(cfg, v, UpdateUser(u, why), ios[3]);
    NothingLeft(cfg, w2, p2, ios, 4);
  }

  lemma EmailIsOwn(users: Table, id: Id, u: User)
    requires UniqueEmails(users) && id in users && SameIdentity(u, users[id]) && u.email == users[id].email
    ensures !TakenByAnother(users, id, u.tenant, u.email)
  {
  }

  ghost predicate Confirms(cfg: Config, w: World, call: Call, u: User, ios: seq<Io>)
    requires UsesUserToken(call) && |ios| >= 5
  {
    Ends(cfg, w, call, ios, T3(w, ios), if ios[3].out.Refused? then w.users else w.users[u.id := u],
         Drop(w.kv, Presents(call), ios[2].out), if ios[3].out.Acked? then Accepted else Failed(Internal))
  }

  lemma ConfirmEmailEnds(cfg: Config, w: World, token: Token, id: Id, ios: seq<Io>)
    requires Good(cfg, w) && |ios| >= 5 && InForce(w.kv, Key(EmailVerify, token), id, T0(w, ios)) && ios[0].out.Acked?
    ensures var call := ConfirmEmail(token);
            if !ios[1].out.Acked? || id !in w.users
            then Ends(cfg, w, call, ios, T1(w, ios), w.users, w.kv, Failed(NotFound))
            else Confirms(cfg, w, call, w.users[id].(emailVerified := true, updatedAt := T1(w, ios)), ios)
  {
    hide Ends, Confirms, Good, InForce, UniqueEmails, UniqueOAuth;
    GoodParts(cfg, w);
    if !ios[1].out.Acked? || id !in w.users {
      FailsCheck(cfg, w, ConfirmEmail(token), id, NotFound, ios);
    } else {
      WritesAfterDel(cfg, w, ConfirmEmail(token), id,
                     w.users[id].(emailVerified := true, updatedAt := T1(w, ios)), Verify, ios);
    }
  }

  lemma ConfirmResetEnds(cfg: Config, w: World, token: Token, password: string, id: Id, ios: seq<Io>)
    requires Good(cfg, w) && |ios| >= 5 && InForce(w.kv, Key(PwdReset, token), id, T0(w, ios)) && ios[0].out.Acked?
    requires 8 <= |password| <= 72
    ensures var call := ConfirmReset(token, password);
            if !ios[1].out.Acked? || id !in w.users
            then Ends(cfg, w, call, ios, T1(w, ios), w.users, w.kv, Failed(NotFound))
            else Confirms(cfg, w, call, w.users[id].(password := Bcrypt(password), updatedAt := T1(w, ios)), ios)
  {
    hide Ends, Confirms, Good, InForce, UniqueEmails, UniqueOAuth;
    GoodParts(cfg, w);
    if !ios[1].out.Acked? || id !in w.users {
      FailsCheck(cfg, w, ConfirmReset(token, password), id, NotFound, ios);
    } else {
      WritesAfterDel(cfg, w, ConfirmReset(token, password), id,
                     w.users[id].(password := Bcrypt(password), updatedAt := T1(w, ios)), Reset, ios);
    }
  }

  lemma LogoutEnds(cfg: Config, w: World, token: Token, ios: seq<Io>)
    requires |ios| >= 5
    ensures Ends(cfg, w, Logout(token), ios, T0(w, ios), w.users, Drop(w.kv, Key(Refresh, token), ios[0].out),
                 if ios[0].out.Acked? then Accepted else Failed(Internal))
  {
    hide Next, Run, Drop;
    var b, p := Begin(w, Logout(token)), DelRefresh(token);
    Revokes(cfg, b, token, ios[0]);
    Unroll(cfg, b, p, ios, 0);
    var (w1, p1) := Next(cfg, b, p, ios[0]);
    NothingLeft(cfg, w1, p1, ios, 1);
  }

  // ---------- edits of one row ----------

  lemma NoRowEnds(cfg: Config, w: World, call: Call, ios: seq<Io>)
    requires |ios| >= 5 && (call.SetupMfa? || call.ConfirmMfa? || call.ScimUpdate?)
    requires !ios[0].out.Acked? || call.id !in w.users
    ensures Ends(cfg, w, call, ios, T0(w, ios), w.users, w.kv,
                 Failed(if call.ScimUpdate? && !ios[0].out.Acked? then Internal else NotFound))
  {
    hide Next, Run;
    var b, p := Begin(w, call), Start(cfg, call);
    SelectsById(cfg, b, call.id, p.edit, ios[0]);
    Unroll(cfg, b, p, ios, 0);
    var (w1, p1) := Next(cfg, b, p, ios[0]);
    NothingLeft(cfg, w1, p1, ios, 1);
  }

  lemma EditRuns(cfg: Config, w: World, call: Call, u: User, why: Why, ios: seq<Io>)
    requires |ios| >= 5 && (call.SetupMfa? || call.ConfirmMfa? || call.ScimUpdate?)
    requires ios[0].out.Acked? && call.id in w.users && u.id == call.id && SameIdentity(u, w.users[call.id])
    requires Start(cfg, call).SelectById? && Start(cfg, call).id == call.id
    requires var found := Some(w.users[call.id]);
             AfterRow(cfg, Start(cfg, call).edit, true, found, ios[0].secret, T0(w, ios)) == UpdateUser(u, why)
    ensures var taken := TakenByAnother(w.users, u.id, u.tenant, u.email);
            Ends(cfg, w, call, ios, T1(w, ios),
                 if ios[1].out.Refused? || taken then w.users else w.users[u.id := u], w.kv,
                 if ios[1].out.Acked? && !taken then Written(u, why) else Failed(Internal))
  {
    hide Next, Run, Start, AfterRow, TakenByAnother, Written, SameIdentity;
    var b, p := Begin(w, call), Start(cfg, call);
    SelectsById(cfg, b, call.id, p.edit, ios[0]);
    Unroll(cfg, b, p, ios, 0);
    var (w1, p1) := Next(cfg, b, p, ios[0]);
    Updates(cfg, w1, u, why, ios[1]);
    Unroll(cfg, w1, p1, ios, 1);
    var (w2, p2) := Next(cfg, w1, p1, ios[1]);
    NothingLeft(cfg, w2, p2, ios, 2);
  }

  lemma SetupMfaEnds(cfg: Config, w: World, id: Id, ios: seq<Io>)
    requires Good(cfg, w) && |ios| >= 5 && ios[0].out.Acked? && id in w.users
    ensures var secret, row := ios[0].secret, w.users[id];
            var uri := "otpauth://totp/Enterprise Auth:" + row.email + "?secret=" + secret +
                       "&issuer=Enterprise Auth" + "&algorithm=SHA1&digits=6&period=30";
            Ends(cfg, w, SetupMfa(id), ios, T1(w, ios),
                 if ios[1].out.Refused? then w.users
                 else w.users[id := row.(mfaSecret := secret, updatedAt := T0(w, ios))], w.kv,
                 if ios[1].out.Acked? then Enrolled(secret, uri) else Failed(Internal))
  {
    hide Ends, Good, UniqueEmails, UniqueOAuth, TakenByAnother, Totp.ProvisioningUri;
    GoodParts(cfg, w);
    var u := w.users[id].(mfaSecret := ios[0].secret, updatedAt := T0(w, ios));
    EmailIsOwn(w.users, id, u);
    EditRuns(cfg, w, SetupMfa(id), u, Enrol, ios);
    UriIs(u.email, u.mfaSecret);
  }

  lemma UriIs(email: string, secret: string)
    ensures Totp.ProvisioningUri(email, secret) ==
            "otpauth://totp/Enterprise Auth:" + email + "?secret=" + secret +
            "&issuer=Enterprise Auth" + "&algorithm=SHA1&digits=6&period=30"
  {
    assert "otpauth://totp/" + Totp.ISSUER + ":" == "otpauth://totp/Enterprise Auth:";
    var head := "otpauth://totp/" + Totp.ISSUER + ":" + email + "?secret=" + secret;
    assert head + "&issuer=" + Totp.ISSUER == head + ("&issuer=" + Totp.ISSUER);
    assert "&issuer=" + Totp.ISSUER == "&issuer=Enterprise Auth";
  }

  lemma ConfirmMfaEnds(cfg: Config, w: World, id: Id, code: string, ios: seq<Io>)
    requires Good(cfg, w) && |ios| >= 5 && ios[0].out.Acked? && id in w.users
    ensures var call, row := ConfirmMfa(id, code), w.users[id];
            if !Totp.Accepts(cfg.hmac, row.mfaSecret, code, T0(w, ios) / 1000)
            then Ends(cfg, w, call, ios, T0(w, ios), w.users, w.kv, Failed(InvalidMfaCode))
            else Ends(cfg, w, call, ios, T1(w, ios),
                      if ios[1].out.Refused? then w.users
                      else w.users[id := row.(mfaEnabled := true, updatedAt := T0(w, ios))], w.kv,
                      if ios[1].out.Acked? then Accepted else Failed(Internal))
  {
    hide Good, UniqueEmails, UniqueOAuth, TakenByAnother, Totp.Accepts, Next, Run;
    GoodParts(cfg, w);
    var call, u := ConfirmMfa(id, code), w.users[id].(mfaEnabled := true, updatedAt := T0(w, ios));
    if CodeValid(cfg, u.mfaSecret, code, T0(w, ios)) {
      EmailIsOwn(w.users, id, u);
      EditRuns(cfg, w, call, u, Activate, ios);
    } else {
      var b, p := Begin(w, call), SelectById(id, Enable(code));
      SelectsById(cfg, b, id, Enable(code), ios[0]);
      Unroll(cfg, b, p, ios, 0);
      var (w1, p1) := Next(cfg, b, p, ios[0]);
      NothingLeft(cfg, w1, p1, ios, 1);
    }
  }

  // ---------- SCIM ----------

  lemma ScimUpdateEnds(cfg: Config, w: World, id: Id, emails: seq<string>, active: bool, externalId: string,
          ios: seq<Io>)
    requires Good(cfg, w) && |ios| >= 5 && ios[0].out.Acked? && id in w.users
    ensures var row := w.users[id];
            var email := if |emails| > 0 && emails[0] != "" then emails[0] else row.email;
            var u := row.(email := email, active := active, externalId := externalId, updatedAt := T0(w, ios));
            var taken := TakenByAnother(w.users, id, row.tenant, email);
            Ends(cfg, w, ScimUpdate(id, emails, active, externalId), ios, T1(w, ios),
                 if ios[1].out.Refused? || taken then w.users else w.users[id := u], w.kv,
                 if ios[1].out.Acked? && !taken
                 then Resource(ScimUser(id, externalId, email, active, email, row.createdAt, T0(w, ios)))
                 else Failed(Internal))
  {
    hide Ends, Good, UniqueEmails, UniqueOAuth, TakenByAnother;
    GoodParts(cfg, w);
    var row := w.users[id];
    var email := if |emails| > 0 && emails[0] != "" then emails[0] else row.email;
    var u := row.(email := email, active := active, externalId := externalId, updatedAt := T0(w, ios));
    EditRuns(cfg, w, ScimUpdate(id, emails, active, externalId), u, Provision, ios);
  }

  lemma ScimCreateEnds(cfg: Config, w: World, tenant: Tenant, userName: string, emails: seq<string>, active: bool,
          externalId: string, ios: seq<Io>)
    requires |ios| >= 5 && ios[0].id !in w.users
    ensures var call, id, t0 := ScimCreate(tenant, userName, emails, active, externalId), ios[0].id, T0(w, ios);
            var email := if |emails| > 0 && emails[0] != "" then emails[0] else userName;
            var row := User(id, tenant, email, OfRandomBytes, Member, active, false, "", true,
                            "", "", externalId, t0, t0);
            var taken := Taken(w.users, tenant, email);
            Ends(cfg, w, call, ios, t0, if ios[0].out.Refused? || taken then w.users else w.users[id := row], w.kv,
                 if !ios[0].out.Acked? then Failed(Internal)
                 else if taken then Failed(Conflict)
                 else Resource(ScimUser(id, externalId, email, active, email, t0, t0)))
  {
    hide Next, Run, Taken;
    var call := ScimCreate(tenant, userName, emails, active, externalId);
    var b, p := Begin(w, call), Start(cfg, call);
    Inserts(cfg, b, p.row, p.after, ios[0]);
    Unroll(cfg, b, p, ios, 0);
    var (w1, p1) := Next(cfg, b, p, ios[0]);
    NothingLeft(cfg, w1, p1, ios, 1);
  }

  lemma ScimDeleteEnds(cfg: Config, w: World, id: Id, ios: seq<Io>)
    requires |ios| >= 5
    ensures Ends(cfg, w, ScimDelete(id), ios, T0(w, ios), if ios[0].out.Refused? then w.users else w.users - {id}, w.kv,
                 if ios[0].out.Acked? then Accepted else Failed(Internal))
  {
    hide Next, Run;
    var b, p := Begin(w, ScimDelete(id)), DeleteRow(id);
    DeletesRow(cfg, b, id, ios[0]);
    Unroll(cfg, b, p, ios, 0);
    var (w1, p1) := Next(cfg, b, p, ios[0]);
    NothingLeft(cfg, w1, p1, ios, 1);
  }

  // ---------- OAuth ----------

  lemma OAuthUrlEnds(cfg: Config, w: World, provider: string, ios: seq<Io>)
    requires |ios| >= 5
    ensures var call, t0, state := OAuthUrl(provider), T0(w, ios), ios[0].token;
            if provider != "google" && provider != "github"
            then Ends(cfg, w, call, ios, w.now, w.users, w.kv, Failed(UnsupportedProvider))
            else Ends(cfg, w, call, ios, t0, w.users,
                      Put(w.kv, Key(OAuthState, state), OfProvider(provider), t0 + 600_000, ios[0].out),
                      if ios[0].out.Acked? then StateIssued(cfg.authUrl(provider, state), state) else Failed(Internal))
  {
    hide Next, Run, Put;
    var b, p := Begin(w, OAuthUrl(provider)), Start(cfg, OAuthUrl(provider));
    if p.Done? {
      NothingLeft(cfg, b, p, ios, 0);
    } else {
      SetsState(cfg, b, provider, ios[0]);
      Unroll(cfg, b, p, ios, 0);
      var (w1, p1) := Next(cfg, b, p, ios[0]);
      NothingLeft(cfg, w1, p1, ios, 1);
    }
  }

  /** The state can be read when the callback arrives, and was stored for its provider. */
  ghost predicate StateFits(kv: Store, state: Token, provider: string, time: Time) {
    var key := Key(OAuthState, state);
    key in kv && time < kv[key].expiry && kv[key].value == OfProvider(provider)
  }

  lemma BadStateEnds(cfg: Config, w: World, tenant: Tenant, provider: string, state: Token, info: Option<Info>,
          ios: seq<Io>)
    requires |ios| >= 5 && (!ios[0].out.Acked? || !StateFits(w.kv, state, provider, T0(w, ios)))
    ensures Ends(cfg, w, OAuthCallback(tenant, provider, state, info), ios, T0(w, ios), w.users, w.kv,
                 Failed(InvalidState))
  {
    hide Next, Run;
    var b, p := Begin(w, OAuthCallback(tenant, provider, state, info)), GetState(tenant, provider, state, info);
    GetsState(cfg, b, tenant, provider, state, info, ios[0]);
    Unroll(cfg, b, p, ios, 0);
    var (w1, p1) := Next(cfg, b, p, ios[0]);
    NothingLeft(cfg, w1, p1, ios, 1);
  }

  /** Past the state check: what is left to run, and the world it runs in. */
  lemma PassesState(cfg: Config, w: World, tenant: Tenant, provider: string, state: Token, info: Option<Info>,
          ios: seq<Io>)
    returns (v: World, p: Proc)
    requires |ios| >= 5 && ios[0].out.Acked? && StateFits(w.kv, state, provider, T0(w, ios))
    ensures v.now == T1(w, ios) && v.users == w.users && v.kv == Drop(w.kv, Key(OAuthState, state), ios[1].out)
    ensures p == if provider != "google" && provider != "github" then Done(Failed(UnsupportedProvider))
                 else if info.None? then Done(Failed(OAuthExchange))
                 else SelectOAuth(tenant, provider, info.value)
    ensures Do(cfg, w, Step(OAuthCallback(tenant, provider, state, info), ios)) == Run(cfg, v, p, ios, 2)
  {
    hide Next, Run, Drop;
    var b, q := Begin(w, OAuthCallback(tenant, provider, state, info)), GetState(tenant, provider, state, info);
    GetsState(cfg, b, tenant, provider, state, info, ios[0]);
    Unroll(cfg, b, q, ios, 0);
    var (w1, p1) := Next(cfg, b, q, ios[0]);
    DeletesState(cfg, w1, tenant, provider, state, info, T0(w, ios), ios[1]);
    Unroll(cfg, w1, p1, ios, 1);
    var (w2, p2) := Next(cfg, w1, p1, ios[1]);
    v, p := w2, p2;
  }

  lemma NoExchangeEnds(cfg: Config, w: World, tenant: Tenant, provider: string, state: Token, info: Option<Info>,
          ios: seq<Io>)
    requires |ios| >= 5 && ios[0].out.Acked? && StateFits(w.kv, state, provider, T0(w, ios))
    requires (provider != "google" && provider != "github") || info.None?
    ensures Ends(cfg, w, OAuthCallback(tenant, provider, state, info), ios, T1(w, ios), w.users,
                 Drop(w.kv, Key(OAuthState, state), ios[1].out),
                 Failed(if provider != "google" && provider != "github" then UnsupportedProvider else OAuthExchange))
  {
    hide Next, Run, Drop, StateFits;
    var v, p := PassesState(cfg, w, tenant, provider, state, info, ios);
    NothingLeft(cfg, v, p, ios, 2);
  }

  lemma KnownCallbackEnds(cfg: Config, w: World, tenant: Tenant, provider: string, state: Token, info: Info, id: Id,
          ios: seq<Io>)
    requires Good(cfg, w) && |ios| >= 5 && ios[0].out.Acked? && StateFits(w.kv, state, provider, T0(w, ios))
    requires (provider == "google" || provider == "github") && id in w.users
    requires w.users[id].tenant == tenant && w.users[id].provider == provider && w.users[id].subject == info.subject
    ensures var call, u := OAuthCallback(tenant, provider, state, Some(info)), w.users[id];
            var t2, t3 := T2(w, ios), T3(w, ios);
            var kv := Drop(w.kv, Key(OAuthState, state), ios[1].out);
            if !ios[2].out.Acked? then Ends(cfg, w, call, ios, t2, w.users, kv, Failed(Internal))
            else Ends(cfg, w, call, ios, t3, w.users,
                      Put(kv, Key(Refresh, ios[3].token), OfUser(id), t3 + cfg.refreshTtl, ios[3].out),
                      if ios[3].out.Acked? then Session(id, u.email, u.role, cfg.accessTtl, ios[3].token)
                      else Failed(Internal))
  {
    hide Next, Run, Drop, Put, StateFits, Good, UniqueEmails, UniqueOAuth;
    GoodParts(cfg, w);
    var v, p := PassesState(cfg, w, tenant, provider, state, Some(info), ios);
    SelectsOAuth(cfg, v, tenant, provider, info, ios[2], id);
    Unroll(cfg, v, p, ios, 2);
    var (w1, p1) := Next(cfg, v, p, ios[2]);
    if p1.Done? {
      NothingLeft(cfg, w1, p1, ios, 3);
    } else {
      SetsRefresh(cfg, w1, w.users[id], ByProvider, ios[3]);
      Unroll(cfg, w1, p1, ios, 3);
      var (w2, p2) := Next(cfg, w1, p1, ios[3]);
      NothingLeft(cfg, w2, p2, ios, 4);
    }
  }

  /** A new identity gets a new row, unless its email is taken: an account with the same email is not linked. */
  lemma NewCallbackEnds(cfg: Config, w: World, tenant: Tenant, provider: string, state: Token, info: Info, ios: seq<Io>)
    requires |ios| >= 5 && ios[0].out.Acked? && ios[2].out.Acked? && StateFits(w.kv, state, provider, T0(w, ios))
    requires (provider == "google" || provider == "github") && !Known(w.users, tenant, provider, info.subject)
    requires ios[3].id !in w.users
    ensures var call, id := OAuthCallback(tenant, provider, state, Some(info)), ios[3].id;
            var t3, t4 := T3(w, ios), T4(w, ios);
            var kv, taken := Drop(w.kv, Key(OAuthState, state), ios[1].out), Taken(w.users, tenant, info.email);
            var row := User(id, tenant, info.email, OfRandomBytes, Member, true, false, "", true,
                            provider, info.subject, "", t3, t3);
            var users := if ios[3].out.Refused? || taken then w.users else w.users[id := row];
            if !ios[3].out.Acked? then Ends(cfg, w, call, ios, t3, users, kv, Failed(Internal))
            else if taken then Ends(cfg, w, call, ios, t3, w.users, kv, Failed(Conflict))
            else Ends(cfg, w, call, ios, t4, users,
                      Put(kv, Key(Refresh, ios[4].token), OfUser(id), t4 + cfg.refreshTtl, ios[4].out),
                      if ios[4].out.Acked? then Session(id, info.email, Member, cfg.accessTtl, ios[4].token)
                      else Failed(Internal))
  {
    hide Next, Run, Drop, Put, StateFits, Taken, Known;
    var v, p := PassesState(cfg, w, tenant, provider, state, Some(info), ios);
    SelectsNoOAuth(cfg, v, tenant, provider, info, ios[2]);
    Unroll(cfg, v, p, ios, 2);
    var (w1, p1) := Next(cfg, v, p, ios[2]);
    Inserts(cfg, w1, p1.row, p1.after, ios[3]);
    Unroll(cfg, w1, p1, ios, 3);
    var (w2, p2) := Next(cfg, w1, p1, ios[3]);
    if p2.Done? {
      NothingLeft(cfg, w2, p2, ios, 4);
    } else {
      SetsRefresh(cfg, w2, p2.user, ByProvider, ios[4]);
      Unroll(cfg, w2, p2, ios, 4);
      var (w3, p3) := Next(cfg, w2, p2, ios[4]);
      NothingLeft(cfg, w3, p3, ios, 5);
    }
  }

  lemma UnreadIdentityEnds(cfg: Config, w: World, tenant: Tenant, provider: string, state: Token, info: Info,
          ios: seq<Io>)
    requires |ios| >= 5 && ios[0].out.Acked? && !ios[2].out.Acked? && StateFits(w.kv, state, provider, T0(w, ios))
    requires (provider == "google" || provider == "github") && !Known(w.users, tenant, provider, info.subject)
    ensures Ends(cfg, w, OAuthCallback(tenant, provider, state, Some(info)), ios, T2(w, ios), w.users,
                 Drop(w.kv, Key(OAuthState, state), ios[1].out), Failed(Internal))
  {
    hide Next, Run, Drop, StateFits, Known;
    var v, p := PassesState(cfg, w, tenant, provider, state, Some(info), ios);
    SelectsNoOAuth(cfg, v, tenant, provider, info, ios[2]);
    Unroll(cfg, v, p, ios, 2);
    var (w1, p1) := Next(cfg, v, p, ios[2]);
    NothingLeft(cfg, w1, p1, ios, 3);
  }
}
