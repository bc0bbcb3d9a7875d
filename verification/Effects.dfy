/** What single calls that succeed have done, start to end, when no other call runs meanwhile. */
module Effects {
  import opened Domain
  import opened Keyspace
  import opened Users
  import opened Machine
  import RateLimiting
  import opened Invariants
  import opened Runs
  import opened Calls
  import opened Sequential
  import Totp

  // ---------- rotation ----------

  /** What a refresh has done to the keyspace and the lineages by the time it is at p. */
  ghost predicate Rotating(cfg: Config, w0: World, t: Token, w: World, p: Proc) {
    var key := Key(Refresh, t);
    if p.SetRefresh? then p.via == ByRotation(t) && key in w0.kv && w.kv == w0.kv - {key} && w.root == w0.root
    else if p.Done? && p.reply.Session? then
      var t1 := p.reply.refresh;
      && key in w0.kv && t1 !in w0.seen
      && w.kv == (w0.kv - {key})[Key(Refresh, t1) := Entry(OfUser(p.reply.id), w.now + cfg.refreshTtl)]
      && w.root == w0.root[t1 := RootOf(w0.root, ByRotation(t), t1)]
    else (p.Done? && p.reply.Failed?) || (w.kv == w0.kv && w.root == w0.root)
  }

  lemma RotatingOnTable(cfg: Config, w0: World, t: Token, w: World, p: Proc, io: Io)
    requires OnTable(p) && Tracks(cfg, RefreshToken(t), p) && Fits(cfg, w, p) && Fair(w, p, io)
    requires Rotating(cfg, w0, t, w, p) && w0.seen <= w.seen
    ensures var (w1, p1) := Next(cfg, w, p, io); Rotating(cfg, w0, t, w1, p1) && w0.seen <= w1.seen
  {
    hide CodeValid, Stored, ViaFits, LineageEnded, IssuedBefore, StepInsert, StepUpdate, AfterLogin, AfterRow,
         StepGetState, StepDelState, StepSelectOAuth, RateLimiting.Throttled, TokenCommand;
  }

  lemma RotatingOnTokens(cfg: Config, w0: World, t: Token, w: World, p: Proc, io: Io)
    requires !p.Done? && !OnTable(p) && Tracks(cfg, RefreshToken(t), p) && Fits(cfg, w, p) && Fair(w, p, io)
    requires Rotating(cfg, w0, t, w, p) && w0.seen <= w.seen
    ensures var (w1, p1) := Next(cfg, w, p, io); Rotating(cfg, w0, t, w1, p1) && w0.seen <= w1.seen
  {
    hide CodeValid, Stored, ViaFits, LineageEnded, IssuedBefore, StepInsert, StepUpdate, AfterLogin, AfterRow,
         StepGetState, StepDelState, StepSelectOAuth, RateLimiting.Throttled, RowCommand;
  }

  lemma RotatingStep(cfg: Config, w0: World, t: Token, w: World, p: Proc, io: Io)
    requires !p.Done? && Tracks(cfg, RefreshToken(t), p) && Fits(cfg, w, p) && Fair(w, p, io)
    requires Rotating(cfg, w0, t, w, p) && w0.seen <= w.seen
    ensures var (w1, p1) := Next(cfg, w, p, io); Rotating(cfg, w0, t, w1, p1) && w0.seen <= w1.seen
  {
    hide Next, Rotating, Tracks, Fits, Fair, OnTable;
    if OnTable(p) {
      RotatingOnTable(cfg, w0, t, w, p, io);
    } else {
      RotatingOnTokens(cfg, w0, t, w, p, io);
    }
  }

  lemma {:induction false} RotatingRun(cfg: Config, w0: World, t: Token, w: World, p: Proc, ios: seq<Io>, k: nat)
    requires k <= |ios| && Good(cfg, w) && Fits(cfg, w, p) && FairRun(cfg, w, p, ios, k)
    requires Tracks(cfg, RefreshToken(t), p) && Rotating(cfg, w0, t, w, p) && w0.seen <= w.seen
    ensures var (w1, p1) := Run(cfg, w, p, ios, k); Rotating(cfg, w0, t, w1, p1)
    decreases |ios| - k
  {
    hide Next, Good, Fits, Fair, Tracks, Rotating;
    if !p.Done? && k < |ios| {
      var (w1, p1) := Next(cfg, w, p, ios[k]);
      RotatingStep(cfg, w0, t, w, p, ios[k]);
      GoodStep(cfg, w, p, ios[k]);
      CallSteps(cfg, w, RefreshToken(t), p, ios[k]);
      StillTracks(cfg, w, RefreshToken(t), p, ios[k]);
      RotatingRun(cfg, w0, t, w1, p1, ios, k + 1);
    }
  }

  lemma StillTracks(cfg: Config, w: World, call: Call, p: Proc, io: Io)
    requires !p.Done? && StepsWell(cfg, w, call, p, io)
    ensures Tracks(cfg, call, Next(cfg, w, p, io).1)
  {
    hide Next, Tracks;
  }

  /** The lineages with a refresh token that is in force at a given time. */
  ghost function LiveLineages(w: World, time: Time): set<Token> {
    set t | t in w.root && Live(w.kv, time, Key(Refresh, t)) :: w.root[t]
  }

  /** At every point of every run, a lineage has at most one refresh token in force. */
  lemma OneRefreshPerLineage(cfg: Config, w0: World, steps: seq<Step>, n: nat, s: Token, t: Token)
    requires FairFrom(cfg, w0, steps, n, n)
    requires var b := WorldAfter(cfg, w0, steps, n);
             && Live(b.kv, b.now, Key(Refresh, s)) && Live(b.kv, b.now, Key(Refresh, t))
             && s in b.root && t in b.root && b.root[s] == b.root[t]
    ensures s == t
  {
    RunsKeep(cfg, w0, steps, n, n);
    var b := WorldAfter(cfg, w0, steps, n);
    assert LineageGood(b);
    assert HasRefresh(b, s) && HasRefresh(b, t);
  }

  /** A refresh that succeeds revokes its token, puts a new one of the same lineage in force, and so
      conserves the lineages in force: at the end they are those of the tokens stored before,
      with the refreshed lineage among them. */
  lemma RotationConservesLineages(cfg: Config, w: World, t: Token, ios: seq<Io>)
    requires Good(cfg, w) && FairStep(cfg, w, Step(RefreshToken(t), ios))
    ensures var (w1, p1) := Do(cfg, w, Step(RefreshToken(t), ios));
            p1.Done? && p1.reply.Session? ==>
              var t1 := p1.reply.refresh;
              && t in w.root && t1 in w1.root && w1.root[t1] == w.root[t]
              && Key(Refresh, t) !in w1.kv && Live(w1.kv, w1.now, Key(Refresh, t1))
              && LiveLineages(w1, w1.now) == LiveLineages(w, w1.now) + {w.root[t]}
              && (Live(w.kv, w1.now, Key(Refresh, t)) ==> |LiveLineages(w1, w1.now)| == |LiveLineages(w, w1.now)|)
              && (forall key :: key != Key(Refresh, t) && key != Key(Refresh, t1) ==>
                    (key in w1.kv <==> key in w.kv) && (key in w.kv ==> w1.kv[key] == w.kv[key]))
  {
    hide Run, FairRun, Start, Next, Good, Fits, LiveLineages, Do, FairStep, LineageGood, Rotating, RootOf;
    GoodLineage(cfg, w);
    RefreshRotates(cfg, w, t, ios);
    var (w1, p1) := Do(cfg, w, Step(RefreshToken(t), ios));
    if p1.Done? && p1.reply.Session? {
      RotationLineages(cfg, w, Begin(w, RefreshToken(t)), t, w1, p1);
    }
  }

  lemma RefreshRotates(cfg: Config, w: World, t: Token, ios: seq<Io>)
    requires Good(cfg, w) && FairStep(cfg, w, Step(RefreshToken(t), ios))
    ensures var (w1, p1) := Do(cfg, w, Step(RefreshToken(t), ios)); Rotating(cfg, Begin(w, RefreshToken(t)), t, w1, p1)
  {
    hide Run, FairRun, Next, Good, Fits;
    var b, p := Begin(w, RefreshToken(t)), Start(cfg, RefreshToken(t));
    GoodBegin(cfg, w, RefreshToken(t));
    TracksStart(cfg, RefreshToken(t));
    RotatingRun(cfg, b, t, b, p, ios, 0);
  }

  lemma GoodLineage(cfg: Config, w: World)
    requires Good(cfg, w)
    ensures LineageGood(w)
  {
  }

  lemma RotationLineages(cfg: Config, w: World, b: World, t: Token, w1: World, p1: Proc)
    requires LineageGood(w) && b.kv == w.kv && b.root == w.root && w.seen <= b.seen
    requires p1.Done? && p1.reply.Session? && Rotating(cfg, b, t, w1, p1)
    ensures var t1 := p1.reply.refresh;
            && t in w.root && t1 in w1.root && w1.root[t1] == w.root[t] && t1 != t
            && Key(Refresh, t) !in w1.kv && Live(w1.kv, w1.now, Key(Refresh, t1))
            && LiveLineages(w1, w1.now) == LiveLineages(w, w1.now) + {w.root[t]}
            && (Live(w.kv, w1.now, Key(Refresh, t)) ==> LiveLineages(w1, w1.now) == LiveLineages(w, w1.now))
            && (forall key :: key != Key(Refresh, t) && key != Key(Refresh, t1) ==>
                  (key in w1.kv <==> key in w.kv) && (key in w.kv ==> w1.kv[key] == w.kv[key]))
  {
    var t1 := p1.reply.refresh;
    assert HasRefresh(w, t);
    var after, before := LiveLineages(w1, w1.now), LiveLineages(w, w1.now);
    forall r | r in after ensures r in before + {w.root[t]} {
      var s :| s in w1.root && Live(w1.kv, w1.now, Key(Refresh, s)) && w1.root[s] == r;
      assert s != t1 ==> Live(w.kv, w1.now, Key(Refresh, s));
    }
    forall r | r in before ensures r in after {
      var s :| s in w.root && Live(w.kv, w1.now, Key(Refresh, s)) && w.root[s] == r;
      assert s != t ==> Live(w1.kv, w1.now, Key(Refresh, s));
      assert s == t ==> w1.root[t1] == r;
    }
    assert w.root[t] in after;
  }

  // ---------- confirmations and logins ----------

  /** What a confirmation is for. */
  predicate Confirmed(call: Call, u: User) {
    match call
    case ConfirmReset(_, password) => u.password == Bcrypt(password)
    case ConfirmEmail(_) => u.emailVerified
    case _ => true
  }

  predicate IsConfirmation(call: Call) {
    call.ConfirmReset? || call.ConfirmEmail?
  }

  /** What a confirmation has found and done by the time it is at p. */
  ghost predicate Confirming(w0: World, call: Call, w: World, p: Proc)
    requires IsConfirmation(call)
  {
    var key := Target(call).value;
    match p
    case GetOwner(_, _, _) => w.kv == w0.kv
    case SelectOwner(_, _, _, id, _) => key in w0.kv && w0.kv[key].value == OfUser(id)
    case DelToken(_, _, user, _, _) => key in w0.kv && w0.kv[key].value == OfUser(user.id) && Confirmed(call, user)
    case UpdateUser(user, _) => key in w0.kv && w0.kv[key].value == OfUser(user.id) && Confirmed(call, user)
    case Done(Accepted) =>
      && key in w0.kv && w0.kv[key].value.OfUser? && w0.kv[key].value.id in w.users
      && Confirmed(call, w.users[w0.kv[key].value.id])
    case _ => true
  }

  lemma ConfirmingUpdate(cfg: Config, w0: World, call: Call, w: World, p: Proc, io: Io)
    requires p.UpdateUser? && IsConfirmation(call) && Fits(cfg, w, p) && Confirming(w0, call, w, p)
    ensures var (w1, p1) := Next(cfg, w, p, io); Confirming(w0, call, w1, p1)
  {
    hide CodeValid, ByEmail, RateLimiting.Throttled, TokenCommand;
  }

  lemma ConfirmingOwner(cfg: Config, w0: World, call: Call, w: World, p: Proc, io: Io)
    requires p.SelectOwner? && IsConfirmation(call) && Tracks(cfg, call, p) && Keyed(w.users)
    requires Confirming(w0, call, w, p)
    ensures var (w1, p1) := Next(cfg, w, p, io); Confirming(w0, call, w1, p1)
  {
    hide CodeValid, TokenCommand;
  }

  lemma ConfirmingAt(cfg: Config, call: Call, p: Proc)
    requires IsConfirmation(call) && Tracks(cfg, call, p) && OnTable(p)
    ensures p.SelectOwner? || p.UpdateUser?
  {
  }

  lemma ConfirmingOnTokens(cfg: Config, w0: World, call: Call, w: World, p: Proc, io: Io)
    requires !p.Done? && !OnTable(p) && IsConfirmation(call) && Tracks(cfg, call, p) && KeysGood(w) && TableGood(w)
    requires Confirming(w0, call, w, p)
    ensures var (w1, p1) := Next(cfg, w, p, io); Confirming(w0, call, w1, p1)
  {
    hide CodeValid, UniqueEmails, UniqueOAuth, StepInsert, StepUpdate, AfterLogin, AfterRow, StepGetState,
         StepDelState, StepSelectOAuth, OpenSession, RateLimiting.Throttled, RowCommand;
  }

  lemma GoodTable(w: World)
    requires TableGood(w)
    ensures Keyed(w.users)
  {
  }

  lemma ConfirmingElse(cfg: Config, w0: World, call: Call, w: World, p: Proc, io: Io)
    requires !p.Done? && !p.UpdateUser? && IsConfirmation(call) && Tracks(cfg, call, p) && KeysGood(w) && TableGood(w)
    requires Confirming(w0, call, w, p)
    ensures var (w1, p1) := Next(cfg, w, p, io); Confirming(w0, call, w1, p1)
  {
    hide Next, Confirming, Tracks, KeysGood, TableGood, OnTable;
    if OnTable(p) {
      ConfirmingAt(cfg, call, p);
      GoodTable(w);
      ConfirmingOwner(cfg, w0, call, w, p, io);
    } else {
      ConfirmingOnTokens(cfg, w0, call, w, p, io);
    }
  }

  lemma ConfirmingStep(cfg: Config, w0: World, call: Call, w: World, p: Proc, io: Io)
    requires !p.Done? && IsConfirmation(call) && Tracks(cfg, call, p) && KeysGood(w) && TableGood(w) && Fits(cfg, w, p)
    requires Confirming(w0, call, w, p)
    ensures var (w1, p1) := Next(cfg, w, p, io); Confirming(w0, call, w1, p1)
  {
    hide Next, Tracks, KeysGood, TableGood, Fits, Confirming;
    if p.UpdateUser? {
      ConfirmingUpdate(cfg, w0, call, w, p, io);
    } else {
      ConfirmingElse(cfg, w0, call, w, p, io);
    }
  }

  lemma {:induction false} ConfirmingRun(cfg: Config, w0: World, call: Call, w: World, p: Proc, ios: seq<Io>, k: nat)
    requires k <= |ios| && IsConfirmation(call) && Good(cfg, w) && Fits(cfg, w, p) && FairRun(cfg, w, p, ios, k)
    requires Tracks(cfg, call, p) && Confirming(w0, call, w, p)
    ensures var (w1, p1) := Run(cfg, w, p, ios, k); Confirming(w0, call, w1, p1)
    decreases |ios| - k
  {
    GoodKeys(cfg, w);
    hide Next, Good, Fits, Fair, Tracks, Confirming;
    if !p.Done? && k < |ios| {
      var (w1, p1) := Next(cfg, w, p, ios[k]);
      ConfirmingStep(cfg, w0, call, w, p, ios[k]);
      GoodStep(cfg, w, p, ios[k]);
      CallSteps(cfg, w, call, p, ios[k]);
      StillTracks(cfg, w, call, p, ios[k]);
      ConfirmingRun(cfg, w0, call, w1, p1, ios, k + 1);
    }
  }

  lemma GoodKeys(cfg: Config, w: World)
    requires Good(cfg, w)
    ensures KeysGood(w) && TableGood(w)
  {
  }

  /** The user whose token it is, as stored. */
  ghost predicate Owns(w: World, key: Key, id: Id) {
    key in w.kv && w.kv[key].value == OfUser(id)
  }

  /** A confirmation that succeeds sets the password, or the verified flag, of its token's owner. */
  lemma ConfirmationTakesEffect(cfg: Config, w: World, call: Call, ios: seq<Io>)
    requires IsConfirmation(call) && Good(cfg, w) && FairStep(cfg, w, Step(call, ios))
    ensures var (w1, p1) := Do(cfg, w, Step(call, ios));
            p1 == Done(Accepted) ==>
              exists id :: Owns(w, Target(call).value, id) && id in w1.users && Confirmed(call, w1.users[id])
  {
    hide Run, FairRun, Start, Next, Good, Fits, Confirming;
    var b := Begin(w, call);
    GoodBegin(cfg, w, call);
    TracksStart(cfg, call);
    ConfirmingStarts(cfg, b, call);
    ConfirmingRun(cfg, b, call, b, Start(cfg, call), ios, 0);
    var (w1, p1) := Do(cfg, w, Step(call, ios));
    if p1 == Done(Accepted) {
      ConfirmingEnds(b, call, w1);
      assert Owns(w, Target(call).value, w.kv[Target(call).value].value.id);
    }
  }

  lemma ConfirmingStarts(cfg: Config, w: World, call: Call)
    requires IsConfirmation(call)
    ensures Confirming(w, call, w, Start(cfg, call))
  {
  }

  lemma ConfirmingEnds(w0: World, call: Call, w: World)
    requires IsConfirmation(call) && Confirming(w0, call, w, Done(Accepted))
    ensures Target(call).value in w0.kv && w0.kv[Target(call).value].value.OfUser?
    ensures var id := w0.kv[Target(call).value].value.id; id in w.users && Confirmed(call, w.users[id])
  {
  }

  lemma LoginLooksUp(cfg: Config, w: World, id: Id, password: string, io: Io)
    requires UniqueEmails(w.users) && id in w.users && io.out.Acked?
    ensures var u := w.users[id];
            Next(cfg, w, SelectLogin(u.tenant, u.email, password), io) ==
            (w.(now := w.now + io.wait), AfterLogin(Some(u), password))
  {
    hide TokenCommand, UniqueEmails, ByEmail;
    PickByEmail(w.users, id);
  }

  lemma ChallengeNeverOpens(cfg: Config, w: World, id: Id, io: Io)
    ensures var (w1, p1) := Next(cfg, w, SetToken(Mfa, id), io);
            p1 == Done(MfaRequired(io.token))
    ensures io.out.Acked? ==> var (w1, p1) := Next(cfg, w, SetToken(Mfa, id), io);
              w1.users == w.users && w1.now == w.now + io.wait && Key(Mfa, io.token) in w1.kv &&
              w1.kv[Key(Mfa, io.token)] == Entry(OfUser(id), w1.now + Ttl(cfg, Mfa))
  {
    hide RowCommand;
  }

  /** Given an answer from the database, a login of an active user is refused if and only if the
      password does not match; with MFA on it never opens a session. */
  lemma LoginTestsPassword(cfg: Config, w: World, id: Id, email: string, password: string, ios: seq<Io>)
    requires TableGood(w) && id in w.users && w.users[id].active && cfg.clean(email) == Some(w.users[id].email)
    requires |ios| > 0 && ios[0].out.Acked?
    ensures var p1 := Do(cfg, w, Step(Login(w.users[id].tenant, email, password), ios)).1;
            && (p1 == Done(Failed(Unauthorized)) <==> !w.users[id].password.Matches(password))
            && (w.users[id].mfaEnabled ==> !(p1.Done? && p1.reply.Session?))
  {
    hide Next, UniqueEmails, UniqueOAuth, Consistent;
    var u := w.users[id];
    var b, p := Begin(w, Login(u.tenant, email, password)), SelectLogin(u.tenant, u.email, password);
    assert UniqueEmails(w.users) && Keyed(w.users) by { ConsistentParts(w.users, w.born); }
    LoginLooksUp(cfg, b, id, password, ios[0]);
    var (w1, p1) := Next(cfg, b, p, ios[0]);
    assert Run(cfg, b, p, ios, 0) == Run(cfg, w1, p1, ios, 1);
    if u.password.Matches(password) {
      FailedChecksChangeNothing(cfg, w1, p1, ios, 1);
      if u.mfaEnabled && |ios| > 1 {
        ChallengeNeverOpens(cfg, w1, id, ios[1]);
        var (w2, p2) := Next(cfg, w1, p1, ios[1]);
        assert Run(cfg, w1, p1, ios, 1) == Run(cfg, w2, p2, ios, 2) == (w2, p2);
      }
    }
  }

  lemma ConsistentParts(users: Table, born: map<Id, User>)
    requires Consistent(users, born)
    ensures UniqueEmails(users) && Keyed(users)
  {
  }

  /** After a reset to a password that succeeds as call m, through any later calls in which the owner is
      not reset again nor deleted, login accepts exactly that password. */
  lemma PasswordFrame(cfg: Config, w0: World, steps: seq<Step>, m: nat, n: nat, t: Token, password: string)
    returns (id: Id)
    requires FairFrom(cfg, w0, steps, m, n) && m > 0
    requires steps[m - 1].call == ConfirmReset(t, password)
    requires Do(cfg, WorldAfter(cfg, w0, steps, m - 1), steps[m - 1]).1 == Done(Accepted)
    ensures Owns(WorldAfter(cfg, w0, steps, m - 1), Key(PwdReset, t), id)
    ensures var a, b := WorldAfter(cfg, w0, steps, m), WorldAfter(cfg, w0, steps, n);
            !Happened(b.log, |a.log|, Wrote(id, Reset)) && !Happened(b.log, |a.log|, Removed(id)) ==>
              id in b.users && forall attempt :: b.users[id].password.Matches(attempt) <==> attempt == password
  {
    hide Do, Happened, Good, FairSteps, Grows, SessionsEvolve;
    var before, step := WorldAfter(cfg, w0, steps, m - 1), steps[m - 1];
    RunsKeep(cfg, w0, steps, m - 1, m - 1);
    RunsKeep(cfg, w0, steps, m, n);
    FairAt(cfg, w0, steps, m - 1);
    assert step == Step(step.call, step.ios);
    ConfirmationTakesEffect(cfg, before, step.call, step.ios);
    var a, b := WorldAfter(cfg, w0, steps, m), WorldAfter(cfg, w0, steps, n);
    id :| Owns(before, Key(PwdReset, t), id) && id in a.users && a.users[id].password == Bcrypt(password);
    assert RowEvolves(a, b, id);
  }

  // ---------- editing one user ----------

  /** The two rows differ only in fields of what the call is for. */
  predicate EditedBy(cfg: Config, call: Call, secret: string, u: User, v: User, now: Time) {
    match call
    case SetupMfa(_) => v.mfaSecret == secret && v == u.(mfaSecret := v.mfaSecret, updatedAt := v.updatedAt)
    case ConfirmMfa(_, code) =>
      && CodeValid(cfg, u.mfaSecret, code, now) && v.mfaEnabled
      && v == u.(mfaEnabled := v.mfaEnabled, updatedAt := v.updatedAt)
    case ScimUpdate(_, emails, active, externalId) =>
      && v.active == active && v.externalId == externalId
      && (|emails| > 0 && emails[0] != "" ==> v.email == emails[0])
      && (|emails| == 0 || emails[0] == "" ==> v.email == u.email)
      && v == u.(email := v.email, active := v.active, externalId := v.externalId, updatedAt := v.updatedAt)
    case _ => false
  }

  /** Enrolment answers with the secret it stored, SCIM with the view of the row it stored. */
  function EditReply(call: Call, v: User): Reply {
    match call
    case SetupMfa(_) => Enrolled(v.mfaSecret, Totp.ProvisioningUri(v.email, v.mfaSecret))
    case ScimUpdate(_, _, _, _) => Resource(ToScim(v))
    case _ => Accepted
  }

  /** MFA enrolment and activation and the SCIM update, when they succeed, change one row in the fields
      they are for, and no token; activation succeeds only with a code valid for the stored secret. */
  lemma EditsOneUser(cfg: Config, w: World, call: Call, ios: seq<Io>)
    requires call.SetupMfa? || call.ConfirmMfa? || call.ScimUpdate?
    requires Keyed(w.users)
    ensures var (w1, p1) := Do(cfg, w, Step(call, ios));
            p1.Done? && !p1.reply.Failed? ==>
              && |ios| >= 2 && call.id in w.users && w1.users.Keys == w.users.Keys && w1.kv == w.kv
              && (forall id :: id in w.users && id != call.id ==> w1.users[id] == w.users[id])
              && EditedBy(cfg, call, ios[0].secret, w.users[call.id], w1.users[call.id], w.now + ios[0].wait)
              && p1.reply == EditReply(call, w1.users[call.id])
  {
    hide Next, Start, CodeValid, EditedBy, Keyed, Merge, EditOf, EditReply, Written;
    var b, p := Begin(w, call), Start(cfg, call);
    EditStarts(cfg, call);
    if |ios| > 0 {
      SelectsRow(cfg, b, call, ios[0]);
      var (w1, p1) := Next(cfg, b, p, ios[0]);
      assert Run(cfg, b, p, ios, 0) == Run(cfg, w1, p1, ios, 1);
      if p1.UpdateUser? && |ios| > 1 {
        var (w2, p2) := Next(cfg, w1, p1, ios[1]);
        WritesRow(cfg, w1, p1, ios[1]);
        assert Run(cfg, w1, p1, ios, 1) == Run(cfg, w2, p2, ios, 2) == (w2, p2);
      }
    }
  }

  function EditOf(call: Call): Edit
    requires call.SetupMfa? || call.ConfirmMfa? || call.ScimUpdate?
  {
    match call
    case SetupMfa(_) => NewSecret
    case ConfirmMfa(_, code) => Enable(code)
    case ScimUpdate(_, emails, active, externalId) => Replace(emails, active, externalId)
  }

  lemma EditStarts(cfg: Config, call: Call)
    requires call.SetupMfa? || call.ConfirmMfa? || call.ScimUpdate?
    ensures Start(cfg, call) == SelectById(call.id, EditOf(call))
  {
  }

  lemma EditsRow(cfg: Config, call: Call, u: User, secret: string, now: Time)
    requires call.SetupMfa? || call.ConfirmMfa? || call.ScimUpdate?
    ensures var p := AfterRow(cfg, EditOf(call), true, Some(u), secret, now);
            && (p.UpdateUser? || (p.Done? && p.reply.Failed?))
            && (p.UpdateUser? ==> Written(p.user, p.why) == EditReply(call, p.user))
            && (p.UpdateUser? ==>
                  p.user.id == u.id && EditedBy(cfg, call, secret, u, p.user, now) && Merge(u, p.user) == p.user)
  {
    hide CodeValid, RateLimiting.Throttled;
  }

  lemma SelectsRow(cfg: Config, w: World, call: Call, io: Io)
    requires (call.SetupMfa? || call.ConfirmMfa? || call.ScimUpdate?) && Keyed(w.users)
    ensures var (w1, p1) := Next(cfg, w, SelectById(call.id, EditOf(call)), io);
            && w1 == w.(now := w.now + io.wait) && (p1.UpdateUser? || (p1.Done? && p1.reply.Failed?))
            && (p1.UpdateUser? ==>
                  && p1.user.id == call.id && call.id in w.users
                  && EditedBy(cfg, call, io.secret, w.users[call.id], p1.user, w.now + io.wait)
                  && Merge(w.users[call.id], p1.user) == p1.user
                  && Written(p1.user, p1.why) == EditReply(call, p1.user))
  {
    hide Next, AfterRow, CodeValid, EditedBy, Merge, EditReply, Written;
    NextSelects(cfg, w, call.id, EditOf(call), io);
    if call.id in w.users {
      EditsRow(cfg, call, w.users[call.id], io.secret, w.now + io.wait);
    }
  }

  lemma NextSelects(cfg: Config, w: World, id: Id, edit: Edit, io: Io)
    ensures var p1 := if io.out.Acked? && id in w.users
                      then AfterRow(cfg, edit, true, Some(w.users[id]), io.secret, w.now + io.wait)
                      else Done(Failed(if edit.Replace? && !io.out.Acked? then Internal else NotFound));
            Next(cfg, w, SelectById(id, edit), io) == (w.(now := w.now + io.wait), p1)
  {
    hide TokenCommand;
  }

  lemma WritesRow(cfg: Config, w: World, p: Proc, io: Io)
    requires p.UpdateUser? && p.user.id in w.users && Merge(w.users[p.user.id], p.user) == p.user
    ensures var (w1, p1) := Next(cfg, w, p, io);
            && w1.kv == w.kv && p1.Done?
            && (!p1.reply.Failed? ==> w1.users == w.users[p.user.id := p.user] && p1.reply == Written(p.user, p.why))
  {
    hide ByEmail, Merge, TokenCommand;
  }

  // ---------- deletion ----------

  /** A deletion that is accepted removes that row only, and no token. */
  lemma DeletionKeepsTokens(cfg: Config, w: World, id: Id, ios: seq<Io>)
    ensures var (w1, p1) := Do(cfg, w, Step(ScimDelete(id), ios));
            p1 == Done(Accepted) ==> w1.users == w.users - {id} && w1.kv == w.kv && w1.born == w.born
  {
    var b, p := Begin(w, ScimDelete(id)), DeleteRow(id);
    if |ios| > 0 {
      var (w1, p1) := Next(cfg, b, p, ios[0]);
      assert Run(cfg, b, p, ios, 0) == Run(cfg, w1, p1, ios, 1) == (w1, p1);
    }
  }

  /** After a deletion that is accepted as call m, through any later calls, the id does not come back and no
      session is opened for it, although the deletion has left all its tokens in place. */
  lemma DeletedForGood(cfg: Config, w0: World, steps: seq<Step>, m: nat, n: nat, id: Id)
    requires FairFrom(cfg, w0, steps, m, n) && m > 0
    requires steps[m - 1].call == ScimDelete(id) && id in WorldAfter(cfg, w0, steps, m - 1).users
    requires Do(cfg, WorldAfter(cfg, w0, steps, m - 1), steps[m - 1]).1 == Done(Accepted)
    ensures WorldAfter(cfg, w0, steps, m).kv == WorldAfter(cfg, w0, steps, m - 1).kv
    ensures var a, b := WorldAfter(cfg, w0, steps, m), WorldAfter(cfg, w0, steps, n);
            && id !in b.users
            && forall i | |a.log| <= i < |b.log| && b.log[i].Opened? :: b.log[i].id != id
  {
    hide Do, FairSteps, Good;
    var before := WorldAfter(cfg, w0, steps, m - 1);
    RunsKeep(cfg, w0, steps, m - 1, m - 1);
    GoodIsBorn(cfg, before);
    assert steps[m - 1] == Step(ScimDelete(id), steps[m - 1].ios);
    DeletionKeepsTokens(cfg, before, id, steps[m - 1].ios);
    DeadUsersStayDead(cfg, w0, steps, m, n, id);
  }

  // ---------- OAuth callbacks ----------

  ghost predicate SignedIn(w: World, tenant: Tenant, provider: string, info: Option<Info>, p: Proc) {
    p.Done? && p.reply.Session? ==>
      && Supported(provider) && info.Some? && p.reply.id in w.users
      && HasOAuth(w.users[p.reply.id], tenant, provider, info.value.subject)
  }

  lemma SignedInStep(cfg: Config, w: World, call: Call, p: Proc, io: Io)
    requires !p.Done? && call.OAuthCallback? && Tracks(cfg, call, p) && Fits(cfg, w, p)
    ensures var (w1, p1) := Next(cfg, w, p, io); SignedIn(w1, call.tenant, call.provider, call.info, p1)
  {
    hide CodeValid, Insert, StepUpdate, ByOAuth, IssuedBefore, RateLimiting.Throttled;
  }

  /** A callback that answers with a session answers for the user of that identity, which exists now. */
  lemma {:induction false} CallbackSignsInOwner(cfg: Config, call: Call, w: World, p: Proc, ios: seq<Io>, k: nat)
    requires k <= |ios| && call.OAuthCallback? && Good(cfg, w) && Fits(cfg, w, p) && FairRun(cfg, w, p, ios, k)
    requires Tracks(cfg, call, p) && SignedIn(w, call.tenant, call.provider, call.info, p)
    ensures var (w1, p1) := Run(cfg, w, p, ios, k); SignedIn(w1, call.tenant, call.provider, call.info, p1)
    decreases |ios| - k
  {
    hide Next, Good, Fits, Fair, Tracks, SignedIn;
    if !p.Done? && k < |ios| {
      var (w1, p1) := Next(cfg, w, p, ios[k]);
      SignedInStep(cfg, w, call, p, ios[k]);
      GoodStep(cfg, w, p, ios[k]);
      CallSteps(cfg, w, call, p, ios[k]);
      StillTracks(cfg, w, call, p, ios[k]);
      CallbackSignsInOwner(cfg, call, w1, p1, ios, k + 1);
    }
  }

  ghost predicate CallbackOpened(cfg: Config, w0: World, steps: seq<Step>, i: nat, tenant: Tenant, provider: string,
          subject: string, id: Id)
    requires i < |steps|
  {
    && steps[i].call.OAuthCallback? && steps[i].call.tenant == tenant && steps[i].call.provider == provider
    && steps[i].call.info.Some? && steps[i].call.info.value.subject == subject
    && var p := Do(cfg, WorldAfter(cfg, w0, steps, i), steps[i]).1; p.Done? && p.reply.Session? && p.reply.id == id
  }

  lemma CallbackOwner(cfg: Config, w0: World, steps: seq<Step>, i: nat, tenant: Tenant, provider: string,
          subject: string, id: Id)
    requires FairFrom(cfg, w0, steps, i, i) && i < |steps|
    requires CallbackOpened(cfg, w0, steps, i, tenant, provider, subject, id)
    ensures var b := WorldAfter(cfg, w0, steps, i + 1);
            Supported(provider) && id in b.users && HasOAuth(b.users[id], tenant, provider, subject)
  {
    RunsKeep(cfg, w0, steps, i, i);
    var w, call := WorldAfter(cfg, w0, steps, i), steps[i].call;
    GoodBegin(cfg, w, call);
    TracksStart(cfg, call);
    hide Good, FairSteps;
    assert FairStep(cfg, w, steps[i]) by { FairAt(cfg, w0, steps, i); }
    CallbackSignsInOwner(cfg, call, Begin(w, call), Start(cfg, call), steps[i].ios, 0);
  }

  /** Repeated callbacks of one identity in one tenant sign in one user until that user is deleted. */
  lemma CallbacksAgree(cfg: Config, w0: World, steps: seq<Step>, i: nat, j: nat, tenant: Tenant, provider: string,
          subject: string, id1: Id, id2: Id)
    requires FairFrom(cfg, w0, steps, i, j) && i < j < |steps|
    requires CallbackOpened(cfg, w0, steps, i, tenant, provider, subject, id1)
    requires CallbackOpened(cfg, w0, steps, j, tenant, provider, subject, id2)
    requires !Happened(WorldAfter(cfg, w0, steps, j + 1).log, |WorldAfter(cfg, w0, steps, i + 1).log|, Removed(id1))
    ensures id1 == id2
  {
    hide WorldAfter, FairSteps, CallbackOpened, Happened, Good, Evolves;
    CallbackOwner(cfg, w0, steps, i, tenant, provider, subject, id1);
    CallbackOwner(cfg, w0, steps, j, tenant, provider, subject, id2);
    RunsKeep(cfg, w0, steps, i + 1, j + 1);
    OwnerStays(cfg, WorldAfter(cfg, w0, steps, i + 1), WorldAfter(cfg, w0, steps, j + 1),
               tenant, provider, subject, id1, id2);
  }

  lemma OwnerStays(cfg: Config, a: World, b: World, tenant: Tenant, provider: string, subject: string, id1: Id, id2: Id)
    requires Good(cfg, a) && Good(cfg, b) && Evolves(a, b) && !Happened(b.log, |a.log|, Removed(id1)) && provider != ""
    requires id1 in a.users && HasOAuth(a.users[id1], tenant, provider, subject)
    requires id2 in b.users && HasOAuth(b.users[id2], tenant, provider, subject)
    ensures id1 == id2
  {
    GoodKeys(cfg, a);
    GoodKeys(cfg, b);
    hide Good, Happened, KeysGood, SessionsEvolve;
    assert RowEvolves(a, b, id1);
    assert SameOAuth(b.users[id1], b.users[id2]);
  }

  /** In every state between calls, or where a call has stopped, an OAuth identity has one user. */
  lemma OAuthIdentityUnique(cfg: Config, w0: World, steps: seq<Step>, n: nat, id1: Id, id2: Id)
    requires FairFrom(cfg, w0, steps, n, n)
    requires var b := WorldAfter(cfg, w0, steps, n);
             id1 in b.users && id2 in b.users && SameOAuth(b.users[id1], b.users[id2])
    ensures id1 == id2
  {
    RunsKeep(cfg, w0, steps, n, n);
  }
}
