/** The promises of runs whose calls do not overlap. w0 is any good world, steps any fair run from
    it, and the points m and n of the run include every point between two commands, as the last call
    may have stopped part-way. */
module Sequential {
  import opened Domain
  import opened Keyspace
  import opened Users
  import opened Machine
  import RateLimiting
  import opened Invariants
  import opened Runs
  import opened Calls

  ghost predicate FairFrom(cfg: Config, w0: World, steps: seq<Step>, m: nat, n: nat) {
    Good(cfg, w0) && FairSteps(cfg, w0, steps) && m <= n <= |steps|
  }

  // ---------- sign-in and multi-factor authentication ----------

  /** MFA is never switched off; while it is on, no session is opened by password alone, and a session
      opened by code is opened by a code valid for the secret then stored. */
  lemma MfaStaysOn(cfg: Config, w0: World, steps: seq<Step>, m: nat, n: nat, id: Id)
    requires FairFrom(cfg, w0, steps, m, n)
    requires var a := WorldAfter(cfg, w0, steps, m); id in a.users && a.users[id].mfaEnabled
    ensures var a, b := WorldAfter(cfg, w0, steps, m), WorldAfter(cfg, w0, steps, n);
            && (id in b.users ==> b.users[id].mfaEnabled)
            && forall i | |a.log| <= i < |b.log| && b.log[i].Opened? && b.log[i].id == id ::
                 && b.log[i].row.Some? && b.log[i].row.value.mfaEnabled
                 && !b.log[i].via.ByPassword?
                 && (b.log[i].via.ByMfa? ==>
                       CodeValid(cfg, b.log[i].row.value.mfaSecret, b.log[i].via.code, b.log[i].via.checkedAt))
  {
    RunsKeep(cfg, w0, steps, m, n);
    hide WorldAfter, FairSteps, CodeValid, RateLimiting.Throttled;
    var a, b := WorldAfter(cfg, w0, steps, m), WorldAfter(cfg, w0, steps, n);
    assert RowEvolves(a, b, id);
    forall i | |a.log| <= i < |b.log| && b.log[i].Opened? && b.log[i].id == id
      ensures SessionEvolves(a, b, b.log[i]) && OpenedHonestly(cfg, b.log[i])
    {
    }
  }

  /** A verified email address of a user stays verified. */
  lemma VerifiedStays(cfg: Config, w0: World, steps: seq<Step>, m: nat, n: nat, id: Id)
    requires FairFrom(cfg, w0, steps, m, n)
    requires var a := WorldAfter(cfg, w0, steps, m); id in a.users && a.users[id].emailVerified
    ensures var b := WorldAfter(cfg, w0, steps, n); id in b.users ==> b.users[id].emailVerified
  {
    RunsKeep(cfg, w0, steps, m, n);
    hide WorldAfter, FairSteps, Happened;
    assert RowEvolves(WorldAfter(cfg, w0, steps, m), WorldAfter(cfg, w0, steps, n), id);
  }

  /** A deleted user never comes back, and no session is opened for it, though its tokens remain. */
  lemma DeadUsersStayDead(cfg: Config, w0: World, steps: seq<Step>, m: nat, n: nat, id: Id)
    requires FairFrom(cfg, w0, steps, m, n)
    requires var a := WorldAfter(cfg, w0, steps, m); id in a.born && id !in a.users
    ensures var a, b := WorldAfter(cfg, w0, steps, m), WorldAfter(cfg, w0, steps, n);
            && id !in b.users
            && forall i | |a.log| <= i < |b.log| && b.log[i].Opened? :: b.log[i].id != id
  {
    RunsKeep(cfg, w0, steps, m, n);
    hide WorldAfter, FairSteps, Good;
    var a, b := WorldAfter(cfg, w0, steps, m), WorldAfter(cfg, w0, steps, n);
    forall i | |a.log| <= i < |b.log| && b.log[i].Opened? ensures SessionEvolves(a, b, b.log[i]) {
    }
  }

  /** While a user is deactivated only the OAuth path, which does not look at the flag, opens sessions for it. */
  lemma DeactivatedSignsInByProviderOnly(cfg: Config, w0: World, steps: seq<Step>, m: nat, n: nat, id: Id)
    requires FairFrom(cfg, w0, steps, m, n)
    requires var a := WorldAfter(cfg, w0, steps, m); id in a.users && !a.users[id].active
    requires !Happened(WorldAfter(cfg, w0, steps, n).log, |WorldAfter(cfg, w0, steps, m).log|, Wrote(id, Provision))
    ensures var a, b := WorldAfter(cfg, w0, steps, m), WorldAfter(cfg, w0, steps, n);
            && (id in b.users ==> !b.users[id].active)
            && forall i | |a.log| <= i < |b.log| && b.log[i].Opened? && b.log[i].id == id :: b.log[i].via.ByProvider?
  {
    RunsKeep(cfg, w0, steps, m, n);
    hide WorldAfter, FairSteps, Happened, CodeValid, RateLimiting.Throttled;
    var a, b := WorldAfter(cfg, w0, steps, m), WorldAfter(cfg, w0, steps, n);
    assert RowEvolves(a, b, id);
    assert id in a.born by { GoodIsBorn(cfg, a); }
    forall i | |a.log| <= i < |b.log| && b.log[i].Opened? && b.log[i].id == id
      ensures SessionEvolves(a, b, b.log[i]) && OpenedHonestly(cfg, b.log[i])
    {
    }
  }

  ghost predicate LoggedSession(w: World, p: Proc) {
    p.Done? && p.reply.Session? ==>
      |w.log| > 0 &&
      var e := w.log[|w.log| - 1];
      e.Opened? && e.id == p.reply.id && e.role == p.reply.role
  }

  lemma SessionLoggedByStep(cfg: Config, w: World, p: Proc, io: Io)
    requires !p.Done?
    ensures var (w1, p1) := Next(cfg, w, p, io); LoggedSession(w1, p1)
  {
    hide CodeValid, Insert, Update, ByEmail, ByOAuth, RateLimiting.Throttled, RowCommand;
  }

  /** A call that answers with a session has opened one: the log ends with it. */
  lemma {:induction false} SessionsAreLogged(cfg: Config, w: World, p: Proc, ios: seq<Io>, k: nat)
    requires k <= |ios| && LoggedSession(w, p)
    ensures var (w1, p1) := Run(cfg, w, p, ios, k); LoggedSession(w1, p1)
    decreases |ios| - k
  {
    hide Next, LoggedSession;
    if !p.Done? && k < |ios| {
      var (w1, p1) := Next(cfg, w, p, ios[k]);
      SessionLoggedByStep(cfg, w, p, ios[k]);
      SessionsAreLogged(cfg, w1, p1, ios, k + 1);
    }
  }

  // ---------- passwords ----------

  /** Only a password reset changes a password. */
  lemma PasswordStays(cfg: Config, w0: World, steps: seq<Step>, m: nat, n: nat, id: Id)
    requires FairFrom(cfg, w0, steps, m, n)
    requires id in WorldAfter(cfg, w0, steps, m).users && id in WorldAfter(cfg, w0, steps, n).users
    requires !Happened(WorldAfter(cfg, w0, steps, n).log, |WorldAfter(cfg, w0, steps, m).log|, Wrote(id, Reset))
    ensures WorldAfter(cfg, w0, steps, n).users[id].password == WorldAfter(cfg, w0, steps, m).users[id].password
  {
    RunsKeep(cfg, w0, steps, m, n);
    hide WorldAfter, FairSteps, Happened;
    assert RowEvolves(WorldAfter(cfg, w0, steps, m), WorldAfter(cfg, w0, steps, n), id);
  }

  // ---------- tokens ----------

  /** The log entry that issued what entry j consumed. */
  ghost function IssueOf(log: seq<Event>, j: int): (i: int)
    requires 0 <= j < |log| && log[j].Consumed?
    requires IssuedBefore(log, j, log[j].kind, log[j].token, log[j].owner, log[j].at)
    ensures i < j && IssueAt(log, i, log[j].kind, log[j].token, log[j].owner, log[j].at)
  {
    var i :| i < j && IssueAt(log, i, log[j].kind, log[j].token, log[j].owner, log[j].at);
    i
  }

  /** A token is good for five minutes, a day, an hour or ten minutes, by its kind. */
  predicate InItsTime(cfg: Config, kind: Kind, issuedAt: Time, at: Time) {
    && issuedAt <= at
    && at - issuedAt < match kind
                       case Refresh => cfg.refreshTtl
                       case Mfa => 300_000
                       case EmailVerify => 86_400_000
                       case PwdReset => 3_600_000
                       case OAuthState => 600_000
                       case RateLimit => 60_000
  }

  /** Every consumption matches an earlier issue of the same token to the same owner, within the time to
      live of its kind, and no two consumptions match one issue. */
  lemma ConsumptionsMatchIssues(cfg: Config, w0: World, steps: seq<Step>, n: nat)
    requires FairFrom(cfg, w0, steps, n, n)
    ensures var log := WorldAfter(cfg, w0, steps, n).log;
            && (forall j | 0 <= j < |log| && log[j].Consumed? ::
                  && IssuedBefore(log, j, log[j].kind, log[j].token, log[j].owner, log[j].at)
                  && InItsTime(cfg, log[j].kind, log[IssueOf(log, j)].at, log[j].at))
            && (forall j, k | 0 <= j < k < |log| && log[j].Consumed? && log[k].Consumed? ::
                  IssueOf(log, j) != IssueOf(log, k))
  {
    RunsKeep(cfg, w0, steps, n, n);
    hide WorldAfter, FairSteps, IssuedBefore, Ttl, InItsTime, Evolves;
    var log := WorldAfter(cfg, w0, steps, n).log;
    forall j | 0 <= j < |log| && log[j].Consumed?
      ensures InItsTime(cfg, log[j].kind, log[IssueOf(log, j)].at, log[j].at)
    {
      TimeIsTtl(cfg, log[j].kind, log[IssueOf(log, j)].at, log[j].at);
    }
  }

  lemma TimeIsTtl(cfg: Config, kind: Kind, issuedAt: Time, at: Time)
    ensures InItsTime(cfg, kind, issuedAt, at) <==> issuedAt <= at < issuedAt + Ttl(cfg, kind)
  {
  }

  /** The consumption of a call's token is in the log from position n on. */
  ghost predicate Consumes(log: seq<Event>, n: nat, key: Key) {
    exists i :: n <= i < |log| && log[i].Consumed? && log[i].kind == key.kind && log[i].token == key.token
  }

  lemma ConsumesLater(log: seq<Event>, later: seq<Event>, n: nat, key: Key)
    requires log <= later && Consumes(log, n, key)
    ensures Consumes(later, n, key)
  {
  }

  lemma SpentHasTarget(call: Call, p: Proc)
    ensures Spent(call, p) ==> Target(call).Some?
  {
  }

  lemma SuccessConsumesStep(cfg: Config, call: Call, w: World, p: Proc, io: Io, n: nat)
    requires !p.Done? && Fair(w, p, io) && Tracks(cfg, call, p) && !call.Logout? && n <= |w.log|
    requires Spent(call, p) ==> Consumes(w.log, n, Target(call).value)
    ensures var (w1, p1) := Next(cfg, w, p, io);
            Tracks(cfg, call, p1) && n <= |w1.log| && (Spent(call, p1) ==> Consumes(w1.log, n, Target(call).value))
  {
    hide Next, Tracks, Fair, Holding, Spent, Consumes;
    CallSteps(cfg, w, call, p, io);
    LogGrows(cfg, w, p, io);
    var (w1, p1) := Next(cfg, w, p, io);
    SpentHasTarget(call, p);
    SpentHasTarget(call, p1);
    if Spent(call, p) {
      ConsumesLater(w.log, w1.log, n, Target(call).value);
    } else if Spent(call, p1) {
      DelConsumes(cfg, w, call, p, io, n);
    }
  }

  /** A call that succeeds with a token has consumed it. */
  lemma {:induction false} SuccessConsumes(cfg: Config, call: Call, w: World, p: Proc, ios: seq<Io>, k: nat, n: nat)
    requires k <= |ios| && FairRun(cfg, w, p, ios, k) && Tracks(cfg, call, p) && !call.Logout? && n <= |w.log|
    requires Spent(call, p) ==> Consumes(w.log, n, Target(call).value)
    ensures var (w1, p1) := Run(cfg, w, p, ios, k);
            Tracks(cfg, call, p1) && (Spent(call, p1) ==> Consumes(w1.log, n, Target(call).value))
    decreases |ios| - k
  {
    hide Next, Tracks, Fair, Spent, Consumes;
    if !p.Done? && k < |ios| {
      var (w1, p1) := Next(cfg, w, p, ios[k]);
      SuccessConsumesStep(cfg, call, w, p, ios[k], n);
      SuccessConsumes(cfg, call, w1, p1, ios, k + 1, n);
    }
  }

  lemma DelConsumes(cfg: Config, w: World, call: Call, p: Proc, io: Io, n: nat)
    requires !p.Done? && Holding(call, p) && !call.Logout? && Fair(w, p, io) && n <= |w.log|
    requires Spent(call, Next(cfg, w, p, io).1)
    ensures Consumes(Next(cfg, w, p, io).0.log, n, Target(call).value)
  {
    hide CodeValid, RateLimiting.Throttled;
    var w1 := Next(cfg, w, p, io).0;
    assert p.DelToken? || p.DelState?;
    assert w1.log[|w.log|].Consumed?;
  }

  /** The replies of calls that were stopped by a check. */
  predicate StoppedByCheck(p: Proc) {
    p.Done? && p.reply.Failed? &&
    p.reply.error in {Validation, Unauthorized, InvalidToken, InvalidMfaCode, NotFound, InvalidState}
  }

  /** Commands that come after the first write of a call. */
  predicate PastChecks(p: Proc) {
    || p.SetToken? || p.SetRefresh? || p.UpdateUser? || p.SelectOAuth?
    || (p.InsertUser? && p.after == SignIn) || (p.Done? && !StoppedByCheck(p))
  }

  lemma NotStopped(p: Proc)
    ensures PastChecks(p) ==> !StoppedByCheck(p)
    ensures p.Done? ==> PastChecks(p) || StoppedByCheck(p)
  {
  }

  lemma ChecksFirst(cfg: Config, w: World, p: Proc, io: Io)
    requires !p.Done?
    ensures var (w1, p1) := Next(cfg, w, p, io);
            && (PastChecks(p) ==> PastChecks(p1))
            && (!PastChecks(p) && !PastChecks(p1) ==> w1.kv == w.kv && w1.users == w.users)
  {
    hide CodeValid, Update, ByEmail, ByOAuth, RateLimiting.Throttled;
  }

  /** A call stopped by a check, such as a wrong code or a state of another provider, has changed nothing:
      its token is still there to be used. */
  lemma {:induction false} FailedChecksChangeNothing(cfg: Config, w: World, p: Proc, ios: seq<Io>, k: nat)
    requires k <= |ios|
    ensures var (w1, p1) := Run(cfg, w, p, ios, k);
            && (PastChecks(p) ==> PastChecks(p1))
            && (StoppedByCheck(p1) ==> w1.kv == w.kv && w1.users == w.users)
    decreases |ios| - k
  {
    hide Next, PastChecks;
    NotStopped(p);
    if !p.Done? && k < |ios| {
      ChecksFirst(cfg, w, p, ios[k]);
      var (w1, p1) := Next(cfg, w, p, ios[k]);
      NotStopped(Run(cfg, w1, p1, ios, k + 1).1);
      FailedChecksChangeNothing(cfg, w1, p1, ios, k + 1);
    }
  }
}
