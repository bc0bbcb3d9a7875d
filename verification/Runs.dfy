/** Whole runs of calls that do not overlap; any call may stop after any command. */
module Runs {
  import opened Domain
  import opened Keyspace
  import opened Users
  import opened Machine
  import RateLimiting
  import opened Invariants

  // ---------- the invariant over runs ----------

  lemma GoodStep(cfg: Config, w: World, p: Proc, io: Io)
    requires !p.Done? && Good(cfg, w) && Fits(cfg, w, p) && Fair(w, p, io)
    ensures var (w1, p1) := Next(cfg, w, p, io); Good(cfg, w1) && Fits(cfg, w1, p1)
  {
    hide Next, Fits, Fair, TableGood, KeysGood, LineageGood, IssuesGood, KeysIssued, ConsumptionsGood, SessionsGood;
    TableStep(cfg, w, p, io);
    KeysStep(cfg, w, p, io);
    LineageStep(cfg, w, p, io);
    IssuesStep(cfg, w, p, io);
    KeysIssuedStep(cfg, w, p, io);
    ConsumptionsStep(cfg, w, p, io);
    SessionsStep(cfg, w, p, io);
    FitsStep(cfg, w, p, io);
  }

  lemma GoodBegin(cfg: Config, w: World, call: Call)
    requires Good(cfg, w)
    ensures Good(cfg, Begin(w, call)) && Fits(cfg, Begin(w, call), Start(cfg, call))
  {
    hide IssuedBefore, Consistent, UniqueOAuth, OpenedHonestly;
  }

  /** A deployment that starts from an existing table, with nothing in Redis. */
  function Initial(users: Table, now: Time): World {
    World(users, map[], now, {}, users, map[], [])
  }

  lemma InitialGood(cfg: Config, users: Table, now: Time)
    requires Consistent(users, users) && UniqueOAuth(users) && NIL_ID !in users
    ensures Good(cfg, Initial(users, now))
  {
  }

  // ---------- what only grows, and what happens to one user ----------

  ghost predicate Grows(w: World, w1: World) {
    && w.now <= w1.now && w.seen <= w1.seen && w.log <= w1.log
    && (forall id :: id in w.born ==> id in w1.born && w1.born[id] == w.born[id])
    && (forall id :: id in w.born && id !in w.users ==> id !in w1.users)
    && (forall t :: t in w.root ==> t in w1.root && w1.root[t] == w.root[t])
    && (forall key: Key | key.kind != RateLimit && key.token in w.seen && key in w1.kv ::
          key in w.kv && w1.kv[key] == w.kv[key])
  }

  ghost predicate Happened(log: seq<Event>, from: nat, e: Event) {
    exists i :: from <= i < |log| && log[i] == e
  }

  /** From one point of a run to a later one: presence, flags and password of a user change only by the
      events that are meant to change them; MFA and a verified email are never switched off. */
  ghost predicate RowEvolves(w: World, w1: World, id: Id) {
    && (id in w.users && !Happened(w1.log, |w.log|, Removed(id)) ==> id in w1.users)
    && (id in w.users && id in w1.users ==>
          && (w.users[id].mfaEnabled ==> w1.users[id].mfaEnabled)
          && (w.users[id].emailVerified ==> w1.users[id].emailVerified)
          && (!Happened(w1.log, |w.log|, Wrote(id, Reset)) ==> w1.users[id].password == w.users[id].password)
          && (!Happened(w1.log, |w.log|, Wrote(id, Provision)) ==>
                w1.users[id].active == w.users[id].active && w1.users[id].email == w.users[id].email))
  }

  /** A session opened after w is not for a user already deleted at w, and is opened for a row that kept
      what RowEvolves keeps. */
  ghost predicate SessionEvolves(w: World, w1: World, e: Event)
    requires e.Opened?
  {
    && e.row.Some?
    && (e.id in w.born ==>
          && e.id in w.users
          && (w.users[e.id].mfaEnabled ==> e.row.value.mfaEnabled)
          && (!Happened(w1.log, |w.log|, Wrote(e.id, Provision)) ==> e.row.value.active == w.users[e.id].active))
  }

  ghost predicate SessionsEvolve(w: World, w1: World) {
    forall i | |w.log| <= i < |w1.log| && w1.log[i].Opened? :: SessionEvolves(w, w1, w1.log[i])
  }

  ghost predicate Evolves(w: World, w1: World) {
    Grows(w, w1) && (forall id :: RowEvolves(w, w1, id)) && SessionsEvolve(w, w1)
  }

  lemma GrowsOnTable(cfg: Config, w: World, p: Proc, io: Io)
    requires OnTable(p) && RootsSeen(w) && Fair(w, p, io)
    ensures Grows(w, Next(cfg, w, p, io).0)
  {
    hide Insert, Update, CodeValid, AfterInsert, AfterLogin, AfterGet, AfterOwner, AfterRow, AfterOAuth,
         RateLimiting.Throttled, TokenCommand;
    if p.InsertUser? {
      WrittenIds(w.users, p.row.(id := io.id, createdAt := w.now + io.wait, updatedAt := w.now + io.wait), io.out);
    } else if p.UpdateUser? {
      WrittenIds(w.users, p.user, io.out);
    }
  }

  lemma GrowsOnTokens(cfg: Config, w: World, p: Proc, io: Io)
    requires !p.Done? && !OnTable(p) && RootsSeen(w) && Fair(w, p, io)
    ensures Grows(w, Next(cfg, w, p, io).0)
  {
    hide Insert, Update, CodeValid, AfterInsert, AfterLogin, AfterGet, AfterOwner, AfterRow, AfterOAuth,
         RateLimiting.Throttled, RowCommand;
  }

  lemma GrowsStep(cfg: Config, w: World, p: Proc, io: Io)
    requires !p.Done? && RootsSeen(w) && Fair(w, p, io)
    ensures Grows(w, Next(cfg, w, p, io).0)
  {
    hide Next, Grows, Fair, RootsSeen, OnTable;
    if OnTable(p) {
      GrowsOnTable(cfg, w, p, io);
    } else {
      GrowsOnTokens(cfg, w, p, io);
    }
  }

  lemma RowUpdate(cfg: Config, w: World, p: Proc, io: Io, id: Id)
    requires p.UpdateUser? && TableGood(w) && Fits(cfg, w, p)
    ensures RowEvolves(w, Next(cfg, w, p, io).0, id)
  {
    hide CodeValid, UniqueEmails, UniqueOAuth, ByEmail, RateLimiting.Throttled, TokenCommand;
    var w1 := Next(cfg, w, p, io).0;
    if w1.users != w.users {
      assert w1.log[|w.log|] == Wrote(p.user.id, p.why);
    }
  }

  lemma RowDelete(cfg: Config, w: World, p: Proc, io: Io, id: Id)
    requires p.DeleteRow?
    ensures RowEvolves(w, Next(cfg, w, p, io).0, id)
  {
    hide TokenCommand;
    var w1 := Next(cfg, w, p, io).0;
    if w1.users != w.users {
      assert w1.log[|w.log|] == Removed(p.id);
    }
  }

  lemma RowElse(cfg: Config, w: World, p: Proc, io: Io, id: Id)
    requires !p.Done? && !p.UpdateUser? && !p.DeleteRow? && Fair(w, p, io)
    ensures RowEvolves(w, Next(cfg, w, p, io).0, id)
  {
    hide Happened, ByEmail, AfterInsert, AfterLogin, AfterGet, AfterOwner, AfterRow, AfterOAuth,
         RateLimiting.Throttled, TokenCommand;
  }

  lemma RowStep(cfg: Config, w: World, p: Proc, io: Io, id: Id)
    requires !p.Done? && TableGood(w) && Fits(cfg, w, p) && Fair(w, p, io)
    ensures RowEvolves(w, Next(cfg, w, p, io).0, id)
  {
    hide RowEvolves, Next, TableGood, Fits, Fair;
    if p.UpdateUser? {
      RowUpdate(cfg, w, p, io, id);
    } else if p.DeleteRow? {
      RowDelete(cfg, w, p, io, id);
    } else {
      RowElse(cfg, w, p, io, id);
    }
  }

  lemma SessionStep(cfg: Config, w: World, p: Proc, io: Io)
    requires !p.Done? && Fits(cfg, w, p)
    ensures SessionsEvolve(w, Next(cfg, w, p, io).0)
  {
    hide CodeValid, Insert, Update, IssuedBefore, AfterInsert, AfterLogin, AfterGet, AfterOwner, AfterRow,
         AfterOAuth, RateLimiting.Throttled, RowCommand;
  }

  lemma EvolvesStep(cfg: Config, w: World, p: Proc, io: Io)
    requires !p.Done? && Good(cfg, w) && Fits(cfg, w, p) && Fair(w, p, io)
    ensures Evolves(w, Next(cfg, w, p, io).0)
  {
    hide Next, Fits, Fair, Grows, RowEvolves, SessionsEvolve, TableGood;
    GrowsStep(cfg, w, p, io);
    SessionStep(cfg, w, p, io);
    forall id ensures RowEvolves(w, Next(cfg, w, p, io).0, id) {
      RowStep(cfg, w, p, io, id);
    }
  }

  lemma LaterEvent(a: seq<Event>, b: seq<Event>, from: nat, to: nat, e: Event)
    requires a <= b && from <= to
    ensures Happened(a, from, e) || Happened(b, to, e) ==> Happened(b, from, e)
  {
  }

  lemma RowCompose(w: World, w1: World, w2: World, id: Id)
    requires Grows(w, w1) && Grows(w1, w2) && RowEvolves(w, w1, id) && RowEvolves(w1, w2, id)
    requires id in w.users ==> id in w.born
    ensures RowEvolves(w, w2, id)
  {
    hide Happened;
    LaterEvent(w1.log, w2.log, |w.log|, |w1.log|, Removed(id));
    LaterEvent(w1.log, w2.log, |w.log|, |w1.log|, Wrote(id, Reset));
    LaterEvent(w1.log, w2.log, |w.log|, |w1.log|, Wrote(id, Provision));
  }

  lemma SessionsCompose(w: World, w1: World, w2: World)
    requires Evolves(w, w1) && Evolves(w1, w2) && BornAs(w.users, w.born)
    ensures SessionsEvolve(w, w2)
  {
    hide Happened;
    forall i | |w.log| <= i < |w2.log| && w2.log[i].Opened? ensures SessionEvolves(w, w2, w2.log[i]) {
      var e := w2.log[i];
      LaterEvent(w1.log, w2.log, |w.log|, |w1.log|, Wrote(e.id, Provision));
      if i < |w1.log| {
        assert w1.log[i] == e;
      } else {
        assert RowEvolves(w, w1, e.id);
      }
    }
  }

  lemma EvolvesCompose(w: World, w1: World, w2: World)
    requires Evolves(w, w1) && Evolves(w1, w2) && BornAs(w.users, w.born)
    ensures Evolves(w, w2)
  {
    SessionsCompose(w, w1, w2);
    hide RowEvolves, SessionsEvolve;
    forall id ensures RowEvolves(w, w2, id) {
      RowCompose(w, w1, w2, id);
    }
  }

  lemma {:induction false} RunKeeps(cfg: Config, w: World, p: Proc, ios: seq<Io>, k: nat)
    requires k <= |ios| && Good(cfg, w) && Fits(cfg, w, p) && FairRun(cfg, w, p, ios, k)
    ensures var (w1, p1) := Run(cfg, w, p, ios, k); Good(cfg, w1) && Fits(cfg, w1, p1) && Evolves(w, w1)
    decreases |ios| - k
  {
    hide Next, Fits, Fair, KeysGood, LineageGood, IssuesGood, KeysIssued, ConsumptionsGood, SessionsGood;
    if !p.Done? && k < |ios| {
      var (w1, p1) := Next(cfg, w, p, ios[k]);
      GoodStep(cfg, w, p, ios[k]);
      EvolvesStep(cfg, w, p, ios[k]);
      RunKeeps(cfg, w1, p1, ios, k + 1);
      EvolvesCompose(w, w1, Run(cfg, w1, p1, ios, k + 1).0);
    }
  }

  lemma DoKeeps(cfg: Config, w: World, step: Step)
    requires Good(cfg, w) && FairStep(cfg, w, step)
    ensures var (w1, p1) := Do(cfg, w, step); Good(cfg, w1) && Fits(cfg, w1, p1) && Evolves(w, w1)
  {
    GoodBegin(cfg, w, step.call);
    GoodIsBorn(cfg, w);
    BeginEvolves(w, step.call);
    hide Good, Fits, Run, FairRun, Begin, Start, Evolves, BornAs;
    var begun := Begin(w, step.call);
    RunKeeps(cfg, begun, Start(cfg, step.call), step.ios, 0);
    EvolvesCompose(w, begun, Do(cfg, w, step).0);
  }

  lemma BeginEvolves(w: World, call: Call)
    ensures Evolves(w, Begin(w, call))
  {
  }

  lemma GoodIsBorn(cfg: Config, w: World)
    requires Good(cfg, w)
    ensures BornAs(w.users, w.born)
  {
  }

  /** Every point of a run is good, and evolves from every earlier point. */
  lemma {:induction false} RunsKeep(cfg: Config, w: World, steps: seq<Step>, m: nat, n: nat)
    requires Good(cfg, w) && FairSteps(cfg, w, steps) && m <= n <= |steps|
    ensures Good(cfg, WorldAfter(cfg, w, steps, m)) && Good(cfg, WorldAfter(cfg, w, steps, n))
    ensures Evolves(WorldAfter(cfg, w, steps, m), WorldAfter(cfg, w, steps, n))
    decreases n
  {
    hide Good, Evolves, FairStep, Do;
    if n == 0 {
      EvolvesRefl(w);
    } else if m < n {
      RunsKeep(cfg, w, steps, m, n - 1);
      var a, b := WorldAfter(cfg, w, steps, m), WorldAfter(cfg, w, steps, n - 1);
      DoKeeps(cfg, b, steps[n - 1]);
      GoodIsBorn(cfg, a);
      EvolvesCompose(a, b, WorldAfter(cfg, w, steps, n));
    } else {
      RunsKeep(cfg, w, steps, n - 1, n - 1);
      DoKeeps(cfg, WorldAfter(cfg, w, steps, n - 1), steps[n - 1]);
      EvolvesRefl(WorldAfter(cfg, w, steps, n));
    }
  }

  lemma FairAt(cfg: Config, w0: World, steps: seq<Step>, i: nat)
    requires FairSteps(cfg, w0, steps) && i < |steps|
    ensures FairStep(cfg, WorldAfter(cfg, w0, steps, i), steps[i])
  {
  }

  lemma EvolvesRefl(w: World)
    ensures Evolves(w, w)
  {
  }
}
