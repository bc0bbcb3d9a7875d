/** Calls that overlap: the commands of any number of calls in any order, each call free to stop. */
module Interleaving {
  import opened Domain
  import opened Keyspace
  import opened Users
  import opened Machine
  import RateLimiting
  import opened Invariants
  import opened Runs
  import opened Calls

  type Pid = nat

  datatype Flight = Flight(call: Call, p: Proc)

  datatype System = System(w: World, flights: map<Pid, Flight>)

  datatype Move = Arrive(pid: Pid, call: Call) | Command(pid: Pid, io: Io)

  ghost predicate Allowed(s: System, m: Move) {
    match m
    case Arrive(pid, _) => pid !in s.flights
    case Command(pid, io) => pid in s.flights && !s.flights[pid].p.Done? && Fair(s.w, s.flights[pid].p, io)
  }

  ghost function Apply(cfg: Config, s: System, m: Move): System {
    if !Allowed(s, m) then s
    else
      match m
      case Arrive(pid, call) => System(Begin(s.w, call), s.flights[pid := Flight(call, Start(cfg, call))])
      case Command(pid, io) =>
        var (w, p) := Next(cfg, s.w, s.flights[pid].p, io);
        System(w, s.flights[pid := Flight(s.flights[pid].call, p)])
  }

  /** The system after the first n moves; a move that is not allowed changes nothing. */
  ghost function At(cfg: Config, s: System, moves: seq<Move>, n: nat): System
    requires n <= |moves|
  {
    if n == 0 then s else Apply(cfg, At(cfg, s, moves, n - 1), moves[n - 1])
  }

  // ---------- what every interleaving keeps ----------

  /** The part of a good world that does not need calls to be alone. */
  ghost predicate WorldSafe(w: World) {
    && Consistent(w.users, w.born) && NIL_ID !in w.born && RootsSeen(w) && KeysSeen(w) && OwnersBorn(w.born, w.kv)
  }

  /** Rows a call remembers keep the identity they were born with, and new rows are plain members. */
  ghost predicate RemembersBorn(w: World, p: Proc) {
    && Familiar(w, p)
    && (p.InsertUser? ==> p.row.role == Member)
    && (p.Done? && p.reply.Session? ==> p.reply.id in w.born && w.born[p.reply.id].role == p.reply.role)
  }

  ghost predicate FlightSafe(cfg: Config, w: World, f: Flight) {
    && Tracks(cfg, f.call, f.p) && RemembersBorn(w, f.p) && Presented(f.call) <= w.seen
    && (Spent(f.call, f.p) ==> Target(f.call).value !in w.kv)
  }

  ghost predicate Safe(cfg: Config, s: System) {
    WorldSafe(s.w) && forall pid :: pid in s.flights ==> FlightSafe(cfg, s.w, s.flights[pid])
  }

  /** Rows born later are plain members. */
  ghost predicate BornMembers(w: World, w1: World) {
    forall id :: id in w1.born && id !in w.born ==> w1.born[id].role == Member
  }

  lemma TableSafeStep(cfg: Config, w: World, p: Proc, io: Io)
    requires !p.Done? && Consistent(w.users, w.born) && NIL_ID !in w.born && RemembersBorn(w, p) && Fair(w, p, io)
    ensures var w1 := Next(cfg, w, p, io).0;
            Consistent(w1.users, w1.born) && NIL_ID !in w1.born && BornMembers(w, w1)
  {
    hide CodeValid, Insert, Update, Delete, Consistent, AfterInsert, AfterLogin, AfterGet, AfterOwner, AfterRow,
         AfterOAuth, RateLimiting.Throttled, TokenCommand;
    match p
    case InsertUser(row, _) =>
      var now := w.now + io.wait;
      InsertConsistent(w.users, w.born, row.(id := io.id, createdAt := now, updatedAt := now), io.out);
    case UpdateUser(user, _) =>
      RoleStays(w, user);
      UpdateConsistent(w.users, w.born, user, io.out);
    case DeleteRow(id) => DeleteConsistent(w.users, w.born, id, io.out);
    case _ =>
  }

  lemma RoleStays(w: World, user: User)
    requires Consistent(w.users, w.born) && RowBorn(w, user)
    ensures user.id in w.users ==> user.role == w.users[user.id].role
  {
  }

  lemma TokensSafeStep(cfg: Config, w: World, p: Proc, io: Io)
    requires !p.Done? && RootsSeen(w) && KeysSeen(w) && Fair(w, p, io)
    ensures var w1 := Next(cfg, w, p, io).0; RootsSeen(w1) && KeysSeen(w1)
  {
    hide CodeValid, Insert, Update, AfterInsert, AfterLogin, AfterGet, AfterOwner, AfterRow, AfterOAuth,
         RateLimiting.Throttled, RowCommand;
  }

  lemma OwnersOnTable(cfg: Config, w: World, p: Proc, io: Io)
    requires OnTable(p) && OwnersBorn(w.born, w.kv) && Familiar(w, p)
    ensures var w1 := Next(cfg, w, p, io).0; OwnersBorn(w1.born, w1.kv)
  {
    hide CodeValid, Insert, Update, Delete, AfterInsert, AfterLogin, AfterGet, AfterOwner, AfterRow, AfterOAuth,
         RateLimiting.Throttled, TokenCommand;
  }

  lemma OwnersOnTokens(cfg: Config, w: World, p: Proc, io: Io)
    requires !p.Done? && !OnTable(p) && OwnersBorn(w.born, w.kv) && Familiar(w, p)
    ensures var w1 := Next(cfg, w, p, io).0; OwnersBorn(w1.born, w1.kv)
  {
    hide CodeValid, Insert, Update, Delete, AfterInsert, AfterLogin, AfterGet, AfterOwner, AfterRow, AfterOAuth,
         RateLimiting.Throttled, RowCommand;
  }

  lemma OwnersStep(cfg: Config, w: World, p: Proc, io: Io)
    requires !p.Done? && OwnersBorn(w.born, w.kv) && Familiar(w, p)
    ensures var w1 := Next(cfg, w, p, io).0; OwnersBorn(w1.born, w1.kv)
  {
    hide Next, OwnersBorn, Familiar, OnTable;
    if OnTable(p) {
      OwnersOnTable(cfg, w, p, io);
    } else {
      OwnersOnTokens(cfg, w, p, io);
    }
  }

  lemma WorldSafeStep(cfg: Config, w: World, p: Proc, io: Io)
    requires !p.Done? && WorldSafe(w) && RemembersBorn(w, p) && Fair(w, p, io)
    ensures var w1 := Next(cfg, w, p, io).0; WorldSafe(w1) && BornMembers(w, w1)
  {
    hide Next, Consistent, RootsSeen, KeysSeen, OwnersBorn, Familiar, Fair, BornMembers;
    TableSafeStep(cfg, w, p, io);
    TokensSafeStep(cfg, w, p, io);
    OwnersStep(cfg, w, p, io);
  }

  lemma RemembersToken(cfg: Config, w: World, p: Proc, io: Io)
    requires p.GetOwner? || p.SelectOwner?
    requires WorldSafe(w) && RemembersBorn(w, p)
    ensures var (w1, p1) := Next(cfg, w, p, io); RemembersBorn(w1, p1)
  {
    hide CodeValid, UniqueEmails, RootsSeen, KeysSeen;
  }

  lemma RemembersDel(cfg: Config, w: World, p: Proc, io: Io)
    requires (p.DelToken? || p.DelState? || p.GetState? || p.SetState? || p.DelRefresh?) && RemembersBorn(w, p)
    ensures var (w1, p1) := Next(cfg, w, p, io); RemembersBorn(w1, p1)
  {
    hide Set, Del, Get;
  }

  lemma RemembersOnTable(cfg: Config, w: World, p: Proc, io: Io)
    requires OnTable(p) && !p.GetOwner? && !p.SelectOwner?
    requires !p.DelToken? && !p.DelState? && !p.GetState? && !p.SetState? && !p.DelRefresh?
    requires WorldSafe(w) && RemembersBorn(w, p) && Fair(w, p, io)
    ensures var (w1, p1) := Next(cfg, w, p, io); RemembersBorn(w1, p1)
  {
    hide CodeValid, UniqueEmails, RootsSeen, KeysSeen, OwnersBorn, Update, Set, Del, Get, RateLimiting.Throttled,
         TokenCommand;
  }

  lemma RemembersOnTokens(cfg: Config, w: World, p: Proc, io: Io)
    requires !p.Done? && !OnTable(p) && !p.GetOwner? && !p.SelectOwner?
    requires !p.DelToken? && !p.DelState? && !p.GetState? && !p.SetState? && !p.DelRefresh?
    requires WorldSafe(w) && RemembersBorn(w, p) && Fair(w, p, io)
    ensures var (w1, p1) := Next(cfg, w, p, io); RemembersBorn(w1, p1)
  {
    hide CodeValid, UniqueEmails, RootsSeen, KeysSeen, OwnersBorn, Update, Set, Del, Get, RateLimiting.Throttled,
         RowCommand;
  }

  lemma RemembersRow(cfg: Config, w: World, p: Proc, io: Io)
    requires !p.Done? && !p.GetOwner? && !p.SelectOwner?
    requires !p.DelToken? && !p.DelState? && !p.GetState? && !p.SetState? && !p.DelRefresh?
    requires WorldSafe(w) && RemembersBorn(w, p) && Fair(w, p, io)
    ensures var (w1, p1) := Next(cfg, w, p, io); RemembersBorn(w1, p1)
  {
    hide Next, WorldSafe, RemembersBorn, Fair, OnTable;
    if OnTable(p) {
      RemembersOnTable(cfg, w, p, io);
    } else {
      RemembersOnTokens(cfg, w, p, io);
    }
  }

  lemma RemembersStep(cfg: Config, w: World, p: Proc, io: Io)
    requires !p.Done? && WorldSafe(w) && RemembersBorn(w, p) && Fair(w, p, io)
    ensures var (w1, p1) := Next(cfg, w, p, io); RemembersBorn(w1, p1)
  {
    hide Next, WorldSafe, RemembersBorn, Fair;
    if p.GetOwner? || p.SelectOwner? {
      RemembersToken(cfg, w, p, io);
    } else if p.DelToken? || p.DelState? || p.GetState? || p.SetState? || p.DelRefresh? {
      RemembersDel(cfg, w, p, io);
    } else {
      RemembersRow(cfg, w, p, io);
    }
  }

  /** A call at rest is not disturbed by the commands of others. */
  lemma FlightStays(cfg: Config, w: World, w1: World, f: Flight)
    requires Grows(w, w1) && FlightSafe(cfg, w, f)
    ensures FlightSafe(cfg, w1, f)
  {
    hide Tracks;
    if Spent(f.call, f.p) {
      TargetPresented(f.call);
    }
  }

  lemma TargetPresented(call: Call)
    ensures Target(call).Some? ==> Target(call).value.token in Presented(call) && Target(call).value.kind != RateLimit
  {
  }

  lemma FlightSteps(cfg: Config, w: World, f: Flight, io: Io)
    requires !f.p.Done? && WorldSafe(w) && FlightSafe(cfg, w, f) && Fair(w, f.p, io)
    ensures var (w1, p1) := Next(cfg, w, f.p, io); FlightSafe(cfg, w1, Flight(f.call, p1)) && Grows(w, w1)
  {
    hide Next, Fair, Tracks, RemembersBorn;
    RemembersStep(cfg, w, f.p, io);
    CallSteps(cfg, w, f.call, f.p, io);
    GrowsStep(cfg, w, f.p, io);
    TargetPresented(f.call);
  }

  lemma SafeStep(cfg: Config, s: System, m: Move)
    requires Safe(cfg, s)
    ensures Safe(cfg, Apply(cfg, s, m)) && Grows(s.w, Apply(cfg, s, m).w) && BornMembers(s.w, Apply(cfg, s, m).w)
  {
    var s1 := Apply(cfg, s, m);
    if Allowed(s, m) {
      match m
      case Arrive(pid, call) =>
        TracksStart(cfg, call);
        ArrivalRemembers(cfg, s1.w, call);
      case Command(pid, io) =>
        FlightSteps(cfg, s.w, s.flights[pid], io);
        WorldSafeStep(cfg, s.w, s.flights[pid].p, io);
    }
    hide FlightSafe, Next, WorldSafe, Grows;
    forall q | q in s.flights ensures FlightSafe(cfg, s1.w, s.flights[q]) {
      GrowsOnMove(cfg, s, m);
      FlightStays(cfg, s.w, s1.w, s.flights[q]);
    }
  }

  lemma ArrivalRemembers(cfg: Config, w: World, call: Call)
    requires Presented(call) <= w.seen
    ensures RemembersBorn(w, Start(cfg, call))
  {
  }

  lemma GrowsOnMove(cfg: Config, s: System, m: Move)
    requires Safe(cfg, s)
    ensures Grows(s.w, Apply(cfg, s, m).w)
  {
    if Allowed(s, m) && m.Command? {
      GrowsStep(cfg, s.w, s.flights[m.pid].p, m.io);
    }
  }

  /** Before any call arrives a good world is safe; so every interleaving of an initial world is covered. */
  lemma GoodIsSafe(cfg: Config, w: World)
    requires Good(cfg, w)
    ensures Safe(cfg, System(w, map[]))
  {
  }

  lemma {:induction false} SafeAt(cfg: Config, s: System, moves: seq<Move>, n: nat)
    requires Safe(cfg, s) && n <= |moves|
    ensures Safe(cfg, At(cfg, s, moves, n))
  {
    if n > 0 {
      SafeAt(cfg, s, moves, n - 1);
      SafeStep(cfg, At(cfg, s, moves, n - 1), moves[n - 1]);
    }
  }

  lemma {:induction false} Between(cfg: Config, s: System, moves: seq<Move>, i: nat, j: nat)
    requires Safe(cfg, s) && i <= j <= |moves|
    ensures var a, b := At(cfg, s, moves, i), At(cfg, s, moves, j);
            Safe(cfg, a) && Safe(cfg, b) && Grows(a.w, b.w) && BornMembers(a.w, b.w)
  {
    hide Safe, Apply, Grows;
    SafeAt(cfg, s, moves, i);
    SafeAt(cfg, s, moves, j);
    if i < j {
      Between(cfg, s, moves, i, j - 1);
      var a, m := At(cfg, s, moves, i), At(cfg, s, moves, j - 1);
      SafeStep(cfg, m, moves[j - 1]);
      MembersCompose(a.w, m.w, At(cfg, s, moves, j).w);
    } else {
      GrowsRefl(At(cfg, s, moves, i).w);
    }
  }

  lemma GrowsRefl(w: World)
    ensures Grows(w, w)
  {
  }

  lemma MembersCompose(w: World, w1: World, w2: World)
    requires Grows(w, w1) && Grows(w1, w2) && BornMembers(w, w1) && BornMembers(w1, w2)
    ensures Grows(w, w2) && BornMembers(w, w2)
  {
  }

  // ---------- single use ----------

  ghost predicate Gone(w: World, key: Key) {
    key.kind != RateLimit && key.token in w.seen && key !in w.kv
  }

  /** Once a presented token is gone, no call that has not read it by then gets to hold or spend it. */
  lemma {:induction false} NoneSpendsLater(cfg: Config, s: System, moves: seq<Move>, i: nat, j: nat, key: Key, q: Pid)
    requires Safe(cfg, s) && i <= j <= |moves|
    requires Gone(At(cfg, s, moves, i).w, key)
    requires var f := At(cfg, s, moves, i).flights;
             q in f && Target(f[q].call) == Some(key) ==> !Spent(f[q].call, f[q].p) && !Holding(f[q].call, f[q].p)
    ensures var b := At(cfg, s, moves, j);
            && Gone(b.w, key)
            && (q in b.flights && Target(b.flights[q].call) == Some(key) && !b.flights[q].call.Logout? ==>
                  !Spent(b.flights[q].call, b.flights[q].p) && !Holding(b.flights[q].call, b.flights[q].p))
  {
    hide Next, Tracks, Fair, Holding, Spent, Safe, WorldSafe;
    if i < j {
      NoneSpendsLater(cfg, s, moves, i, j - 1, key, q);
      var b, m := At(cfg, s, moves, j - 1), moves[j - 1];
      SafeAt(cfg, s, moves, j - 1);
      SafeStep(cfg, b, m);
      if Allowed(b, m) && m.pid == q {
        match m
        case Arrive(_, call) => TracksStart(cfg, call);
        case Command(_, io) =>
          SafeFlight(cfg, b, q);
          CallSteps(cfg, b.w, b.flights[q].call, b.flights[q].p, io);
      }
    }
  }

  lemma SafeFlight(cfg: Config, s: System, q: Pid)
    requires Safe(cfg, s) && q in s.flights
    ensures Tracks(cfg, s.flights[q].call, s.flights[q].p)
  {
  }

  ghost predicate SucceededAt(s: System, pid: Pid, key: Key) {
    && pid in s.flights && Target(s.flights[pid].call) == Some(key)
    && s.flights[pid].p.Done? && Succeeded(s.flights[pid].p.reply)
  }

  lemma SuccessSpends(cfg: Config, s: System, pid: Pid, key: Key)
    requires Safe(cfg, s) && SucceededAt(s, pid, key)
    ensures Spent(s.flights[pid].call, s.flights[pid].p) && Gone(s.w, key)
  {
    TargetPresented(s.flights[pid].call);
  }

  // ---------- identity and role ----------

  /** Id, tenant, OAuth identity, creation time and role of a user never change while it exists. */
  lemma IdentityNeverChanges(cfg: Config, s: System, moves: seq<Move>, i: nat, j: nat, id: Id)
    requires Safe(cfg, s) && i <= j <= |moves|
    requires id in At(cfg, s, moves, i).w.users && id in At(cfg, s, moves, j).w.users
    ensures SameIdentity(At(cfg, s, moves, i).w.users[id], At(cfg, s, moves, j).w.users[id])
  {
    Between(cfg, s, moves, i, j);
  }

  ghost function Admins(w: World): set<Id> {
    set id | id in w.users && w.users[id].role == Admin
  }

  /** Nobody becomes an administrator. */
  lemma AdminsNeverGrow(cfg: Config, s: System, moves: seq<Move>, i: nat, j: nat)
    requires Safe(cfg, s) && i <= j <= |moves|
    ensures Admins(At(cfg, s, moves, j).w) <= Admins(At(cfg, s, moves, i).w)
  {
    Between(cfg, s, moves, i, j);
    hide At;
  }

  /** The role claim of every issued session is the role of the user, then and as long as it exists;
      without a privileged user to begin with, none carries the permission to manage the system. */
  lemma SessionClaims(cfg: Config, s: System, moves: seq<Move>, n: nat, pid: Pid)
    requires Safe(cfg, s) && n <= |moves|
    ensures var b := At(cfg, s, moves, n);
            pid in b.flights && b.flights[pid].p.Done? && b.flights[pid].p.reply.Session? ==>
              var Session(id, _, role, _, _) := b.flights[pid].p.reply;
              && id in b.w.born && (id in b.w.users ==> b.w.users[id].role == role)
              && ((forall u :: u in s.w.born ==> !HasPermission(s.w.born[u].role, ManageSystem)) ==>
                    !HasPermission(role, ManageSystem))
  {
    Between(cfg, s, moves, 0, n);
    hide At;
  }
}
