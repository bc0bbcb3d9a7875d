/** Tenant independence when calls overlap: leave out every command that concerns another tenant, and
    tenant a cannot tell the difference. */
module Isolation {
  import opened Domain
  import opened Keyspace
  import opened Users
  import opened Machine
  import RateLimiting
  import opened Invariants
  import opened Runs
  import opened Interleaving
  import opened Tenancy

  /** The next command of p concerns tenant a, or the OAuth states that all tenants share. */
  ghost predicate Concerns(a: Tenant, w: World, p: Proc) {
    Mine(a, w, p) || SharedPart(p)
  }

  /** A call of another tenant after its first command that is left out, whatever others do. */
  ghost predicate Elsewhere(a: Tenant, w: World, p: Proc) {
    if p.Done? then p.reply.Session? ==> BornElsewhere(w.born, p.reply.id, a)
    else !Concerns(a, w, p) && !p.GetOwner? && !p.DelRefresh?
  }

  /** v is what tenant a can see of s; each call is where it is in s, or is another tenant's. */
  ghost predicate Follows(a: Tenant, s: System, v: System) {
    && Sim(a, s.w, v.w) && s.flights.Keys == v.flights.Keys
    && forall pid :: pid in s.flights ==> v.flights[pid] == s.flights[pid] || Elsewhere(a, s.w, s.flights[pid].p)
  }

  /** The moves kept of a move: none if it is not allowed or is another tenant's command, else the move,
      with the time of the commands left out waited out. */
  ghost function KeepMove(a: Tenant, s: System, v: System, m: Move): seq<Move> {
    if !Allowed(s, m) then []
    else
      match m
      case Arrive(_, _) => [m]
      case Command(pid, io) =>
        if Concerns(a, s.w, s.flights[pid].p)
        then [Command(pid, Retime(io, if v.w.now <= s.w.now then s.w.now - v.w.now else 0))] else []
  }

  /** The move is not a left-out command of this call. */
  ghost predicate Own(a: Tenant, s: System, m: Move, pid: Pid) {
    Allowed(s, m) && m.Command? && m.pid == pid ==> Concerns(a, s.w, s.flights[pid].p)
  }

  lemma ElsewhereStays(a: Tenant, w: World, w1: World, p: Proc)
    requires Grows(w, w1) && Elsewhere(a, w, p)
    ensures Elsewhere(a, w1, p)
  {
  }

  lemma SafeIsReady(cfg: Config, a: Tenant, s: System, v: World, pid: Pid, io: Io)
    requires Safe(cfg, s) && pid in s.flights && Fair(s.w, s.flights[pid].p, io) && Sim(a, s.w, v)
    ensures Tenancy.Ready(a, s.w, v, s.flights[pid].p, io)
  {
    hide Familiar, Fair, SimUsers, SimBorn, SimKv, Consistent, OwnersBorn, KeysSeen;
    assert FlightSafe(cfg, s.w, s.flights[pid]);
  }

  /** What a command that concerns the tenant does, it does in both worlds. */
  ghost predicate SameStep(cfg: Config, a: Tenant, w: World, v: World, p: Proc, io: Io)
    requires !p.Done? && v.now <= w.now
  {
    var (w1, p1) := Next(cfg, w, p, io);
    var (v1, q1) := Next(cfg, v, p, Retime(io, w.now - v.now));
    q1 == p1 && Sim(a, w1, v1)
  }

  lemma SharedStep(cfg: Config, a: Tenant, w: World, v: World, p: Proc, io: Io)
    requires SharedPart(p) && Tenancy.Ready(a, w, v, p, io)
    ensures SameStep(cfg, a, w, v, p, io)
  {
    hide SimUsers, SimBorn, SimKv, Get, Del, Consistent, CodeValid, AfterInsert, AfterLogin, AfterGet, AfterOwner,
         AfterRow, RateLimiting.Throttled, RowCommand;
    SameGet(a, w.born, w.kv, v.kv, w.now + io.wait, Key(OAuthState, p.state), io.out);
    DelVisible(a, w.born, w.kv, v.kv, Key(OAuthState, p.state), io.out);
  }

  lemma ConcerningStep(cfg: Config, a: Tenant, w: World, v: World, p: Proc, io: Io)
    requires !p.Done? && Concerns(a, w, p) && Tenancy.Ready(a, w, v, p, io)
    ensures SameStep(cfg, a, w, v, p, io)
  {
    hide Next, Mine, Tenancy.Ready, Sim;
    if SharedPart(p) {
      SharedStep(cfg, a, w, v, p, io);
    } else {
      OwnStep(cfg, a, w, v, p, io);
    }
  }

  /** A call does not go back to its first command, and a session is for the user it is opened for. */
  lemma GoesOn(cfg: Config, w: World, p: Proc, io: Io)
    requires !p.Done?
    ensures var p1 := Next(cfg, w, p, io).1;
            && !p1.GetOwner? && !p1.DelRefresh?
            && (p1.Done? && p1.reply.Session? ==> p.SetRefresh? && p1.reply.id == p.user.id)
  {
    hide CodeValid, Insert, Update, ByEmail, ByOAuth, Set, Del, Get, RateLimiting.Throttled, RowCommand;
  }

  lemma LeftOutStep(cfg: Config, a: Tenant, w: World, v: World, p: Proc, io: Io)
    requires !p.Done? && !Concerns(a, w, p) && Tenancy.Ready(a, w, v, p, io) && Grows(w, Next(cfg, w, p, io).0)
    ensures var (w1, p1) := Next(cfg, w, p, io); Sim(a, w1, v) && Elsewhere(a, w1, p1)
  {
    ForeignStep(cfg, a, w, v, p, io);
    GoesOn(cfg, w, p, io);
    hide Next, Sim, Tenancy.Ready;
  }

  // ---------- one move ----------

  /** Every kept move is allowed, and the systems still follow one another; a call that was in the same
      place in both is so afterwards, unless the move was left out. */
  ghost predicate MoveFollowed(cfg: Config, a: Tenant, s: System, v: System, m: Move) {
    var kept, s1 := KeepMove(a, s, v, m), Apply(cfg, s, m);
    && |kept| <= 1
    && (|kept| == 1 ==> Allowed(v, kept[0]))
    && var v1 := if kept == [] then v else Apply(cfg, v, kept[0]);
       && Follows(a, s1, v1)
       && forall pid :: && pid in s1.flights && Own(a, s, m, pid)
                        && (pid in s.flights ==> v.flights[pid] == s.flights[pid])
            ==> v1.flights[pid] == s1.flights[pid]
  }

  lemma ArrivalFollows(cfg: Config, a: Tenant, s: System, v: System, m: Move)
    requires Follows(a, s, v) && m.Arrive? && Allowed(s, m)
    ensures MoveFollowed(cfg, a, s, v, m)
  {
    hide SimUsers, SimBorn, SimKv, Start;
    BeginSim(a, s.w, v.w, m.call);
    hide Mine, SharedPart;
    forall pid | pid in s.flights && v.flights[pid] != s.flights[pid]
      ensures Elsewhere(a, Begin(s.w, m.call), s.flights[pid].p)
    {
      BeginKeepsElsewhere(a, s.w, m.call, s.flights[pid].p);
    }
  }

  lemma BeginKeepsElsewhere(a: Tenant, w: World, call: Call, p: Proc)
    requires Elsewhere(a, w, p)
    ensures Elsewhere(a, Begin(w, call), p)
  {
  }

  lemma OthersStayElsewhere(cfg: Config, a: Tenant, s: System, m: Move)
    requires Safe(cfg, s)
    ensures forall q :: q in s.flights && Elsewhere(a, s.w, s.flights[q].p) ==>
              Elsewhere(a, Apply(cfg, s, m).w, s.flights[q].p)
  {
    hide Safe, Elsewhere, Grows, BornMembers, Apply;
    SafeStep(cfg, s, m);
    forall q | q in s.flights && Elsewhere(a, s.w, s.flights[q].p)
      ensures Elsewhere(a, Apply(cfg, s, m).w, s.flights[q].p)
    {
      ElsewhereStays(a, s.w, Apply(cfg, s, m).w, s.flights[q].p);
    }
  }

  lemma KeptCommand(cfg: Config, a: Tenant, s: System, v: System, pid: Pid, io: Io)
    requires Safe(cfg, s) && Follows(a, s, v) && Allowed(s, Command(pid, io)) && Concerns(a, s.w, s.flights[pid].p)
    ensures MoveFollowed(cfg, a, s, v, Command(pid, io))
  {
    hide Next, Safe, Sim, Elsewhere, Concerns, Fair, Tenancy.Ready;
    var p := s.flights[pid].p;
    SimTime(a, s.w, v.w);
    OthersStayElsewhere(cfg, a, s, Command(pid, io));
    SafeIsReady(cfg, a, s, v.w, pid, io);
    ConcernedIsHere(a, s.w, p);
    ConcerningStep(cfg, a, s.w, v.w, p, io);
    FairBelow(a, s.w, v.w, p, io, s.w.now - v.w.now);
  }

  lemma LeftOutCommand(cfg: Config, a: Tenant, s: System, v: System, pid: Pid, io: Io)
    requires Safe(cfg, s) && Follows(a, s, v) && Allowed(s, Command(pid, io)) && !Concerns(a, s.w, s.flights[pid].p)
    ensures MoveFollowed(cfg, a, s, v, Command(pid, io))
  {
    hide Next, Safe, Sim, Elsewhere, Concerns, Fair, Grows, Tenancy.Ready;
    OthersStayElsewhere(cfg, a, s, Command(pid, io));
    SafeIsReady(cfg, a, s, v.w, pid, io);
    GrowsOnMove(cfg, s, Command(pid, io));
    LeftOutStep(cfg, a, s.w, v.w, s.flights[pid].p, io);
  }

  lemma ConcernedIsHere(a: Tenant, w: World, p: Proc)
    requires Concerns(a, w, p) && !p.Done?
    ensures !Elsewhere(a, w, p)
  {
  }

  lemma MoveFollows(cfg: Config, a: Tenant, s: System, v: System, m: Move)
    requires Safe(cfg, s) && Follows(a, s, v)
    ensures MoveFollowed(cfg, a, s, v, m)
  {
    hide Safe, Follows, MoveFollowed, Concerns;
    if !Allowed(s, m) {
      RefusedFollows(cfg, a, s, v, m);
    } else if m.Arrive? {
      ArrivalFollows(cfg, a, s, v, m);
    } else if Concerns(a, s.w, s.flights[m.pid].p) {
      KeptCommand(cfg, a, s, v, m.pid, m.io);
    } else {
      LeftOutCommand(cfg, a, s, v, m.pid, m.io);
    }
  }

  lemma RefusedFollows(cfg: Config, a: Tenant, s: System, v: System, m: Move)
    requires Follows(a, s, v) && !Allowed(s, m)
    ensures MoveFollowed(cfg, a, s, v, m)
  {
    hide Sim, Elsewhere, Allowed;
  }

  // ---------- whole interleavings ----------

  /** The moves tenant a is left with from the first n moves. */
  ghost function Kept(cfg: Config, a: Tenant, s: System, v: System, moves: seq<Move>, n: nat): seq<Move>
    requires n <= |moves|
  {
    if n == 0 then []
    else
      var kept := Kept(cfg, a, s, v, moves, n - 1);
      kept + KeepMove(a, At(cfg, s, moves, n - 1), At(cfg, v, kept, |kept|), moves[n - 1])
  }

  ghost predicate AllAllowed(cfg: Config, s: System, moves: seq<Move>) {
    forall k :: 0 <= k < |moves| ==> Allowed(At(cfg, s, moves, k), moves[k])
  }

  /** None of the call's commands among the first n moves is left out. */
  ghost predicate OwnSoFar(cfg: Config, a: Tenant, s: System, moves: seq<Move>, n: nat, pid: Pid)
    requires n <= |moves|
  {
    forall k :: 0 <= k < n ==> Own(a, At(cfg, s, moves, k), moves[k], pid)
  }

  lemma {:induction false} AtPrefix(cfg: Config, s: System, xs: seq<Move>, ys: seq<Move>, n: nat)
    requires n <= |xs|
    ensures At(cfg, s, xs + ys, n) == At(cfg, s, xs, n)
  {
    hide Apply;
    if n > 0 {
      AtPrefix(cfg, s, xs, ys, n - 1);
    }
  }

  lemma AppendMove(cfg: Config, s: System, xs: seq<Move>, m: Move)
    requires AllAllowed(cfg, s, xs) && Allowed(At(cfg, s, xs, |xs|), m)
    ensures AllAllowed(cfg, s, xs + [m])
    ensures At(cfg, s, xs + [m], |xs| + 1) == Apply(cfg, At(cfg, s, xs, |xs|), m)
  {
    hide Apply, Allowed;
    forall k | 0 <= k < |xs| + 1 ensures Allowed(At(cfg, s, xs + [m], k), (xs + [m])[k]) {
      AtPrefix(cfg, s, xs, [m], k);
    }
    AtPrefix(cfg, s, xs, [m], |xs|);
  }

  /** Tenant independence under every interleaving. Leaving out the commands that concern other tenants gives
      an interleaving again, which ends with exactly the same users and tokens of the tenant. A call
      none of whose commands is left out is answered the same, and so is every call that opens a session
      for a user of the tenant. */
  lemma {:induction false} TenantsAreIsolated(cfg: Config, a: Tenant, s: System, v: System, moves: seq<Move>, n: nat)
    requires Safe(cfg, s) && Follows(a, s, v) && n <= |moves|
    ensures var kept := Kept(cfg, a, s, v, moves, n);
            var b, c := At(cfg, s, moves, n), At(cfg, v, kept, |kept|);
            && AllAllowed(cfg, v, kept) && Follows(a, b, c)
            && (forall pid :: pid in b.flights && OwnSoFar(cfg, a, s, moves, n, pid) &&
                              (pid in s.flights ==> v.flights[pid] == s.flights[pid])
                  ==> c.flights[pid] == b.flights[pid])
            && (forall pid :: pid in b.flights && b.flights[pid].p.Done? && b.flights[pid].p.reply.Session? &&
                              BornIn(b.w.born, b.flights[pid].p.reply.id, a)
                  ==> c.flights[pid] == b.flights[pid])
  {
    hide Safe, Sim, Apply, KeepMove, Own, Concerns, Allowed;
    if n > 0 {
      TenantsAreIsolated(cfg, a, s, v, moves, n - 1);
      SafeAt(cfg, s, moves, n - 1);
      var kept, m := Kept(cfg, a, s, v, moves, n - 1), moves[n - 1];
      var b, c := At(cfg, s, moves, n - 1), At(cfg, v, kept, |kept|);
      MoveFollows(cfg, a, b, c, m);
      FlightsGrow(cfg, b, m);
      var more := KeepMove(a, b, c, m);
      if more == [] {
        assert kept + more == kept;
      } else {
        assert more == [more[0]];
        AppendMove(cfg, v, kept, more[0]);
      }
    }
  }

  /** A call that is not in flight before the move has just arrived. */
  lemma FlightsGrow(cfg: Config, s: System, m: Move)
    ensures s.flights.Keys <= Apply(cfg, s, m).flights.Keys
  {
    hide Next, Fair;
  }

  /** The system with only the tenant's users and tokens in it is one to compare with. */
  lemma ViewFollows(a: Tenant, s: System)
    ensures Follows(a, s, System(ViewOf(a, s.w), s.flights))
  {
    ViewOfSim(a, s.w);
  }
}
