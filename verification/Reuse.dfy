/** Single use under every interleaving: exactly which calls can still succeed with a token that is gone. */
module Reuse {
  import opened Domain
  import opened Keyspace
  import opened Users
  import opened Machine
  import RateLimiting
  import opened Invariants
  import opened Runs
  import opened Calls
  import opened Interleaving

  /** The call has read its token, and has not failed since. */
  predicate PastRead(call: Call, p: Proc) {
    Holding(call, p) || Spent(call, p)
  }

  /** The command meets no obstacle: the database answers, the owner is there and passes, no email is taken.
      Whether the token is still stored is not asked again. */
  ghost predicate Clear(cfg: Config, w: World, p: Proc, io: Io) {
    match p
    case SelectOwner(kind, _, arg, id, _) =>
      io.out.Acked? && id in w.users && Passes(cfg, kind, arg, w.users[id], w.now + io.wait)
    case DelState(_, provider, _, info, _) => Supported(provider) && info.Some?
    case SelectOAuth(_, _, _) => io.out.Acked?
    case InsertUser(row, _) => io.out.Acked? && ByEmail(w.users, row.tenant, row.email) == {}
    case UpdateUser(user, _) =>
      io.out.Acked? && (user.id in w.users ==> ByEmail(w.users, w.users[user.id].tenant, user.email) - {user.id} == {})
    case SetRefresh(_, _) => io.out.Acked?
    case _ => true
  }

  predicate SpendsToken(call: Call) {
    Target(call).Some? && !call.Logout?
  }

  ghost predicate ClearOrFails(cfg: Config, w: World, call: Call, p: Proc, io: Io)
    requires !p.Done?
  {
    var p1 := Next(cfg, w, p, io).1;
    if Clear(cfg, w, p, io) then PastRead(call, p1) else Failing(p1)
  }

  lemma ClearOwner(cfg: Config, w: World, call: Call, p: Proc, io: Io)
    requires p.SelectOwner? && SpendsToken(call) && PastRead(call, p) && Keyed(w.users)
    ensures ClearOrFails(cfg, w, call, p, io)
  {
    hide CodeValid, ByEmail, TokenCommand;
  }

  lemma ClearDel(cfg: Config, w: World, call: Call, p: Proc, io: Io)
    requires (p.DelToken? || p.DelState?) && SpendsToken(call) && PastRead(call, p)
    ensures ClearOrFails(cfg, w, call, p, io)
  {
    hide ByEmail, Del, RowCommand;
  }

  lemma ClearWrite(cfg: Config, w: World, call: Call, p: Proc, io: Io)
    requires (p.UpdateUser? || p.SetRefresh?) && SpendsToken(call) && PastRead(call, p)
    ensures ClearOrFails(cfg, w, call, p, io)
  {
    hide ByEmail, Set;
  }

  lemma ClearSignIn(cfg: Config, w: World, call: Call, p: Proc, io: Io)
    requires (p.SelectOAuth? || p.InsertUser?) && SpendsToken(call) && PastRead(call, p) && Fair(w, p, io)
    requires Keyed(w.users)
    ensures ClearOrFails(cfg, w, call, p, io)
  {
    hide ByEmail, TokenCommand;
    if p.SelectOAuth? {
      var found := Answer(w.users, Pick(ByOAuth(w.users, p.tenant, p.provider, p.found.subject)), io.out);
      assert found.Some? ==> HasOAuth(found.value, p.tenant, p.provider, p.found.subject);
    }
  }

  lemma PastReadAt(call: Call, p: Proc)
    requires SpendsToken(call) && PastRead(call, p) && !p.Done?
    ensures || p.SelectOwner? || p.DelToken? || p.DelState? || p.UpdateUser?
            || p.SetRefresh? || p.SelectOAuth? || p.InsertUser?
  {
  }

  /** A call past its read goes on, or fails, as the database and its checks decide. */
  lemma ClearStep(cfg: Config, w: World, call: Call, p: Proc, io: Io)
    requires !p.Done? && SpendsToken(call) && PastRead(call, p) && Fair(w, p, io) && Keyed(w.users)
    ensures ClearOrFails(cfg, w, call, p, io)
  {
    PastReadAt(call, p);
    hide PastRead, Fair, ClearOrFails, SpendsToken, Keyed;
    if p.SelectOwner? {
      ClearOwner(cfg, w, call, p, io);
    } else if p.DelToken? || p.DelState? {
      ClearDel(cfg, w, call, p, io);
    } else if p.UpdateUser? || p.SetRefresh? {
      ClearWrite(cfg, w, call, p, io);
    } else {
      ClearSignIn(cfg, w, call, p, io);
    }
  }

  // ---------- over interleavings ----------

  /** Move k is a command of call q. */
  ghost predicate CommandOf(cfg: Config, s: System, moves: seq<Move>, k: nat, q: Pid)
    requires k < |moves|
  {
    Allowed(At(cfg, s, moves, k), moves[k]) && moves[k].Command? && moves[k].pid == q
  }

  /** No command of call q among moves i to j meets an obstacle. */
  ghost predicate Unhindered(cfg: Config, s: System, moves: seq<Move>, i: nat, j: nat, q: Pid)
    requires i <= j <= |moves|
  {
    forall k :: i <= k < j && CommandOf(cfg, s, moves, k, q) ==>
      Clear(cfg, At(cfg, s, moves, k).w, At(cfg, s, moves, k).flights[q].p, moves[k].io)
  }

  ghost predicate Presents(s: System, q: Pid, key: Key) {
    q in s.flights && SpendsToken(s.flights[q].call) && Target(s.flights[q].call) == Some(key)
  }

  /** The call is past its read of the token. */
  ghost predicate ReadIn(s: System, q: Pid, key: Key) {
    Presents(s, q, key) && PastRead(s.flights[q].call, s.flights[q].p)
  }

  ghost predicate FailingIn(s: System, q: Pid, key: Key) {
    Presents(s, q, key) && Failing(s.flights[q].p)
  }

  lemma MovePastRead(cfg: Config, s: System, m: Move, q: Pid, key: Key)
    requires Safe(cfg, s)
    ensures var s1, mine := Apply(cfg, s, m), Allowed(s, m) && m.Command? && m.pid == q;
            && (FailingIn(s, q, key) ==> FailingIn(s1, q, key) && !mine)
            && (ReadIn(s, q, key) ==>
                  if mine && !Clear(cfg, s.w, s.flights[q].p, m.io) then FailingIn(s1, q, key) else ReadIn(s1, q, key))
  {
    hide Next, Fair, PastRead, SpendsToken, Clear, FlightSafe;
    if Allowed(s, m) && m.Command? && m.pid == q && ReadIn(s, q, key) {
      SafeIsKeyed(cfg, s);
      ClearStep(cfg, s.w, s.flights[q].call, s.flights[q].p, m.io);
    }
  }

  lemma SafeIsKeyed(cfg: Config, s: System)
    requires Safe(cfg, s)
    ensures Keyed(s.w.users)
  {
  }

  /** Once a call has read its token, only its own remaining commands decide whether it fails. */
  lemma {:induction false} AfterTheRead(cfg: Config, s: System, moves: seq<Move>, i: nat, j: nat, q: Pid, key: Key)
    requires Safe(cfg, s) && i <= j <= |moves| && ReadIn(At(cfg, s, moves, i), q, key)
    ensures var b := At(cfg, s, moves, j);
            if Unhindered(cfg, s, moves, i, j, q) then ReadIn(b, q, key) else FailingIn(b, q, key)
  {
    hide Apply, Safe, ReadIn, FailingIn, Clear, Allowed;
    if i < j {
      AfterTheRead(cfg, s, moves, i, j - 1, q, key);
      SafeAt(cfg, s, moves, j - 1);
      MovePastRead(cfg, At(cfg, s, moves, j - 1), moves[j - 1], q, key);
      OneMore(cfg, s, moves, i, j, q);
    }
  }

  lemma OneMore(cfg: Config, s: System, moves: seq<Move>, i: nat, j: nat, q: Pid)
    requires i < j <= |moves|
    ensures Unhindered(cfg, s, moves, i, j, q) <==>
            && Unhindered(cfg, s, moves, i, j - 1, q)
            && (CommandOf(cfg, s, moves, j - 1, q) ==>
                  Clear(cfg, At(cfg, s, moves, j - 1).w, At(cfg, s, moves, j - 1).flights[q].p, moves[j - 1].io))
  {
    hide At, Allowed, Clear;
  }

  /** Move g is the GET with which call q reads the token: acknowledged, while the token is in force, and
      for an OAuth state with the provider it was stored for. */
  ghost predicate ReadsAt(cfg: Config, s: System, moves: seq<Move>, g: nat, q: Pid, key: Key)
    requires g < |moves|
  {
    var b := At(cfg, s, moves, g);
    CommandOf(cfg, s, moves, g, q) && ReadsNow(b.w, b.flights[q].call, b.flights[q].p, moves[g].io, key)
  }

  ghost predicate ReadsNow(w: World, call: Call, p: Proc, io: Io, key: Key) {
    var got := Get(w.kv, w.now + io.wait, key, io.out);
    && SpendsToken(call) && Target(call) == Some(key)
    && (p.GetOwner? || p.GetState?) && got.Found? && (p.GetState? ==> got == Found(OfProvider(p.provider)))
  }

  lemma ReadStep(cfg: Config, w: World, call: Call, p: Proc, io: Io, key: Key)
    requires !p.Done? && Tracks(cfg, call, p) && SpendsToken(call) && Target(call) == Some(key) && !PastRead(call, p)
    requires OwnersBorn(w.born, w.kv)
    ensures PastRead(call, Next(cfg, w, p, io).1) <==> ReadsNow(w, call, p, io, key)
  {
    hide RowCommand;
    assert p == Start(cfg, call);
    hide CodeValid;
  }

  /** From one move to the next a call gets past its read exactly by reading. */
  lemma MoveReads(cfg: Config, s: System, m: Move, q: Pid, key: Key)
    requires Safe(cfg, s) && !ReadIn(s, q, key)
    ensures ReadIn(Apply(cfg, s, m), q, key) <==>
            && Allowed(s, m) && m.Command? && m.pid == q
            && ReadsNow(s.w, s.flights[q].call, s.flights[q].p, m.io, key)
  {
    hide Next, Fair, PastRead, Tracks, SpendsToken;
    if Allowed(s, m) && m.pid == q {
      match m
      case Arrive(_, call) => NotPastStart(cfg, call);
      case Command(_, io) =>
        SafeFlight(cfg, s, q);
        SafeOwners(cfg, s);
        if Presents(s, q, key) {
          ReadStep(cfg, s.w, s.flights[q].call, s.flights[q].p, io, key);
        }
    }
  }

  lemma NotPastStart(cfg: Config, call: Call)
    ensures !PastRead(call, Start(cfg, call))
  {
    TracksStart(cfg, call);
  }

  lemma SafeOwners(cfg: Config, s: System)
    requires Safe(cfg, s)
    ensures OwnersBorn(s.w.born, s.w.kv)
  {
  }

  /** A call past its read has read before, and met no obstacle since. */
  lemma {:induction false} WasRead(cfg: Config, s: System, moves: seq<Move>, i: nat, q: Pid, key: Key) returns (g: nat)
    requires Safe(cfg, s) && i <= |moves| && q !in s.flights && ReadIn(At(cfg, s, moves, i), q, key)
    ensures g < i && ReadsAt(cfg, s, moves, g, q, key) && Unhindered(cfg, s, moves, g + 1, i, q)
  {
    hide Apply, Safe, PastRead, Clear, Allowed, ReadsNow, SpendsToken;
    var b := At(cfg, s, moves, i - 1);
    SafeAt(cfg, s, moves, i - 1);
    if ReadIn(b, q, key) {
      g := WasRead(cfg, s, moves, i - 1, q, key);
      MovePastRead(cfg, b, moves[i - 1], q, key);
      OneMore(cfg, s, moves, g + 1, i, q);
      NotBoth(At(cfg, s, moves, i), q, key);
    } else {
      g := i - 1;
      MoveReads(cfg, b, moves[i - 1], q, key);
    }
  }

  lemma NotBoth(s: System, q: Pid, key: Key)
    requires ReadIn(s, q, key)
    ensures !FailingIn(s, q, key)
  {
  }

  lemma DoneMeans(cfg: Config, s: System, q: Pid, key: Key)
    requires Safe(cfg, s) && Presents(s, q, key) && s.flights[q].p.Done?
    ensures SucceededAt(s, q, key) <==> ReadIn(s, q, key)
  {
    if SucceededAt(s, q, key) {
      SuccessSpends(cfg, s, q, key);
    }
  }

  /** Single use, exactly. Let the token be gone at point i, and let a call with it be finished at point j.
      The call has succeeded if and only if it read the token before i and none of its later commands met
      an obstacle: being late with its DEL is no obstacle. */
  lemma SucceedsExactlyWhenReadBefore(cfg: Config, s: System, moves: seq<Move>, i: nat, j: nat, key: Key, q: Pid)
    requires Safe(cfg, s) && i <= j <= |moves| && q !in s.flights && Gone(At(cfg, s, moves, i).w, key)
    requires Presents(At(cfg, s, moves, j), q, key) && At(cfg, s, moves, j).flights[q].p.Done?
    ensures SucceededAt(At(cfg, s, moves, j), q, key) <==>
            exists g: nat :: g < i && ReadsAt(cfg, s, moves, g, q, key) && Unhindered(cfg, s, moves, g + 1, j, q)
  {
    hide At, Safe, ReadIn, ReadsAt, Unhindered, SucceededAt, FailingIn, Presents, Gone;
    SafeAt(cfg, s, moves, j);
    DoneMeans(cfg, At(cfg, s, moves, j), q, key);
    if SucceededAt(At(cfg, s, moves, j), q, key) {
      ReadBeforeGone(cfg, s, moves, i, j, key, q);
      var g := WasRead(cfg, s, moves, i, q, key);
      StillUnhindered(cfg, s, moves, g, j, q, key);
    }
    if g: nat :| g < i && ReadsAt(cfg, s, moves, g, q, key) && Unhindered(cfg, s, moves, g + 1, j, q) {
      ReadGoesOn(cfg, s, moves, g, q, key);
      AfterTheRead(cfg, s, moves, g + 1, j, q, key);
    }
  }

  lemma ReadGoesOn(cfg: Config, s: System, moves: seq<Move>, g: nat, q: Pid, key: Key)
    requires Safe(cfg, s) && g < |moves| && ReadsAt(cfg, s, moves, g, q, key)
    ensures ReadIn(At(cfg, s, moves, g + 1), q, key)
  {
    hide Apply, Safe, ReadIn, Allowed, ReadsNow;
    SafeAt(cfg, s, moves, g);
    InFlightAt(cfg, s, moves, g, q, key);
    NotYetRead(cfg, At(cfg, s, moves, g), moves[g].io, q, key);
    MoveReads(cfg, At(cfg, s, moves, g), moves[g], q, key);
  }

  lemma NotYetRead(cfg: Config, s: System, io: Io, q: Pid, key: Key)
    requires q in s.flights && ReadsNow(s.w, s.flights[q].call, s.flights[q].p, io, key)
    ensures !ReadIn(s, q, key)
  {
  }

  lemma StillUnhindered(cfg: Config, s: System, moves: seq<Move>, g: nat, j: nat, q: Pid, key: Key)
    requires Safe(cfg, s) && g < j <= |moves| && ReadsAt(cfg, s, moves, g, q, key)
    requires ReadIn(At(cfg, s, moves, j), q, key)
    ensures Unhindered(cfg, s, moves, g + 1, j, q)
  {
    hide At, Safe, ReadIn, ReadsAt, Unhindered, FailingIn;
    ReadGoesOn(cfg, s, moves, g, q, key);
    AfterTheRead(cfg, s, moves, g + 1, j, q, key);
    NotBoth(At(cfg, s, moves, j), q, key);
  }

  lemma ReadBeforeGone(cfg: Config, s: System, moves: seq<Move>, i: nat, j: nat, key: Key, q: Pid)
    requires Safe(cfg, s) && i <= j <= |moves| && q !in s.flights && Gone(At(cfg, s, moves, i).w, key)
    requires ReadIn(At(cfg, s, moves, j), q, key)
    ensures ReadIn(At(cfg, s, moves, i), q, key)
  {
    hide Safe, Apply, Gone, Holding, Spent;
    if !ReadIn(At(cfg, s, moves, i), q, key) {
      if q in At(cfg, s, moves, i).flights {
        SameCall(cfg, s, moves, i, j, q);
      }
      NoneSpendsLater(cfg, s, moves, i, j, key, q);
    }
  }

  /** A call in flight stays the same call. */
  lemma {:induction false} SameCall(cfg: Config, s: System, moves: seq<Move>, i: nat, j: nat, q: Pid)
    requires i <= j <= |moves| && q in At(cfg, s, moves, i).flights
    ensures q in At(cfg, s, moves, j).flights
    ensures At(cfg, s, moves, j).flights[q].call == At(cfg, s, moves, i).flights[q].call
  {
    hide Next, Fair;
    if i < j {
      SameCall(cfg, s, moves, i, j - 1, q);
    }
  }

  /** Two calls that succeed with one token overlap: once a refresh, a logout, or any other spending of a
      token has succeeded, no call that arrives afterwards succeeds with it, at any later point. */
  lemma SuccessesOverlap(cfg: Config, s: System, moves: seq<Move>, i: nat, j: nat, key: Key, p: Pid, q: Pid)
    requires Safe(cfg, s) && i <= j <= |moves|
    requires SucceededAt(At(cfg, s, moves, i), p, key) && q !in At(cfg, s, moves, i).flights
    ensures SucceededAt(At(cfg, s, moves, j), q, key) ==> At(cfg, s, moves, j).flights[q].call.Logout?
  {
    hide At, Safe, ReadsAt, Unhindered;
    SafeAt(cfg, s, moves, i);
    SuccessSpends(cfg, At(cfg, s, moves, i), p, key);
    var b := At(cfg, s, moves, j);
    if SucceededAt(b, q, key) && !b.flights[q].call.Logout? {
      StaysOut(cfg, s, moves, i, q);
      SucceedsExactlyWhenReadBefore(cfg, s, moves, i, j, key, q);
      var g: nat :| g < i && ReadsAt(cfg, s, moves, g, q, key);
      InFlightAt(cfg, s, moves, g, q, key);
      SameCall(cfg, s, moves, g, i, q);
    }
  }

  lemma InFlightAt(cfg: Config, s: System, moves: seq<Move>, g: nat, q: Pid, key: Key)
    requires g < |moves| && ReadsAt(cfg, s, moves, g, q, key)
    ensures q in At(cfg, s, moves, g).flights
  {
    hide At;
  }

  lemma StaysOut(cfg: Config, s: System, moves: seq<Move>, i: nat, q: Pid)
    requires i <= |moves| && q !in At(cfg, s, moves, i).flights
    ensures q !in s.flights
  {
    hide Next, Fair;
    if q in s.flights {
      SameCall(cfg, s, moves, 0, i, q);
    }
  }
}
