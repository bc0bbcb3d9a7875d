/** OAuth identities when calls overlap: exactly when a table comes to hold two rows of one identity. */
module Identities {
  import opened Domain
  import opened Keyspace
  import opened Users
  import opened Machine
  import RateLimiting
  import opened Invariants
  import opened Runs
  import opened Calls
  import opened Interleaving

  // ---------- the insertion that doubles an identity ----------

  /** The INSERT of a second row of an identity whose email is still free in the tenant. */
  ghost predicate Doubles(s: System, m: Move) {
    && Allowed(s, m) && m.Command? && s.flights[m.pid].p.InsertUser?
    && var row := s.flights[m.pid].p.row;
       && row.provider != "" && !m.io.out.Refused?
       && ByOAuth(s.w.users, row.tenant, row.provider, row.subject) != {}
       && ByEmail(s.w.users, row.tenant, row.email) == {}
  }

  lemma InsertDoubles(users: Table, u: User, out: Outcome)
    requires UniqueOAuth(users) && u.id !in users
    ensures UniqueOAuth(Insert(users, u, out).0) <==>
            !(u.provider != "" && !out.Refused? &&
              ByOAuth(users, u.tenant, u.provider, u.subject) != {} && ByEmail(users, u.tenant, u.email) == {})
  {
    var after := Insert(users, u, out).0;
    if u.provider == "" || ByOAuth(users, u.tenant, u.provider, u.subject) == {} {
      InsertKeepsOAuth(users, u, out);
    } else if !out.Refused? && ByEmail(users, u.tenant, u.email) == {} {
      var id :| id in ByOAuth(users, u.tenant, u.provider, u.subject);
      assert SameOAuth(after[id], after[u.id]);
    }
  }

  lemma MoveDoubles(cfg: Config, s: System, m: Move)
    requires UniqueOAuth(s.w.users)
    ensures UniqueOAuth(Apply(cfg, s, m).w.users) <==> !Doubles(s, m)
  {
    hide Insert, Update, Delete, UniqueOAuth, ByOAuth, ByEmail, CodeValid, AfterInsert, AfterLogin, AfterGet,
         AfterOwner, AfterRow, AfterOAuth, RateLimiting.Throttled, TokenCommand;
    if Allowed(s, m) && m.Command? {
      var w, io := s.w, m.io;
      match s.flights[m.pid].p
      case InsertUser(row, _) =>
        InsertDoubles(w.users, row.(id := io.id, createdAt := w.now + io.wait, updatedAt := w.now + io.wait), io.out);
      case UpdateUser(user, _) => UpdateKeepsOAuth(w.users, user, io.out);
      case DeleteRow(id) => DeleteKeepsOAuth(w.users, id, io.out);
      case _ =>
    }
  }

  ghost predicate UniqueUpTo(cfg: Config, s: System, moves: seq<Move>, n: nat)
    requires n <= |moves|
  {
    forall k :: 0 <= k <= n ==> UniqueOAuth(At(cfg, s, moves, k).w.users)
  }

  ghost predicate NoneDoubles(cfg: Config, s: System, moves: seq<Move>, n: nat)
    requires n <= |moves|
  {
    forall k :: 0 <= k < n ==> !Doubles(At(cfg, s, moves, k), moves[k])
  }

  /** Identities stay unique under an interleaving if and only if none of its moves doubles one. */
  lemma {:induction false} UniqueExactlyUnlessDoubled(cfg: Config, s: System, moves: seq<Move>, n: nat)
    requires UniqueOAuth(s.w.users) && n <= |moves|
    ensures UniqueUpTo(cfg, s, moves, n) <==> NoneDoubles(cfg, s, moves, n)
  {
    hide UniqueOAuth, Doubles, Apply;
    if n == 0 {
      assert At(cfg, s, moves, 0) == s;
    } else {
      UniqueExactlyUnlessDoubled(cfg, s, moves, n - 1);
      var b := At(cfg, s, moves, n - 1);
      assert At(cfg, s, moves, n) == Apply(cfg, b, moves[n - 1]);
      assert UniqueUpTo(cfg, s, moves, n) <==>
             UniqueUpTo(cfg, s, moves, n - 1) && UniqueOAuth(At(cfg, s, moves, n).w.users);
      assert NoneDoubles(cfg, s, moves, n) <==> NoneDoubles(cfg, s, moves, n - 1) && !Doubles(b, moves[n - 1]);
      if UniqueOAuth(b.w.users) {
        MoveDoubles(cfg, b, moves[n - 1]);
      } else {
        assert !UniqueUpTo(cfg, s, moves, n - 1);
      }
    }
  }

  // ---------- why it comes to that: a race of two callbacks ----------

  /** A callback looks for the user of an identity and finds none. */
  ghost predicate FindsNone(s: System, m: Move, pid: Pid, tenant: Tenant, provider: string, subject: string) {
    && Allowed(s, m) && m.Command? && m.pid == pid && s.flights[pid].p.SelectOAuth?
    && ByOAuth(s.w.users, tenant, provider, subject) == {}
    && var p := s.flights[pid].p;
       p.tenant == tenant && p.provider == provider && p.found.subject == subject
  }

  /** A call other than pid inserts the first row of an identity. */
  ghost predicate InsertsFirst(s: System, m: Move, pid: Pid, tenant: Tenant, provider: string, subject: string) {
    && Allowed(s, m) && m.Command? && m.pid != pid && s.flights[m.pid].p.InsertUser?
    && HasOAuth(s.flights[m.pid].p.row, tenant, provider, subject)
    && ByOAuth(s.w.users, tenant, provider, subject) == {}
  }

  lemma InsertBrings(users: Table, u: User, out: Outcome, tenant: Tenant, provider: string, subject: string)
    requires ByOAuth(users, tenant, provider, subject) == {}
    ensures ByOAuth(Insert(users, u, out).0, tenant, provider, subject) != {} ==> HasOAuth(u, tenant, provider, subject)
  {
    hide ByEmail;
    var after := Insert(users, u, out).0;
    if id :| id in ByOAuth(after, tenant, provider, subject) {
      assert id in users && id != u.id ==> id in ByOAuth(users, tenant, provider, subject);
    }
  }

  lemma OthersBringNone(users: Table, u: User, id: Id, out: Outcome, tenant: Tenant, provider: string, subject: string)
    requires ByOAuth(users, tenant, provider, subject) == {}
    ensures ByOAuth(Update(users, u, out).0, tenant, provider, subject) == {}
    ensures ByOAuth(Delete(users, id, out), tenant, provider, subject) == {}
  {
    hide ByEmail;
    forall x | x in Update(users, u, out).0 ensures x !in ByOAuth(Update(users, u, out).0, tenant, provider, subject) {
      assert x !in ByOAuth(users, tenant, provider, subject);
    }
    forall x | x in Delete(users, id, out) ensures x !in ByOAuth(Delete(users, id, out), tenant, provider, subject) {
      assert x !in ByOAuth(users, tenant, provider, subject);
    }
  }

  lemma FirstRow(cfg: Config, s: System, m: Move, pid: Pid, tenant: Tenant, provider: string, subject: string)
    requires ByOAuth(s.w.users, tenant, provider, subject) == {}
    requires ByOAuth(Apply(cfg, s, m).w.users, tenant, provider, subject) != {} && !(m.Command? && m.pid == pid)
    ensures InsertsFirst(s, m, pid, tenant, provider, subject)
  {
    hide CodeValid, Insert, Update, Delete, ByOAuth, ByEmail, AfterInsert, AfterLogin, AfterGet, AfterOwner,
         AfterRow, AfterOAuth, RateLimiting.Throttled, HasOAuth, TokenCommand;
    if m.Arrive? || !Allowed(s, m) {
      assert false;
    }
    var w, io := s.w, m.io;
    match s.flights[m.pid].p
    case InsertUser(row, _) =>
      var u := row.(id := io.id, createdAt := w.now + io.wait, updatedAt := w.now + io.wait);
      InsertBrings(w.users, u, io.out, tenant, provider, subject);
      SameIdentityRow(row, u, tenant, provider, subject);
    case UpdateUser(user, _) => OthersBringNone(w.users, user, 0, io.out, tenant, provider, subject);
    case DeleteRow(id) =>
      var any := User(id, tenant, "", OfRandomBytes, Member, true, false, "", true, "", "", "", 0, 0);
      OthersBringNone(w.users, any, id, io.out, tenant, provider, subject);
    case _ =>
  }

  lemma SameIdentityRow(row: User, u: User, tenant: Tenant, provider: string, subject: string)
    requires u == row.(id := u.id, createdAt := u.createdAt, updatedAt := u.updatedAt)
    ensures HasOAuth(u, tenant, provider, subject) <==> HasOAuth(row, tenant, provider, subject)
  {
  }

  ghost predicate Inserting(s: System, pid: Pid, row: User) {
    pid in s.flights && s.flights[pid].p.InsertUser? && s.flights[pid].p.row == row && row.provider != ""
  }

  lemma OnlyLookups(cfg: Config, w: World, p: Proc, io: Io)
    requires !p.Done? && Next(cfg, w, p, io).1.InsertUser?
    ensures p.SelectOAuth?
  {
    hide CodeValid, Insert, Update, Delete, ByEmail, ByOAuth, Get, Set, Del, RateLimiting.Throttled, TokenCommand;
  }

  lemma LookupFindsNone(cfg: Config, w: World, p: Proc, io: Io)
    requires p.SelectOAuth? && Next(cfg, w, p, io).1.InsertUser?
    ensures ByOAuth(w.users, p.tenant, p.provider, p.found.subject) == {} && Next(cfg, w, p, io).0.users == w.users
    ensures HasOAuth(Next(cfg, w, p, io).1.row, p.tenant, p.provider, p.found.subject)
  {
    hide TokenCommand;
  }

  lemma NoIdentityYet(cfg: Config, call: Call)
    ensures Start(cfg, call).InsertUser? ==> Start(cfg, call).row.provider == ""
  {
  }

  lemma StartsInserting(cfg: Config, s: System, m: Move, pid: Pid, row: User)
    requires !Inserting(s, pid, row) && Inserting(Apply(cfg, s, m), pid, row)
    ensures FindsNone(s, m, pid, row.tenant, row.provider, row.subject)
    ensures ByOAuth(Apply(cfg, s, m).w.users, row.tenant, row.provider, row.subject) == {}
  {
    hide Next, Fair, Start, ByOAuth;
    assert Allowed(s, m) && m.pid == pid;
    match m
    case Arrive(_, call) => NoIdentityYet(cfg, call);
    case Command(_, io) =>
      OnlyLookups(cfg, s.w, s.flights[pid].p, io);
      LookupFindsNone(cfg, s.w, s.flights[pid].p, io);
  }

  /** A call about to insert a row of an identity has found none, and if there is one by now, another call
      has inserted it since. */
  lemma {:induction false} LookedUp(cfg: Config, s: System, moves: seq<Move>, k: nat, pid: Pid, row: User)
    returns (i: nat)
    requires k <= |moves| && !Inserting(s, pid, row) && Inserting(At(cfg, s, moves, k), pid, row)
    ensures i < k && FindsNone(At(cfg, s, moves, i), moves[i], pid, row.tenant, row.provider, row.subject)
    ensures ByOAuth(At(cfg, s, moves, k).w.users, row.tenant, row.provider, row.subject) != {} ==>
              exists j :: i < j < k &&
                InsertsFirst(At(cfg, s, moves, j), moves[j], pid, row.tenant, row.provider, row.subject)
  {
    hide Apply, FindsNone, InsertsFirst, Inserting, ByOAuth;
    var b, m := At(cfg, s, moves, k - 1), moves[k - 1];
    if Inserting(b, pid, row) {
      i := LookedUp(cfg, s, moves, k - 1, pid, row);
      MovesOn(cfg, b, m, pid, row);
      if ByOAuth(b.w.users, row.tenant, row.provider, row.subject) == {} &&
         ByOAuth(At(cfg, s, moves, k).w.users, row.tenant, row.provider, row.subject) != {} {
        FirstRow(cfg, b, m, pid, row.tenant, row.provider, row.subject);
      }
    } else {
      i := k - 1;
      StartsInserting(cfg, b, m, pid, row);
    }
  }

  /** Only its own next command takes a call from its INSERT, and that command does not leave it there. */
  lemma MovesOn(cfg: Config, s: System, m: Move, pid: Pid, row: User)
    requires Inserting(s, pid, row) && Inserting(Apply(cfg, s, m), pid, row)
    ensures Apply(cfg, s, m) == s || !(m.Command? && m.pid == pid)
  {
    hide Insert, Fair;
  }

  /** An identity is doubled only by a race: the doubling callback has looked the identity up and found none,
      and before it inserts, another call has inserted the first row. */
  lemma DoublingIsARace(cfg: Config, s: System, moves: seq<Move>, k: nat)
    requires k < |moves| && s.flights == map[] && Doubles(At(cfg, s, moves, k), moves[k])
    ensures var pid := moves[k].pid;
            var row := At(cfg, s, moves, k).flights[pid].p.row;
            exists i, j :: 0 <= i < j < k &&
              FindsNone(At(cfg, s, moves, i), moves[i], pid, row.tenant, row.provider, row.subject) &&
              InsertsFirst(At(cfg, s, moves, j), moves[j], pid, row.tenant, row.provider, row.subject)
  {
    hide At, FindsNone, InsertsFirst;
    var pid := moves[k].pid;
    var row := At(cfg, s, moves, k).flights[pid].p.row;
    var i := LookedUp(cfg, s, moves, k, pid, row);
  }

  // ---------- identities with one fixed email ----------

  /** A fixed email for each identity. */
  type EmailOf = (Tenant, string, string) -> string

  predicate RowAgrees(e: EmailOf, u: User) {
    u.provider != "" ==> u.email == e(u.tenant, u.provider, u.subject)
  }

  predicate InfoAgrees(e: EmailOf, tenant: Tenant, provider: string, info: Option<Info>) {
    info.Some? ==> info.value.email == e(tenant, provider, info.value.subject)
  }

  /** The provider answers with the fixed email, and SCIM edits no email. */
  predicate CallAgrees(e: EmailOf, call: Call) {
    match call
    case OAuthCallback(tenant, provider, _, info) => InfoAgrees(e, tenant, provider, info)
    case ScimUpdate(_, emails, _, _) => |emails| == 0 || emails[0] == ""
    case _ => true
  }

  predicate ProcAgrees(e: EmailOf, p: Proc) {
    match p
    case InsertUser(row, _) => RowAgrees(e, row)
    case DelToken(_, _, user, _, _) => RowAgrees(e, user)
    case SetRefresh(user, _) => RowAgrees(e, user)
    case UpdateUser(user, _) => RowAgrees(e, user)
    case SelectById(_, Replace(emails, _, _)) => |emails| == 0 || emails[0] == ""
    case GetState(tenant, provider, _, info) => InfoAgrees(e, tenant, provider, info)
    case DelState(tenant, provider, _, info, _) => InfoAgrees(e, tenant, provider, info)
    case SelectOAuth(tenant, provider, found) => found.email == e(tenant, provider, found.subject)
    case _ => true
  }

  ghost predicate TableAgrees(e: EmailOf, users: Table) {
    forall id :: id in users ==> RowAgrees(e, users[id])
  }

  ghost predicate Agrees(e: EmailOf, s: System) {
    TableAgrees(e, s.w.users) && forall pid :: pid in s.flights ==> ProcAgrees(e, s.flights[pid].p)
  }

  lemma AgreesWrite(cfg: Config, e: EmailOf, w: World, p: Proc, io: Io)
    requires p.InsertUser? || p.UpdateUser? || p.DeleteRow?
    requires WorldSafe(w) && RemembersBorn(w, p) && TableAgrees(e, w.users) && ProcAgrees(e, p)
    ensures var (w1, p1) := Next(cfg, w, p, io); TableAgrees(e, w1.users) && ProcAgrees(e, p1)
  {
    hide UniqueEmails, RootsSeen, KeysSeen, ByEmail, TokenCommand;
  }

  lemma AgreesOnTable(cfg: Config, e: EmailOf, w: World, p: Proc, io: Io)
    requires OnTable(p) && !p.InsertUser? && !p.UpdateUser? && !p.DeleteRow?
    requires TableAgrees(e, w.users) && ProcAgrees(e, p)
    ensures var (w1, p1) := Next(cfg, w, p, io); TableAgrees(e, w1.users) && ProcAgrees(e, p1)
  {
    hide CodeValid, Set, Del, Get, ByEmail, ByOAuth, RateLimiting.Throttled, TokenCommand;
  }

  lemma AgreesOnTokens(cfg: Config, e: EmailOf, w: World, p: Proc, io: Io)
    requires !p.Done? && !OnTable(p) && !p.InsertUser? && !p.UpdateUser? && !p.DeleteRow?
    requires TableAgrees(e, w.users) && ProcAgrees(e, p)
    ensures var (w1, p1) := Next(cfg, w, p, io); TableAgrees(e, w1.users) && ProcAgrees(e, p1)
  {
    hide CodeValid, Set, Del, Get, ByEmail, ByOAuth, RateLimiting.Throttled, RowCommand;
  }

  lemma AgreesRead(cfg: Config, e: EmailOf, w: World, p: Proc, io: Io)
    requires !p.Done? && !p.InsertUser? && !p.UpdateUser? && !p.DeleteRow?
    requires TableAgrees(e, w.users) && ProcAgrees(e, p)
    ensures var (w1, p1) := Next(cfg, w, p, io); TableAgrees(e, w1.users) && ProcAgrees(e, p1)
  {
    hide Next, TableAgrees, ProcAgrees, OnTable;
    if OnTable(p) {
      AgreesOnTable(cfg, e, w, p, io);
    } else {
      AgreesOnTokens(cfg, e, w, p, io);
    }
  }

  lemma AgreesStep(cfg: Config, e: EmailOf, w: World, p: Proc, io: Io)
    requires !p.Done? && WorldSafe(w) && RemembersBorn(w, p)
    requires TableAgrees(e, w.users) && ProcAgrees(e, p)
    ensures var (w1, p1) := Next(cfg, w, p, io); TableAgrees(e, w1.users) && ProcAgrees(e, p1)
  {
    hide Next, WorldSafe, RemembersBorn, TableAgrees, ProcAgrees;
    if p.InsertUser? || p.UpdateUser? || p.DeleteRow? {
      AgreesWrite(cfg, e, w, p, io);
    } else {
      AgreesRead(cfg, e, w, p, io);
    }
  }

  lemma {:induction false} AgreesAt(cfg: Config, e: EmailOf, s: System, moves: seq<Move>, n: nat)
    requires Safe(cfg, s) && Agrees(e, s) && n <= |moves|
    requires forall i :: 0 <= i < |moves| && moves[i].Arrive? ==> CallAgrees(e, moves[i].call)
    ensures Agrees(e, At(cfg, s, moves, n))
  {
    hide Apply, Safe, Agrees, CallAgrees;
    if n > 0 {
      AgreesAt(cfg, e, s, moves, n - 1);
      SafeAt(cfg, s, moves, n - 1);
      AgreesMove(cfg, e, At(cfg, s, moves, n - 1), moves[n - 1]);
    }
  }

  lemma AgreesMove(cfg: Config, e: EmailOf, s: System, m: Move)
    requires Safe(cfg, s) && Agrees(e, s) && (m.Arrive? ==> CallAgrees(e, m.call))
    ensures Agrees(e, Apply(cfg, s, m))
  {
    hide Next, Fair, WorldSafe, ProcAgrees, RowAgrees, RemembersBorn, Tracks, Spent;
    if Allowed(s, m) {
      match m
      case Arrive(_, call) => ArrivalAgrees(cfg, e, call);
      case Command(pid, io) =>
        assert FlightSafe(cfg, s.w, s.flights[pid]);
        AgreesStep(cfg, e, s.w, s.flights[pid].p, io);
    }
  }

  lemma ArrivalAgrees(cfg: Config, e: EmailOf, call: Call)
    requires CallAgrees(e, call)
    ensures ProcAgrees(e, Start(cfg, call))
  {
  }

  lemma AgreesNeverDoubles(e: EmailOf, s: System, m: Move)
    requires Agrees(e, s)
    ensures !Doubles(s, m)
  {
    if Allowed(s, m) && m.Command? && s.flights[m.pid].p.InsertUser? {
      var row := s.flights[m.pid].p.row;
      assert ProcAgrees(e, s.flights[m.pid].p);
      if row.provider != "" {
        forall id | id in ByOAuth(s.w.users, row.tenant, row.provider, row.subject)
          ensures id in ByEmail(s.w.users, row.tenant, row.email)
        {
          assert RowAgrees(e, s.w.users[id]);
        }
      }
    }
  }

  lemma AgreesUnique(cfg: Config, e: EmailOf, s: System)
    requires Safe(cfg, s) && Agrees(e, s)
    ensures UniqueOAuth(s.w.users)
  {
    var users := s.w.users;
    forall a, b | a in users && b in users && SameOAuth(users[a], users[b]) ensures a == b {
      assert RowAgrees(e, users[a]) && RowAgrees(e, users[b]);
    }
  }

  /** If the email of each identity is fixed and unedited, no move doubles an identity, so the email index
      keeps identities unique under every interleaving. */
  lemma OAuthUniqueIfEmailsFixed(cfg: Config, e: EmailOf, s: System, moves: seq<Move>, n: nat)
    requires Safe(cfg, s) && Agrees(e, s) && n <= |moves|
    requires forall i :: 0 <= i < |moves| && moves[i].Arrive? ==> CallAgrees(e, moves[i].call)
    ensures UniqueOAuth(At(cfg, s, moves, n).w.users)
  {
    hide At, Safe, Agrees, Doubles, UniqueOAuth, CallAgrees;
    AgreesUnique(cfg, e, s);
    assert UniqueUpTo(cfg, s, moves, n) ==> UniqueOAuth(At(cfg, s, moves, n).w.users);
    forall k | 0 <= k < n ensures !Doubles(At(cfg, s, moves, k), moves[k]) {
      AgreesAt(cfg, e, s, moves, k);
      AgreesNeverDoubles(e, At(cfg, s, moves, k), moves[k]);
    }
    UniqueExactlyUnlessDoubled(cfg, s, moves, n);
  }
}
