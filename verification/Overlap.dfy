/** Schedules that break what runs without overlap promise. */
module Overlap {
  import opened Domain
  import opened Keyspace
  import opened Users
  import opened Machine
  import RateLimiting
  import opened Invariants
  import opened Runs
  import opened Calls
  import opened Interleaving
  import opened Completeness

  // ---------- two refreshes of one token ----------

  const NOBODY: User :=
    User(1, 1, "", OfRandomBytes, Member, true, false, "", true, "", "", "", 0, 0)

  function SessionOf(cfg: Config, refresh: Token): Reply {
    Session(1, "", Member, cfg.accessTtl, refresh)
  }

  function Quick(token: Token, id: Id): Io {
    Io(0, Acked, token, id, "")
  }

  ghost function Pair(w: World, call: Call, p: Proc, q: Proc): System {
    Two(w, Flight(call, p), Flight(call, q))
  }

  ghost function Two(w: World, f: Flight, g: Flight): System {
    System(w, map[0 := f, 1 := g])
  }

  /** One command of each of two calls. */
  ghost function Round(cfg: Config, s: System, a: Io, b: Io): System {
    Apply(cfg, Apply(cfg, s, Command(0, a)), Command(1, b))
  }

  lemma RoundOfTwo(cfg: Config, w: World, f: Flight, g: Flight, a: Io, b: Io)
    requires !f.p.Done? && !g.p.Done? && Fair(w, f.p, a) && Fair(Next(cfg, w, f.p, a).0, g.p, b)
    ensures var (w1, p1) := Next(cfg, w, f.p, a);
            var (w2, q1) := Next(cfg, w1, g.p, b);
            Round(cfg, Two(w, f, g), a, b) == Two(w2, Flight(f.call, p1), Flight(g.call, q1))
  {
    hide Next, Fair;
  }

  ghost predicate LiveToken(w: World, token: Token) {
    Live(w.kv, w.now, Key(Refresh, token))
  }

  /** Two refreshes that both read the token before either deletes it both succeed, and leave two
      tokens in force in one lineage. */
  lemma OverlappingRefreshesBothSucceed(cfg: Config) returns (s: System, rounds: seq<System>)
    ensures Safe(cfg, s) && LiveToken(s.w, "t") && s.flights == map[]
    ensures |rounds| == 5
    ensures rounds[0] == Apply(cfg, Apply(cfg, s, Arrive(0, RefreshToken("t"))), Arrive(1, RefreshToken("t")))
    ensures forall i :: 0 <= i < 4 ==> rounds[i + 1] == Round(cfg, rounds[i], Quick("a", 2), Quick("b", 3))
    ensures var b := rounds[4];
            && b.flights == map[0 := Flight(RefreshToken("t"), Done(SessionOf(cfg, "a"))),
                                1 := Flight(RefreshToken("t"), Done(SessionOf(cfg, "b")))]
            && LiveToken(b.w, "a") && LiveToken(b.w, "b")
            && b.w.root == map["t" := "t", "a" := "t", "b" := "t"]
  {
    hide Next, Apply, Safe, Start, Round, Fair;
    var users: Table := map[1 := NOBODY];
    var kv := map[Key(Refresh, "t") := Entry(OfUser(1), cfg.refreshTtl)];
    var w := World(users, kv, 0, {"t"}, users, map["t" := "t"], []);
    s := System(w, map[]);
    var call, a, b := RefreshToken("t"), Quick("a", 2), Quick("b", 3);
    var spent := w.(kv := map[], log := [Consumed(Refresh, "t", OfUser(1), 0), Consumed(Refresh, "t", OfUser(1), 0)]);
    InitiallySafe(cfg, s);
    BothArrive(cfg, s);
    RoundOfReads(cfg, w, a, b);
    RoundOfDels(cfg, w, a, b);
    RoundOfSets(cfg, spent, a, b);
    rounds := [Pair(w, call, GET, GET), Pair(w, call, ROW, ROW), Pair(w, call, DEL, DEL), Pair(spent, call, PUT, PUT),
               Round(cfg, Pair(spent, call, PUT, PUT), a, b)];
  }

  const GET: Proc := GetOwner(Refresh, "t", "")
  const ROW: Proc := SelectOwner(Refresh, "t", "", 1, 0)
  const DEL: Proc := DelToken(Refresh, "t", NOBODY, Open(ByRotation("t")), 0)
  const PUT: Proc := SetRefresh(NOBODY, ByRotation("t"))

  lemma InitiallySafe(cfg: Config, s: System)
    requires s.w.users == s.w.born == map[1 := NOBODY] && s.flights == map[]
    requires s.w.seen == {"t"} && s.w.root == map["t" := "t"]
    requires s.w.kv == map[Key(Refresh, "t") := Entry(OfUser(1), cfg.refreshTtl)]
    ensures Safe(cfg, s)
  {
  }

  lemma BothArrive(cfg: Config, s: System)
    requires s.w.seen == {"t"} && s.flights == map[]
    ensures Apply(cfg, Apply(cfg, s, Arrive(0, RefreshToken("t"))), Arrive(1, RefreshToken("t"))) ==
            Pair(s.w, RefreshToken("t"), GET, GET)
  {
    assert s.w.seen + {"t"} == s.w.seen;
  }

  /** The world in which the two refreshes run. */
  ghost predicate OneToken(cfg: Config, w: World) {
    && w.kv == map[Key(Refresh, "t") := Entry(OfUser(1), cfg.refreshTtl)] && w.users == w.born == map[1 := NOBODY]
    && w.now == 0 && w.log == [] && w.seen == {"t"} && w.root == map["t" := "t"]
  }

  lemma BothRead(cfg: Config, w: World, io: Io)
    requires OneToken(cfg, w) && io.wait == 0 && io.out.Acked?
    ensures Next(cfg, w, GET, io) == (w, ROW) && Next(cfg, w, ROW, io) == (w, DEL)
  {
  }

  lemma RoundOfReads(cfg: Config, w: World, a: Io, b: Io)
    requires OneToken(cfg, w) && a == Quick("a", 2) && b == Quick("b", 3)
    ensures var call := RefreshToken("t");
            && Round(cfg, Pair(w, call, GET, GET), a, b) == Pair(w, call, ROW, ROW)
            && Round(cfg, Pair(w, call, ROW, ROW), a, b) == Pair(w, call, DEL, DEL)
  {
    hide Next, Round, Two;
    BothRead(cfg, w, a);
    BothRead(cfg, w, b);
    RoundOfTwo(cfg, w, Flight(RefreshToken("t"), GET), Flight(RefreshToken("t"), GET), a, b);
    RoundOfTwo(cfg, w, Flight(RefreshToken("t"), ROW), Flight(RefreshToken("t"), ROW), a, b);
  }

  lemma BothDelete(cfg: Config, w: World, a: Io, b: Io)
    requires OneToken(cfg, w) && a == Quick("a", 2) && b == Quick("b", 3)
    ensures var c := Consumed(Refresh, "t", OfUser(1), 0);
            && Next(cfg, w, DEL, a) == (w.(kv := map[], log := [c]), PUT)
            && Next(cfg, w.(kv := map[], log := [c]), DEL, b) == (w.(kv := map[], log := [c, c]), PUT)
  {
    hide RowCommand;
    var key: Key := Key(Refresh, "t");
    var none: Store := map[];
    assert w.kv - {key} == none && none - {key} == none;
    var c := Consumed(Refresh, "t", OfUser(1), 0);
    assert w.log + [c] == [c] && [c] + [c] == [c, c];
  }

  lemma RoundOfDels(cfg: Config, w: World, a: Io, b: Io)
    requires OneToken(cfg, w) && a == Quick("a", 2) && b == Quick("b", 3)
    ensures var c, call := Consumed(Refresh, "t", OfUser(1), 0), RefreshToken("t");
            Round(cfg, Pair(w, call, DEL, DEL), a, b) == Pair(w.(kv := map[], log := [c, c]), call, PUT, PUT)
  {
    hide Next, Round, Two;
    BothDelete(cfg, w, a, b);
    RoundOfTwo(cfg, w, Flight(RefreshToken("t"), DEL), Flight(RefreshToken("t"), DEL), a, b);
  }

  lemma BothSet(cfg: Config, w: World, a: Io, b: Io)
    requires w.kv == map[] && w.now == 0 && w.root == map["t" := "t"] && w.seen == {"t"}
    requires a == Quick("a", 2) && b == Quick("b", 3)
    ensures var (w1, p1) := Next(cfg, w, PUT, a);
            var (w2, p2) := Next(cfg, w1, PUT, b);
            && p1 == Done(SessionOf(cfg, "a")) && p2 == Done(SessionOf(cfg, "b"))
            && w1.seen == {"t", "a"} && w1.users == w.users && w1.born == w.born
            && LiveToken(w2, "a") && LiveToken(w2, "b") && w2.root == map["t" := "t", "a" := "t", "b" := "t"]
  {
    hide RowCommand;
  }

  lemma RoundOfSets(cfg: Config, w: World, a: Io, b: Io)
    requires w.kv == map[] && w.now == 0 && w.root == map["t" := "t"] && w.seen == {"t"}
    requires w.users == w.born == map[1 := NOBODY] && a == Quick("a", 2) && b == Quick("b", 3)
    ensures var call := RefreshToken("t");
            var s := Round(cfg, Pair(w, call, PUT, PUT), a, b);
            && s.flights == map[0 := Flight(call, Done(SessionOf(cfg, "a"))),
                                1 := Flight(call, Done(SessionOf(cfg, "b")))]
            && LiveToken(s.w, "a") && LiveToken(s.w, "b") && s.w.root == map["t" := "t", "a" := "t", "b" := "t"]
  {
    hide Next, Round, LiveToken;
    BothSet(cfg, w, a, b);
    RoundOfTwo(cfg, w, Flight(RefreshToken("t"), PUT), Flight(RefreshToken("t"), PUT), a, b);
  }

  lemma RefreshReads(cfg: Config, w: World, t: Token, get: Io, row: Io)
    requires get.out.Acked? && row.out.Acked? && Live(w.kv, w.now + get.wait, Key(Refresh, t)) && Keyed(w.users)
    requires w.kv[Key(Refresh, t)].value.OfUser? && w.kv[Key(Refresh, t)].value.id in w.users
    requires w.users[w.kv[Key(Refresh, t)].value.id].active
    ensures var readAt, u := w.now + get.wait, w.users[w.kv[Key(Refresh, t)].value.id];
            var (w1, p1) := Next(cfg, w, GetOwner(Refresh, t, ""), get);
            && w1 == w.(now := readAt) && p1 == SelectOwner(Refresh, t, "", u.id, readAt)
            && Next(cfg, w1, p1, row) ==
               (w1.(now := readAt + row.wait), DelToken(Refresh, t, u, Open(ByRotation(t)), readAt))
  {
    hide CodeValid;
  }

  lemma RefusedDel(cfg: Config, w: World, t: Token, u: User, readAt: Time, del: Io, put: Io)
    requires HasRefresh(w, t) && t in w.root && put.token != t && del.out.Refused? && put.out.Acked?
    ensures var (w1, p1) := Next(cfg, w, DelToken(Refresh, t, u, Open(ByRotation(t)), readAt), del);
            p1 == SetRefresh(u, ByRotation(t)) &&
            var (w2, p2) := Next(cfg, w1, p1, put);
            && p2.Done? && p2.reply.Session? && p2.reply.refresh == put.token
            && HasRefresh(w2, t) && HasRefresh(w2, put.token)
            && t in w2.root && put.token in w2.root && w2.root[put.token] == w2.root[t]
  {
    hide RowCommand;
  }

  /** Why the DEL is assumed to run: the code discards its error, so a refused DEL is followed by a new
      session, and the lineage has two stored tokens although no calls overlapped. */
  lemma DiscardedDelError(cfg: Config, w: World, t: Token, ios: seq<Io>)
    requires Good(cfg, w) && |ios| >= 4 && ios[2].out.Refused?
    requires ios[0].out.Acked? && ios[1].out.Acked? && ios[3].out.Acked? && ios[3].token != t
    requires Usable(cfg, w, RefreshToken(t), w.now + ios[0].wait, w.now + ios[0].wait + ios[1].wait)
    ensures var (w1, p1) := Do(cfg, w, Step(RefreshToken(t), ios));
            && p1.Done? && p1.reply.Session? && p1.reply.refresh == ios[3].token
            && HasRefresh(w1, t) && HasRefresh(w1, ios[3].token)
            && t in w1.root && ios[3].token in w1.root && w1.root[ios[3].token] == w1.root[t]
  {
    hide Run, Next, Good, LineageGood, Usable, Passes, Keyed, KeysGood, UniqueEmails;
    var b, p := Begin(w, RefreshToken(t)), GetOwner(Refresh, t, "");
    BeginKeeps(cfg, w, RefreshToken(t));
    RefreshUsable(cfg, w, t, w.now + ios[0].wait, w.now + ios[0].wait + ios[1].wait);
    RefreshRooted(cfg, w, t);
    RefreshReads(cfg, b, t, ios[0], ios[1]);
    Unroll(cfg, b, p, ios, 0);
    var (w1, p1) := Next(cfg, b, p, ios[0]);
    Unroll(cfg, w1, p1, ios, 1);
    var (w2, p2) := Next(cfg, w1, p1, ios[1]);
    Unroll(cfg, w2, p2, ios, 2);
    RefusedDel(cfg, w2, t, p2.user, p2.readAt, ios[2], ios[3]);
    var (w3, p3) := Next(cfg, w2, p2, ios[2]);
    Unroll(cfg, w3, p3, ios, 3);
    var (w4, p4) := Next(cfg, w3, p3, ios[3]);
    NothingLeft(cfg, w4, p4, ios, 4);
  }

  lemma RefreshUsable(cfg: Config, w: World, t: Token, readAt: Time, checkedAt: Time)
    requires Usable(cfg, w, RefreshToken(t), readAt, checkedAt)
    ensures Live(w.kv, readAt, Key(Refresh, t)) && w.kv[Key(Refresh, t)].value.OfUser?
    ensures w.kv[Key(Refresh, t)].value.id in w.users && w.users[w.kv[Key(Refresh, t)].value.id].active
  {
  }

  lemma RefreshRooted(cfg: Config, w: World, t: Token)
    requires Good(cfg, w)
    ensures HasRefresh(w, t) ==> t in w.root
  {
  }

  // ---------- two callbacks of one new identity ----------

  function CallbackOf(state: Token, email: string): Call {
    OAuthCallback(1, "google", state, Some(Info("subject", email)))
  }

  /** An empty table, and two OAuth states in force. */
  ghost function TwoStates(cfg: Config): World {
    World(map[], map[Key(OAuthState, "x") := Entry(OfProvider("google"), 600_000),
                     Key(OAuthState, "y") := Entry(OfProvider("google"), 600_000)],
          0, {"x", "y"}, map[], map[], [])
  }

  function ReadingState(state: Token, email: string): Proc {
    GetState(1, "google", state, Some(Info("subject", email)))
  }

  function DeletingState(state: Token, email: string): Proc {
    DelState(1, "google", state, Some(Info("subject", email)), 0)
  }

  function LookingUp(email: string): Proc {
    SelectOAuth(1, "google", Info("subject", email))
  }

  function NewRow(email: string): User {
    NewUser(1, email, OfRandomBytes, true, true, "google", "subject", "")
  }

  ghost function Callbacks(w: World, p: Proc, q: Proc): System {
    Two(w, Flight(CallbackOf("x", "e"), p), Flight(CallbackOf("y", "f"), q))
  }

  /** Two callbacks of one new identity with different emails that both look it up before either inserts
      create two users for it. */
  lemma OverlappingCallbacksCanDuplicate(cfg: Config) returns (s: System, rounds: seq<System>)
    ensures Safe(cfg, s) && s.w.users == map[] && s.flights == map[] && |rounds| == 5
    ensures rounds[0] == Apply(cfg, Apply(cfg, s, Arrive(0, CallbackOf("x", "e"))), Arrive(1, CallbackOf("y", "f")))
    ensures forall i :: 0 <= i < 4 ==> rounds[i + 1] == Round(cfg, rounds[i], Quick("a", 2), Quick("b", 3))
    ensures var users := rounds[4].w.users;
            2 in users && 3 in users && SameOAuth(users[2], users[3]) && !UniqueOAuth(users)
  {
    hide Next, Apply, Safe, Start, Round, Fair, UniqueOAuth;
    var w, a, b := TwoStates(cfg), Quick("a", 2), Quick("b", 3);
    s := System(w, map[]);
    StatesSafe(cfg);
    CallbacksArrive(cfg);
    var c := [Consumed(OAuthState, "x", OfProvider("google"), 0), Consumed(OAuthState, "y", OfProvider("google"), 0)];
    var spent := w.(kv := map[], log := c);
    StatesRead(cfg);
    StatesDeleted(cfg);
    IdentityLookedUp(cfg, spent);
    RowsInserted(cfg, spent);
    rounds := [Callbacks(w, ReadingState("x", "e"), ReadingState("y", "f")),
               Callbacks(w, DeletingState("x", "e"), DeletingState("y", "f")),
               Callbacks(spent, LookingUp("e"), LookingUp("f")),
               Callbacks(spent, InsertUser(NewRow("e"), SignIn), InsertUser(NewRow("f"), SignIn)),
               Round(cfg, Callbacks(spent, InsertUser(NewRow("e"), SignIn), InsertUser(NewRow("f"), SignIn)), a, b)];
  }

  lemma StatesSafe(cfg: Config)
    ensures Safe(cfg, System(TwoStates(cfg), map[]))
  {
  }

  lemma CallbacksArrive(cfg: Config)
    ensures var s := System(TwoStates(cfg), map[]);
            Apply(cfg, Apply(cfg, s, Arrive(0, CallbackOf("x", "e"))), Arrive(1, CallbackOf("y", "f"))) ==
            Callbacks(TwoStates(cfg), ReadingState("x", "e"), ReadingState("y", "f"))
  {
    assert {"x", "y"} + {"x"} == {"x", "y"} && {"x", "y"} + {"y"} == {"x", "y"};
  }

  lemma StatesRead(cfg: Config)
    ensures var w := TwoStates(cfg);
            Round(cfg, Callbacks(w, ReadingState("x", "e"), ReadingState("y", "f")), Quick("a", 2), Quick("b", 3)) ==
            Callbacks(w, DeletingState("x", "e"), DeletingState("y", "f"))
  {
    hide Round, Two, RowCommand;
    var w := TwoStates(cfg);
    RoundOfTwo(cfg, w, Flight(CallbackOf("x", "e"), ReadingState("x", "e")),
               Flight(CallbackOf("y", "f"), ReadingState("y", "f")), Quick("a", 2), Quick("b", 3));
  }

  lemma StatesDeleted(cfg: Config)
    ensures var w := TwoStates(cfg);
            var c := [Consumed(OAuthState, "x", OfProvider("google"), 0),
                      Consumed(OAuthState, "y", OfProvider("google"), 0)];
            Round(cfg, Callbacks(w, DeletingState("x", "e"), DeletingState("y", "f")), Quick("a", 2), Quick("b", 3)) ==
            Callbacks(w.(kv := map[], log := c), LookingUp("e"), LookingUp("f"))
  {
    hide Round, Two, RowCommand;
    var w := TwoStates(cfg);
    var x: Key, y: Key := Key(OAuthState, "x"), Key(OAuthState, "y");
    var none: Store := map[];
    assert (w.kv - {x}) - {y} == none;
    var c, d := Consumed(OAuthState, "x", OfProvider("google"), 0), Consumed(OAuthState, "y", OfProvider("google"), 0);
    assert w.log + [c] == [c] && [c] + [d] == [c, d];
    RoundOfTwo(cfg, w, Flight(CallbackOf("x", "e"), DeletingState("x", "e")),
               Flight(CallbackOf("y", "f"), DeletingState("y", "f")), Quick("a", 2), Quick("b", 3));
  }

  lemma NobodyYet(users: Table, tenant: Tenant, provider: string, subject: string, email: string)
    requires users == map[]
    ensures ByOAuth(users, tenant, provider, subject) == {} && ByEmail(users, tenant, email) == {}
  {
  }

  lemma IdentityLookedUp(cfg: Config, w: World)
    requires w.users == map[] && w.born == map[] && w.seen == {"x", "y"} && w.now == 0
    ensures Round(cfg, Callbacks(w, LookingUp("e"), LookingUp("f")), Quick("a", 2), Quick("b", 3)) ==
            Callbacks(w, InsertUser(NewRow("e"), SignIn), InsertUser(NewRow("f"), SignIn))
  {
    hide Round, Two, ByOAuth, ByEmail, TokenCommand;
    NobodyYet(w.users, 1, "google", "subject", "e");
    RoundOfTwo(cfg, w, Flight(CallbackOf("x", "e"), LookingUp("e")), Flight(CallbackOf("y", "f"), LookingUp("f")),
               Quick("a", 2), Quick("b", 3));
  }

  lemma SecondInsert(users: Table, u: User)
    requires users == map[2 := NewRow("e").(id := 2)] && u == NewRow("f").(id := 3)
    ensures Insert(users, u, Acked).0 == users[3 := u]
    ensures !UniqueOAuth(users[3 := u])
  {
    assert ByEmail(users, 1, "f") == {};
    assert SameOAuth(users[3 := u][2], users[3 := u][3]);
  }

  lemma FirstInsert(users: Table, u: User)
    requires users == map[] && u == NewRow("e").(id := 2)
    ensures Insert(users, u, Acked).0 == map[2 := u]
  {
    assert ByEmail(users, 1, "e") == {};
  }

  lemma RowsInserted(cfg: Config, w: World)
    requires w.users == map[] && w.born == map[] && w.seen == {"x", "y"} && w.now == 0
    ensures var users := Round(cfg, Callbacks(w, InsertUser(NewRow("e"), SignIn), InsertUser(NewRow("f"), SignIn)),
                               Quick("a", 2), Quick("b", 3)).w.users;
            2 in users && 3 in users && SameOAuth(users[2], users[3]) && !UniqueOAuth(users)
  {
    hide Round, Insert, ByOAuth, ByEmail, UniqueOAuth, TokenCommand;
    FirstInsert(w.users, NewRow("e").(id := 2));
    SecondInsert(map[2 := NewRow("e").(id := 2)], NewRow("f").(id := 3));
    RoundOfTwo(cfg, w, Flight(CallbackOf("x", "e"), InsertUser(NewRow("e"), SignIn)),
               Flight(CallbackOf("y", "f"), InsertUser(NewRow("f"), SignIn)), Quick("a", 2), Quick("b", 3));
  }
}
