/** The Redis Lua rate limiter (ratelimit_middleware.go): a fixed window opened by the first
    request that finds no live counter, and what it promises over arbitrary request traces. */
module RateLimiting {
  import opened Domain
  import opened Keyspace

  const WINDOW: Time := 60_000

  /** The counter of one key: absent, or some admissions counted since the window opened. */
  datatype Window = Closed | Open(count: int, since: Time)

  function Current(w: Window, t: Time): int {
    if w.Open? && t < w.since + WINDOW then w.count else 0
  }

  /** One execution of the script at time t. */
  function Admit(limit: int, w: Window, t: Time): (Window, bool) {
    var current := Current(w, t);
    if current + 1 > limit then (w, false)
    else (Open(current + 1, if current == 0 then t else w.since), true)
  }

  // ---------- the script and the middleware ----------

  ghost function WindowOf(kv: Store, key: Key): Window {
    if key in kv && kv[key].value.Count? then Open(kv[key].value.n, kv[key].expiry - WINDOW) else Closed
  }

  /** What one execution of the script does to the shared store and answers; None is the script
      error of a counter that holds no number. */
  ghost function Script(limit: int, kv: Store, now: Time, ip: string): (Store, Option<bool>) {
    var key := Key(RateLimit, ip);
    if Live(kv, now, key) && !kv[key].value.Count? then (kv, None)
    else
      var (w, admitted) := Admit(limit, WindowOf(kv, key), now);
      (if admitted then kv[key := Entry(Count(w.count), w.since + WINDOW)] else kv, Some(admitted))
  }

  /** What a request does to the store, and whether it is served: it is turned away only on an
      acknowledged refusal, so errors let it through. */
  ghost function Throttled(limit: int, kv: Store, now: Time, ip: string, out: Outcome): (r: (Store, bool))
    ensures forall key: Key | key.kind != RateLimit ::
              (key in r.0 <==> key in kv) && (key in kv ==> r.0[key] == kv[key])
  {
    var (after, allowed) := Script(limit, kv, now, ip);
    (if out.Refused? then kv else after, !(out.Acked? && allowed == Some(false)))
  }

  /** Rate limiting never disturbs a session, challenge, confirmation or OAuth state. */
  lemma ScriptKeepsSessions(limit: int, kv: Store, now: Time, ip: string, kind: Kind)
    requires kind != RateLimit
    ensures Submap(Script(limit, kv, now, ip).0, kind) == Submap(kv, kind)
  {
    var after := Script(limit, kv, now, ip).0;
    assert forall t :: Key(kind, t) in after <==> Key(kind, t) in kv;
  }

  class RateLimiter {
    const redis: Redis
    const limit: int

    constructor (redis: Redis, requestsPerMinute: int)
      ensures this.redis == redis && limit == requestsPerMinute
    {
      this.redis, limit := redis, requestsPerMinute;
    }

    method RunScript(ip: string) returns (allowed: Option<bool>)
      modifies redis`flat
      ensures (View(redis.flat), allowed) == Script(limit, View(old(redis.flat)), redis.now, ip)
    {
      var key := Prefix(RateLimit) + ip;
      ghost var typed := Key(RateLimit, ip);
      assert key == Flatten(typed);
      var live := key in redis.flat && redis.now < redis.flat[key].expiry;
      if live && !redis.flat[key].value.Count? {
        return None;
      }
      var current := if live then redis.flat[key].value.n else 0;
      if current + 1 > limit {
        return Some(false);
      }
      var expiry := if current == 0 then redis.now + WINDOW else redis.flat[key].expiry;
      ViewUpdate(redis.flat, typed, Entry(Count(current + 1), expiry));
      redis.flat := redis.flat[key := Entry(Count(current + 1), expiry)];
      return Some(true);
    }

    method Middleware(ip: string, out: Outcome) returns (served: bool)
      modifies redis`flat
      ensures (View(redis.flat), served) == Throttled(limit, View(old(redis.flat)), redis.now, ip, out)
    {
      served := true;
      if !out.Refused? {
        var allowed := RunScript(ip);
        served := !(out.Acked? && allowed == Some(false));
      }
    }
  }

  // ---------- traces of one key ----------

  ghost predicate Sorted(times: seq<Time>) {
    forall i, j :: 0 <= i <= j < |times| ==> times[i] <= times[j]
  }

  /** The counter after the first i executions of a trace. */
  function After(limit: int, times: seq<Time>, i: nat): Window
    requires i <= |times|
  {
    if i == 0 then Closed else Admit(limit, After(limit, times, i - 1), times[i - 1]).0
  }

  predicate Admitted(limit: int, times: seq<Time>, i: nat)
    requires i < |times|
  {
    Admit(limit, After(limit, times, i), times[i]).1
  }

  /** How many of the first i requests were admitted at a time in [a, b). */
  function Admissions(limit: int, times: seq<Time>, i: nat, a: Time, b: Time): nat
    requires i <= |times|
  {
    if i == 0 then 0
    else Admissions(limit, times, i - 1, a, b) +
         if Admitted(limit, times, i - 1) && a <= times[i - 1] < b then 1 else 0
  }

  /** How many of the first i requests came at time a or later. */
  function Requests(times: seq<Time>, i: nat, a: Time): nat
    requires i <= |times|
  {
    if i == 0 then 0 else Requests(times, i - 1, a) + if a <= times[i - 1] then 1 else 0
  }

  /** Every stored counter lies between 1 and the limit, and lapses within a window of the last
      request; a refusal changes nothing, so it extends no window. */
  lemma {:induction false} CounterInRange(limit: int, times: seq<Time>, i: nat)
    requires Sorted(times) && i <= |times|
    ensures var w := After(limit, times, i);
            w.Open? ==> i > 0 && 1 <= w.count <= limit && w.since <= times[i - 1]
    ensures i < |times| && !Admitted(limit, times, i) ==>
              After(limit, times, i + 1) == After(limit, times, i)
  {
    if i > 0 {
      CounterInRange(limit, times, i - 1);
    }
  }

  /** m counts the windows opened at a or later; they start 60 s apart, and all but the last
      have admitted at most limit each, as has the one that was open at a. */
  lemma {:induction false} Ledger(limit: nat, times: seq<Time>, i: nat, a: Time, b: Time) returns (m: nat)
    requires Sorted(times) && i <= |times|
    ensures var w := After(limit, times, i);
            var c := Admissions(limit, times, i, a, b);
            && (m == 0 ==> c <= if w.Open? then w.count else 0)
            && (m == 0 && w.Open? ==> w.since < a)
            && (i > 0 && times[i - 1] < a ==> c == 0 && m == 0)
            && (m > 0 ==> w.Open? && w.since >= a + 60_000 * (m - 1) && c <= limit * m + w.count)
  {
    m := 0;
    if i > 0 {
      m := Ledger(limit, times, i - 1, a, b);
      CounterInRange(limit, times, i - 1);
      var w, t := After(limit, times, i - 1), times[i - 1];
      if Admitted(limit, times, i - 1) && Current(w, t) == 0 && t >= a {
        assert m > 0 ==> limit * m + limit == limit * (m + 1);
        m := m + 1;
      }
    }
  }

  lemma LedgerTotal(limit: nat, m: nat, k: nat)
    requires m <= k
    ensures limit * m + limit <= (k + 1) * limit
  {
    assert limit * (k - m) >= 0;
  }

  /** In every interval of at most k windows, at most (k + 1) * limit requests are admitted. */
  lemma {:induction false} UpperBound(limit: nat, times: seq<Time>, i: nat, a: Time, b: Time, k: nat)
    requires Sorted(times) && i <= |times| && b - a <= k * 60_000
    ensures Admissions(limit, times, i, a, b) <= (k + 1) * limit
  {
    if i > 0 && times[i - 1] >= b {
      UpperBound(limit, times, i - 1, a, b, k);
    } else if i > 0 {
      var m := Ledger(limit, times, i, a, b);
      CounterInRange(limit, times, i);
      LedgerTotal(limit, m, k);
    }
  }

  /** A limit below 1 admits nothing. */
  lemma {:induction false} NoneBelowOne(limit: int, times: seq<Time>, i: nat, a: Time, b: Time)
    requires limit < 1 && Sorted(times) && i <= |times|
    ensures Admissions(limit, times, i, a, b) == 0
  {
    if i > 0 {
      NoneBelowOne(limit, times, i - 1, a, b);
      CounterInRange(limit, times, i - 1);
    }
  }

  /** The counter is the number of admissions since its window opened. */
  lemma {:induction false} CounterCounts(limit: int, times: seq<Time>, i: nat, b: Time)
    requires Sorted(times) && i <= |times| && After(limit, times, i).Open?
    requires times[i - 1] < b
    ensures Admissions(limit, times, i, After(limit, times, i).since, b) == After(limit, times, i).count
  {
    var w := After(limit, times, i - 1);
    CounterInRange(limit, times, i - 1);
    if Admitted(limit, times, i - 1) && Current(w, times[i - 1]) == 0 {
      NoneLater(limit, times, i - 1, times[i - 1], b);
    } else if w.Open? {
      CounterCounts(limit, times, i - 1, b);
    }
  }

  /** At the time a window opens nothing has been admitted yet. */
  lemma {:induction false} NoneLater(limit: int, times: seq<Time>, i: nat, a: Time, b: Time)
    requires Sorted(times) && i <= |times| && Current(After(limit, times, i), a) == 0
    requires forall j :: 0 <= j < i ==> times[j] <= a
    ensures Admissions(limit, times, i, a, b) == 0
  {
    if i > 0 {
      CounterInRange(limit, times, i);
      CounterInRange(limit, times, i - 1);
      assert times[i - 1] <= a;
      NoneLater(limit, times, i - 1, a, b);
    }
  }

  lemma {:induction false} SplitInterval(limit: int, times: seq<Time>, i: nat, a: Time, mid: Time, b: Time)
    requires i <= |times| && a <= mid <= b
    ensures Admissions(limit, times, i, a, b) ==
            Admissions(limit, times, i, a, mid) + Admissions(limit, times, i, mid, b)
  {
    if i > 0 {
      SplitInterval(limit, times, i - 1, a, mid, b);
    }
  }

  /** A refusal at time t means the current window, opened within the last 60 s, has admitted exactly
      limit requests. So the last 60 s hold at least limit admissions, and exactly limit
      if and only if the window before contributed none of them. */
  lemma RefusalMeansFull(limit: int, times: seq<Time>, i: nat)
    requires Sorted(times) && i < |times| && limit >= 1 && !Admitted(limit, times, i)
    ensures var w, t := After(limit, times, i), times[i];
            && w.Open? && t - 60_000 < w.since <= t
            && Admissions(limit, times, i, w.since, t + 1) == limit
            && Admissions(limit, times, i, t - 60_000 + 1, t + 1) >= limit
            && (Admissions(limit, times, i, t - 60_000 + 1, t + 1) == limit <==>
                Admissions(limit, times, i, t - 60_000 + 1, w.since) == 0)
  {
    var w, t := After(limit, times, i), times[i];
    CounterInRange(limit, times, i);
    CounterCounts(limit, times, i, t + 1);
    SplitInterval(limit, times, i, t - 60_000 + 1, w.since, t + 1);
  }

  /** A fixed window is not a sliding one: a refusal can follow more than limit admissions
      in the last 60 s. */
  lemma RefusalAfterMoreThanLimit()
    ensures var times := [0, 59_000, 60_000, 60_500, 61_000];
            && !Admitted(2, times, 4)
            && Admissions(2, times, 4, 61_000 - 60_000 + 1, 61_001) == 3
  {
    var times := [0, 59_000, 60_000, 60_500, 61_000];
    assert After(2, times, 1) == Open(1, 0);
    assert After(2, times, 2) == Open(2, 0);
    assert After(2, times, 3) == Open(1, 60_000);
    assert After(2, times, 4) == Open(2, 60_000);
    var a := 61_000 - 60_000 + 1;
    assert Admissions(2, times, 1, a, 61_001) == 0;
    assert Admissions(2, times, 2, a, 61_001) == 1;
    assert Admissions(2, times, 3, a, 61_001) == 2;
  }

  lemma {:induction false} AdmissionsAreRequests(limit: int, times: seq<Time>, i: nat, a: Time, b: Time)
    requires i <= |times|
    ensures Admissions(limit, times, i, a, b) <= Requests(times, i, a)
  {
    if i > 0 {
      AdmissionsAreRequests(limit, times, i - 1, a, b);
    }
  }

  /** A client that keeps within the limit in the window ending at each of its requests
      is never refused. */
  lemma NeverOverThrottles(limit: int, times: seq<Time>, i: nat)
    requires Sorted(times) && i < |times| && limit >= 1
    requires Requests(times, i + 1, times[i] - 60_000 + 1) <= limit
    ensures Admitted(limit, times, i)
  {
    if !Admitted(limit, times, i) {
      var t := times[i];
      RefusalMeansFull(limit, times, i);
      AdmissionsAreRequests(limit, times, i, t - 60_000 + 1, t + 1);
    }
  }

  // ---------- traces of many keys over one store ----------

  datatype Request = Request(at: Time, ip: string)

  /** The shared store after the first i requests, whatever their addresses. */
  ghost function StoreAfter(limit: int, kv: Store, reqs: seq<Request>, i: nat): Store
    requires i <= |reqs|
  {
    if i == 0 then kv else Script(limit, StoreAfter(limit, kv, reqs, i - 1), reqs[i - 1].at, reqs[i - 1].ip).0
  }

  /** The times of the first i requests that came from ip. */
  function TimesOf(reqs: seq<Request>, i: nat, ip: string): seq<Time>
    requires i <= |reqs|
  {
    if i == 0 then []
    else TimesOf(reqs, i - 1, ip) + if reqs[i - 1].ip == ip then [reqs[i - 1].at] else []
  }

  lemma {:induction false} AfterPrefix(limit: int, times: seq<Time>, more: seq<Time>, i: nat)
    requires i <= |times|
    ensures After(limit, times + more, i) == After(limit, times, i)
  {
    if i > 0 {
      AfterPrefix(limit, times, more, i - 1);
    }
  }

  /** On a counter the script does what Admit does, and it leaves every other counter alone. */
  lemma ScriptIsAdmit(limit: int, kv: Store, now: Time, ip: string, other: string)
    requires var key := Key(RateLimit, ip); key in kv ==> kv[key].value.Count?
    ensures var w := WindowOf(kv, Key(RateLimit, ip));
            && Script(limit, kv, now, ip).1 == Some(Admit(limit, w, now).1)
            && WindowOf(Script(limit, kv, now, ip).0, Key(RateLimit, ip)) == Admit(limit, w, now).0
    ensures other != ip ==>
              WindowOf(Script(limit, kv, now, ip).0, Key(RateLimit, other)) == WindowOf(kv, Key(RateLimit, other))
  {
  }

  /** Addresses share one store without disturbing one another: each is answered as its own trace. */
  lemma {:induction false} AddressesAreIndependent(limit: int, kv: Store, reqs: seq<Request>, i: nat, ip: string)
    requires i <= |reqs|
    requires forall key :: key in kv ==> key.kind != RateLimit
    ensures var times := TimesOf(reqs, i, ip);
            && WindowOf(StoreAfter(limit, kv, reqs, i), Key(RateLimit, ip)) == After(limit, times, |times|)
            && (forall now :: Script(limit, StoreAfter(limit, kv, reqs, i), now, ip).1 ==
                              Some(Admit(limit, After(limit, times, |times|), now).1))
  {
    hide Script, Admit;
    var store := StoreAfter(limit, kv, reqs, i);
    CountersOnly(limit, kv, reqs, i, Key(RateLimit, ip));
    if i > 0 {
      AddressesAreIndependent(limit, kv, reqs, i - 1, ip);
      var before, r := TimesOf(reqs, i - 1, ip), reqs[i - 1];
      CountersOnly(limit, kv, reqs, i - 1, Key(RateLimit, r.ip));
      ScriptIsAdmit(limit, StoreAfter(limit, kv, reqs, i - 1), r.at, r.ip, ip);
      if r.ip == ip {
        AfterPrefix(limit, before, [r.at], |before|);
      } else {
        assert TimesOf(reqs, i, ip) == before;
      }
    }
    forall now
      ensures Script(limit, store, now, ip).1 == Some(Admit(limit, WindowOf(store, Key(RateLimit, ip)), now).1)
    {
      ScriptIsAdmit(limit, store, now, ip, ip);
    }
  }

  lemma {:induction false} CountersOnly(limit: int, kv: Store, reqs: seq<Request>, i: nat, key: Key)
    requires i <= |reqs| && key.kind == RateLimit && key !in kv
    ensures var store := StoreAfter(limit, kv, reqs, i);
            key in store ==> store[key].value.Count?
  {
    if i > 0 {
      CountersOnly(limit, kv, reqs, i - 1, key);
    }
  }
}
