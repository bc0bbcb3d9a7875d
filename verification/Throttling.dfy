/** The rate limiter in front of the service: what the throttle calls of a whole run answer, whatever calls
    run between them. */
module Throttling {
  import opened Domain
  import opened Keyspace
  import R = RateLimiting
  import opened Users
  import opened Machine
  import opened Invariants
  import opened Runs
  import opened Commands
  import opened Completeness

  // ---------- other calls leave the counters alone ----------

  ghost predicate SameCounter(kv: Store, kv1: Store, ip: string) {
    var key := Key(RateLimit, ip);
    (key in kv1 <==> key in kv) && (key in kv ==> kv1[key] == kv[key])
  }

  lemma CommandKeepsCounters(cfg: Config, w: World, p: Proc, io: Io, ip: string)
    requires !p.Done? && !p.RunScript? && Familiar(w, p)
    ensures SameCounter(w.kv, Next(cfg, w, p, io).0.kv, ip)
  {
    hide RowCommand;
  }

  lemma NeverScript(cfg: Config, w: World, p: Proc, io: Io)
    requires !p.Done?
    ensures !Next(cfg, w, p, io).1.RunScript?
  {
    hide RowCommand, TokenCommand;
  }

  lemma {:induction false} RunKeepsCounters(cfg: Config, w: World, p: Proc, ios: seq<Io>, k: nat, ip: string)
    requires k <= |ios| && !p.RunScript? && Good(cfg, w) && Fits(cfg, w, p) && FairRun(cfg, w, p, ios, k)
    ensures SameCounter(w.kv, Run(cfg, w, p, ios, k).0.kv, ip)
    decreases |ios| - k
  {
    hide Next, Good, Fits, Fair, Familiar;
    if !p.Done? && k < |ios| {
      var (w1, p1) := Next(cfg, w, p, ios[k]);
      GoodIsFamiliar(cfg, w, p);
      CommandKeepsCounters(cfg, w, p, ios[k], ip);
      NeverScript(cfg, w, p, ios[k]);
      GoodStep(cfg, w, p, ios[k]);
      RunKeepsCounters(cfg, w1, p1, ios, k + 1, ip);
    }
  }

  lemma GoodIsFamiliar(cfg: Config, w: World, p: Proc)
    requires Good(cfg, w) && Fits(cfg, w, p)
    ensures Familiar(w, p)
  {
    hide Fits, Familiar;
    FitsIsFamiliar(cfg, w, p);
  }

  lemma OtherCallKeepsCounters(cfg: Config, w: World, step: Step, ip: string)
    requires Good(cfg, w) && FairStep(cfg, w, step) && !step.call.Throttle?
    ensures SameCounter(w.kv, Do(cfg, w, step).0.kv, ip)
  {
    hide Run, FairRun, Good, Fits;
    GoodBegin(cfg, w, step.call);
    RunKeepsCounters(cfg, Begin(w, step.call), Start(cfg, step.call), step.ios, 0, ip);
  }

  // ---------- one throttle call ----------

  /** The stored counter of an address is this window's. */
  ghost predicate CounterIs(kv: Store, ip: string, window: R.Window) {
    var key := Key(RateLimit, ip);
    match window
    case Closed => key !in kv
    case Open(count, since) => count >= 1 && key in kv && kv[key] == Entry(Count(count), since + 60_000)
  }

  lemma AdmitsAs(limit: int, window: R.Window, t: Time)
    requires window.Open? ==> window.count >= 1
    ensures var current := if window.Open? && t < window.since + 60_000 then window.count else 0;
            R.Admit(limit, window, t) ==
            if current + 1 > limit then (window, false)
            else (R.Open(current + 1, if current == 0 then t else window.since), true)
  {
  }

  /** One call answers as the window decides, and counts unless the command is refused by Redis. */
  lemma ThrottleOnce(cfg: Config, w: World, ip: string, window: R.Window, ios: seq<Io>)
    requires |ios| >= 1 && CounterIs(w.kv, ip, window)
    ensures var t, limit := w.now + ios[0].wait, cfg.requestsPerMinute;
            var (w1, p1) := Do(cfg, w, Step(Throttle(ip), ios));
            && w1.now == t
            && CounterIs(w1.kv, ip, if ios[0].out.Refused? then window else R.Admit(limit, window, t).0)
            && p1 == Done(if ios[0].out.Acked? && !R.Admit(limit, window, t).1 then Failed(RateLimited) else Accepted)
            && forall other :: other != ip ==> SameCounter(w.kv, w1.kv, other)
  {
    hide Next, Run, R.Admit;
    var b, p := Begin(w, Throttle(ip)), RunScript(ip);
    AdmitsAs(cfg.requestsPerMinute, window, w.now + ios[0].wait);
    Counts(cfg, b, ip, ios[0]);
    Unroll(cfg, b, p, ios, 0);
    var (w1, p1) := Next(cfg, b, p, ios[0]);
    NothingLeft(cfg, w1, p1, ios, 1);
  }

  // ---------- the trace of an address ----------

  /** The step is a throttle call of the address that Redis executes. */
  predicate Executed(step: Step, ip: string) {
    step.call == Throttle(ip) && |step.ios| >= 1 && !step.ios[0].out.Refused?
  }

  /** When the first n calls of a run have executed the script for an address. */
  ghost function Times(cfg: Config, w0: World, steps: seq<Step>, n: nat, ip: string): seq<Time>
    requires n <= |steps|
  {
    if n == 0 then []
    else
      Times(cfg, w0, steps, n - 1, ip) +
      if Executed(steps[n - 1], ip) then [WorldAfter(cfg, w0, steps, n - 1).now + steps[n - 1].ios[0].wait] else []
  }

  ghost predicate NoCounters(kv: Store) {
    forall key :: key in kv ==> key.kind != RateLimit
  }

  ghost function WindowAfter(cfg: Config, w0: World, steps: seq<Step>, n: nat, ip: string): R.Window
    requires n <= |steps|
  {
    var times := Times(cfg, w0, steps, n, ip);
    R.After(cfg.requestsPerMinute, times, |times|)
  }

  lemma WindowAdds(cfg: Config, w0: World, steps: seq<Step>, n: nat, ip: string)
    requires 0 < n <= |steps|
    ensures WindowAfter(cfg, w0, steps, n, ip) ==
            if !Executed(steps[n - 1], ip) then WindowAfter(cfg, w0, steps, n - 1, ip)
            else R.Admit(cfg.requestsPerMinute, WindowAfter(cfg, w0, steps, n - 1, ip),
                         WorldAfter(cfg, w0, steps, n - 1).now + steps[n - 1].ios[0].wait).0
  {
    hide R.Admit, WorldAfter;
    var before := Times(cfg, w0, steps, n - 1, ip);
    if Executed(steps[n - 1], ip) {
      var t := WorldAfter(cfg, w0, steps, n - 1).now + steps[n - 1].ios[0].wait;
      R.AfterPrefix(cfg.requestsPerMinute, before, [t], |before|);
    } else {
      assert Times(cfg, w0, steps, n, ip) == before;
    }
  }

  lemma StepFollows(cfg: Config, w: World, step: Step, ip: string, window: R.Window, other: R.Window)
    requires Good(cfg, w) && FairStep(cfg, w, step) && CounterIs(w.kv, ip, window)
    requires step.call.Throttle? ==> CounterIs(w.kv, step.call.ip, other)
    ensures CounterIs(Do(cfg, w, step).0.kv, ip,
                      if Executed(step, ip) then R.Admit(cfg.requestsPerMinute, window, w.now + step.ios[0].wait).0
                      else window)
  {
    hide Do, Good, FairStep, R.Admit;
    if !step.call.Throttle? {
      OtherCallKeepsCounters(cfg, w, step, ip);
    } else if step.ios == [] {
      StopsAtOnce(cfg, w, step);
    } else if step.call.ip == ip {
      assert step == Step(Throttle(ip), step.ios);
      ThrottleOnce(cfg, w, ip, window, step.ios);
    } else {
      assert step == Step(Throttle(step.call.ip), step.ios);
      ThrottleOnce(cfg, w, step.call.ip, other, step.ios);
      assert SameCounter(w.kv, Do(cfg, w, step).0.kv, ip);
    }
  }

  lemma StopsAtOnce(cfg: Config, w: World, step: Step)
    requires step.ios == []
    ensures Do(cfg, w, step).0.kv == w.kv
  {
  }

  /** The stored counter of every address is the one its own trace leaves. */
  lemma {:induction false} CounterFollows(cfg: Config, w0: World, steps: seq<Step>, n: nat, ip: string)
    requires Good(cfg, w0) && FairSteps(cfg, w0, steps) && NoCounters(w0.kv) && n <= |steps|
    ensures CounterIs(WorldAfter(cfg, w0, steps, n).kv, ip, WindowAfter(cfg, w0, steps, n, ip))
    decreases n
  {
    hide Do, Good, FairStep, FairSteps, R.Admit, WindowAfter, CounterIs, Evolves;
    if n == 0 {
      NoCounterYet(cfg, w0, steps, ip);
    } else {
      var step := steps[n - 1];
      var other := if step.call.Throttle? then step.call.ip else ip;
      CounterFollows(cfg, w0, steps, n - 1, ip);
      CounterFollows(cfg, w0, steps, n - 1, other);
      RunsKeep(cfg, w0, steps, n - 1, n - 1);
      FairAt(cfg, w0, steps, n - 1);
      StepFollows(cfg, WorldAfter(cfg, w0, steps, n - 1), step, ip, WindowAfter(cfg, w0, steps, n - 1, ip),
                  WindowAfter(cfg, w0, steps, n - 1, other));
      WindowAdds(cfg, w0, steps, n, ip);
    }
  }

  lemma NoCounterYet(cfg: Config, w0: World, steps: seq<Step>, ip: string)
    requires NoCounters(w0.kv)
    ensures CounterIs(w0.kv, ip, WindowAfter(cfg, w0, steps, 0, ip))
  {
  }

  // ---------- what throttle calls answer ----------

  /** In every run from a store without counters, a throttle call is turned away if and only if it is
      acknowledged and the trace of its own address refuses it; a call that is not acknowledged is let through. */
  lemma ThrottleAnswers(cfg: Config, w0: World, steps: seq<Step>, n: nat, ip: string)
    requires Good(cfg, w0) && FairSteps(cfg, w0, steps) && NoCounters(w0.kv)
    requires n < |steps| && steps[n].call == Throttle(ip) && |steps[n].ios| >= 1
    ensures var w, out := WorldAfter(cfg, w0, steps, n), steps[n].ios[0].out;
            var times := Times(cfg, w0, steps, n, ip);
            var refused := !R.Admitted(cfg.requestsPerMinute, times + [w.now + steps[n].ios[0].wait], |times|);
            Do(cfg, w, steps[n]).1 == Done(if out.Acked? && refused then Failed(RateLimited) else Accepted)
  {
    hide Do, Good, FairSteps, R.Admit;
    CounterFollows(cfg, w0, steps, n, ip);
    var w, times := WorldAfter(cfg, w0, steps, n), Times(cfg, w0, steps, n, ip);
    assert steps[n] == Step(Throttle(ip), steps[n].ios);
    ThrottleOnce(cfg, w, ip, WindowAfter(cfg, w0, steps, n, ip), steps[n].ios);
    R.AfterPrefix(cfg.requestsPerMinute, times, [w.now + steps[n].ios[0].wait], |times|);
  }

  lemma {:induction false} TimesAreSorted(cfg: Config, w0: World, steps: seq<Step>, n: nat, ip: string)
    requires Good(cfg, w0) && FairSteps(cfg, w0, steps) && NoCounters(w0.kv) && n <= |steps|
    ensures var times := Times(cfg, w0, steps, n, ip);
            R.Sorted(times) && forall i :: 0 <= i < |times| ==> times[i] <= WorldAfter(cfg, w0, steps, n).now
  {
    hide Do, Good, FairSteps;
    if n > 0 {
      TimesAreSorted(cfg, w0, steps, n - 1, ip);
      TimeGoesOn(cfg, w0, steps, n);
      if Executed(steps[n - 1], ip) {
        CounterFollows(cfg, w0, steps, n - 1, ip);
        assert steps[n - 1] == Step(Throttle(ip), steps[n - 1].ios);
        var w := WorldAfter(cfg, w0, steps, n - 1);
        ThrottleOnce(cfg, w, ip, WindowAfter(cfg, w0, steps, n - 1, ip), steps[n - 1].ios);
      }
    }
  }

  lemma TimeGoesOn(cfg: Config, w0: World, steps: seq<Step>, n: nat)
    requires Good(cfg, w0) && FairSteps(cfg, w0, steps) && 0 < n <= |steps|
    ensures WorldAfter(cfg, w0, steps, n - 1).now <= WorldAfter(cfg, w0, steps, n).now
  {
    hide Do, Good, FairSteps, RowEvolves, SessionsEvolve, WorldAfter;
    RunsKeep(cfg, w0, steps, n - 1, n);
  }

  /** Call i of the run is an acknowledged throttle call of the address, answered Accepted at a time in [a, b). */
  ghost predicate ServedAt(cfg: Config, w0: World, steps: seq<Step>, i: nat, ip: string, a: Time, b: Time)
    requires i < |steps|
  {
    && steps[i].call == Throttle(ip) && |steps[i].ios| >= 1 && steps[i].ios[0].out.Acked?
    && var w := WorldAfter(cfg, w0, steps, i);
       a <= w.now + steps[i].ios[0].wait < b && Do(cfg, w, steps[i]).1 == Done(Accepted)
  }

  ghost function Served(cfg: Config, w0: World, steps: seq<Step>, n: nat, ip: string, a: Time, b: Time): nat
    requires n <= |steps|
  {
    if n == 0 then 0
    else Served(cfg, w0, steps, n - 1, ip, a, b) + if ServedAt(cfg, w0, steps, n - 1, ip, a, b) then 1 else 0
  }

  lemma {:induction false} AdmissionsOfPrefix(limit: int, times: seq<Time>, more: seq<Time>, i: nat, a: Time, b: Time)
    requires i <= |times|
    ensures R.Admissions(limit, times + more, i, a, b) == R.Admissions(limit, times, i, a, b)
  {
    hide R.Admit;
    if i > 0 {
      AdmissionsOfPrefix(limit, times, more, i - 1, a, b);
      R.AfterPrefix(limit, times, more, i - 1);
    }
  }

  lemma {:induction false} ServedAreAdmitted(cfg: Config, w0: World, steps: seq<Step>, n: nat, ip: string,
          a: Time, b: Time)
    requires Good(cfg, w0) && FairSteps(cfg, w0, steps) && NoCounters(w0.kv) && n <= |steps|
    ensures var times := Times(cfg, w0, steps, n, ip);
            Served(cfg, w0, steps, n, ip, a, b) <= R.Admissions(cfg.requestsPerMinute, times, |times|, a, b)
  {
    hide Do, Good, FairSteps, WorldAfter, R.Admitted;
    if n > 0 {
      ServedAreAdmitted(cfg, w0, steps, n - 1, ip, a, b);
      var limit, before := cfg.requestsPerMinute, Times(cfg, w0, steps, n - 1, ip);
      if Executed(steps[n - 1], ip) {
        var t := WorldAfter(cfg, w0, steps, n - 1).now + steps[n - 1].ios[0].wait;
        AdmissionsOfPrefix(limit, before, [t], |before|, a, b);
        ThrottleAnswers(cfg, w0, steps, n - 1, ip);
      } else {
        assert Times(cfg, w0, steps, n, ip) == before;
      }
    }
  }

  /** In every run and every interval of at most k minutes, at most (k + 1) * limit throttle calls of an address
      are acknowledged and let through. */
  lemma ServedBound(cfg: Config, w0: World, steps: seq<Step>, n: nat, ip: string, a: Time, b: Time, k: nat)
    requires Good(cfg, w0) && FairSteps(cfg, w0, steps) && NoCounters(w0.kv) && n <= |steps|
    requires cfg.requestsPerMinute >= 0 && b - a <= k * 60_000
    ensures Served(cfg, w0, steps, n, ip, a, b) <= (k + 1) * cfg.requestsPerMinute
  {
    hide Good, FairSteps, Served, Times, R.Admissions;
    var times := Times(cfg, w0, steps, n, ip);
    ServedAreAdmitted(cfg, w0, steps, n, ip, a, b);
    TimesAreSorted(cfg, w0, steps, n, ip);
    R.UpperBound(cfg.requestsPerMinute, times, |times|, a, b, k);
  }

  /** A client that has made at most limit calls in the 60 s up to a call, this one included, is let through. */
  lemma NeverTurnedAway(cfg: Config, w0: World, steps: seq<Step>, n: nat, ip: string)
    requires Good(cfg, w0) && FairSteps(cfg, w0, steps) && NoCounters(w0.kv) && cfg.requestsPerMinute >= 1
    requires n < |steps| && steps[n].call == Throttle(ip) && |steps[n].ios| >= 1
    requires var t := WorldAfter(cfg, w0, steps, n).now + steps[n].ios[0].wait;
             var times := Times(cfg, w0, steps, n, ip) + [t];
             R.Requests(times, |times|, t - 60_000 + 1) <= cfg.requestsPerMinute
    ensures Do(cfg, WorldAfter(cfg, w0, steps, n), steps[n]).1 == Done(Accepted)
  {
    hide Do, Good, FairSteps, WorldAfter, Times, R.Requests, R.Admitted;
    var t := WorldAfter(cfg, w0, steps, n).now + steps[n].ios[0].wait;
    var times := Times(cfg, w0, steps, n, ip);
    TimesAreSorted(cfg, w0, steps, n, ip);
    ThrottleAnswers(cfg, w0, steps, n, ip);
    R.NeverOverThrottles(cfg.requestsPerMinute, times + [t], |times|);
  }
}
