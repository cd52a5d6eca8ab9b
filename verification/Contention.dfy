/** How far concurrent calls can exceed the limit: the bound of `RateLimiter.WindowBound` is reached for
    every limit and every number of calls at once, so only calls one at a time keep the limit itself. */
module Contention {
  import opened Model
  import opened RateLimiter

  /** A run under construction, with at most k calls at once. */
  datatype Trace = Trace(ss: seq<Limiter>, es: seq<Event>) {
    ghost predicate Valid(cfg: Config, k: nat) { IsRun(cfg, ss, es) && AtMost(ss, k) }
    ghost function Last(): Limiter
      requires |ss| == |es| + 1
    {
      ss[|es|]
    }
  }

  lemma Then(cfg: Config, k: nat, t: Trace, e: Event) returns (r: Trace)
    requires t.Valid(cfg, k) && Enabled(t.Last(), e) && |Underway(Step(cfg, t.Last(), e).calls)| <= k
    ensures r.Valid(cfg, k) && r.Last() == Step(cfg, t.Last(), e)
  {
    r := Trace(t.ss + [Step(cfg, t.Last(), e)], t.es + [e]);
  }

  /** The n numbers from m on. */
  function Interval(m: nat, n: nat): (r: set<nat>)
    ensures |r| == n && forall c: nat :: c in r <==> m <= c < m + n
  {
    if n == 0 then {} else Interval(m, n - 1) + {m + n - 1}
  }

  /** All at time 0: m calls have been admitted and n more have passed the check. */
  function Crowd(cfg: Config, m: nat, n: nat): Limiter {
    Limiter(0.0, map c | c in Interval(0, m) :: 0.0, if m == 0 then None else Some(cfg.window as real),
            seq(m + n, (c: nat) => Call(0.0, if c < m then Admitted else Between)))
  }

  lemma CrowdUnderway(cfg: Config, m: nat, n: nat)
    ensures |Underway(Crowd(cfg, m, n).calls)| == n
  {
    assert Underway(Crowd(cfg, m, n).calls) == Interval(m, n);
  }

  lemma CrowdSize(cfg: Config, m: nat, n: nat)
    requires cfg.window >= 1
    ensures Prune(Crowd(cfg, m, n).zset, 0.0 - cfg.window as real) == Crowd(cfg, m, n).zset
    ensures |Crowd(cfg, m, n).zset| == m
  {
    var z := Crowd(cfg, m, n).zset;
    assert z.Keys == Interval(0, m);
    assert |z| == |z.Keys|;
  }

  lemma CrowdChecks(cfg: Config, m: nat, n: nat)
    requires cfg.window >= 1 && m < cfg.limit
    ensures Step(cfg, Crowd(cfg, m, n), Check(0.0)) == Crowd(cfg, m, n + 1)
  {
    CrowdSize(cfg, m, n);
    var s, s' := Step(cfg, Crowd(cfg, m, n), Check(0.0)), Crowd(cfg, m, n + 1);
    assert s.calls == s'.calls;
    assert m > 0 ==> 0 in s.zset;
    assert m == 0 ==> s.zset == map[];
  }

  lemma CrowdAdds(cfg: Config, m: nat, n: nat)
    ensures Enabled(Crowd(cfg, m, n + 1), Add(m, 0.0))
    ensures Step(cfg, Crowd(cfg, m, n + 1), Add(m, 0.0)) == Crowd(cfg, m + 1, n)
  {
    var s, s' := Step(cfg, Crowd(cfg, m, n + 1), Add(m, 0.0)), Crowd(cfg, m + 1, n);
    assert s.calls == s'.calls;
    assert s.zset == s'.zset;
  }

  lemma OneChecks(cfg: Config, k: nat, t: Trace, m: nat, n: nat) returns (r: Trace)
    requires t.Valid(cfg, k) && t.Last() == Crowd(cfg, m, n) && cfg.window >= 1 && m < cfg.limit && n < k
    ensures r.Valid(cfg, k) && r.Last() == Crowd(cfg, m, n + 1)
  {
    CrowdChecks(cfg, m, n);
    CrowdUnderway(cfg, m, n + 1);
    r := Then(cfg, k, t, Check(0.0));
  }

  lemma OneAdds(cfg: Config, k: nat, t: Trace, m: nat, n: nat) returns (r: Trace)
    requires t.Valid(cfg, k) && t.Last() == Crowd(cfg, m, n + 1) && n <= k
    ensures r.Valid(cfg, k) && r.Last() == Crowd(cfg, m + 1, n)
  {
    CrowdAdds(cfg, m, n);
    CrowdUnderway(cfg, m + 1, n);
    r := Then(cfg, k, t, Add(m, 0.0));
  }

  lemma NoCalls(cfg: Config, k: nat) returns (t: Trace)
    ensures t.Valid(cfg, k) && t.Last() == Crowd(cfg, 0, 0)
  {
    CrowdUnderway(cfg, 0, 0);
    t := Trace([Crowd(cfg, 0, 0)], []);
    assert t.Last().zset == map[] && t.Last().calls == [];
  }

  /** m calls, one after the other. */
  lemma {:induction false} OneByOne(cfg: Config, k: nat, m: nat) returns (t: Trace)
    requires cfg.window >= 1 && k >= 1 && m < cfg.limit
    ensures t.Valid(cfg, k) && t.Last() == Crowd(cfg, m, 0)
  {
    if m == 0 {
      t := NoCalls(cfg, k);
    } else {
      t := OneByOne(cfg, k, m - 1);
      t := OneChecks(cfg, k, t, m - 1, 0);
      t := OneAdds(cfg, k, t, m - 1, 0);
    }
  }

  /** m calls one by one, then n more that have passed the check at once. */
  lemma {:induction false} AllCheck(cfg: Config, k: nat, m: nat, n: nat) returns (t: Trace)
    requires cfg.window >= 1 && 1 <= k && m < cfg.limit && n <= k
    ensures t.Valid(cfg, k) && t.Last() == Crowd(cfg, m, n)
  {
    if n == 0 {
      t := OneByOne(cfg, k, m);
    } else {
      t := AllCheck(cfg, k, m, n - 1);
      t := OneChecks(cfg, k, t, m, n - 1);
    }
  }

  /** Then some of these k calls add their entries, until n have not. */
  lemma {:induction false} AllAdd(cfg: Config, k: nat, m: nat, n: nat) returns (t: Trace)
    requires cfg.window >= 1 && cfg.limit >= 1 && 1 <= k && n <= k && m + n == cfg.limit - 1 + k
    ensures t.Valid(cfg, k) && t.Last() == Crowd(cfg, m, n)
    decreases m
  {
    if n == k {
      t := AllCheck(cfg, k, m, k);
    } else {
      t := AllAdd(cfg, k, m - 1, n + 1);
      t := OneAdds(cfg, k, t, m - 1, n);
    }
  }

  /** The calls admitted in (a, a + window]. */
  function AdmittedIn(cfg: Config, calls: seq<Call>, a: real): set<nat> {
    set c: nat | c < |calls| && calls[c].status.Admitted? && a < calls[c].time <= a + cfg.window as real
  }

  /** For every limit and every k there is a run with at most k calls at once in which one window holds
      limit + k - 1 calls, all of them admitted. */
  lemma BoundIsReached(cfg: Config, k: nat) returns (ss: seq<Limiter>, es: seq<Event>)
    requires cfg.window >= 1 && cfg.limit >= 1 && k >= 1
    ensures IsRun(cfg, ss, es) && AtMost(ss, k)
    ensures |ss[|es|].calls| == cfg.limit + k - 1
    ensures forall c | 0 <= c < |ss[|es|].calls| ::
              ss[|es|].calls[c].status.Admitted? && 0.0 - cfg.window as real < ss[|es|].calls[c].time <= 0.0
    ensures |AdmittedIn(cfg, ss[|es|].calls, 0.0 - cfg.window as real)| == cfg.limit + k - 1
  {
    var t := AllAdd(cfg, k, cfg.limit - 1 + k, 0);
    ss, es := t.ss, t.es;
    assert AdmittedIn(cfg, t.Last().calls, 0.0 - cfg.window as real) == Interval(0, cfg.limit + k - 1);
  }

  /** No window of any run with at most k calls at once ever holds more admitted calls than the limit. */
  ghost predicate KeepsLimit(cfg: Config, k: nat) {
    forall ss: seq<Limiter>, es: seq<Event>, j: nat, a: real | IsRun(cfg, ss, es) && AtMost(ss, k) && j < |ss| ::
      |AdmittedIn(cfg, ss[j].calls, a)| <= cfg.limit
  }

  /** The limit is strictly enforced in every interval if and only if calls come one at a time. */
  lemma StrictOnlyOneAtATime(cfg: Config, k: nat)
    requires cfg.window >= 1 && cfg.limit >= 1 && k >= 1
    ensures KeepsLimit(cfg, k) <==> k == 1
  {
    if k == 1 {
      forall ss: seq<Limiter>, es: seq<Event>, j: nat, a: real | IsRun(cfg, ss, es) && AtMost(ss, k) && j < |ss|
        ensures |AdmittedIn(cfg, ss[j].calls, a)| <= cfg.limit
      {
        WindowBound(cfg, ss, es, k, j, a);
        var calls := ss[j].calls;
        SubsetSize(AdmittedIn(cfg, calls, a),
                   set c: nat | c < |calls| && (calls[c].status.Admitted? || calls[c].status.Between?) &&
                                a < calls[c].time <= a + cfg.window as real);
      }
    } else {
      var ss, es := BoundIsReached(cfg, k);
      assert |AdmittedIn(cfg, ss[|es|].calls, 0.0 - cfg.window as real)| > cfg.limit;
    }
  }
}
