/** The sliding-window rate limiter of one user. A call is two atomic transactions on a Redis sorted
    set: prune and count, then add and set the key's expiry. Calls of the same user may interleave
    between them, and Redis may drop the key at any time after its expiry. */
module RateLimiter {
  import opened Model

  /** The configured maximum of calls and the window in seconds. */
  datatype Config = Config(limit: int, window: int)

  /** `Between` is a call that passed the check and has not added its entry yet. */
  datatype CallStatus = Between | Admitted | Rejected(retryAfter: int) | Abandoned

  /** A call with the time it read from the clock. */
  datatype Call = Call(time: real, status: CallStatus)

  /** The sorted set maps members to scores; a member is named by the number of the call that added it,
      which stands for its unique random part. `calls` is the full log, which nothing reads. */
  datatype Limiter = Limiter(clock: real, zset: map<nat, real>, expireAt: Option<real>, calls: seq<Call>)

  /** `Sweep` is a first transaction that takes effect and loses its reply: it prunes, and the call ends. */
  datatype Event =
    | Check(now: real)
    | Sweep(now: real)
    | Add(call: nat, at: real)
    | Abandon(call: nat)
    | Expire(at: real)

  function Prune(zset: map<nat, real>, cutoff: real): map<nat, real> {
    map c | c in zset && zset[c] > cutoff :: zset[c]
  }

  lemma {:induction false} OldestExists(zset: map<nat, real>, members: set<nat>)
    requires members != {} && members <= zset.Keys
    ensures exists c :: c in members && forall d | d in members :: zset[c] <= zset[d]
  {
    var c :| c in members;
    if members == {c} {
      assert forall d | d in members :: d == c;
    } else {
      var rest := members - {c};
      OldestExists(zset, rest);
      var m :| m in rest && forall d | d in rest :: zset[m] <= zset[d];
      var best := if zset[c] <= zset[m] then c else m;
      assert best in members && forall d | d in members :: zset[best] <= zset[d];
    }
  }

  /** The lowest score in the set. */
  ghost function Oldest(zset: map<nat, real>): (x: real)
    requires zset != map[]
    ensures (exists c :: c in zset && zset[c] == x) && forall d | d in zset :: x <= zset[d]
  {
    OldestExists(zset, zset.Keys);
    var c :| c in zset.Keys && forall d | d in zset.Keys :: zset[c] <= zset[d];
    zset[c]
  }

  /** Conversion to an integer truncates toward zero. */
  function Truncate(x: real): int {
    if x >= 0.0 then x.Floor else -((-x).Floor)
  }

  function RetryAfter(cfg: Config, oldest: real, now: real): int {
    var left := Truncate((oldest + cfg.window as real) - now);
    if left > 1 then left else 1
  }

  ghost predicate Enabled(s: Limiter, e: Event) {
    match e
    case Check(now) => s.clock <= now
    case Sweep(now) => s.clock <= now
    case Add(c, at) => s.clock <= at && c < |s.calls| && s.calls[c].status.Between?
    case Abandon(c) => c < |s.calls| && s.calls[c].status.Between?
    case Expire(at) => s.clock <= at && s.expireAt.Some? && s.expireAt.value <= at
  }

  /** The answer of the first transaction. */
  ghost function Answer(cfg: Config, zset: map<nat, real>, now: real): CallStatus {
    if |zset| >= cfg.limit then Rejected(if zset == map[] then 1 else RetryAfter(cfg, Oldest(zset), now))
    else Between
  }

  ghost function Step(cfg: Config, s: Limiter, e: Event): Limiter
    requires Enabled(s, e)
  {
    match e
    case Check(now) =>
      var z := Prune(s.zset, now - cfg.window as real);
      Limiter(now, z, if z == map[] then None else s.expireAt, s.calls + [Call(now, Answer(cfg, z, now))])
    case Sweep(now) =>
      var z := Prune(s.zset, now - cfg.window as real);
      s.(clock := now, zset := z, expireAt := if z == map[] then None else s.expireAt)
    case Add(c, at) =>
      Limiter(at, s.zset[c := s.calls[c].time], Some(at + cfg.window as real),
              s.calls[c := s.calls[c].(status := Admitted)])
    case Abandon(c) => s.(calls := s.calls[c := s.calls[c].(status := Abandoned)])
    case Expire(at) => s.(clock := at, zset := map[], expireAt := None)
  }

  // ------------------------------------------------------------------ counting the log

  /** The calls that passed the check with a time in the half-open window (a, b]. */
  function InWindow(calls: seq<Call>, a: real, b: real): set<nat> {
    set c | 0 <= c < |calls| && (calls[c].status.Between? || calls[c].status.Admitted?) && a < calls[c].time <= b
  }

  function WindowCount(cfg: Config, calls: seq<Call>, a: real): nat {
    |InWindow(calls, a, a + cfg.window as real)|
  }

  function Underway(calls: seq<Call>): set<nat> {
    set c | 0 <= c < |calls| && calls[c].status.Between?
  }

  /** The slice of the full log that is still inside the window at time `now`. */
  function Slice(calls: seq<Call>, cutoff: real): map<nat, real> {
    map c | 0 <= c < |calls| && calls[c].status.Admitted? && calls[c].time > cutoff :: calls[c].time
  }

  /** What a recount of the full log finds at time `now`: the calls admitted in (now - window, now]. */
  function Live(cfg: Config, calls: seq<Call>, now: real): (live: set<nat>)
    ensures forall c: nat :: c in live <==>
              c < |calls| && calls[c].status.Admitted? && now - cfg.window as real < calls[c].time <= now
  {
    set c: nat | c < |calls| && calls[c].status.Admitted? && now - cfg.window as real < calls[c].time <= now
  }

  lemma {:induction false} SubsetSize(a: set<nat>, b: set<nat>)
    requires a <= b
    ensures |a| <= |b|
  {
    assert b == a + (b - a);
  }

  lemma UnionSize(a: set<nat>, b: set<nat>)
    ensures |a + b| <= |a| + |b|
  {
    assert a + b == a + (b - a);
    SubsetSize(b - a, b);
  }

  // ------------------------------------------------------------------ the invariant

  /** The sorted set holds only admitted calls, and every one that is still inside the window; the key
      outlives each of its entries. */
  ghost predicate Inv(cfg: Config, s: Limiter) {
    && (forall c | 0 <= c < |s.calls| :: s.calls[c].time <= s.clock)
    && (forall c | c in s.zset :: c < |s.calls| && s.calls[c].status.Admitted? && s.zset[c] == s.calls[c].time)
    && (forall c | 0 <= c < |s.calls| && s.calls[c].status.Admitted? &&
                   s.calls[c].time > s.clock - cfg.window as real ::
          c in s.zset)
    && (forall c | c in s.zset :: s.expireAt.Some? && s.zset[c] + cfg.window as real <= s.expireAt.value)
  }

  /** With at most k calls at once, no window of the configured length holds more than limit + k - 1. */
  ghost predicate Quota(cfg: Config, s: Limiter, k: nat) {
    && (cfg.limit >= 1 ==> forall a: real :: WindowCount(cfg, s.calls, a) <= cfg.limit + k - 1)
    && (cfg.limit <= 0 ==> forall c | 0 <= c < |s.calls| :: s.calls[c].status.Rejected?)
  }

  lemma StepKeeps(cfg: Config, s: Limiter, e: Event)
    requires Inv(cfg, s) && Enabled(s, e)
    ensures Inv(cfg, Step(cfg, s, e))
  {
  }

  lemma WindowSettledOrUnderway(cfg: Config, s: Limiter, now: real, a: real)
    requires Inv(cfg, s) && s.clock <= now && a < now <= a + cfg.window as real
    ensures InWindow(s.calls, a, a + cfg.window as real)
            <= Prune(s.zset, now - cfg.window as real).Keys + Underway(s.calls)
  {
    forall c | c in InWindow(s.calls, a, a + cfg.window as real)
      ensures c in Prune(s.zset, now - cfg.window as real) || c in Underway(s.calls)
    {
      assert s.calls[c].time > now - cfg.window as real;
    }
  }

  lemma InWindowSnoc(calls: seq<Call>, call: Call, a: real, b: real)
    ensures var counted := (call.status.Between? || call.status.Admitted?) && a < call.time <= b;
      && (counted ==> InWindow(calls + [call], a, b) == InWindow(calls, a, b) + {|calls|})
      && (!counted ==> InWindow(calls + [call], a, b) == InWindow(calls, a, b))
  {
  }

  lemma NotUnderway(calls: seq<Call>)
    ensures |calls| !in Underway(calls)
  {
  }

  lemma UnderwaySnoc(calls: seq<Call>, call: Call)
    ensures call.status.Between? ==> Underway(calls + [call]) == Underway(calls) + {|calls|}
  {
  }

  lemma OneMoreCall(before: set<nat>, settled: set<nat>, underway: set<nat>, c: nat, limit: int, k: nat)
    requires before <= settled + underway && |settled| < limit
    requires c !in underway && |underway + {c}| <= k
    ensures |before + {c}| <= limit + k - 1
  {
    SubsetSize(before, settled + underway);
    UnionSize(settled, underway);
    UnionSize(before, {c});
  }

  /** A call that is admitted when fewer than limit calls are settled and at most k - 1 others are under
      way adds one to every window it lies in. */
  lemma CallCounts(cfg: Config, calls: seq<Call>, live: set<nat>, k: nat, a: real, call: Call)
    requires WindowCount(cfg, calls, a) <= cfg.limit + k - 1
    requires (call.status.Between? || call.status.Admitted?) && a < call.time <= a + cfg.window as real ==>
               && InWindow(calls, a, a + cfg.window as real) <= live + Underway(calls)
               && |live| < cfg.limit && |Underway(calls) + {|calls|}| <= k
    ensures WindowCount(cfg, calls + [call], a) <= cfg.limit + k - 1
  {
    var before := InWindow(calls, a, a + cfg.window as real);
    InWindowSnoc(calls, call, a, a + cfg.window as real);
    if (call.status.Between? || call.status.Admitted?) && a < call.time <= a + cfg.window as real {
      NotUnderway(calls);
      OneMoreCall(before, live, Underway(calls), |calls|, cfg.limit, k);
    }
  }

  lemma CheckQuota(cfg: Config, s: Limiter, k: nat, a: real, call: Call)
    requires Inv(cfg, s) && s.clock <= call.time
    requires call.status.Between? || call.status.Admitted? ==>
               |Prune(s.zset, call.time - cfg.window as real)| < cfg.limit && |Underway(s.calls) + {|s.calls|}| <= k
    requires WindowCount(cfg, s.calls, a) <= cfg.limit + k - 1
    ensures WindowCount(cfg, s.calls + [call], a) <= cfg.limit + k - 1
  {
    if a < call.time <= a + cfg.window as real {
      WindowSettledOrUnderway(cfg, s, call.time, a);
    }
    var z := Prune(s.zset, call.time - cfg.window as real);
    assert |z.Keys| == |z|;
    CallCounts(cfg, s.calls, z.Keys, k, a, call);
  }

  lemma OtherQuota(cfg: Config, s: Limiter, e: Event, a: real)
    requires Enabled(s, e) && !e.Check?
    ensures WindowCount(cfg, Step(cfg, s, e).calls, a) <= WindowCount(cfg, s.calls, a)
  {
    var b := a + cfg.window as real;
    SubsetSize(InWindow(Step(cfg, s, e).calls, a, b), InWindow(s.calls, a, b));
  }

  lemma CheckKeepsCount(cfg: Config, s: Limiter, now: real, k: nat, a: real)
    requires Inv(cfg, s) && s.clock <= now && WindowCount(cfg, s.calls, a) <= cfg.limit + k - 1
    requires |Underway(Step(cfg, s, Check(now)).calls)| <= k
    ensures WindowCount(cfg, Step(cfg, s, Check(now)).calls, a) <= cfg.limit + k - 1
  {
    var call := Call(now, Answer(cfg, Prune(s.zset, now - cfg.window as real), now));
    assert Step(cfg, s, Check(now)).calls == s.calls + [call];
    UnderwaySnoc(s.calls, call);
    CheckQuota(cfg, s, k, a, call);
  }

  lemma StepKeepsQuota(cfg: Config, s: Limiter, e: Event, k: nat)
    requires Inv(cfg, s) && Quota(cfg, s, k) && Enabled(s, e)
    requires |Underway(Step(cfg, s, e).calls)| <= k
    ensures Quota(cfg, Step(cfg, s, e), k)
  {
    if cfg.limit >= 1 {
      forall a: real ensures WindowCount(cfg, Step(cfg, s, e).calls, a) <= cfg.limit + k - 1 {
        assert WindowCount(cfg, s.calls, a) <= cfg.limit + k - 1;
        if e.Check? {
          CheckKeepsCount(cfg, s, e.now, k, a);
        } else {
          OtherQuota(cfg, s, e, a);
        }
      }
    }
  }

  // ------------------------------------------------------------------ runs

  ghost predicate IsRun(cfg: Config, ss: seq<Limiter>, es: seq<Event>) {
    && |ss| == |es| + 1
    && ss[0].zset == map[] && ss[0].expireAt == None && ss[0].calls == []
    && forall j | 0 <= j < |es| :: Enabled(ss[j], es[j]) && ss[j + 1] == Step(cfg, ss[j], es[j])
  }

  /** At most k calls of the user are between check and add at any time. */
  ghost predicate AtMost(ss: seq<Limiter>, k: nat) {
    forall j | 0 <= j < |ss| :: |Underway(ss[j].calls)| <= k
  }

  lemma {:induction false} InvHolds(cfg: Config, ss: seq<Limiter>, es: seq<Event>, j: nat)
    requires IsRun(cfg, ss, es) && j < |ss|
    ensures Inv(cfg, ss[j])
  {
    if j > 0 {
      InvHolds(cfg, ss, es, j - 1);
      StepKeeps(cfg, ss[j - 1], es[j - 1]);
    }
  }

  lemma {:induction false} QuotaHolds(cfg: Config, ss: seq<Limiter>, es: seq<Event>, k: nat, j: nat)
    requires IsRun(cfg, ss, es) && AtMost(ss, k) && k >= 1 && j < |ss|
    ensures Quota(cfg, ss[j], k)
  {
    if j > 0 {
      QuotaHolds(cfg, ss, es, k, j - 1);
      InvHolds(cfg, ss, es, j - 1);
      StepKeepsQuota(cfg, ss[j - 1], es[j - 1], k);
    } else {
      forall a: real ensures WindowCount(cfg, ss[0].calls, a) == 0 {
        assert InWindow(ss[0].calls, a, a + cfg.window as real) == {};
      }
    }
  }

  /** In every run with at most k calls at once, every half-open window (a, a + window] of the configured length
      holds at most limit + k - 1 admitted calls, counting those that have passed the check and not added their
      entry yet; calls one at a time give exactly the limit. */
  lemma WindowBound(cfg: Config, ss: seq<Limiter>, es: seq<Event>, k: nat, j: nat, a: real)
    requires IsRun(cfg, ss, es) && AtMost(ss, k) && k >= 1 && j < |ss|
    ensures var calls := ss[j].calls;
      var passed := set c: nat | c < |calls| && (calls[c].status.Admitted? || calls[c].status.Between?) &&
                                 a < calls[c].time <= a + cfg.window as real;
      |passed| <= if cfg.limit >= 1 then cfg.limit + k - 1 else 0
  {
    QuotaHolds(cfg, ss, es, k, j);
    var calls := ss[j].calls;
    var passed := set c: nat | c < |calls| && (calls[c].status.Admitted? || calls[c].status.Between?) &&
                               a < calls[c].time <= a + cfg.window as real;
    assert passed == InWindow(calls, a, a + cfg.window as real);
    if cfg.limit >= 1 {
      assert WindowCount(cfg, calls, a) <= cfg.limit + k - 1;
    } else {
      assert passed == {};
    }
  }

  lemma RecountIsSlice(cfg: Config, calls: seq<Call>, now: real)
    requires forall c | 0 <= c < |calls| :: calls[c].time <= now
    ensures var slice := Slice(calls, now - cfg.window as real);
      && slice.Keys == Live(cfg, calls, now) && |slice| == |Live(cfg, calls, now)|
      && forall c | c in slice :: slice[c] == calls[c].time
  {
    var slice := Slice(calls, now - cfg.window as real);
    assert slice.Keys == Live(cfg, calls, now);
    assert |slice| == |slice.Keys|;
  }

  lemma PrunedIsSlice(cfg: Config, ss: seq<Limiter>, es: seq<Event>, j: nat)
    requires IsRun(cfg, ss, es) && j < |es| && es[j].Check?
    ensures |ss[j + 1].calls| == |ss[j].calls| + 1
    ensures ss[j + 1].zset == Slice(ss[j].calls, es[j].now - cfg.window as real)
    ensures ss[j + 1].calls[|ss[j].calls|].status.Between? <==>
              |Slice(ss[j].calls, es[j].now - cfg.window as real)| < cfg.limit
  {
    InvHolds(cfg, ss, es, j);
    assert ss[j + 1].zset == Slice(ss[j].calls, es[j].now - cfg.window as real);
  }

  /** Refinement: the check admits if and only if fewer than limit calls of the full log were admitted
      in (now - window, now], and pruning leaves exactly those in the sorted set, with their times. */
  lemma AdmitsByRecount(cfg: Config, ss: seq<Limiter>, es: seq<Event>, j: nat)
    requires IsRun(cfg, ss, es) && j < |es| && es[j].Check?
    ensures |ss[j + 1].calls| == |ss[j].calls| + 1
    ensures var calls := ss[j].calls; var live := Live(cfg, calls, es[j].now);
      && ss[j + 1].zset.Keys == live && (forall c | c in live :: ss[j + 1].zset[c] == calls[c].time)
      && (ss[j + 1].calls[|calls|].status.Between? <==> |live| < cfg.limit)
  {
    InvHolds(cfg, ss, es, j);
    PrunedIsSlice(cfg, ss, es, j);
    assert Enabled(ss[j], es[j]);
    RecountIsSlice(cfg, ss[j].calls, es[j].now);
  }

  /** When Redis drops the key, no entry it loses was still inside the window. */
  lemma ExpiryLosesNothing(cfg: Config, ss: seq<Limiter>, es: seq<Event>, j: nat)
    requires IsRun(cfg, ss, es) && j < |es| && es[j].Expire?
    ensures Slice(ss[j + 1].calls, es[j].at - cfg.window as real) == map[]
  {
    InvHolds(cfg, ss, es, j);
  }

  // ------------------------------------------------------------------ the retry-after value

  /** On rejection with a positive limit and a window of at least one second, the value lies between 1
      and the window, covers the oldest live entry's remaining life up to less than a second, and
      exceeds that life only through the one-second floor. */
  lemma RetryAfterRange(cfg: Config, ss: seq<Limiter>, es: seq<Event>, j: nat)
    requires IsRun(cfg, ss, es) && j < |es| && es[j].Check? && cfg.limit >= 1 && cfg.window >= 1
    requires |ss[j].calls| < |ss[j + 1].calls| && ss[j + 1].calls[|ss[j].calls|].status.Rejected?
    ensures ss[j + 1].zset != map[]
    ensures var v := ss[j + 1].calls[|ss[j].calls|].status.retryAfter;
      var left := Oldest(ss[j + 1].zset) + cfg.window as real - es[j].now;
      && 1 <= v <= cfg.window && left < v as real + 1.0 && (v as real > left ==> v == 1)
  {
    InvHolds(cfg, ss, es, j);
    InvHolds(cfg, ss, es, j + 1);
    var z := ss[j + 1].zset;
    var c :| c in z && z[c] == Oldest(z);
    assert z == Prune(ss[j].zset, es[j].now - cfg.window as real);
    assert es[j].now - cfg.window as real < z[c] <= es[j].now;
  }

  /** A step leaves the time of every call alone, and the status of every call that is not under way. */
  ghost predicate Persist(a: seq<Call>, b: seq<Call>) {
    && |a| <= |b|
    && forall c | 0 <= c < |a| :: a[c].time == b[c].time && (a[c].status != Between ==> a[c].status == b[c].status)
  }

  lemma {:induction false} CallsPersist(cfg: Config, ss: seq<Limiter>, es: seq<Event>, i: nat, j: nat)
    requires IsRun(cfg, ss, es) && i <= j < |ss|
    ensures Persist(ss[i].calls, ss[j].calls) && ss[i].clock <= ss[j].clock
    decreases j
  {
    if i < j {
      CallsPersist(cfg, ss, es, i, j - 1);
      assert Persist(ss[j - 1].calls, ss[j].calls) && ss[j - 1].clock <= ss[j].clock;
    }
  }

  /** A full slice of the log stops being full exactly when its oldest entry leaves. */
  lemma FullSlice(calls: seq<Call>, limit: nat, now: real, later: real)
    requires now <= later && |Slice(calls, now)| == limit >= 1
    ensures Slice(calls, now) != map[]
    ensures |Slice(calls, later)| < limit <==> Oldest(Slice(calls, now)) <= later
  {
    var first, second := Slice(calls, now), Slice(calls, later);
    assert |first| == |first.Keys| && |second| == |second.Keys|;
    var c :| c in first && first[c] == Oldest(first);
    if Oldest(first) <= later {
      assert second.Keys <= first.Keys - {c};
      SubsetSize(second.Keys, first.Keys - {c});
    } else {
      assert second == first;
    }
  }

  /** With calls one at a time, a rejected check found exactly limit live entries. */
  lemma RejectedMeansFull(cfg: Config, ss: seq<Limiter>, es: seq<Event>, i: nat)
    requires IsRun(cfg, ss, es) && AtMost(ss, 1) && i < |es| && cfg.limit >= 1 && es[i].Check?
    requires |Slice(ss[i].calls, es[i].now - cfg.window as real)| >= cfg.limit
    ensures |Slice(ss[i].calls, es[i].now - cfg.window as real)| == cfg.limit
  {
    var cutoff := es[i].now - cfg.window as real;
    QuotaHolds(cfg, ss, es, 1, i);
    InvHolds(cfg, ss, es, i);
    assert WindowCount(cfg, ss[i].calls, cutoff) <= cfg.limit;
    SubsetSize(Slice(ss[i].calls, cutoff).Keys, InWindow(ss[i].calls, cutoff, cutoff + cfg.window as real));
    assert |Slice(ss[i].calls, cutoff)| == |Slice(ss[i].calls, cutoff).Keys|;
  }

  lemma ChecksInOrder(cfg: Config, ss: seq<Limiter>, es: seq<Event>, i: nat, j: nat)
    requires IsRun(cfg, ss, es) && i < j < |es| && es[i].Check? && es[j].Check?
    ensures es[i].now <= es[j].now
  {
    CallsPersist(cfg, ss, es, i + 1, j);
    assert ss[i + 1].clock == es[i].now && Enabled(ss[j], es[j]);
  }

  /** After a rejection with calls one at a time and no admission since, the next check is admitted
      exactly from the moment the oldest live entry leaves the window. */
  lemma AdmittedOnceOldestLeaves(cfg: Config, ss: seq<Limiter>, es: seq<Event>, i: nat, j: nat)
    requires IsRun(cfg, ss, es) && AtMost(ss, 1) && i < j < |es| && cfg.limit >= 1
    requires es[i].Check? && Underway(ss[i].calls) == {}
    requires |ss[i].calls| < |ss[i + 1].calls| && ss[i + 1].calls[|ss[i].calls|].status.Rejected?
    requires es[j].Check? && |ss[i].calls| <= |ss[j].calls|
    requires forall c | |ss[i].calls| <= c < |ss[j].calls| :: ss[j].calls[c].status.Rejected?
    ensures ss[i + 1].zset != map[] && |ss[j + 1].calls| == |ss[j].calls| + 1
    ensures ss[j + 1].calls[|ss[j].calls|].status.Between? <==> Oldest(ss[i + 1].zset) + cfg.window as real <= es[j].now
  {
    var now, later := es[i].now - cfg.window as real, es[j].now - cfg.window as real;
    PrunedIsSlice(cfg, ss, es, i);
    RejectedMeansFull(cfg, ss, es, i);
    CallsPersist(cfg, ss, es, i, j);
    ChecksInOrder(cfg, ss, es, i, j);
    RecountLater(ss[i].calls, ss[j].calls, cfg.limit, now, later);
    PrunedIsSlice(cfg, ss, es, j);
  }

  lemma RecountLater(a: seq<Call>, b: seq<Call>, limit: nat, now: real, later: real)
    requires Persist(a, b) && Underway(a) == {} && forall c | |a| <= c < |b| :: b[c].status.Rejected?
    requires now <= later && |Slice(a, now)| == limit >= 1
    ensures Slice(a, now) != map[]
    ensures |Slice(b, later)| < limit <==> Oldest(Slice(a, now)) <= later
  {
    SameAdmissions(a, b, later);
    FullSlice(a, limit, now, later);
  }

  lemma SameAdmissions(a: seq<Call>, b: seq<Call>, cutoff: real)
    requires Persist(a, b) && Underway(a) == {}
    requires forall c | |a| <= c < |b| :: b[c].status.Rejected?
    ensures Slice(a, cutoff) == Slice(b, cutoff)
  {
    forall c | 0 <= c < |a| ensures a[c].status == b[c].status {
      assert c !in Underway(a);
    }
  }

  /** Waiting one second more than the stated value always leads to admission; waiting exactly the
      stated value does so if and only if the oldest entry's remaining life is no longer than that. */
  lemma WaitingAdmits(cfg: Config, ss: seq<Limiter>, es: seq<Event>, i: nat, j: nat)
    requires IsRun(cfg, ss, es) && AtMost(ss, 1) && i < j < |es| && cfg.limit >= 1 && cfg.window >= 1
    requires es[i].Check? && Underway(ss[i].calls) == {}
    requires |ss[i].calls| < |ss[i + 1].calls| && ss[i + 1].calls[|ss[i].calls|].status.Rejected?
    requires es[j].Check? && |ss[i].calls| <= |ss[j].calls|
    requires forall c | |ss[i].calls| <= c < |ss[j].calls| :: ss[j].calls[c].status.Rejected?
    ensures ss[i + 1].zset != map[] && |ss[j + 1].calls| == |ss[j].calls| + 1
    ensures var v := ss[i + 1].calls[|ss[i].calls|].status.retryAfter as real;
      && (es[j].now >= es[i].now + v + 1.0 ==> ss[j + 1].calls[|ss[j].calls|].status.Between?)
      && (es[j].now == es[i].now + v ==>
            (ss[j + 1].calls[|ss[j].calls|].status.Between? <==>
               Oldest(ss[i + 1].zset) + cfg.window as real - es[i].now <= v))
  {
    RetryAfterRange(cfg, ss, es, i);
    AdmittedOnceOldestLeaves(cfg, ss, es, i, j);
  }
}
