/** The rate limiter as the service object: both transactions of a call, over the keys of all users. */
module RateLimiterService {
  import opened Model
  import L = RateLimiter

  /** `Unavailable` means that one of the two transactions raised. */
  datatype Outcome = Allowed | Exceeded(retryAfter: int) | Unavailable

  // ------------------------------------------------------------------ one key between calls

  /** No call is under way, and calls one at a time have respected the limit. */
  ghost predicate Settled(cfg: L.Config, s: L.Limiter) {
    L.Inv(cfg, s) && L.Quota(cfg, s, 1) && L.Underway(s.calls) == {}
  }

  function Pruned(cfg: L.Config, s: L.Limiter, now: real): L.Limiter {
    var z := L.Prune(s.zset, now - cfg.window as real);
    s.(clock := now, zset := z, expireAt := if z == map[] then None else s.expireAt)
  }

  lemma EmptySettled(cfg: L.Config, now: real)
    ensures Settled(cfg, L.Limiter(now, map[], None, []))
  {
    forall a: real ensures L.WindowCount(cfg, [], a) == 0 {
      assert L.InWindow([], a, a + cfg.window as real) == {};
    }
  }

  lemma ClockForward(cfg: L.Config, s: L.Limiter, t: real)
    requires Settled(cfg, s) && s.clock <= t
    ensures Settled(cfg, s.(clock := t))
  {
  }

  lemma ExpirySettled(cfg: L.Config, s: L.Limiter, now: real)
    requires Settled(cfg, s) && L.Enabled(s, L.Expire(now))
    ensures Settled(cfg, L.Step(cfg, s, L.Expire(now)))
    ensures L.Prune(s.zset, now - cfg.window as real) == map[]
  {
    L.StepKeeps(cfg, s, L.Expire(now));
  }

  lemma PruneSettled(cfg: L.Config, s: L.Limiter, now: real)
    requires Settled(cfg, s) && s.clock <= now
    ensures Settled(cfg, Pruned(cfg, s, now))
    ensures Pruned(cfg, s, now).zset == L.Slice(s.calls, now - cfg.window as real)
  {
  }

  lemma RefusalSettled(cfg: L.Config, s: L.Limiter, status: L.CallStatus)
    requires Settled(cfg, s) && (status.Rejected? || (status.Abandoned? && cfg.limit >= 1))
    ensures Settled(cfg, s.(calls := s.calls + [L.Call(s.clock, status)]))
  {
    var call := L.Call(s.clock, status);
    forall a: real ensures L.WindowCount(cfg, s.calls + [call], a) == L.WindowCount(cfg, s.calls, a) {
      L.InWindowSnoc(s.calls, call, a, a + cfg.window as real);
    }
    assert L.Underway(s.calls + [call]) == {};
  }

  lemma AddQuota(cfg: L.Config, s: L.Limiter)
    requires Settled(cfg, s) && s.zset == L.Slice(s.calls, s.clock - cfg.window as real) && |s.zset| < cfg.limit
    ensures L.Quota(cfg, s.(calls := s.calls + [L.Call(s.clock, L.Admitted)]), 1)
  {
    var z := L.Prune(s.zset, s.clock - cfg.window as real);
    assert z == s.zset;
    assert L.Underway(s.calls) + {|s.calls|} == {|s.calls|};
    forall a: real ensures L.WindowCount(cfg, s.calls + [L.Call(s.clock, L.Admitted)], a) <= cfg.limit {
      assert L.WindowCount(cfg, s.calls, a) <= cfg.limit;
      L.CheckQuota(cfg, s, 1, a, L.Call(s.clock, L.Admitted));
    }
  }

  /** The key of a user after the call at time s.clock was added at time `at`. */
  function Added(cfg: L.Config, s: L.Limiter, at: real): L.Limiter {
    L.Limiter(at, s.zset[|s.calls| := s.clock], Some(at + cfg.window as real), s.calls + [L.Call(s.clock, L.Admitted)])
  }

  lemma AddInv(cfg: L.Config, s: L.Limiter, at: real)
    requires L.Inv(cfg, s) && s.clock <= at
    ensures L.Inv(cfg, Added(cfg, s, at))
  {
  }

  /** Adding the entry of a call that found fewer than limit live ones. */
  lemma AddSettled(cfg: L.Config, s: L.Limiter, at: real)
    requires Settled(cfg, s) && s.clock <= at
    requires s.zset == L.Slice(s.calls, s.clock - cfg.window as real) && |s.zset| < cfg.limit
    ensures Settled(cfg, Added(cfg, s, at))
  {
    AddQuota(cfg, s);
    AddInv(cfg, s, at);
    var calls := s.calls + [L.Call(s.clock, L.Admitted)];
    assert L.Underway(calls) == {} by {
      assert forall c | 0 <= c < |s.calls| :: c !in L.Underway(s.calls);
    }
  }

  /** v is the whole number of seconds in `left`, but at least one. */
  predicate IsDelay(v: int, left: real) {
    v >= 1 && (if left < 2.0 then v == 1 else v as real <= left < v as real + 1.0)
  }

  /** What a call is told, by recounting the log: it gets past the count if and only if fewer than limit earlier
      calls were admitted in (now - window, now], and is allowed if its entry is then added. A rejected one is told
      the whole seconds until the oldest of those leaves the window, at least one. */
  ghost predicate Verdict(cfg: L.Config, log: seq<L.Call>, now: real, first: Reply, second: Reply, r: Outcome) {
    var live := L.Live(cfg, log, now);
    && (r.Exceeded? <==> first.Ok? && |live| >= cfg.limit)
    && (r.Allowed? <==> first.Ok? && |live| < cfg.limit && second.Ok?)
    && (r.Exceeded? && live == {} ==> r.retryAfter == 1)
    && (r.Exceeded? && live != {} ==>
          exists c :: c in live && EarliestOf(log, live, c) &&
                      IsDelay(r.retryAfter, log[c].time + cfg.window as real - now))
  }

  /** No call of this set was made before c. */
  ghost predicate EarliestOf(log: seq<L.Call>, live: set<nat>, c: nat) {
    c < |log| && forall e | e in live :: e < |log| && log[c].time <= log[e].time
  }

  lemma OldestCall(cfg: L.Config, log: seq<L.Call>, now: real) returns (c: nat)
    requires forall c | 0 <= c < |log| :: log[c].time <= now
    requires L.Slice(log, now - cfg.window as real) != map[]
    ensures c in L.Live(cfg, log, now) && EarliestOf(log, L.Live(cfg, log, now), c)
    ensures log[c].time == L.Oldest(L.Slice(log, now - cfg.window as real))
  {
    var slice := L.Slice(log, now - cfg.window as real);
    L.RecountIsSlice(cfg, log, now);
    c :| c in slice && slice[c] == L.Oldest(slice);
    forall e | e in L.Live(cfg, log, now) ensures e < |log| && log[c].time <= log[e].time {
      assert e in slice && L.Oldest(slice) <= slice[e];
    }
  }

  /** The same in terms of what the first transaction leaves in the sorted set. */
  ghost predicate FromSlice(cfg: L.Config, live: map<nat, real>, now: real, first: Reply, second: Reply, r: Outcome) {
    && (r.Exceeded? <==> first.Ok? && |live| >= cfg.limit)
    && (r.Allowed? <==> first.Ok? && |live| < cfg.limit && second.Ok?)
    && (r.Exceeded? && live == map[] ==> r.retryAfter == 1)
    && (r.Exceeded? && live != map[] ==> IsDelay(r.retryAfter, L.Oldest(live) + cfg.window as real - now))
  }

  lemma VerdictBySlice(cfg: L.Config, log: seq<L.Call>, now: real, first: Reply, second: Reply, r: Outcome)
    requires forall c | 0 <= c < |log| :: log[c].time <= now
    requires FromSlice(cfg, L.Slice(log, now - cfg.window as real), now, first, second, r)
    ensures Verdict(cfg, log, now, first, second, r)
  {
    L.RecountIsSlice(cfg, log, now);
    var slice := L.Slice(log, now - cfg.window as real);
    if slice == map[] {
      assert slice.Keys == {};
    } else if r.Exceeded? {
      var c := OldestCall(cfg, log, now);
    }
  }

  lemma PruneIsStep(cfg: L.Config, s: L.Limiter, now: real)
    requires s.clock <= now
    ensures L.Step(cfg, s, L.Sweep(now)) == Pruned(cfg, s, now)
    ensures var z := Pruned(cfg, s, now).zset;
      L.Step(cfg, s, L.Check(now)) ==
      Pruned(cfg, s, now).(calls := s.calls + [L.Call(now, L.Answer(cfg, z, now))])
  {
  }

  lemma AddIsStep(cfg: L.Config, s: L.Limiter, at: real)
    requires s.clock <= at
    ensures var checked := s.(calls := s.calls + [L.Call(s.clock, L.Between)]);
      && L.Step(cfg, checked, L.Add(|s.calls|, at)) == Added(cfg, s, at)
      && L.Step(cfg, checked, L.Abandon(|s.calls|)) == s.(calls := s.calls + [L.Call(s.clock, L.Abandoned)])
  {
    var calls := s.calls + [L.Call(s.clock, L.Between)];
    assert calls[|s.calls| := L.Call(s.clock, L.Admitted)] == s.calls + [L.Call(s.clock, L.Admitted)];
    assert calls[|s.calls| := L.Call(s.clock, L.Abandoned)] == s.calls + [L.Call(s.clock, L.Abandoned)];
  }

  // ------------------------------------------------------------------ all keys

  class RateLimiterService {
    const cfg: L.Config
    /** The sorted set and the expiry time of each user's key; a missing key is an empty set. */
    var zsets: map<string, map<nat, real>>
    var expiry: map<string, real>
    /** Numbers the calls of each user; it stands for the unique random part of a member. */
    var issued: map<string, nat>
    /** Every call so far, and the time of the last one. */
    ghost var calls: map<string, seq<L.Call>>
    ghost var clock: real

    function Number(user: string): nat
      reads this
    {
      if user in issued then issued[user] else 0
    }

    ghost function Log(user: string): seq<L.Call>
      reads this
    {
      if user in calls then calls[user] else []
    }

    ghost function View(user: string): L.Limiter
      reads this
    {
      L.Limiter(clock, if user in zsets then zsets[user] else map[],
                if user in expiry then Some(expiry[user]) else None, Log(user))
    }

    ghost predicate Numbered(user: string)
      reads this
    {
      Number(user) == |Log(user)|
    }

    ghost predicate Valid()
      reads this
    {
      forall user: string :: Settled(cfg, View(user)) && Numbered(user)
    }

    constructor (cfg: L.Config, now: real)
      ensures Valid() && this.cfg == cfg && clock == now && calls == map[]
    {
      this.cfg := cfg;
      zsets, expiry, issued, calls, clock := map[], map[], map[], map[], now;
      new;
      EmptySettled(cfg, now);
    }

    /** A call for one user leaves the keys of the others settled. */
    twostate lemma OthersSettled(user: string)
      requires old(Valid()) && old(clock) <= clock && Settled(cfg, View(user)) && Numbered(user)
      requires forall u: string | u != user :: View(u) == old(View(u)).(clock := clock) && Number(u) == old(Number(u))
      ensures Valid()
    {
      forall u: string ensures Settled(cfg, View(u)) && Numbered(u) {
        assert old(Numbered(u));
        if u != user {
          ClockForward(cfg, old(View(u)), clock);
        }
      }
    }

    /** Redis treats a key past its expiry as missing. No entry that is lost was still in the window. */
    method DropExpired(user: string, now: real)
      requires Valid() && clock <= now
      modifies this`zsets, this`expiry, this`clock
      ensures Valid() && clock == now
      ensures L.Prune(View(user).zset, now - cfg.window as real)
              == L.Prune(old(View(user)).zset, now - cfg.window as real)
      ensures var before := old(View(user));
        View(user) == if before.expireAt.Some? && before.expireAt.value <= now
                      then L.Limiter(now, map[], None, before.calls)
                      else before.(clock := now)
      ensures forall u: string | u != user :: View(u) == old(View(u)).(clock := now)
    {
      ghost var before := View(user);
      assert Settled(cfg, before) && Numbered(user);
      if user in expiry && expiry[user] <= now {
        ExpirySettled(cfg, before, now);
        zsets, expiry := zsets - {user}, expiry - {user};
      } else {
        ClockForward(cfg, before, now);
      }
      clock := now;
      OthersSettled(user);
    }

    /** ZREMRANGEBYSCORE; an empty sorted set has no key. */
    method RemoveUpTo(user: string, now: real)
      modifies this`zsets, this`expiry
      ensures View(user) == Pruned(cfg, old(View(user)), now).(clock := clock)
      ensures forall u: string | u != user :: View(u) == old(View(u))
    {
      var z := L.Prune(if user in zsets then zsets[user] else map[], now - cfg.window as real);
      if z == map[] {
        zsets, expiry := zsets - {user}, expiry - {user};
      } else {
        zsets := zsets[user := z];
      }
    }

    method RemoveOld(user: string, now: real)
      requires Valid() && clock == now
      modifies this`zsets, this`expiry
      ensures Valid() && View(user) == Pruned(cfg, old(View(user)), now)
      ensures View(user).zset == L.Slice(Log(user), now - cfg.window as real)
      ensures forall u: string | u != user :: View(u) == old(View(u))
    {
      PruneSettled(cfg, View(user), now);
      assert Numbered(user);
      RemoveUpTo(user, now);
      OthersSettled(user);
    }

    /** The first transaction: prune, count, fetch the oldest entry. What is left is exactly the part of
        the full log that lies in the window. */
    method PruneAndCount(user: string, now: real) returns (count: nat, oldest: Option<real>)
      requires Valid() && clock <= now
      modifies this`zsets, this`expiry, this`clock
      ensures Valid() && clock == now
      ensures View(user).zset == L.Slice(Log(user), now - cfg.window as real)
      ensures count == |View(user).zset|
      ensures oldest == if View(user).zset == map[] then None else Some(L.Oldest(View(user).zset))
      ensures forall u: string | u != user :: View(u) == old(View(u)).(clock := now)
    {
      DropExpired(user, now);
      RemoveOld(user, now);
      count, oldest := CountAndFirst(user);
    }

    /** ZCARD and ZRANGE 0 0. */
    method CountAndFirst(user: string) returns (count: nat, oldest: Option<real>)
      ensures count == |View(user).zset|
      ensures oldest == if View(user).zset == map[] then None else Some(L.Oldest(View(user).zset))
    {
      var z := if user in zsets then zsets[user] else map[];
      count := |z|;
      oldest := First(z);
    }

    /** The lowest score of a sorted set, if it has any. */
    method First(z: map<nat, real>) returns (oldest: Option<real>)
      ensures oldest == if z == map[] then None else Some(L.Oldest(z))
    {
      oldest := None;
      if z != map[] {
        L.OldestExists(z, z.Keys);
        var m :| m in z.Keys && forall n | n in z.Keys :: z[m] <= z[n];
        oldest := Some(z[m]);
      }
    }

    /** Notes how the latest call of a user ended. */
    method Note(user: string, ghost call: L.Call)
      modifies this`issued, this`calls
      ensures calls == old(calls)[user := old(Log(user)) + [call]] && Number(user) == old(Number(user)) + 1
      ensures forall u: string | u != user :: Number(u) == old(Number(u))
    {
      issued := issued[user := Number(user) + 1];
      calls := calls[user := Log(user) + [call]];
    }

    /** ZADD and EXPIRE, in one transaction. */
    method Zadd(user: string, now: real, at: real)
      modifies this`zsets, this`expiry, this`clock
      ensures clock == at
      ensures View(user) ==
              L.Limiter(at, old(View(user)).zset[Number(user) := now], Some(at + cfg.window as real), Log(user))
      ensures forall u: string | u != user :: View(u) == old(View(u)).(clock := at)
    {
      zsets := zsets[user := (if user in zsets then zsets[user] else map[])[Number(user) := now]];
      expiry := expiry[user := at + cfg.window as real];
      clock := at;
    }

    method Append(user: string, now: real, at: real)
      requires clock == now && Numbered(user)
      modifies this
      ensures View(user) == Added(cfg, old(View(user)), at) && Numbered(user) && clock == at
      ensures calls == old(calls)[user := old(Log(user)) + [L.Call(now, L.Admitted)]]
      ensures forall u: string | u != user :: View(u) == old(View(u)).(clock := at) && Number(u) == old(Number(u))
    {
      Zadd(user, now, at);
      Note(user, L.Call(now, L.Admitted));
    }

    /** The second transaction: add the entry and set the key's expiry. */
    method AddEntry(user: string, now: real, at: real)
      requires Valid() && clock == now <= at
      requires View(user).zset == L.Slice(Log(user), now - cfg.window as real) && |View(user).zset| < cfg.limit
      modifies this
      ensures Valid() && clock == at && View(user) == Added(cfg, old(View(user)), at)
      ensures calls == old(calls)[user := old(Log(user)) + [L.Call(now, L.Admitted)]]
      ensures forall u: string | u != user :: View(u) == old(View(u)).(clock := at)
    {
      assert Numbered(user);
      AddSettled(cfg, View(user), at);
      Append(user, now, at);
      OthersSettled(user);
    }

    /** Notes a call that took no slot. */
    method Refuse(user: string, ghost status: L.CallStatus)
      requires Valid() && (status.Rejected? || (status.Abandoned? && cfg.limit >= 1))
      modifies this`issued, this`calls
      ensures Valid() && calls == old(calls)[user := old(Log(user)) + [L.Call(clock, status)]]
      ensures forall u: string | u != user :: View(u) == old(View(u))
    {
      assert Numbered(user);
      RefusalSettled(cfg, View(user), status);
      Note(user, L.Call(clock, status));
      OthersSettled(user);
    }

    /** What a call that got its count leaves in the log. */
    ghost function StatusOf(r: Outcome, second: Reply): L.CallStatus {
      match r
      case Allowed => L.Admitted
      case Exceeded(v) => L.Rejected(v)
      case Unavailable => if second.Applied() then L.Admitted else L.Abandoned
    }

    /** The rejection of a call that found `count` live entries. */
    method Reject(user: string, oldest: Option<real>, now: real) returns (r: Outcome)
      requires Valid() && clock == now
      requires oldest == if View(user).zset == map[] then None else Some(L.Oldest(View(user).zset))
      requires View(user).zset == L.Slice(Log(user), now - cfg.window as real)
      modifies this`issued, this`calls
      ensures Valid() && r.Exceeded?
      ensures calls == old(calls)[user := old(Log(user)) + [L.Call(now, L.Rejected(r.retryAfter))]]
      ensures var live := L.Slice(old(Log(user)), now - cfg.window as real);
        && (live == map[] ==> r.retryAfter == 1)
        && (live != map[] ==> IsDelay(r.retryAfter, L.Oldest(live) + cfg.window as real - now))
      ensures forall u: string | u != user :: View(u) == old(View(u))
    {
      var retryAfter := 1;
      if oldest.Some? {
        var left := L.Truncate((oldest.value + cfg.window as real) - now);
        retryAfter := if left > 1 then left else 1;
      }
      Refuse(user, L.Rejected(retryAfter));
      r := Exceeded(retryAfter);
    }

    /** Both transactions of one call. */
    method Transact(user: string, now: real, at: real, first: Reply, second: Reply) returns (r: Outcome)
      requires Valid() && clock <= now <= at
      modifies this
      ensures Valid() && old(clock) <= clock <= at
      ensures FromSlice(cfg, L.Slice(old(Log(user)), now - cfg.window as real), now, first, second, r)
      ensures calls == if !first.Ok? then old(calls) else
                old(calls)[user := old(Log(user)) + [L.Call(now, StatusOf(r, second))]]
      ensures forall u: string | u != user :: View(u) == old(View(u)).(clock := clock)
    {
      if !first.Applied() {
        return Unavailable;
      }
      var count, oldest := PruneAndCount(user, now);
      if !first.Ok? {
        return Unavailable;
      }
      if count >= cfg.limit {
        r := Reject(user, oldest, now);
        return;
      }
      if second.Applied() {
        AddEntry(user, now, at);
      } else {
        Refuse(user, L.Abandoned);
      }
      r := if second.Ok? then Allowed else Unavailable;
    }

    /** Enforces the limit. `at` is when the second transaction happens. */
    method CheckRateLimit(user: string, now: real, at: real, first: Reply, second: Reply) returns (r: Outcome)
      requires Valid() && clock <= now <= at
      modifies this
      ensures Valid() && old(clock) <= clock <= at
      ensures Verdict(cfg, old(Log(user)), now, first, second, r)
      ensures calls == if !first.Ok? then old(calls) else
                old(calls)[user := old(Log(user)) + [L.Call(now, StatusOf(r, second))]]
      ensures forall u: string | u != user :: View(u) == old(View(u)).(clock := clock)
    {
      ghost var log := Log(user);
      assert Settled(cfg, View(user));
      r := Transact(user, now, at, first, second);
      VerdictBySlice(cfg, log, now, first, second, r);
    }
  }
}
