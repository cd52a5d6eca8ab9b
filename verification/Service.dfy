/** The whole service: requests, template creation, executions of the delivery task, redeliveries and
    reconciliation, in any order. Requests may be interleaved between their GET, their SET NX and the rest.
    The service records which run of the request machine its requests amount to, so every result about those
    runs holds of the answers it gives, as every result about the delivery protocol holds of the tables its
    backend fills. */
module Service {
  import opened Model
  import opened Idempotency
  import A = Api
  import E = Execution
  import L = RateLimiter
  import Machine
  import R = Requests
  import Serial
  import W = Worker

  /** A run of the request machine under construction. */
  datatype Trace = Trace(ss: seq<R.State>, es: seq<R.Event>) {
    ghost predicate Valid(ttl: real) { R.IsRun(ttl, ss, es) }
    ghost function Last(): R.State
      requires |ss| == |es| + 1
    {
      ss[|es|]
    }
  }

  lemma Then(ttl: real, t: Trace, e: R.Event) returns (r: Trace)
    requires t.Valid(ttl) && R.Enabled(t.Last(), e)
    ensures r.Valid(ttl) && r.Last() == R.Step(ttl, t.Last(), e)
  {
    R.Then(ttl, t.ss, t.es, e);
    r := Trace(t.ss + [R.Step(ttl, t.Last(), e)], t.es + [e]);
  }

  // ------------------------------------------------------------------ one request, step by step

  /** Request number `me` among all requests, as they were before its step. */
  datatype Focus = Focus(ttl: real, me: nat, all: seq<R.Request>, key: Option<string>, payload: Payload)

  /** The request is in this phase; time, store and rows are these; the other requests have not moved. */
  ghost predicate Stands(c: Focus, t: Trace, now: real, store: Store, rows: seq<R.Row>, phase: R.Phase) {
    && t.Valid(c.ttl) && c.me < |c.all|
    && t.Last().now == now && t.Last().store == store && t.Last().rows == rows
    && |t.Last().requests| == |c.all|
    && (forall j | 0 <= j < |c.all| && j != c.me :: t.Last().requests[j] == c.all[j])
    && var q := t.Last().requests[c.me];
    && q.key == c.key && q.payload == c.payload && q.phase == phase
  }

  /** The answer, as the machine names it. */
  function Said(r: A.Response): R.Response {
    match r
    case Created(body) => R.Created(body)
    case Replayed(code, body) => R.Replayed(code, body)
    case Conflict => R.Conflict
    case Busy => R.Busy
    case _ => R.Failure
  }

  /** Where a step of the key check leaves a request. */
  function PhaseAfter(stopped: Option<A.Response>, otherwise: R.Phase): R.Phase {
    if stopped.Some? then R.Answered(Said(stopped.value)) else otherwise
  }

  /** Where the look-up of a free key leaves a request. */
  function Free(key: Option<string>): R.Phase {
    if IsGuarded(key) then R.Missed else R.Working
  }

  lemma Arrives(c: Focus, t: Trace, env: A.Env) returns (r: Trace)
    requires t.Valid(c.ttl) && t.Last().now <= env.looked
    requires c.me == |t.Last().requests| && |c.all| == c.me + 1 && c.all[..c.me] == t.Last().requests
    ensures Stands(c, r, env.looked, t.Last().store, t.Last().rows,
                   PhaseAfter(A.LookedUp(t.Last().store, c.key, c.payload, env), Free(c.key)))
  {
    r := Then(c.ttl, t, R.Tick(env.looked));
    r := Then(c.ttl, r, R.Arrive(c.key, c.payload));
    assert Stands(c, r, env.looked, t.Last().store, t.Last().rows, R.Arrived);
    r := Then(c.ttl, r, R.LookUp(c.me, env.get));
  }

  lemma Waits(c: Focus, t: Trace, now: real, later: real, store: Store, rows: seq<R.Row>, phase: R.Phase)
    returns (r: Trace)
    requires Stands(c, t, now, store, rows, phase) && now <= later
    ensures Stands(c, r, later, store, rows, phase)
  {
    r := Then(c.ttl, t, R.Tick(later));
  }

  lemma Locks(c: Focus, t: Trace, env: A.Env, now: real, store: Store, rows: seq<R.Row>) returns (r: Trace)
    requires Stands(c, t, now, store, rows, R.Missed) && IsGuarded(c.key) && now <= env.locked
    ensures Stands(c, r, env.locked, A.Locked(store, c.key, c.payload, env, c.me), rows,
                   PhaseAfter(A.LockTried(store, c.key, env), R.Working))
  {
    r := Waits(c, t, now, env.locked, store, rows, R.Missed);
    r := Then(c.ttl, r, R.Acquire(c.me, env.setNx));
  }

  lemma Cleans(c: Focus, t: Trace, env: A.Env, now: real, store: Store, rows: seq<R.Row>) returns (r: Trace)
    requires Stands(c, t, now, store, rows, R.Cleaning)
    ensures Stands(c, r, now, A.Left(store, c.key, env, true), rows, R.Answered(R.Failure))
  {
    r := Then(c.ttl, t, R.Clean(c.me, env.clean));
  }

  lemma GivesUp(c: Focus, t: Trace, env: A.Env, now: real, store: Store, rows: seq<R.Row>, phase: R.Phase)
    returns (r: Trace)
    requires Stands(c, t, now, store, rows, phase) && (phase.Working? || phase.Committed?)
    ensures Stands(c, r, now, A.Left(store, c.key, env, true), rows, R.Answered(R.Failure))
  {
    r := Then(c.ttl, t, R.Fail(c.me));
    r := Cleans(c, r, env, now, store, rows);
  }

  lemma Commits(c: Focus, t: Trace, now: real, store: Store, rows: seq<R.Row>, reply: Reply) returns (r: Trace)
    requires Stands(c, t, now, store, rows, R.Working)
    ensures var free := R.Unique(rows, c.key);
      Stands(c, r, now, store, if free && reply.Applied() then rows + [R.Row(c.key, c.payload, c.me, None)] else rows,
             if free && reply.Ok? then R.Committed(|rows|) else R.Cleaning)
  {
    r := Then(c.ttl, t, R.Commit(c.me, reply));
  }

  lemma Builds(c: Focus, t: Trace, now: real, store: Store, rows: seq<R.Row>, n: nat, ds: seq<Delivery>)
    returns (r: Trace)
    requires Stands(c, t, now, store, rows, R.Committed(n)) && n < |rows|
    ensures Stands(c, r, now, store, rows[n := rows[n].(body := Some(Body(n, ds)))], R.Saving(Body(n, ds)))
  {
    r := Then(c.ttl, t, R.Build(c.me, ds));
  }

  lemma Saves(c: Focus, t: Trace, env: A.Env, store: Store, rows: seq<R.Row>, body: Body) returns (r: Trace)
    requires Stands(c, t, env.saved, store, rows, R.Saving(body))
    ensures Stands(c, r, env.saved, A.Saved(store, c.key, A.Finished(c.payload, env, Some(body), c.ttl, c.me)), rows,
                   if IsGuarded(c.key) && !env.save.Ok? then R.Cleaning else R.Answered(R.Created(body)))
  {
    r := Then(c.ttl, t, R.Save(c.me, env.save));
  }

  // ------------------------------------------------------------------ the rest of a request

  /** The store once the response, if one was built, is saved. */
  function Cached(c: Focus, store: Store, env: A.Env, body: Option<Body>): Store {
    A.Saved(store, c.key, A.Finished(c.payload, env, body, c.ttl, c.me))
  }

  /** The store once the clean-up of a failed request is done, too. */
  function StoreAfter(c: Focus, store: Store, env: A.Env, body: Option<Body>, failed: bool): Store {
    A.Left(Cached(c, store, env, body), c.key, env, failed)
  }

  /** The rows once the commit is tried. */
  function RowsAfter(c: Focus, rows: seq<R.Row>, env: A.Env, body: Option<Body>): seq<R.Row> {
    if R.Unique(rows, c.key) && env.commit.Applied() then rows + [R.Row(c.key, c.payload, c.me, body)] else rows
  }

  lemma Finishes(c: Focus, t: Trace, env: A.Env, now: real, store: Store, rows: seq<R.Row>, body: Body)
    returns (r: Trace)
    requires Stands(c, t, now, store, rows + [R.Row(c.key, c.payload, c.me, None)], R.Committed(|rows|))
    requires now <= env.saved && body.notificationId == |rows|
    ensures var failed := IsGuarded(c.key) && !env.save.Ok?;
      Stands(c, r, env.saved, StoreAfter(c, store, env, Some(body), failed),
             rows + [R.Row(c.key, c.payload, c.me, Some(body))],
             R.Answered(if failed then R.Failure else R.Created(body)))
  {
    var before := rows + [R.Row(c.key, c.payload, c.me, None)];
    var after := rows + [R.Row(c.key, c.payload, c.me, Some(body))];
    assert before[|rows| := before[|rows|].(body := Some(body))] == after;
    r := Builds(c, t, now, store, before, |rows|, body.deliveries);
    r := Waits(c, r, now, env.saved, store, after, R.Saving(body));
    r := Saves(c, r, env, store, after, body);
    if IsGuarded(c.key) && !env.save.Ok? {
      r := Cleans(c, r, env, env.saved, Cached(c, store, env, Some(body)), after);
    }
  }

  /** From the commit to the answer of a request whose plan could be made. */
  lemma Delivers(c: Focus, t: Trace, env: A.Env, now: real, store: Store, rows: seq<R.Row>, body: Option<Body>)
    returns (r: Trace, end: real)
    requires Stands(c, t, now, store, rows, R.Working) && now <= env.saved
    requires body.Some? ==> R.Unique(rows, c.key) && env.commit.Ok? && body.value.notificationId == |rows|
    ensures end <= env.saved
    ensures var failed := body.None? || (IsGuarded(c.key) && !env.save.Ok?);
      Stands(c, r, end, StoreAfter(c, store, env, body, failed),
             RowsAfter(c, rows, env, body),
             R.Answered(if failed then R.Failure else R.Created(body.value)))
  {
    var free := R.Unique(rows, c.key);
    var added := RowsAfter(c, rows, env, None);
    r := Commits(c, t, now, store, rows, env.commit);
    end := now;
    if body.None? {
      if free && env.commit.Ok? {
        r := GivesUp(c, r, env, now, store, added, R.Committed(|rows|));
      } else {
        r := Cleans(c, r, env, now, store, added);
      }
    } else {
      r := Finishes(c, r, env, now, store, rows, body.value);
      end := env.saved;
    }
  }

  /** The machine's rows and the notifications table hold the same. */
  ghost predicate Agree(rows: seq<R.Row>, notifications: seq<Notification>) {
    && |rows| == |notifications|
    && forall n | 0 <= n < |rows| ::
         && rows[n].key == notifications[n].idempotencyKey
         && rows[n].payload.userId == notifications[n].userId
         && rows[n].payload.variables == notifications[n].variables
         && rows[n].payload.priority == notifications[n].priority
  }

  /** Every response built so far names its own row and lists exactly that notification's deliveries. */
  ghost predicate Listed(rows: seq<R.Row>, db: Db) {
    && |rows| == |db.notifications|
    && forall n | 0 <= n < |rows| && rows[n].body.Some? ::
         rows[n].body.value.notificationId == n && A.Lists(rows[n].body.value, db.deliveries)
  }

  lemma ListedKept(rows: seq<R.Row>, a: Db, b: Db)
    requires Listed(rows, a) && b.notifications == a.notifications && |a.deliveries| == |b.deliveries|
    requires forall d | 0 <= d < |a.deliveries| ::
               && b.deliveries[d].notificationId == a.deliveries[d].notificationId
               && b.deliveries[d].channel == a.deliveries[d].channel
               && b.deliveries[d].createdAt == a.deliveries[d].createdAt
    ensures Listed(rows, b)
  {
    forall n | 0 <= n < |rows| && rows[n].body.Some? ensures A.Lists(rows[n].body.value, b.deliveries) {
      A.ListsKept(rows[n].body.value, a, b);
    }
  }

  lemma ListedGrows(rows: seq<R.Row>, row: R.Row, a: Db, b: Db)
    requires Listed(rows, a) && a.deliveries <= b.deliveries && |b.notifications| == |a.notifications| + 1
    requires forall d | |a.deliveries| <= d < |b.deliveries| :: b.deliveries[d].notificationId == |a.notifications|
    requires row.body.Some? ==> row.body.value.notificationId == |rows| && A.Lists(row.body.value, b.deliveries)
    ensures Listed(rows + [row], b)
  {
    forall n | 0 <= n < |rows| && rows[n].body.Some? ensures A.Lists(rows[n].body.value, b.deliveries) {
      assert forall d | 0 <= d < |a.deliveries| :: a.deliveries[d] == b.deliveries[d];
      A.ListsKept(rows[n].body.value, a, b);
    }
  }

  lemma RowsListed(c: Focus, cfg: Machine.Config, a: A.Books, b: A.Books, env: A.Env, call: nat, rows: seq<R.Row>,
                   plan: A.Plan, resp: A.Response)
    requires A.Fulfilled(cfg, a, b, c.key, c.payload, env, call, resp) && A.Referenced(a.db)
    requires Agree(rows, a.db.notifications) && Listed(rows, a.db)
    requires A.ResolutionOf(cfg, a.db.templates, c.key, c.payload, env) == A.Planned(plan)
    ensures Listed(RowsAfter(c, rows, env, A.Built(a, b, plan, env)), b.db)
  {
    var body := A.Built(a, b, plan, env);
    assert R.Unique(rows, c.key) <==> KeyFree(a.db.notifications, c.key);
    A.RowsMean(a, plan, env, call);
    A.BodyMeans(cfg, a, b, c.key, c.payload, env, call, resp);
    if A.CommitsRows(a, plan, env) {
      ListedGrows(rows, R.Row(c.key, c.payload, c.me, body), a.db, b.db);
    }
  }

  /** The run that a request amounts to once the limiter has let it in. */
  lemma Fulfils(c: Focus, t: Trace, cfg: Machine.Config, a: A.Books, b: A.Books, env: A.Env, call: nat, now: real,
                store: Store, rows: seq<R.Row>, resp: A.Response)
    returns (r: Trace, end: real, rows': seq<R.Row>)
    requires Stands(c, t, now, store, rows, R.Working) && now <= env.saved && Agree(rows, a.db.notifications)
    requires A.Fulfilled(cfg, a, b, c.key, c.payload, env, call, resp)
    requires A.Referenced(a.db) && Listed(rows, a.db)
    ensures end <= env.saved && Agree(rows', b.db.notifications) && b.db.templates == a.db.templates
    ensures Listed(rows', b.db)
    ensures var body := A.BodyOf(cfg, a, b, c.key, c.payload, env);
      Stands(c, r, end,
             StoreAfter(c, store, env, body, !resp.Created?),
             rows', R.Answered(Said(resp)))
  {
    match A.ResolutionOf(cfg, a.db.templates, c.key, c.payload, env)
    case Planned(plan) =>
      var body := A.Built(a, b, plan, env);
      assert R.Unique(rows, c.key) <==> KeyFree(a.db.notifications, c.key);
      r, end := Delivers(c, t, env, now, store, rows, body);
      rows' := RowsAfter(c, rows, env, body);
      RowsListed(c, cfg, a, b, env, call, rows, plan, resp);
    case _ =>
      r := GivesUp(c, t, env, now, store, rows, R.Working);
      end, rows' := now, rows;
  }

  /** What a request that got past its key check has done, as far as the machine can see. */
  ghost predicate Went(cfg: Machine.Config, a: A.Books, b: A.Books, key: Option<string>, p: Payload, env: A.Env,
                       letIn: bool, call: nat, resp: A.Response)
  {
    if letIn then A.Fulfilled(cfg, a, b, key, p, env, call, resp)
    else b == a && (resp.RateLimited? || resp == A.ServerError)
  }

  function BodyIf(cfg: Machine.Config, a: A.Books, b: A.Books, key: Option<string>, p: Payload, env: A.Env, letIn: bool)
    : Option<Body>
  {
    if letIn then A.BodyOf(cfg, a, b, key, p, env) else None
  }

  /** The request has got this answer; store and tables are these. */
  ghost predicate HasAnswered(c: Focus, t: Trace, latest: real, store: Store, db: Db, resp: A.Response)
  {
    && |t.ss| == |t.es| + 1 && t.Last().now <= latest
    && Agree(t.Last().rows, db.notifications) && Listed(t.Last().rows, db)
    && Stands(c, t, t.Last().now, store, t.Last().rows, R.Answered(Said(resp)))
  }

  /** The rest of a request that its key check let through. */
  lemma Proceeds(c: Focus, t: Trace, cfg: Machine.Config, a: A.Books, b: A.Books, env: A.Env, letIn: bool, call: nat,
                 resp: A.Response) returns (r: Trace)
    requires t.Valid(c.ttl) && Stands(c, t, t.Last().now, t.Last().store, t.Last().rows, R.Working)
    requires t.Last().now <= env.saved && Agree(t.Last().rows, a.db.notifications)
    requires A.Referenced(a.db) && Listed(t.Last().rows, a.db)
    requires Went(cfg, a, b, c.key, c.payload, env, letIn, call, resp)
    ensures b.db.templates == a.db.templates
    ensures var body := BodyIf(cfg, a, b, c.key, c.payload, env, letIn);
      HasAnswered(c, r, env.saved,
                  StoreAfter(c, t.Last().store, env, body, !resp.Created?),
                  b.db, resp)
  {
    var now, store, rows := t.Last().now, t.Last().store, t.Last().rows;
    if letIn {
      var end, rows';
      r, end, rows' := Fulfils(c, t, cfg, a, b, env, call, now, store, rows, resp);
    } else {
      r := GivesUp(c, t, env, now, store, rows, R.Working);
    }
  }

  /** The run that a whole request amounts to when no other comes between its steps. */
  lemma Answers(c: Focus, t: Trace, cfg: Machine.Config, a: A.Books, b: A.Books, env: A.Env, letIn: bool, call: nat,
                resp: A.Response) returns (r: Trace)
    requires t.Valid(c.ttl) && t.Last().now <= env.looked && env.Ordered() && Agree(t.Last().rows, a.db.notifications)
    requires A.Referenced(a.db) && Listed(t.Last().rows, a.db)
    requires c.me == |t.Last().requests| && |c.all| == c.me + 1 && c.all[..c.me] == t.Last().requests
    requires var stopped := A.Checked(t.Last().store, c.key, c.payload, env, None, c.me).0;
      if stopped.Some? then resp == stopped.value && b == a
      else Went(cfg, a, b, c.key, c.payload, env, letIn, call, resp)
    ensures b.db.templates == a.db.templates
    ensures var (stopped, store) := A.Checked(t.Last().store, c.key, c.payload, env, None, c.me);
      var body := BodyIf(cfg, a, b, c.key, c.payload, env, letIn);
      HasAnswered(c, r, env.saved,
                  if stopped.Some? then store
                  else StoreAfter(c, store, env, body, !resp.Created?),
                  b.db, resp)
  {
    var store, rows := t.Last().store, t.Last().rows;
    r := Arrives(c, t, env);
    if A.LookedUp(store, c.key, c.payload, env).None? {
      if IsGuarded(c.key) {
        r := Locks(c, r, env, env.looked, store, rows);
      }
      if A.Checked(store, c.key, c.payload, env, None, c.me).0.None? {
        r := Proceeds(c, r, cfg, a, b, env, letIn, call, resp);
      }
    }
  }

  // ------------------------------------------------------------------ the service

  class NotificationService {
    const api: A.NotificationApi
    /** Numbers the requests. */
    var received: nat
    ghost var trace: Trace

    /** The recorded run has led to what Redis and the notifications table hold. */
    ghost predicate Recorded()
      reads this, api, api.backend, api.backend.repo, api.idempotency
    {
      && trace.Valid(api.idempotency.ttl)
      && trace.Last().store == api.idempotency.store
      && received == |trace.Last().requests|
      && Agree(trace.Last().rows, api.backend.repo.committed.notifications)
      && Listed(trace.Last().rows, api.backend.repo.committed)
      && A.UniqueNames(api.backend.repo.committed.templates)
    }

    ghost predicate Valid()
      reads this, api, api.backend, api.backend.repo, api.limiter, api.idempotency
    {
      api.Valid() && Recorded()
    }

    constructor (cfg: Machine.Config, limits: L.Config, ttl: real, now: real)
      ensures Valid() && fresh(api) && trace.Last().requests == []
    {
      api := new A.NotificationApi(cfg, limits, ttl, now);
      received := 0;
      trace := Trace([R.State(now, map[], [], [])], []);
    }

    /** Request number `me` is this one, and in this phase. */
    ghost predicate InPhase(me: nat, key: Option<string>, p: Payload, phase: R.Phase)
      reads this
    {
      && |trace.ss| == |trace.es| + 1 && me < |trace.Last().requests|
      && var q := trace.Last().requests[me];
      && q.key == key && q.payload == p && q.phase == phase
    }

    /** The other requests are where they were. */
    twostate predicate OthersWait(me: nat)
      reads this
    {
      && |old(trace).ss| == |old(trace).es| + 1 && |trace.ss| == |trace.es| + 1
      && |old(trace).Last().requests| <= |trace.Last().requests|
      && forall j | 0 <= j < |old(trace).Last().requests| && j != me ::
           trace.Last().requests[j] == old(trace).Last().requests[j]
    }

    ghost function FocusOn(me: nat, key: Option<string>, p: Payload): Focus
      reads this, api
      requires |trace.ss| == |trace.es| + 1
    {
      Focus(api.idempotency.ttl, me, trace.Last().requests, key, p)
    }

    /** A new request, about to be put in focus. */
    ghost function Newcomer(key: Option<string>, p: Payload): Focus
      reads this, api
      requires |trace.ss| == |trace.es| + 1
    {
      var requests := trace.Last().requests;
      Focus(api.idempotency.ttl, |requests|, requests + [R.Request(key, p, R.Arrived, 0.0, 0.0)], key, p)
    }

    // ---------------------------------------------------------------- requests that others may interrupt

    /** A new request, up to and including its GET. */
    method LookUp(key: Option<string>, p: Payload, env: A.Env) returns (me: nat, stopped: Option<A.Response>)
      requires Valid() && trace.Last().now <= env.looked
      modifies this
      ensures Valid() && trace.Last().now == env.looked
      ensures me == |old(trace.Last()).requests| && OthersWait(me)
      ensures stopped == A.LookedUp(api.idempotency.store, key, p, env)
      ensures InPhase(me, key, p, PhaseAfter(stopped, Free(key)))
    {
      me, stopped := received, None;
      if key.Some? && key.value != "" {
        var check := api.idempotency.LookUp(key.value, p, env.looked, env.get);
        stopped := A.AnswerTo(check);
      }
      received := received + 1;
      trace := Arrives(Newcomer(key, p), trace, env);
    }

    /** Its SET NX, whatever others have done since its GET. */
    method Lock(me: nat, key: Option<string>, p: Payload, env: A.Env) returns (stopped: Option<A.Response>)
      requires Valid() && InPhase(me, key, p, R.Missed) && IsGuarded(key) && trace.Last().now <= env.locked
      modifies this`trace, api.idempotency
      ensures Valid() && trace.Last().now == env.locked && OthersWait(me)
      ensures stopped == A.LockTried(old(api.idempotency.store), key, env)
      ensures api.idempotency.store == A.Locked(old(api.idempotency.store), key, p, env, me)
      ensures InPhase(me, key, p, PhaseAfter(stopped, R.Working))
    {
      trace := Locks(FocusOn(me, key, p), trace, env, trace.Last().now, trace.Last().store, trace.Last().rows);
      var check := api.idempotency.SetLock(key.value, p, env.locked, me, env.setNx);
      stopped := A.AnswerTo(check);
    }

    /** The rest of it, whatever others have done since its key check. */
    method Proceed(me: nat, key: Option<string>, p: Payload, env: A.Env) returns (r: A.Response)
      requires Valid() && InPhase(me, key, p, R.Working) && A.WellFormed(p) && env.Ordered()
      requires api.backend.Current().now <= env.created && api.limiter.clock <= env.checked
      requires trace.Last().now <= env.saved
      modifies this`trace, api`slots, api.backend, api.backend.repo, api.limiter, api.idempotency
      ensures Valid() && trace.Last().now <= env.saved && OthersWait(me)
      ensures InPhase(me, key, p, R.Answered(Said(r)))
    {
      ghost var c, a, log := FocusOn(me, key, p), api.Holds(), api.limiter.Log(p.userId);
      api.RowsReferenced();
      r := api.Proceed(key, p, env, me);
      trace := Proceeds(c, trace, api.backend.cfg, a, api.Holds(), env, A.LetIn(api.limiter.cfg, log, env), |log|, r);
    }

    /** The process that handles a request is killed. */
    ghost method Crash(me: nat)
      requires Valid() && me < |trace.Last().requests|
      requires !trace.Last().requests[me].phase.Answered? && !trace.Last().requests[me].phase.Crashed?
      modifies this`trace
      ensures Valid() && OthersWait(me) && trace.Last().now == old(trace.Last()).now
      ensures trace.Last().requests[me] == old(trace.Last()).requests[me].(phase := R.Crashed)
    {
      trace := Then(api.idempotency.ttl, trace, R.Crash(me));
    }

    // ---------------------------------------------------------------- requests that run through

    /** One request from start to end, recorded as a run of the machine that ends with the same answer. */
    method Post(key: Option<string>, p: Payload, env: A.Env) returns (r: A.Response)
      requires Valid() && A.WellFormed(p) && env.Ordered()
      requires api.backend.Current().now <= env.created && api.limiter.clock <= env.checked
      requires trace.Last().now <= env.looked
      modifies this, api`slots, api.backend, api.backend.repo, api.limiter, api.idempotency
      ensures Valid() && trace.Last().now <= env.saved
      ensures received == old(received) + 1 && OthersWait(old(received))
      ensures InPhase(old(received), key, p, R.Answered(Said(r)))
    {
      ghost var c, a, log := Newcomer(key, p), api.Holds(), api.limiter.Log(p.userId);
      api.RowsReferenced();
      r := api.SendNotification(key, p, env, None, received);
      trace := Answers(c, trace, api.backend.cfg, a, api.Holds(), env, A.LetIn(api.limiter.cfg, log, env), |log|, r);
      received := received + 1;
    }

    /** Creates a template unless its name is taken. */
    method CreateTemplate(t: Template) returns (created: bool)
      requires Valid()
      modifies api.backend, api.backend.repo
      ensures Valid()
      ensures created <==> forall k | 0 <= k < |old(api.backend.repo.committed).templates| ::
                             old(api.backend.repo.committed).templates[k].name != t.name
      ensures var db := old(api.backend.repo.committed);
        api.backend.repo.committed == if created then db.(templates := db.templates + [t]) else db
    {
      var existing := api.GetByName(t.name);
      if existing.Some? {
        return false;
      }
      ghost var before := api.backend.repo.committed;
      api.backend.CreateTemplate(t);
      ListedKept(trace.Last().rows, before, api.backend.repo.committed);
      created := true;
    }

    // ---------------------------------------------------------------- workers and broker

    /** A worker executes a queued copy of the delivery task, until it returns, raises or is killed. */
    method Deliver(i: nat, env: E.Replies)
      requires Valid() && i < |api.backend.messages| && api.backend.Current().tasks[i].pc.Queued?
      modifies api.backend, api.backend.repo
      ensures Valid()
      ensures i < |old(api.backend.Current()).tasks|
      ensures api.backend.Current() == E.Finish(api.backend.cfg, old(api.backend.Current()), i, env)
    {
      ghost var before := api.backend.repo.committed;
      E.FinishKeepsTables(api.backend.cfg, api.backend.Current(), i, env);
      api.backend.SendNotificationDelivery(i, env);
      ListedKept(trace.Last().rows, before, api.backend.repo.committed);
    }

    /** The broker delivers an unacknowledged copy once more. */
    method Redeliver(i: nat)
      requires Valid() && i < |api.backend.messages| && !api.backend.Current().tasks[i].pc.Acked?
      modifies api.backend
      ensures Valid() && api.backend.messages == old(api.backend.messages) + [old(api.backend.messages)[i]]
    {
      api.backend.Redeliver(i);
    }

    /** The broker loses a copy. */
    ghost method Lose(i: nat)
      requires Valid() && i < |api.backend.messages| && !api.backend.Current().tasks[i].pc.Acked?
      modifies api.backend
      ensures Valid()
    {
      api.backend.Lose(i);
    }

    /** Celery Beat starts the reconciliation job: every row PENDING for longer than five minutes gets one
        fresh copy in its queue, until a call raises. */
    method Reconcile(now: real, broker: Broker) returns (stuck: seq<nat>, raised: bool)
      requires Valid() && api.backend.Current().now <= now
      modifies api.backend
      ensures Valid()
      ensures forall d: nat :: d in stuck <==>
                && d < |api.backend.repo.committed.deliveries|
                && api.backend.repo.committed.deliveries[d].status == Pending
                && api.backend.repo.committed.deliveries[d].createdAt < now - 300.0
      ensures forall j, k | 0 <= j < k < |stuck| :: stuck[j] < stuck[k]
      ensures raised <==> broker.served < |stuck|
      ensures api.backend.Enqueued(old(api.backend.messages), stuck, broker.Sent(|stuck|))
    {
      ghost var p;
      stuck, raised, p := api.backend.ReconcilePendingDeliveries(now, broker);
    }

    // ---------------------------------------------------------------- results

    /** Whatever was posted, executed, killed, redelivered and reconciled so far, in whatever order: every
        committed delivery has an unbroken log that ends in its status, was accepted by its provider at most
        once, and was sent successfully exactly once if it is DELIVERED. */
    lemma EveryDelivery(d: nat)
      requires Valid() && d < |api.backend.repo.committed.deliveries|
      ensures var db := api.backend.repo.committed; var st := api.backend.Current().stats;
        && Serial.Chained(History(db.log, d), db.deliveries[d].status)
        && d < |st| && st[d].accepted <= 1 && (db.deliveries[d].status == Delivered ==> st[d].successes == 1)
    {
      var b := api.backend;
      Serial.LogChain(b.cfg, b.states, b.events, |b.events|, d);
      Serial.AtMostOneSuccess(b.cfg, b.states, b.events, |b.events|, d);
    }

    /** Every two 201 answers ever returned for one key have the same body, were for the same payload and
        name the one notification stored under that key, with that payload's user, variables and priority. The body
        lists exactly that notification's stored deliveries, in order, as they were created. */
    lemma SameAnswer(m: nat, n: nat)
      requires Valid() && m < |trace.Last().requests| && n < |trace.Last().requests|
      requires var q := trace.Last().requests;
        q[m].key.Some? && q[m].key == q[n].key && R.Success(q[m]).Some? && R.Success(q[n]).Some?
      ensures var q, stored := trace.Last().requests, api.backend.repo.committed.notifications;
        var id := R.Success(q[m]).value.notificationId;
        && R.Success(q[m]) == R.Success(q[n]) && q[m].payload == q[n].payload
        && id < |stored| && stored[id].userId == q[m].payload.userId
        && stored[id].variables == q[m].payload.variables && stored[id].priority == q[m].payload.priority
        && A.Lists(R.Success(q[m]).value, api.backend.repo.committed.deliveries)
        && forall k | 0 <= k < |stored| :: stored[k].idempotencyKey == q[m].key <==> k == id
    {
      R.OneAnswerPerKey(api.idempotency.ttl, trace.ss, trace.es, |trace.es|, m, n);
      R.InvHolds(api.idempotency.ttl, trace.ss, trace.es, |trace.es|);
      assert R.RequestOk(trace.Last(), m);
    }
  }
}
