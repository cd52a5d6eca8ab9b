/** The request handler as imperative code over the idempotency service, the rate limiter, the
    repository and the broker. */
module Api {
  import opened Model
  import opened Idempotency
  import opened Repository
  import opened Worker
  import Basic
  import Machine
  import Preference
  import L = RateLimiter
  import Limiter = RateLimiterService

  datatype Response =
    | Created(body: Body)
    | Replayed(statusCode: int, body: Body)
    | Conflict
    | Busy
    | RateLimited(retryAfter: int)
    | BadRequest
    | ServerError

  /** What the outside contributes to one request: the times of its steps, the stored preference, and how
      each of its calls ends, in the order of the calls. */
  datatype Env = Env(
    looked: real,
    locked: real,
    checked: real,
    added: real,
    created: real,
    saved: real,
    preference: Option<Preference.UserPreference>,
    get: Reply,
    setNx: Reply,
    count: Reply,
    add: Reply,
    templateRead: Reply,
    preferenceRead: Reply,
    commit: Reply,
    broker: Broker,
    fetch: Reply,
    save: Reply,
    clean: Reply)
  {
    predicate Ordered() {
      looked <= locked <= checked <= added <= created <= saved
    }
  }

  /** The limiter call that let a committed notification in. */
  datatype Slot = Slot(user: string, call: nat)

  // ------------------------------------------------------------------ plans

  /** The position of the template with this name. */
  function Named(templates: seq<Template>, name: string): (t: Option<nat>)
    ensures t.Some? ==> t.value < |templates| && templates[t.value].name == name
    ensures t.None? ==> forall k | 0 <= k < |templates| :: templates[k].name != name
  {
    if templates == [] then None
    else
      var n := |templates| - 1;
      var t := Named(templates[..n], name);
      if t.None? && templates[n].name == name then Some(n) else t
  }

  /** The notification row and the delivery channels a request asks for. */
  datatype Plan = Plan(notification: Notification, channels: seq<Channel>)

  predicate UniqueNames(templates: seq<Template>) {
    forall j, k | 0 <= j < k < |templates| :: templates[j].name != templates[k].name
  }

  /** What becomes of a request before anything is written: a plan, a bad request, or a read that raised. */
  datatype Resolution = Planned(plan: Plan) | Invalid | Unreadable

  function ResolutionOf(cfg: Machine.Config, templates: seq<Template>, key: Option<string>, p: Payload, env: Env)
    : Resolution
  {
    var t := Named(templates, p.templateName);
    if !env.templateRead.Ok? then Unreadable
    else if t.None? || !cfg.renders(templates[t.value], p.variables) then Invalid
    else if !env.preferenceRead.Ok? then Unreadable
    else Planned(Plan(Notification(p.userId, t, p.variables, p.priority, key),
                      Preference.Keep(env.preference, Preference.Requested(p.channels))))
  }

  /** A request can be planned exactly when both reads return and the template of its name exists and renders; it
      is invalid exactly when the template is missing or does not render. The planned notification is the
      request's own, and a channel is planned exactly when it, or no channel, was requested and its own preference
      does not say otherwise. */
  lemma ResolutionMeans(cfg: Machine.Config, templates: seq<Template>, key: Option<string>, p: Payload, env: Env)
    requires UniqueNames(templates)
    ensures var r := ResolutionOf(cfg, templates, key, p, env);
      var good := exists t :: 0 <= t < |templates| && templates[t].name == p.templateName &&
                              cfg.renders(templates[t], p.variables);
      && (r == Invalid <==> env.templateRead.Ok? && !good)
      && (r.Planned? <==> env.templateRead.Ok? && good && env.preferenceRead.Ok?)
    ensures var r := ResolutionOf(cfg, templates, key, p, env);
      r.Planned? ==>
        var n := r.plan.notification;
        && n.templateId.Some? && n.templateId.value < |templates|
        && templates[n.templateId.value].name == p.templateName
        && n.userId == p.userId && n.variables == p.variables && n.priority == p.priority && n.idempotencyKey == key
    ensures var r := ResolutionOf(cfg, templates, key, p, env);
      r.Planned? ==>
        var cs, all, pref := r.plan.channels, p.channels.None? || p.channels.value == [], env.preference;
        && (Email in cs <==> (all || Email in p.channels.value) && (pref.None? || pref.value.email))
        && (Sms in cs <==> (all || Sms in p.channels.value) && (pref.None? || pref.value.sms))
        && (Push in cs <==> (all || Push in p.channels.value) && (pref.None? || pref.value.push))
  {
  }

  /** The schema of a request admits only the three channels. */
  predicate WellFormed(p: Payload) {
    p.channels.Some? ==> forall c | c in p.channels.value :: Supported(c)
  }

  // ------------------------------------------------------------------ what a plan does

  /** What the database, the broker and the slots hold, seen from outside. */
  datatype Books = Books(db: Db, messages: seq<Message>, slots: seq<Slot>)

  predicate CommitsRows(a: Books, plan: Plan, env: Env) {
    KeyFree(a.db.notifications, plan.notification.idempotencyKey) && env.commit.Applied()
  }

  /** The first `count` of the task messages for these deliveries. */
  function Messages(ids: seq<nat>, q: Queue, count: nat): seq<Message> {
    seq(if count < |ids| then count else |ids|, k requires 0 <= k < |ids| => Message(ids[k], 0, q))
  }

  /** All rows of a plan in one commit and one slot used, or nothing at all. */
  function Persisted(a: Books, plan: Plan, env: Env, call: nat): Books {
    if CommitsRows(a, plan, env)
    then Books(WithRows(a.db, plan.notification, plan.channels, env.created), a.messages,
               a.slots + [Slot(plan.notification.userId, call)])
    else a
  }

  /** A plan carried out as far as the unique column, the commit and the broker let it. */
  function CarryOut(a: Books, plan: Plan, env: Env, call: nat): Books {
    var b := Persisted(a, plan, env, call);
    var n, q := |plan.channels|, QueueOf(plan.notification.priority);
    if CommitsRows(a, plan, env) && env.commit.Ok?
    then b.(messages := a.messages + Messages(Range(|a.db.deliveries|, n), q, env.broker.Sent(n)))
    else b
  }

  /** The key of a plan is already in the table. */
  ghost predicate Taken(notifications: seq<Notification>, key: Option<string>) {
    key.Some? && exists m :: 0 <= m < |notifications| && notifications[m].idempotencyKey == key
  }

  /** Rows and their slot appear together, exactly when the key is absent or free and the commit takes effect, or
      not at all: one notification, and one PENDING delivery per channel, in order. */
  lemma RowsMean(a: Books, plan: Plan, env: Env, call: nat)
    ensures var b, n := CarryOut(a, plan, env, call), plan.notification;
      var stored := !Taken(a.db.notifications, n.idempotencyKey) && (env.commit.Ok? || env.commit.Lost?);
      && (!stored ==> b == a)
      && (stored ==>
            && b.db.notifications == a.db.notifications + [n] && b.slots == a.slots + [Slot(n.userId, call)]
            && a.db.deliveries <= b.db.deliveries && |b.db.deliveries| == |a.db.deliveries| + |plan.channels|
            && (forall d | |a.db.deliveries| <= d < |b.db.deliveries| ::
                  b.db.deliveries[d] ==
                  Delivery(|a.db.notifications|, plan.channels[d - |a.db.deliveries|], Pending, 0, None, env.created)))
  {
    var db := a.db.(notifications := a.db.notifications + [plan.notification]);
    Basic.CreateDeliveriesShape(db, |a.db.notifications|, plan.channels, env.created);
  }

  /** Each of these task messages is a fresh copy for one of the deliveries, in order, in the one queue of the
      priority. */
  lemma MessagesMean(ids: seq<nat>, priority: Priority, count: nat)
    ensures var ms := Messages(ids, QueueOf(priority), count);
      && |ms| == (if count < |ids| then count else |ids|)
      && forall k | 0 <= k < |ms| ::
           && ms[k].delivery == ids[k] && ms[k].retries == 0
           && (ms[k].queue == CriticalQueue <==> priority == Critical)
           && (ms[k].queue == HighQueue <==> priority == High)
           && (ms[k].queue == DefaultQueue <==> priority == Normal)
           && (ms[k].queue == LowQueue <==> priority == Low)
  {
  }

  /** Nothing is enqueued without committed rows, and a commit that returned is followed by a fresh copy for each of
      the new rows, in order, as many as the broker takes, in the one queue of the priority. */
  lemma CarryOutMeans(a: Books, plan: Plan, env: Env, call: nat)
    ensures var b, n, all := CarryOut(a, plan, env, call), plan.notification, |plan.channels|;
      var committed := !Taken(a.db.notifications, n.idempotencyKey) && env.commit.Ok?;
      && a.messages <= b.messages
      && |b.messages| - |a.messages| ==
         (if !committed then 0
          else if all <= env.broker.served then all
          else env.broker.served + if env.broker.lost then 1 else 0)
      && forall k | |a.messages| <= k < |b.messages| ::
           && b.messages[k].retries == 0
           && b.messages[k].delivery == |a.db.deliveries| + (k - |a.messages|) < |b.db.deliveries|
           && (b.messages[k].queue == CriticalQueue <==> n.priority == Critical)
           && (b.messages[k].queue == HighQueue <==> n.priority == High)
           && (b.messages[k].queue == DefaultQueue <==> n.priority == Normal)
           && (b.messages[k].queue == LowQueue <==> n.priority == Low)
  {
    RowsMean(a, plan, env, call);
    var count := env.broker.Sent(|plan.channels|);
    MessagesMean(Range(|a.db.deliveries|, |plan.channels|), plan.notification.priority, count);
  }

  /** Nothing stops a request with this plan before its response is built. */
  predicate Reaches(a: Books, plan: Plan, env: Env) {
    CommitsRows(a, plan, env) && env.commit.Ok? && env.broker.served >= |plan.channels| && env.fetch.Ok?
  }

  /** The response body, if it is built: the new notification and the rows stored for it. */
  function Built(a: Books, b: Books, plan: Plan, env: Env): Option<Body> {
    if Reaches(a, plan, env) && |a.db.deliveries| <= |b.db.deliveries|
    then Some(Body(|a.db.notifications|, b.db.deliveries[|a.db.deliveries|..]))
    else None
  }

  /** The same for a request that was let in. */
  function BodyOf(cfg: Machine.Config, a: Books, b: Books, key: Option<string>, p: Payload, env: Env): Option<Body> {
    match ResolutionOf(cfg, a.db.templates, key, p, env)
    case Planned(plan) => Built(a, b, plan, env)
    case _ => None
  }

  /** A request that was let in is answered, and its plan carried out, exactly as far as it got. */
  ghost predicate Fulfilled(cfg: Machine.Config, a: Books, b: Books, key: Option<string>, p: Payload, env: Env,
                            call: nat, r: Response) {
    match ResolutionOf(cfg, a.db.templates, key, p, env)
    case Planned(plan) =>
      var body := Built(a, b, plan, env);
      && b == CarryOut(a, plan, env, call)
      && r == if body.None? || (IsGuarded(key) && !env.save.Ok?) then ServerError else Created(body.value)
    case Invalid => r == BadRequest && b == a
    case Unreadable => r == ServerError && b == a
  }

  /** Row by row, what a response lists: the deliveries of its notification and no others, in order, as they were
      when they were created. */
  ghost predicate ListsFrom(body: Body, deliveries: seq<Delivery>, base: nat) {
    && base + |body.deliveries| <= |deliveries|
    && (forall d | 0 <= d < |deliveries| ::
          deliveries[d].notificationId == body.notificationId <==> base <= d < base + |body.deliveries|)
    && forall k | 0 <= k < |body.deliveries| ::
         body.deliveries[k] == deliveries[base + k].(status := Pending, retryCount := 0, error := None)
  }

  ghost predicate Lists(body: Body, deliveries: seq<Delivery>) {
    exists base: nat :: ListsFrom(body, deliveries, base)
  }

  /** Every stored delivery belongs to a stored notification. */
  ghost predicate Referenced(db: Db) {
    forall d | 0 <= d < |db.deliveries| :: db.deliveries[d].notificationId < |db.notifications|
  }

  lemma ListsNewRows(a: Db, b: Db, n: nat, channels: seq<Channel>, createdAt: real)
    requires Referenced(a) && a.deliveries <= b.deliveries && n == |a.notifications| < |b.notifications|
    requires |b.deliveries| == |a.deliveries| + |channels|
    requires forall d | |a.deliveries| <= d < |b.deliveries| ::
               b.deliveries[d] == Delivery(n, channels[d - |a.deliveries|], Pending, 0, None, createdAt)
    ensures Referenced(b) && ListsFrom(Body(n, b.deliveries[|a.deliveries|..]), b.deliveries, |a.deliveries|)
  {
    forall d | 0 <= d < |a.deliveries| ensures b.deliveries[d].notificationId < n {
      assert a.deliveries[d] == b.deliveries[d];
    }
  }

  /** A response body, whenever it is built, names the new notification and lists exactly its stored deliveries,
      one PENDING one per planned channel, in order; a 201 carries it. */
  lemma BodyMeans(cfg: Machine.Config, a: Books, b: Books, key: Option<string>, p: Payload, env: Env,
                  call: nat, r: Response)
    requires Fulfilled(cfg, a, b, key, p, env, call, r) && Referenced(a.db)
    ensures Referenced(b.db)
    ensures var resolution, built := ResolutionOf(cfg, a.db.templates, key, p, env), BodyOf(cfg, a, b, key, p, env);
      && (r.Created? ==> built == Some(r.body))
      && (built.Some? ==>
            var body := built.value;
            && resolution.Planned? && |body.deliveries| == |resolution.plan.channels|
            && body.notificationId == |a.db.notifications| < |b.db.notifications|
            && Lists(body, b.db.deliveries)
            && forall k | 0 <= k < |body.deliveries| ::
                 body.deliveries[k] ==
                 Delivery(|a.db.notifications|, resolution.plan.channels[k], Pending, 0, None, env.created))
  {
    match ResolutionOf(cfg, a.db.templates, key, p, env)
    case Planned(plan) =>
      RowsMean(a, plan, env, call);
      if CommitsRows(a, plan, env) {
        ListsNewRows(a.db, b.db, |a.db.notifications|, plan.channels, env.created);
      }
    case _ =>
  }

  /** Neither later rows nor later updates of status, counter and message change what a response lists. */
  lemma ListsKept(body: Body, a: Db, b: Db)
    requires Lists(body, a.deliveries) && body.notificationId < |a.notifications|
    requires |a.deliveries| <= |b.deliveries|
    requires forall d | 0 <= d < |a.deliveries| ::
               && b.deliveries[d].notificationId == a.deliveries[d].notificationId
               && b.deliveries[d].channel == a.deliveries[d].channel
               && b.deliveries[d].createdAt == a.deliveries[d].createdAt
    requires forall d | |a.deliveries| <= d < |b.deliveries| :: b.deliveries[d].notificationId >= |a.notifications|
    ensures Lists(body, b.deliveries)
  {
    var base: nat :| ListsFrom(body, a.deliveries, base);
    assert ListsFrom(body, b.deliveries, base);
  }

  /** A 201 is given exactly when the plan could be made, the key was free and every call returned; a 400 exactly
      when the request was invalid; everything else is a 500. */
  lemma AnswerMeans(cfg: Machine.Config, a: Books, b: Books, key: Option<string>, p: Payload, env: Env,
                    call: nat, r: Response)
    requires Fulfilled(cfg, a, b, key, p, env, call, r)
    ensures var resolution := ResolutionOf(cfg, a.db.templates, key, p, env);
      && (r.Created? <==>
            && resolution.Planned? && !Taken(a.db.notifications, key) && env.commit.Ok?
            && |resolution.plan.channels| <= env.broker.served && env.fetch.Ok?
            && (key.Some? && key.value != "" ==> env.save.Ok?))
      && (r.BadRequest? <==> resolution == Invalid)
      && (r.Created? || r.BadRequest? || r.ServerError?)
  {
    match ResolutionOf(cfg, a.db.templates, key, p, env)
    case Planned(plan) => RowsMean(a, plan, env, call);
    case _ =>
  }

  // ------------------------------------------------------------------ what a request does to the store

  /** The answer with which the GET ends a request, if it does. */
  function LookedUp(store: Store, key: Option<string>, p: Payload, env: Env): Option<Response> {
    if !IsGuarded(key) then None
    else if !env.get.Ok? then Some(ServerError)
    else
      match Look(store, key.value, p, env.looked)
      case Cached(code, body) => Some(Replayed(code, body))
      case PayloadConflict => Some(Conflict)
      case InProgress => Some(Busy)
      case Missing => None
  }

  /** The answer an outcome of the key check leads to; None when the request may go on. */
  function AnswerTo(check: CheckResult): Option<Response> {
    match check
    case Acquired => None
    case Unavailable => Some(ServerError)
    case Answer(Cached(code, body)) => Some(Replayed(code, body))
    case Answer(PayloadConflict) => Some(Conflict)
    case Answer(InProgress) => Some(Busy)
    case Answer(Missing) => None
  }

  /** The answer with which the SET NX ends a request, if it does. */
  function LockTried(store: Store, key: Option<string>, env: Env): Option<Response> {
    if !IsGuarded(key) then None
    else if !env.setNx.Ok? then Some(ServerError)
    else if Live(store, key.value, env.locked) then Some(Busy)
    else None
  }

  function Locked(store: Store, key: Option<string>, p: Payload, env: Env, me: nat): Store {
    if IsGuarded(key) && env.setNx.Applied()
    then SetNx(store, key.value, LockEntry(p, env.locked, me), env.locked)
    else store
  }

  /** The finished response under the key, when there is one to save. */
  function Saved(store: Store, key: Option<string>, entry: Option<Entry>): Store {
    if IsGuarded(key) && entry.Some? then store[key.value := entry.value] else store
  }

  /** The entry the handler saves if its plan gets that far. */
  function Finished(p: Payload, env: Env, body: Option<Body>, ttl: real, me: nat): Option<Entry> {
    if body.Some? && env.save.Applied() then Some(Entry(Done(p, 201, body.value), env.saved + ttl, me)) else None
  }

  /** A failed request deletes its key. */
  function Left(store: Store, key: Option<string>, env: Env, failed: bool): Store {
    if failed && IsGuarded(key) && env.clean.Applied() then store - {key.value} else store
  }

  /** What the SET NX meets: the store as the GET saw it, unless others have changed it since. */
  function Met(store: Store, between: Option<Store>): Store {
    if between.Some? then between.value else store
  }

  /** The key check: the answer with which it ends the request, if it does, and the store it leaves. */
  function Checked(store: Store, key: Option<string>, p: Payload, env: Env, between: Option<Store>, me: nat)
    : (Option<Response>, Store)
  {
    var found := LookedUp(store, key, p, env);
    if found.Some? || !IsGuarded(key) then (found, store)
    else (LockTried(Met(store, between), key, env), Locked(Met(store, between), key, p, env, me))
  }

  /** The key check, case by case. */
  lemma CheckedMeans(store: Store, key: Option<string>, p: Payload, env: Env, between: Option<Store>, me: nat)
    requires key.Some? && key.value != ""
    ensures var (stopped, after) := Checked(store, key, p, env, between, me);
      var k, met := key.value, Met(store, between);
      if !env.get.Ok? then stopped == Some(ServerError) && after == store
      else if k in store && env.looked < store[k].expireAt then
        && after == store
        && stopped == Some(if store[k].value.payload != p then Conflict
                           else if store[k].value.Lock? then Busy
                           else Replayed(store[k].value.statusCode, store[k].value.body))
      else if !env.setNx.Ok? then stopped == Some(ServerError)
      else if k in met && env.locked < met[k].expireAt then stopped == Some(Busy) && after == met
      else stopped == None && after == met[k := Entry(Lock(p), env.locked + 120.0, me)]
  {
  }

  /** Without a key, or with an empty one, nothing is looked up, locked, saved or deleted. */
  lemma UnguardedMeans(store: Store, key: Option<string>, p: Payload, env: Env, between: Option<Store>, me: nat,
                       entry: Option<Entry>, failed: bool)
    requires key.None? || key.value == ""
    ensures Checked(store, key, p, env, between, me) == (None, store)
    ensures Left(Saved(store, key, entry), key, env, failed) == store
  {
  }

  /** What the final store means: other keys are untouched, a fresh 201 leaves exactly its own response
      under its key, and a failed request leaves no key behind when its clean-up works. */
  lemma StoreMeans(store: Store, key: Option<string>, p: Payload, env: Env, me: nat, r: Response, body: Option<Body>,
                   ttl: real)
    requires IsGuarded(key) && (r.Created? ==> body == Some(r.body) && env.save.Ok?)
    ensures var after := Left(Saved(store, key, Finished(p, env, body, ttl, me)), key, env, !r.Created?);
      && (forall k: string | k != key.value :: (k in after <==> k in store) && (k in after ==> after[k] == store[k]))
      && (r.Created? ==> key.value in after && after[key.value] == Entry(Done(p, 201, r.body), env.saved + ttl, me))
      && (!r.Created? && env.clean.Applied() ==> key.value !in after)
  {
  }

  // ------------------------------------------------------------------ slots

  ghost predicate Admission(calls: map<string, seq<L.Call>>, slot: Slot) {
    slot.user in calls && slot.call < |calls[slot.user]| && calls[slot.user][slot.call].status.Admitted?
  }

  /** Every committed notification was let in by an admitted call of its own user, and no two by the same. */
  ghost predicate SlotsOk(slots: seq<Slot>, notifications: seq<Notification>, calls: map<string, seq<L.Call>>) {
    && |slots| == |notifications|
    && (forall n | 0 <= n < |slots| :: slots[n].user == notifications[n].userId && Admission(calls, slots[n]))
    && forall m, n | 0 <= m < n < |slots| :: slots[m] != slots[n]
  }

  /** The limiter lets this request in: there is room, and both transactions return. */
  predicate LetIn(cfg: L.Config, log: seq<L.Call>, env: Env) {
    env.count.Ok? && HasRoom(cfg, log, env) && env.add.Ok?
  }

  predicate HasRoom(cfg: L.Config, log: seq<L.Call>, env: Env) {
    |L.Live(cfg, log, env.checked)| < cfg.limit
  }

  class NotificationApi {
    const backend: Backend
    const limiter: Limiter.RateLimiterService
    const idempotency: IdempotencyService
    /** One slot per committed notification. */
    ghost var slots: seq<Slot>

    ghost predicate Valid()
      reads this, backend, backend.repo, limiter, idempotency
    {
      && backend.Valid() && limiter.Valid()
      && SlotsOk(slots, backend.repo.committed.notifications, limiter.calls)
    }

    constructor (cfg: Machine.Config, limits: L.Config, ttl: real, now: real)
      ensures Valid() && fresh(backend) && fresh(backend.repo) && fresh(limiter) && fresh(idempotency)
      ensures backend.cfg == cfg && limiter.cfg == limits && slots == []
      ensures backend.repo.committed == Db([], [], [], []) && idempotency.store == map[]
    {
      backend := new Backend(cfg, now);
      limiter := new Limiter.RateLimiterService(limits, now);
      idempotency := new IdempotencyService(ttl);
      slots := [];
    }

    ghost function Holds(): Books
      reads this, backend, backend.repo
    {
      Books(backend.repo.committed, backend.messages, slots)
    }

    /** The machine can take the commit of this plan as its next step, unless the key is taken. */
    ghost predicate Committable(plan: Plan, env: Env)
      reads this, backend, backend.repo
      requires |backend.states| == |backend.events| + 1
    {
      && backend.Current().now <= env.created
      && (|| !KeyFree(backend.repo.committed.notifications, plan.notification.idempotencyKey)
          || Machine.Enabled(backend.cfg, backend.Current().(now := env.created),
                             Machine.Accept(plan.notification, plan.channels, env.created)))
    }

    lemma RowsReferenced()
      requires Valid()
      ensures Referenced(backend.repo.committed)
    {
      Basic.InvHolds(backend.cfg, backend.states, backend.events, |backend.events|);
      forall d | 0 <= d < |backend.repo.committed.deliveries|
        ensures backend.repo.committed.deliveries[d].notificationId < |backend.repo.committed.notifications|
      {
        assert Basic.RowOk(backend.cfg, backend.repo.committed, backend.repo.committed.deliveries[d]);
      }
    }

    /** A plan for a well-formed request can be committed unless its key is taken. */
    lemma PlanReady(key: Option<string>, p: Payload, env: Env)
      requires Valid() && WellFormed(p) && backend.Current().now <= env.created
      ensures var r := ResolutionOf(backend.cfg, backend.repo.committed.templates, key, p, env);
        r.Planned? ==> Committable(r.plan, env)
    {
    }

    // ---------------------------------------------------------------- the quota

    /** Each committed notification was let in by an admitted call of its own user, no two by the same one. */
    lemma EachHasItsSlot(n: nat)
      requires Valid() && n < |backend.repo.committed.notifications|
      ensures n < |slots| && slots[n].user == backend.repo.committed.notifications[n].userId
      ensures slots[n].user in limiter.calls && slots[n].call < |limiter.calls[slots[n].user]|
      ensures limiter.calls[slots[n].user][slots[n].call].status.Admitted?
      ensures forall m | 0 <= m < |slots| && m != n :: slots[m] != slots[n]
    {
    }

    /** The committed notifications of a user whose requests were admitted in (a, a + window]. */
    ghost function CommittedIn(user: string, a: real): (r: set<nat>)
      reads this, backend, backend.repo, limiter, idempotency
      requires Valid()
      ensures forall n: nat :: n in r <==>
                && n < |backend.repo.committed.notifications| && backend.repo.committed.notifications[n].userId == user
                && a < limiter.calls[user][slots[n].call].time <= a + limiter.cfg.window as real
    {
      set n: nat | n < |slots| && slots[n].user == user &&
                   a < limiter.calls[user][slots[n].call].time <= a + limiter.cfg.window as real
    }

    /** Notifications committed for a user by requests admitted in any window number at most the limit. */
    lemma CommittedWithinQuota(user: string, a: real)
      requires Valid()
      ensures |CommittedIn(user, a)| <= if limiter.cfg.limit >= 1 then limiter.cfg.limit else 0
    {
      var admitted := L.InWindow(limiter.Log(user), a, a + limiter.cfg.window as real);
      assert Limiter.Settled(limiter.cfg, limiter.View(user));
      forall m, n | m in CommittedIn(user, a) && n in CommittedIn(user, a) && m != n
        ensures slots[m].call != slots[n].call
      {
        assert slots[m] != slots[n];
      }
      var all := slots;
      ImageSize(CommittedIn(user, a), admitted, n => if 0 <= n < |all| then all[n].call else 0);
      assert L.WindowCount(limiter.cfg, limiter.Log(user), a) == |admitted|;
      if limiter.cfg.limit <= 0 {
        assert admitted == {};
      }
    }

    /** The next call of a user has let no notification in yet. */
    lemma NewSlot(user: string)
      requires Valid()
      ensures Slot(user, |limiter.Log(user)|) !in slots
    {
    }

    // ---------------------------------------------------------------- the steps of a request

    /** The template of this name, if there is one. */
    method GetByName(name: string) returns (t: Option<nat>)
      ensures t == Named(backend.repo.session.templates, name)
    {
      t := None;
      for k := 0 to |backend.repo.session.templates|
        invariant t == Named(backend.repo.session.templates[..k], name)
      {
        assert backend.repo.session.templates[..k + 1][..k] == backend.repo.session.templates[..k];
        if t.None? && backend.repo.session.templates[k].name == name {
          t := Some(k);
        }
      }
      assert backend.repo.session.templates[..|backend.repo.session.templates|] == backend.repo.session.templates;
    }

    /** Looks the template up, renders it once as a test, and filters the channels. */
    method Resolve(key: Option<string>, p: Payload, env: Env) returns (r: Resolution)
      ensures r == ResolutionOf(backend.cfg, backend.repo.session.templates, key, p, env)
    {
      if !env.templateRead.Ok? {
        return Unreadable;
      }
      var template := GetByName(p.templateName);
      if template.None? {
        return Invalid;
      }
      if !backend.cfg.renders(backend.repo.session.templates[template.value], p.variables) {
        return Invalid;
      }
      if !env.preferenceRead.Ok? {
        return Unreadable;
      }
      var channels := Preference.FilterChannels(env.preference, p.channels);
      return Planned(Plan(Notification(p.userId, template, p.variables, p.priority, key), channels));
    }

    /** Inserts one PENDING delivery per channel, without committing. */
    method InsertDeliveries(notificationId: nat, channels: seq<Channel>, createdAt: real) returns (ids: seq<nat>)
      modifies backend.repo`session
      ensures backend.repo.session == CreateDeliveries(old(backend.repo.session), notificationId, channels, createdAt)
      ensures ids == Range(|old(backend.repo.session).deliveries|, |channels|)
    {
      ids := [];
      for k := 0 to |channels|
        invariant backend.repo.session ==
                  CreateDeliveries(old(backend.repo.session), notificationId, channels[..k], createdAt)
        invariant ids == Range(|old(backend.repo.session).deliveries|, k)
      {
        var d := backend.repo.CreateDelivery(notificationId, channels[k], createdAt);
        assert channels[..k + 1][..k] == channels[..k];
        ids := ids + [d];
      }
      assert channels[..|channels|] == channels;
    }

    /** Inserts the notification and its deliveries, without committing; None when the unique column
        refuses the key. */
    method InsertRows(plan: Plan, createdAt: real) returns (id: Option<nat>, ids: seq<nat>)
      modifies backend.repo`session
      ensures var db := old(backend.repo.session);
        if KeyFree(db.notifications, plan.notification.idempotencyKey) then
          && id == Some(|db.notifications|) && ids == Range(|db.deliveries|, |plan.channels|)
          && backend.repo.session == WithRows(db, plan.notification, plan.channels, createdAt)
        else id == None && backend.repo.session == db
    {
      var insert := backend.repo.CreateNotification(plan.notification);
      if insert.IntegrityError? {
        return None, [];
      }
      id := Some(insert.id);
      ids := InsertDeliveries(insert.id, plan.channels, createdAt);
    }

    /** Inserts the rows of a plan and commits them together. None means that an exception left the block:
        the unique column, or the commit. */
    method Persist(plan: Plan, env: Env, ghost call: nat) returns (id: Option<nat>, ids: seq<nat>)
      requires Valid() && Committable(plan, env)
      requires Admission(limiter.calls, Slot(plan.notification.userId, call))
      requires Slot(plan.notification.userId, call) !in slots
      modifies this`slots, backend`states, backend`events, backend.repo
      ensures Valid() && Holds() == Persisted(old(Holds()), plan, env, call)
      ensures id == if CommitsRows(old(Holds()), plan, env) && env.commit.Ok?
                    then Some(|old(backend.repo.committed).notifications|) else None
      ensures id.Some? ==>
                && ids == Range(|old(backend.repo.committed).deliveries|, |plan.channels|)
                && Newest(Machine.Handler(ids, QueueOf(plan.notification.priority)))
    {
      backend.Wait(env.created);
      id, ids := InsertRows(plan, env.created);
      if id.None? {
        return;
      }
      if !env.commit.Applied() {
        backend.repo.Close();
        return None, [];
      }
      backend.CommitAccepted(plan.notification, plan.channels, env.created);
      slots := slots + [Slot(plan.notification.userId, call)];
      if !env.commit.Ok? {
        id := None;
      }
    }

    /** The latest handler past its commit. */
    ghost predicate Newest(h: Machine.Handler)
      reads backend
      requires |backend.states| == |backend.events| + 1
    {
      |backend.Current().handlers| > 0 && backend.Current().handlers[|backend.Current().handlers| - 1] == h
    }

    /** Enqueues the deliveries one by one until the broker raises. */
    method EnqueueDeliveries(ids: seq<nat>, priority: Priority, broker: Broker, ghost h: nat) returns (raised: bool)
      requires Valid() && h < |backend.Current().handlers|
      requires backend.Current().handlers[h] == Machine.Handler(ids, QueueOf(priority))
      modifies backend
      ensures Valid()
      ensures backend.messages == old(backend.messages) + Messages(ids, QueueOf(priority), broker.Sent(|ids|))
      ensures raised <==> broker.served < |ids|
      ensures forall k | |old(backend.messages)| <= k < |backend.messages| ::
                && (backend.messages[k].queue == CriticalQueue <==> priority == Critical)
                && (backend.messages[k].queue == HighQueue <==> priority == High)
                && (backend.messages[k].queue == DefaultQueue <==> priority == Normal)
                && (backend.messages[k].queue == LowQueue <==> priority == Low)
    {
      var k := 0;
      raised := false;
      while k < |ids|
        invariant k <= |ids| && k <= broker.served && Valid() && !raised
        invariant h < |backend.Current().handlers|
        invariant backend.Current().handlers[h] == Machine.Handler(ids[k..], QueueOf(priority))
        invariant backend.messages == old(backend.messages) + Messages(ids, QueueOf(priority), k)
      {
        raised := backend.ApplyAsync(ids[k], QueueOf(priority), broker.ReplyTo(k), h);
        if raised {
          break;
        }
        k := k + 1;
      }
      MessagesMean(ids, priority, broker.Sent(|ids|));
    }

    /** Persists a plan, enqueues its deliveries and reads the notification back. None means that an
        exception left the block somewhere. */
    method Submit(plan: Plan, env: Env, ghost call: nat) returns (body: Option<Body>)
      requires Valid() && Committable(plan, env)
      requires Admission(limiter.calls, Slot(plan.notification.userId, call))
      requires Slot(plan.notification.userId, call) !in slots
      modifies this`slots, backend, backend.repo
      ensures Valid() && Holds() == CarryOut(old(Holds()), plan, env, call)
      ensures body == Built(old(Holds()), Holds(), plan, env)
    {
      var base := |backend.repo.session.deliveries|;
      var id, ids := Persist(plan, env, call);
      if id.None? {
        return None;
      }
      ghost var h := |backend.Current().handlers| - 1;
      var raised := EnqueueDeliveries(ids, plan.notification.priority, env.broker, h);
      if raised || !env.fetch.Ok? {
        return None;
      }
      return Some(Body(id.value, backend.repo.session.deliveries[base..]));
    }

    /** Caches the response under a guarded key. */
    method Complete(key: Option<string>, p: Payload, body: Body, env: Env, me: nat) returns (r: Response)
      modifies idempotency
      ensures r == if IsGuarded(key) && !env.save.Ok? then ServerError else Created(body)
      ensures idempotency.store == Saved(old(idempotency.store), key, Finished(p, env, Some(body), idempotency.ttl, me))
    {
      if key.Some? && key.value != "" {
        var raised := idempotency.SaveResponse(key.value, p, 201, body, env.saved, me, env.save);
        if raised {
          return ServerError;
        }
      }
      return Created(body);
    }

    /** Everything after the rate limit: plan, persist, enqueue, answer and cache. */
    method Fulfil(key: Option<string>, p: Payload, env: Env, ghost call: nat, me: nat) returns (r: Response)
      requires Valid() && WellFormed(p) && backend.Current().now <= env.created
      requires Admission(limiter.calls, Slot(p.userId, call)) && Slot(p.userId, call) !in slots
      modifies this`slots, backend, backend.repo, idempotency
      ensures Valid() && Fulfilled(backend.cfg, old(Holds()), Holds(), key, p, env, call, r)
      ensures idempotency.store == Saved(old(idempotency.store), key,
                Finished(p, env, BodyOf(backend.cfg, old(Holds()), Holds(), key, p, env), idempotency.ttl, me))
    {
      var resolution := Resolve(key, p, env);
      match resolution {
        case Invalid => r := BadRequest;
        case Unreadable => r := ServerError;
        case Planned(plan) =>
          PlanReady(key, p, env);
          var body := Submit(plan, env, call);
          if body.None? {
            return ServerError;
          }
          r := Complete(key, p, body.value, env, me);
      }
    }

    /** Takes a rate slot of the user. */
    method Admit(user: string, env: Env) returns (verdict: Limiter.Outcome)
      requires Valid() && limiter.clock <= env.checked <= env.added
      modifies limiter
      ensures Valid() && Slot(user, |old(limiter.Log(user))|) !in slots
      ensures Limiter.Verdict(limiter.cfg, old(limiter.Log(user)), env.checked, env.count, env.add, verdict)
      ensures verdict.Allowed? <==> LetIn(limiter.cfg, old(limiter.Log(user)), env)
      ensures verdict.Exceeded? <==> env.count.Ok? && !HasRoom(limiter.cfg, old(limiter.Log(user)), env)
      ensures var call := L.Call(env.checked, limiter.StatusOf(verdict, env.add));
        limiter.calls ==
        if env.count.Ok? then old(limiter.calls)[user := old(limiter.Log(user)) + [call]] else old(limiter.calls)
    {
      NewSlot(user);
      verdict := limiter.CheckRateLimit(user, env.checked, env.added, env.count, env.add);
    }

    /** What a request that got past the key check has left behind: at most one logged limiter call and, if
        that let it in, as much of its plan as its answer says. */
    twostate predicate Processed(key: Option<string>, p: Payload, env: Env, r: Response)
      reads this, backend, backend.repo, limiter
    {
      var log := old(limiter.Log(p.userId));
      var status :=
        if r.RateLimited? then L.Rejected(r.retryAfter) else if env.add.Applied() then L.Admitted else L.Abandoned;
      && limiter.calls == (if env.count.Ok? then old(limiter.calls)[p.userId := log + [L.Call(env.checked, status)]]
                           else old(limiter.calls))
      && (r.RateLimited? <==> env.count.Ok? && !HasRoom(limiter.cfg, log, env))
      && (r.RateLimited? ==>
            Limiter.Verdict(limiter.cfg, log, env.checked, env.count, env.add, Limiter.Exceeded(r.retryAfter)))
      && (if LetIn(limiter.cfg, log, env) then Fulfilled(backend.cfg, old(Holds()), Holds(), key, p, env, |log|, r)
          else Holds() == old(Holds()) && (r.RateLimited? || r == ServerError))
    }

    /** The body a request that got past the key check built, if it did. */
    twostate function ResponseBody(key: Option<string>, p: Payload, env: Env): Option<Body>
      reads this, backend, backend.repo, limiter
    {
      if LetIn(limiter.cfg, old(limiter.Log(p.userId)), env)
      then BodyOf(backend.cfg, old(Holds()), Holds(), key, p, env)
      else None
    }

    /** The body of the handler's try block: everything after the key check. */
    method Process(key: Option<string>, p: Payload, env: Env, me: nat) returns (r: Response)
      requires Valid() && WellFormed(p) && env.Ordered()
      requires backend.Current().now <= env.created && limiter.clock <= env.checked
      modifies this`slots, backend, backend.repo, limiter, idempotency
      ensures Valid() && Processed(key, p, env, r)
      ensures idempotency.store == Saved(old(idempotency.store), key,
                Finished(p, env, ResponseBody(key, p, env), idempotency.ttl, me))
    {
      ghost var call := |limiter.Log(p.userId)|;
      var verdict := Admit(p.userId, env);
      match verdict {
        case Exceeded(retryAfter) => r := RateLimited(retryAfter);
        case Unavailable => r := ServerError;
        case Allowed => r := Fulfil(key, p, env, call, me);
      }
    }

    /** The try block with its clean-up: when an exception ended it, the key is deleted. */
    method Proceed(key: Option<string>, p: Payload, env: Env, me: nat) returns (r: Response)
      requires Valid() && WellFormed(p) && env.Ordered()
      requires backend.Current().now <= env.created && limiter.clock <= env.checked
      modifies this`slots, backend, backend.repo, limiter, idempotency
      ensures Valid() && Processed(key, p, env, r)
      ensures idempotency.store == Left(Saved(old(idempotency.store), key,
                Finished(p, env, ResponseBody(key, p, env), idempotency.ttl, me)), key, env, !r.Created?)
    {
      r := Process(key, p, env, me);
      if !r.Created? && key.Some? && key.value != "" {
        idempotency.DeleteKey(key.value, env.clean);
      }
    }

    /** The key check. None means that the request may go on, with its lock in the store if it uses one. */
    method CheckKey(key: Option<string>, p: Payload, env: Env, between: Option<Store>, me: nat)
      returns (r: Option<Response>)
      modifies idempotency
      ensures (r, idempotency.store) == Checked(old(idempotency.store), key, p, env, between, me)
    {
      if key.Some? && key.value != "" {
        var check := idempotency.CheckOrLock(key.value, p, env.looked, env.locked, between, me, env.get, env.setNx);
        r := AnswerTo(check);
      } else {
        r := None;
      }
    }

    /** One POST request from start to end. A key that is cached, in conflict or busy ends it before anything
        else is touched; otherwise the limiter is asked and the plan carried out as far as the answer says, and
        when an exception ended it the key is deleted again. `between` is what other requests make of the store
        between its GET and its SET NX. */
    method SendNotification(key: Option<string>, p: Payload, env: Env, between: Option<Store>, me: nat)
      returns (r: Response)
      requires Valid() && WellFormed(p) && env.Ordered()
      requires backend.Current().now <= env.created && limiter.clock <= env.checked
      modifies this`slots, backend, backend.repo, limiter, idempotency
      ensures Valid()
      ensures r.Created? ==>
                && r.body.notificationId == |old(backend.repo.committed).notifications|
                && Lists(r.body, backend.repo.committed.deliveries)
      ensures var (stopped, store) := Checked(old(idempotency.store), key, p, env, between, me);
        if stopped.Some? then
          && r == stopped.value && idempotency.store == store
          && limiter.calls == old(limiter.calls) && Holds() == old(Holds())
        else
          && Processed(key, p, env, r)
          && idempotency.store == Left(Saved(store, key,
               Finished(p, env, ResponseBody(key, p, env), idempotency.ttl, me)), key, env, !r.Created?)
    {
      var stopped := CheckKey(key, p, env, between, me);
      if stopped.Some? {
        return stopped.value;
      }
      ghost var a, log := Holds(), limiter.Log(p.userId);
      RowsReferenced();
      r := Proceed(key, p, env, me);
      if r.Created? {
        BodyMeans(backend.cfg, a, Holds(), key, p, env, |log|, r);
      }
    }
  }

  /** A set mapped injectively into another is no larger. */
  lemma {:induction false} ImageSize(a: set<nat>, b: set<nat>, f: nat -> nat)
    requires forall n | n in a :: f(n) in b
    requires forall m, n | m in a && n in a && m != n :: f(m) != f(n)
    ensures |a| <= |b|
  {
    if a != {} {
      var n :| n in a;
      ImageSize(a - {n}, b - {f(n)}, f);
    }
  }
}
