/** Many requests to send a notification, interleaved step by step, over one Redis store and one
    notifications table with its unique key column. Locks may expire, any call may raise before or
    after taking effect, and a request may crash anywhere. */
module Requests {
  import opened Model
  import opened Idempotency

  datatype Response =
    | Created(body: Body)
    | Replayed(statusCode: int, body: Body)
    | Conflict
    | Busy
    | Failure

  /** Where a request stands. `Working` holds the lock (if it uses one) and has not committed; `Cleaning`
      met an exception and is about to delete the key. */
  datatype Phase =
    | Arrived
    | Missed
    | Working
    | Committed(row: nat)
    | Saving(body: Body)
    | Cleaning
    | Answered(response: Response)
    | Crashed

  /** `acquired` is when this request took the lock, `deadline` when the entry it wrote last expires. No step
      reads them. */
  datatype Request = Request(key: Option<string>, payload: Payload, phase: Phase, acquired: real, deadline: real) {
    predicate Guarded() { IsGuarded(key) }
  }

  /** A committed notification. `author` is the request that committed it, `body` the response built from it;
      no step reads them. */
  datatype Row = Row(key: Option<string>, payload: Payload, author: nat, body: Option<Body>)

  datatype State = State(now: real, store: Store, rows: seq<Row>, requests: seq<Request>)

  datatype Event =
    | Tick(to: real)
    | Arrive(key: Option<string>, payload: Payload)
    | LookUp(r: nat, reply: Reply)
    | Acquire(r: nat, reply: Reply)
    | Commit(r: nat, reply: Reply)
    | Build(r: nat, deliveries: seq<Delivery>)
    | Save(r: nat, reply: Reply)
    | Fail(r: nat)
    | Clean(r: nat, reply: Reply)
    | Crash(r: nat)

  predicate Unique(rows: seq<Row>, key: Option<string>) {
    key.None? || forall n | 0 <= n < |rows| :: rows[n].key != key
  }

  predicate Enabled(s: State, e: Event) {
    match e
    case Tick(t) => s.now <= t
    case Arrive(_, _) => true
    case LookUp(r, _) => r < |s.requests| && s.requests[r].phase.Arrived?
    case Acquire(r, _) => r < |s.requests| && s.requests[r].phase.Missed? && s.requests[r].key.Some?
    case Commit(r, _) => r < |s.requests| && s.requests[r].phase.Working?
    case Build(r, _) => r < |s.requests| && s.requests[r].phase.Committed? && s.requests[r].phase.row < |s.rows|
    case Save(r, _) => r < |s.requests| && s.requests[r].phase.Saving?
    case Fail(r) =>
      && r < |s.requests|
      && (s.requests[r].phase.Working? || s.requests[r].phase.Committed? || s.requests[r].phase.Saving?)
    case Clean(r, _) => r < |s.requests| && s.requests[r].phase.Cleaning?
    case Crash(r) => r < |s.requests| && !s.requests[r].phase.Answered? && !s.requests[r].phase.Crashed?
  }

  function Move(s: State, r: nat, phase: Phase): State
    requires r < |s.requests|
  {
    s.(requests := s.requests[r := s.requests[r].(phase := phase)])
  }

  function Extend(s: State, r: nat, deadline: real): State
    requires r < |s.requests|
  {
    s.(requests := s.requests[r := s.requests[r].(deadline := deadline)])
  }

  function Stamp(s: State, r: nat): State
    requires r < |s.requests|
  {
    s.(requests := s.requests[r := s.requests[r].(acquired := s.now)])
  }

  function LookUpStep(s: State, r: nat, reply: Reply): State
    requires r < |s.requests|
  {
    var q := s.requests[r];
    if !q.Guarded() then Move(s, r, Working)
    else if !reply.Ok? then Move(s, r, Answered(Failure))
    else
      Move(s, r, match Look(s.store, q.key.value, q.payload, s.now)
                 case Missing => Missed
                 case Cached(code, body) => Answered(Replayed(code, body))
                 case PayloadConflict => Answered(Conflict)
                 case InProgress => Answered(Busy))
  }

  /** An exception raised by the lock itself is outside the clean-up block. */
  function AcquireStep(s: State, r: nat, reply: Reply): State
    requires r < |s.requests| && s.requests[r].key.Some?
  {
    var q := s.requests[r];
    var free := !Live(s.store, q.key.value, s.now);
    var store := SetNx(s.store, q.key.value, LockEntry(q.payload, s.now, r), s.now);
    var s' := if reply.Applied() then s.(store := store) else s;
    if !reply.Ok? then Move(s', r, Answered(Failure))
    else if free then Move(Extend(Stamp(s', r), r, s.now + LOCK_TTL), r, Working)
    else Move(s', r, Answered(Busy))
  }

  /** The insert fails on a key that is already committed. */
  function CommitStep(s: State, r: nat, reply: Reply): State
    requires r < |s.requests|
  {
    var q := s.requests[r];
    if !Unique(s.rows, q.key) then Move(s, r, Cleaning)
    else
      var s' := if reply.Applied() then s.(rows := s.rows + [Row(q.key, q.payload, r, None)]) else s;
      Move(s', r, if reply.Ok? then Committed(|s.rows|) else Cleaning)
  }

  function SaveStep(s: State, ttl: real, r: nat, reply: Reply): State
    requires r < |s.requests| && s.requests[r].phase.Saving?
  {
    var q := s.requests[r];
    if !q.Guarded() then Move(s, r, Answered(Created(q.phase.body)))
    else
      var entry := Entry(Done(q.payload, 201, q.phase.body), s.now + ttl, r);
      var s' := if reply.Applied() then Extend(s.(store := s.store[q.key.value := entry]), r, s.now + ttl) else s;
      Move(s', r, if reply.Ok? then Answered(Created(q.phase.body)) else Cleaning)
  }

  function CleanStep(s: State, r: nat, reply: Reply): State
    requires r < |s.requests|
  {
    var q := s.requests[r];
    Move(if q.Guarded() && reply.Applied() then s.(store := s.store - {q.key.value}) else s, r, Answered(Failure))
  }

  function Step(ttl: real, s: State, e: Event): State
    requires Enabled(s, e)
  {
    match e
    case Tick(t) => s.(now := t)
    case Arrive(key, payload) => s.(requests := s.requests + [Request(key, payload, Arrived, 0.0, 0.0)])
    case LookUp(r, reply) => LookUpStep(s, r, reply)
    case Acquire(r, reply) => AcquireStep(s, r, reply)
    case Commit(r, reply) => CommitStep(s, r, reply)
    case Build(r, ds) =>
      var n := s.requests[r].phase.row;
      Move(s.(rows := s.rows[n := s.rows[n].(body := Some(Body(n, ds)))]), r, Saving(Body(n, ds)))
    case Save(r, reply) => SaveStep(s, ttl, r, reply)
    case Fail(r) => Move(s, r, Cleaning)
    case Clean(r, reply) => CleanStep(s, r, reply)
    case Crash(r) => Move(s, r, Crashed)
  }

  ghost predicate IsRun(ttl: real, ss: seq<State>, es: seq<Event>) {
    && |ss| == |es| + 1
    && ss[0].store == map[] && ss[0].rows == [] && ss[0].requests == []
    && forall k | 0 <= k < |es| ::
         Enabled(ss[k], es[k]) && ss[k + 1] == Step(ttl, ss[k], es[k])
  }

  // ------------------------------------------------------------------ safety without timing

  /** The row a response names: committed for this key and payload, and this is its one response. */
  ghost predicate Names(s: State, key: Option<string>, payload: Payload, body: Body) {
    var n := body.notificationId;
    n < |s.rows| && s.rows[n].key == key && s.rows[n].payload == payload && s.rows[n].body == Some(body)
  }

  ghost predicate RequestOk(s: State, r: nat)
    requires r < |s.requests|
  {
    var q := s.requests[r];
    match q.phase
    case Arrived => Uncommitted(s, r)
    case Missed => Uncommitted(s, r) && q.Guarded()
    case Working => Uncommitted(s, r)
    case Committed(n) => n < |s.rows| && s.rows[n] == Row(q.key, q.payload, r, None)
    case Saving(body) => Names(s, q.key, q.payload, body) && s.rows[body.notificationId].author == r
    case Answered(Created(body)) => Names(s, q.key, q.payload, body) && s.rows[body.notificationId].author == r
    case Answered(Replayed(code, body)) => code == 201 && Names(s, q.key, q.payload, body)
    case _ => true
  }

  ghost predicate Uncommitted(s: State, r: nat) {
    forall n | 0 <= n < |s.rows| :: s.rows[n].author != r
  }

  ghost predicate RowOk(s: State, n: nat)
    requires n < |s.rows|
  {
    && s.rows[n].author < |s.requests|
    && forall m | 0 <= m < n ::
         s.rows[m].author != s.rows[n].author && (s.rows[n].key.Some? ==> s.rows[m].key != s.rows[n].key)
  }

  ghost predicate EntryOk(s: State, key: string)
    requires key in s.store
  {
    var v := s.store[key].value;
    key != "" && (v.Done? ==> v.statusCode == 201 && Names(s, Some(key), v.payload, v.body))
  }

  ghost predicate Inv(s: State) {
    && (forall r | 0 <= r < |s.requests| :: RequestOk(s, r))
    && (forall n | 0 <= n < |s.rows| :: RowOk(s, n))
    && (forall key | key in s.store :: EntryOk(s, key))
  }

  /** What later steps never take back: rows only grow, and the response built from a row is kept. */
  ghost predicate RowsKept(s: State, s': State) {
    && |s.rows| <= |s'.rows|
    && forall n | 0 <= n < |s.rows| ::
         && s'.rows[n].key == s.rows[n].key && s'.rows[n].payload == s.rows[n].payload
         && s'.rows[n].author == s.rows[n].author
         && (s.rows[n].body.Some? ==> s'.rows[n].body == s.rows[n].body)
  }

  /** The request that takes the step, if any. */
  function Actor(e: Event): Option<nat> {
    match e
    case Tick(_) => None
    case Arrive(_, _) => None
    case LookUp(r, _) => Some(r)
    case Acquire(r, _) => Some(r)
    case Commit(r, _) => Some(r)
    case Build(r, _) => Some(r)
    case Save(r, _) => Some(r)
    case Fail(r) => Some(r)
    case Clean(r, _) => Some(r)
    case Crash(r) => Some(r)
  }

  lemma StepFrame(ttl: real, s: State, e: Event)
    requires Inv(s) && Enabled(s, e)
    ensures var s' := Step(ttl, s, e);
      && RowsKept(s, s') && |s.requests| <= |s'.requests|
      && (forall r | 0 <= r < |s.requests| && Actor(e) != Some(r) :: s'.requests[r] == s.requests[r])
      && (forall n | 0 <= n < |s.rows| && Actor(e) != Some(s.rows[n].author) :: s'.rows[n] == s.rows[n])
      && (forall n | |s.rows| <= n < |s'.rows| :: Actor(e) == Some(s'.rows[n].author))
  {
    assert e.Build? ==> RequestOk(s, e.r);
  }

  lemma StepRows(ttl: real, s: State, e: Event, n: nat)
    requires Inv(s) && Enabled(s, e)
    requires n < |Step(ttl, s, e).rows|
    ensures RowOk(Step(ttl, s, e), n)
  {
    var s' := Step(ttl, s, e);
    StepFrame(ttl, s, e);
    if n < |s.rows| {
      assert RowOk(s, n);
    } else {
      assert e.Commit? && RequestOk(s, e.r);
    }
  }

  lemma StepEntries(ttl: real, s: State, e: Event, key: string)
    requires Inv(s) && Enabled(s, e)
    requires key in Step(ttl, s, e).store
    ensures EntryOk(Step(ttl, s, e), key)
  {
    StepFrame(ttl, s, e);
    if key in s.store {
      assert EntryOk(s, key);
    }
    assert Actor(e).Some? ==> RequestOk(s, Actor(e).value);
  }

  lemma BystanderOk(ttl: real, s: State, e: Event, r: nat)
    requires Inv(s) && Enabled(s, e)
    requires r < |s.requests| && Actor(e) != Some(r)
    ensures r < |Step(ttl, s, e).requests| && RequestOk(Step(ttl, s, e), r)
  {
    StepFrame(ttl, s, e);
    assert RequestOk(s, r);
  }

  lemma ActorOk(ttl: real, s: State, e: Event, r: nat)
    requires Enabled(s, e) && RowsKept(s, Step(ttl, s, e))
    requires r < |s.requests| && Actor(e) == Some(r) && RequestOk(s, r)
    requires s.requests[r].Guarded() && s.requests[r].key.value in s.store ==> EntryOk(s, s.requests[r].key.value)
    ensures RequestOk(Step(ttl, s, e), r)
  {
  }

  lemma StepRequests(ttl: real, s: State, e: Event, r: nat)
    requires Inv(s) && Enabled(s, e)
    requires r < |Step(ttl, s, e).requests|
    ensures RequestOk(Step(ttl, s, e), r)
  {
    if r == |s.requests| {
      forall n | 0 <= n < |s.rows| ensures s.rows[n].author != r {
        assert RowOk(s, n);
      }
    } else if Actor(e) == Some(r) {
      StepFrame(ttl, s, e);
      assert RequestOk(s, r);
      ActorOk(ttl, s, e, r);
    } else {
      BystanderOk(ttl, s, e, r);
    }
  }

  lemma StepKeeps(ttl: real, s: State, e: Event)
    requires Inv(s) && Enabled(s, e)
    ensures Inv(Step(ttl, s, e))
  {
    StepFrame(ttl, s, e);
    var s' := Step(ttl, s, e);
    forall r | 0 <= r < |s'.requests| ensures RequestOk(s', r) {
      StepRequests(ttl, s, e, r);
    }
    forall n | 0 <= n < |s'.rows| ensures RowOk(s', n) {
      StepRows(ttl, s, e, n);
    }
    forall key | key in s'.store ensures EntryOk(s', key) {
      StepEntries(ttl, s, e, key);
    }
  }

  lemma {:induction false} InvHolds(ttl: real, ss: seq<State>, es: seq<Event>, k: nat)
    requires IsRun(ttl, ss, es) && k < |ss|
    ensures Inv(ss[k])
  {
    if k > 0 {
      InvHolds(ttl, ss, es, k - 1);
      StepKeeps(ttl, ss[k - 1], es[k - 1]);
    }
  }

  /** The body of a 201 answer, fresh or replayed. */
  function Success(q: Request): Option<Body> {
    match q.phase
    case Answered(Created(body)) => Some(body)
    case Answered(Replayed(code, body)) => if code == 201 then Some(body) else None
    case _ => None
  }

  /** A fresh answer always counts, a replayed one always has code 201 and counts, too; no other does. */
  lemma EverySuccessCounts(ttl: real, ss: seq<State>, es: seq<Event>, k: nat, r: nat, body: Body)
    requires IsRun(ttl, ss, es) && k < |ss| && r < |ss[k].requests|
    ensures Success(ss[k].requests[r]) == Some(body) <==>
              || ss[k].requests[r].phase == Answered(Created(body))
              || exists code :: ss[k].requests[r].phase == Answered(Replayed(code, body))
    ensures forall code :: ss[k].requests[r].phase == Answered(Replayed(code, body)) ==> code == 201
  {
    InvHolds(ttl, ss, es, k);
    assert RequestOk(ss[k], r);
  }

  /** All 201 answers ever given for one key carry the same body, were for the same payload and name the
      single notification committed for that key, whatever expired, crashed, raced or was resubmitted. */
  lemma OneAnswerPerKey(ttl: real, ss: seq<State>, es: seq<Event>, k: nat, r1: nat, r2: nat)
    requires IsRun(ttl, ss, es) && k < |ss| && r1 < |ss[k].requests| && r2 < |ss[k].requests|
    requires ss[k].requests[r1].key == ss[k].requests[r2].key && ss[k].requests[r1].key.Some?
    requires Success(ss[k].requests[r1]).Some? && Success(ss[k].requests[r2]).Some?
    ensures Success(ss[k].requests[r1]) == Success(ss[k].requests[r2])
    ensures ss[k].requests[r1].payload == ss[k].requests[r2].payload
    ensures forall n | 0 <= n < |ss[k].rows| ::
              ss[k].rows[n].key == ss[k].requests[r1].key <==> n == Success(ss[k].requests[r1]).value.notificationId
    ensures ss[k].requests[r1].phase.response.Created? && ss[k].requests[r2].phase.response.Created? ==> r1 == r2
  {
    InvHolds(ttl, ss, es, k);
    var s := ss[k];
    assert RequestOk(s, r1) && RequestOk(s, r2);
    var n1, n2 := Success(s.requests[r1]).value.notificationId, Success(s.requests[r2]).value.notificationId;
    forall n | 0 <= n < |s.rows| && s.rows[n].key == s.requests[r1].key ensures n == n1 && n == n2 {
      assert RowOk(s, n) && RowOk(s, n1) && RowOk(s, n2);
    }
  }

  /** Only the request that committed the key's one row can save a response, and once the row is there no
      other request of that key commits, saves or answers with a fresh 201 again, even after the cached
      response has expired. */
  lemma OnlyTheCommitterSaves(ttl: real, ss: seq<State>, es: seq<Event>, k: nat, n: nat, r: nat)
    requires IsRun(ttl, ss, es) && k < |ss| && n < |ss[k].rows| && r < |ss[k].requests|
    requires ss[k].rows[n].key.Some? && ss[k].requests[r].key == ss[k].rows[n].key && ss[k].rows[n].author != r
    ensures var phase := ss[k].requests[r].phase;
      !phase.Committed? && !phase.Saving? && !(phase.Answered? && phase.response.Created?)
    ensures k < |es| && Actor(es[k]) == Some(r) ==> ss[k + 1].rows == ss[k].rows
  {
    InvHolds(ttl, ss, es, k);
    assert RequestOk(ss[k], r);
    forall m | 0 <= m < |ss[k].rows| && ss[k].rows[m].key == ss[k].rows[n].key ensures m == n {
      assert RowOk(ss[k], m) && RowOk(ss[k], n);
    }
  }

  /** An answer, once given, stays as it was. */
  lemma {:induction false} AnswersStay(ttl: real, ss: seq<State>, es: seq<Event>, j: nat, k: nat, r: nat)
    requires IsRun(ttl, ss, es) && j <= k < |ss| && r < |ss[j].requests| && ss[j].requests[r].phase.Answered?
    ensures r < |ss[k].requests| && ss[k].requests[r] == ss[j].requests[r]
    decreases k - j
  {
    if j < k {
      AnswersStay(ttl, ss, es, j, k - 1, r);
      InvHolds(ttl, ss, es, k - 1);
      StepFrame(ttl, ss[k - 1], es[k - 1]);
    }
  }

  // ------------------------------------------------------------------ ownership, with timing

  /** From the successful SET NX to the save or delete that ends it. */
  predicate Owns(q: Request) {
    q.Guarded() && (q.phase.Working? || q.phase.Committed? || q.phase.Saving? || q.phase.Cleaning?)
  }

  /** The timing assumption: whoever owns a key acts before the entry it wrote expires, that is, saves or
      deletes within 120 s of acquiring the lock. */
  ghost predicate Timely(s: State) {
    forall r | 0 <= r < |s.requests| && Owns(s.requests[r]) :: s.now < s.requests[r].deadline
  }

  ghost predicate OwnsEntry(s: State, r: nat)
    requires r < |s.requests|
  {
    var q := s.requests[r];
    Owns(q) ==>
      && q.key.value in s.store
      && s.store[q.key.value].writer == r
      && s.store[q.key.value].expireAt == q.deadline
      && (!q.phase.Cleaning? ==> s.store[q.key.value].value == Lock(q.payload))
  }

  lemma ActorOwns(ttl: real, s: State, e: Event, r: nat)
    requires Enabled(s, e) && (e.Acquire? ==> s.requests[e.r].Guarded())
    requires Actor(e) == Some(r) && r < |s.requests| && OwnsEntry(s, r)
    ensures OwnsEntry(Step(ttl, s, e), r)
  {
  }

  /** The owner's live lock keeps others out, and only an owner saves or deletes. */
  lemma BystanderOwns(ttl: real, s: State, e: Event, r: nat, a: nat)
    requires Enabled(s, e) && Timely(s) && (e.Acquire? ==> s.requests[e.r].Guarded())
    requires Actor(e) == Some(a) && a != r && a < |s.requests| && r < |s.requests|
    requires OwnsEntry(s, r) && OwnsEntry(s, a)
    ensures OwnsEntry(Step(ttl, s, e), r)
  {
    assert Step(ttl, s, e).requests[r] == s.requests[r];
  }

  lemma OwnershipStep(ttl: real, s: State, e: Event, r: nat)
    requires Enabled(s, e) && Timely(s) && (e.Acquire? ==> s.requests[e.r].Guarded())
    requires forall q | 0 <= q < |s.requests| :: OwnsEntry(s, q)
    requires r < |Step(ttl, s, e).requests|
    ensures OwnsEntry(Step(ttl, s, e), r)
  {
    if Actor(e).Some? {
      var a := Actor(e).value;
      assert OwnsEntry(s, a) && OwnsEntry(s, r);
      if a == r {
        ActorOwns(ttl, s, e, r);
      } else {
        BystanderOwns(ttl, s, e, r, a);
      }
    } else if r < |s.requests| {
      assert OwnsEntry(s, r);
    }
  }

  lemma {:induction false} OwnershipHolds(ttl: real, ss: seq<State>, es: seq<Event>, k: nat, r: nat)
    requires IsRun(ttl, ss, es) && (forall j | 0 <= j < |ss| :: Timely(ss[j]))
    requires k < |ss| && r < |ss[k].requests|
    ensures OwnsEntry(ss[k], r)
    decreases k
  {
    if k > 0 {
      var s := ss[k - 1];
      forall q | 0 <= q < |s.requests| ensures OwnsEntry(s, q) {
        OwnershipHolds(ttl, ss, es, k - 1, q);
      }
      InvHolds(ttl, ss, es, k - 1);
      assert es[k - 1].Acquire? ==> RequestOk(s, es[k - 1].r);
      OwnershipStep(ttl, s, es[k - 1], r);
    }
  }

  /** In timely runs at most one request owns a key, and the store holds that owner's live lock until it
      saves or cleans up. */
  lemma OneOwner(ttl: real, ss: seq<State>, es: seq<Event>, k: nat, r1: nat, r2: nat)
    requires IsRun(ttl, ss, es) && (forall j | 0 <= j < |ss| :: Timely(ss[j]))
    requires k < |ss| && r1 < |ss[k].requests| && r2 < |ss[k].requests|
    requires Owns(ss[k].requests[r1]) && Owns(ss[k].requests[r2]) && ss[k].requests[r1].key == ss[k].requests[r2].key
    ensures r1 == r2
    ensures Live(ss[k].store, ss[k].requests[r1].key.value, ss[k].now)
    ensures !ss[k].requests[r1].phase.Cleaning? ==>
              ss[k].store[ss[k].requests[r1].key.value].value == Lock(ss[k].requests[r1].payload)
  {
    OwnershipHolds(ttl, ss, es, k, r1);
    OwnershipHolds(ttl, ss, es, k, r2);
    assert Timely(ss[k]);
  }

  /** In timely runs a save or a delete only ever replaces or removes the entry its own request wrote,
      although neither checks. */
  lemma NeverTouchesAnothersEntry(ttl: real, ss: seq<State>, es: seq<Event>, k: nat)
    requires IsRun(ttl, ss, es) && (forall j | 0 <= j < |ss| :: Timely(ss[j]))
    requires k < |es| && (es[k].Save? || es[k].Clean?) && ss[k].requests[es[k].r].Guarded()
    ensures var key := ss[k].requests[es[k].r].key.value;
      && key in ss[k].store && ss[k].store[key].writer == es[k].r
      && (forall other | other in ss[k].store && other != key ::
            other in ss[k + 1].store && ss[k + 1].store[other] == ss[k].store[other])
  {
    OwnershipHolds(ttl, ss, es, k, es[k].r);
  }

  /** The timing assumption in seconds: whoever owns a key saves or deletes within 120 s of acquiring it. */
  ghost predicate ActsInTime(s: State) {
    forall r | 0 <= r < |s.requests| && Owns(s.requests[r]) :: s.now < s.requests[r].acquired + 120.0
  }

  /** An owner's entry lives for 120 s from the moment it took the lock, at least. */
  ghost predicate LivesLongEnough(s: State, r: nat)
    requires r < |s.requests|
  {
    var q := s.requests[r];
    Owns(q) ==> q.acquired <= s.now && q.acquired + 120.0 <= q.deadline
  }

  lemma LifetimeStep(ttl: real, s: State, e: Event, r: nat)
    requires ttl >= 120.0 && Enabled(s, e) && (e.Acquire? ==> s.requests[e.r].Guarded())
    requires r < |s.requests| ==> LivesLongEnough(s, r)
    requires r < |Step(ttl, s, e).requests|
    ensures LivesLongEnough(Step(ttl, s, e), r)
  {
  }

  lemma {:induction false} LifetimeHolds(ttl: real, ss: seq<State>, es: seq<Event>, k: nat, r: nat)
    requires IsRun(ttl, ss, es) && ttl >= 120.0 && k < |ss| && r < |ss[k].requests|
    ensures LivesLongEnough(ss[k], r)
    decreases k
  {
    if k > 0 {
      var s, e := ss[k - 1], es[k - 1];
      if r < |s.requests| {
        LifetimeHolds(ttl, ss, es, k - 1, r);
      }
      InvHolds(ttl, ss, es, k - 1);
      assert e.Acquire? ==> RequestOk(s, e.r);
      LifetimeStep(ttl, s, e, r);
    }
  }

  /** When responses are cached for at least 120 s, acting within 120 s of acquiring the lock is timely. */
  lemma ActingInTimeIsTimely(ttl: real, ss: seq<State>, es: seq<Event>, k: nat)
    requires IsRun(ttl, ss, es) && ttl >= 120.0 && k < |ss| && ActsInTime(ss[k])
    ensures Timely(ss[k])
  {
    forall r | 0 <= r < |ss[k].requests| && Owns(ss[k].requests[r])
      ensures ss[k].now < ss[k].requests[r].deadline
    {
      LifetimeHolds(ttl, ss, es, k, r);
    }
  }

  // ------------------------------------------------------------------ without timing there is no ownership

  lemma Then(ttl: real, ss: seq<State>, es: seq<Event>, e: Event)
    requires IsRun(ttl, ss, es) && Enabled(ss[|es|], e)
    ensures IsRun(ttl, ss + [Step(ttl, ss[|es|], e)], es + [e])
  {
  }

  lemma LockTaken(ttl: real, ss: seq<State>, es: seq<Event>, p: Payload, r: nat)
    returns (ss': seq<State>, es': seq<Event>)
    requires IsRun(ttl, ss, es) && |ss[|es|].requests| == r && !Live(ss[|es|].store, "k", ss[|es|].now)
    ensures IsRun(ttl, ss', es') && es <= es'
    ensures ss'[|es'|] == State(ss[|es|].now, ss[|es|].store["k" := LockEntry(p, ss[|es|].now, r)], ss[|es|].rows,
                                ss[|es|].requests +
                                [Request(Some("k"), p, Working, ss[|es|].now, ss[|es|].now + LOCK_TTL)])
  {
    var s := ss[|es|];
    Then(ttl, ss, es, Arrive(Some("k"), p));
    ss', es' := ss + [Step(ttl, s, Arrive(Some("k"), p))], es + [Arrive(Some("k"), p)];
    Then(ttl, ss', es', LookUp(r, Ok));
    ss', es' := ss' + [Step(ttl, ss'[|es'|], LookUp(r, Ok))], es' + [LookUp(r, Ok)];
    Then(ttl, ss', es', Acquire(r, Ok));
    ss', es' := ss' + [Step(ttl, ss'[|es'|], Acquire(r, Ok))], es' + [Acquire(r, Ok)];
  }

  /** An owner that needs 120 s or more loses its lock to a second one, and its clean-up then deletes the
      second owner's live lock. */
  lemma LateOwnerDeletesAnothersLock(ttl: real, p: Payload) returns (ss: seq<State>, es: seq<Event>)
    ensures IsRun(ttl, ss, es) && |es| > 0 && es[|es| - 1] == Clean(0, Ok)
    ensures |ss[|es|].requests| == 2 && Owns(ss[|es|].requests[1]) && ss[|es|].requests[1].key == Some("k")
    ensures ss[|es|].requests[0].acquired == 0.0 && ss[|es|].now == 120.0 == ss[|es|].requests[1].acquired
    ensures ss[|es|].now < ss[|es|].requests[1].deadline && "k" !in ss[|es|].store
  {
    ss, es := LockTaken(ttl, [State(0.0, map[], [], [])], [], p, 0);
    Then(ttl, ss, es, Tick(LOCK_TTL));
    ss, es := ss + [Step(ttl, ss[|es|], Tick(LOCK_TTL))], es + [Tick(LOCK_TTL)];
    ss, es := LockTaken(ttl, ss, es, p, 1);
    Then(ttl, ss, es, Fail(0));
    ss, es := ss + [Step(ttl, ss[|es|], Fail(0))], es + [Fail(0)];
    Then(ttl, ss, es, Clean(0, Ok));
    ss, es := ss + [Step(ttl, ss[|es|], Clean(0, Ok))], es + [Clean(0, Ok)];
  }

  /** Request 0 takes the key, commits, and caches its response. */
  lemma Served(ttl: real, p: Payload) returns (ss: seq<State>, es: seq<Event>)
    ensures IsRun(ttl, ss, es)
    ensures var s := ss[|es|];
      && s.now == 0.0 && s.rows == [Row(Some("k"), p, 0, Some(Body(0, [])))]
      && s.store == map["k" := Entry(Done(p, 201, Body(0, [])), ttl, 0)]
      && |s.requests| == 1 && s.requests[0] == Request(Some("k"), p, Answered(Created(Body(0, []))), 0.0, ttl)
  {
    ss, es := LockTaken(ttl, [State(0.0, map[], [], [])], [], p, 0);
    Then(ttl, ss, es, Commit(0, Ok));
    ss, es := ss + [Step(ttl, ss[|es|], Commit(0, Ok))], es + [Commit(0, Ok)];
    Then(ttl, ss, es, Build(0, []));
    ss, es := ss + [Step(ttl, ss[|es|], Build(0, []))], es + [Build(0, [])];
    Then(ttl, ss, es, Save(0, Ok));
    ss, es := ss + [Step(ttl, ss[|es|], Save(0, Ok))], es + [Save(0, Ok)];
  }

  /** The cached response expires and the unique column does not: the same request, sent again after the
      configured time, takes the lock and then fails. */
  lemma ExpiredKeyFails(ttl: real, p: Payload) returns (ss: seq<State>, es: seq<Event>)
    requires ttl >= 0.0
    ensures IsRun(ttl, ss, es) && |ss[|es|].requests| == 2 && ss[|es|].now == ttl
    ensures forall r | 0 <= r < 2 :: ss[|es|].requests[r].key == Some("k") && ss[|es|].requests[r].payload == p
    ensures ss[|es|].requests[0].phase == Answered(Created(Body(0, [])))
    ensures ss[|es|].requests[1].phase == Answered(Failure)
  {
    ss, es := Served(ttl, p);
    Then(ttl, ss, es, Tick(ttl));
    ss, es := ss + [Step(ttl, ss[|es|], Tick(ttl))], es + [Tick(ttl)];
    ss, es := LockTaken(ttl, ss, es, p, 1);
    assert ss[|es|].rows[0].key == Some("k");
    Then(ttl, ss, es, Commit(1, Ok));
    ss, es := ss + [Step(ttl, ss[|es|], Commit(1, Ok))], es + [Commit(1, Ok)];
    Then(ttl, ss, es, Clean(1, Ok));
    ss, es := ss + [Step(ttl, ss[|es|], Clean(1, Ok))], es + [Clean(1, Ok)];
  }
}
