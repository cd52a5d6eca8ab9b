/** What holds in every run, even when executions of one delivery overlap: references stay valid, no
    accepted delivery is ever rejected, retries and countdowns stay bounded, and copies sit in the right
    queue. A status update reads and writes the committed row in one step. */
module Basic {
  import opened Model
  import opened Machine

  // ------------------------------------------------------------------ the invariant

  /** The delivery row of an accepted notification: the worker will find and render its template. */
  ghost predicate Accepted(cfg: Config, db: Db, row: Delivery) {
    && row.notificationId < |db.notifications|
    && Supported(row.channel)
    && var n := db.notifications[row.notificationId];
    && n.templateId.Some? && n.templateId.value < |db.templates|
    && cfg.renders(db.templates[n.templateId.value], n.variables)
  }

  ghost predicate RowOk(cfg: Config, db: Db, row: Delivery) {
    && Accepted(cfg, db, row)
    && (row.retryCount > 0 ==> row.error.Some?)
    && (row.error == Some(MaxRetries) ==> row.retryCount >= cfg.maxRetries + 1)
    && row.error !in {Some(TemplateMissing), Some(RenderError), Some(UnsupportedChannel)}
    && (row.status == Failed ==> row.error in {Some(MaxRetries), Some(Fatal)})
  }

  /** A copy never has more retries than its row has counted, and its chain waited 1 + 4 + 16 + ... */
  ghost predicate TaskOk(cfg: Config, db: Db, t: Task) {
    && t.delivery < |db.deliveries|
    && t.queue == QueueFor(db, t.delivery)
    && t.retries <= cfg.maxRetries
    && t.retries <= db.deliveries[t.delivery].retryCount
    && 3 * t.waited + 1 == Pow4(t.retries)
    && !t.pc.Rejecting?
    && (t.pc.Exhausting? ==> t.retries == cfg.maxRetries)
    && (t.pc.BackingOff? || t.pc.Republishing? ==> t.retries < cfg.maxRetries)
    && (t.pc.Republishing? ==> t.retries < db.deliveries[t.delivery].retryCount)
  }

  ghost predicate HandlerOk(db: Db, h: Handler) {
    forall d | d in h.todo :: d < |db.deliveries| && h.queue == QueueFor(db, d)
  }

  ghost predicate PassOk(db: Db, p: Pass) {
    && p.rows <= |db.deliveries| && |p.losses| == p.rows
    && forall d | d in p.todo :: d < p.rows
  }

  ghost predicate KeysUnique(db: Db) {
    forall m, n | 0 <= m < n < |db.notifications| && db.notifications[m].idempotencyKey.Some? ::
      db.notifications[m].idempotencyKey != db.notifications[n].idempotencyKey
  }

  ghost predicate Inv(cfg: Config, s: State) {
    && |s.stats| == |s.db.deliveries|
    && KeysUnique(s.db)
    && (forall e | e in s.db.log :: e.delivery < |s.db.deliveries|)
    && (forall d | 0 <= d < |s.db.deliveries| :: RowOk(cfg, s.db, s.db.deliveries[d]))
    && (forall i | 0 <= i < |s.tasks| :: TaskOk(cfg, s.db, s.tasks[i]))
    && (forall h | 0 <= h < |s.handlers| :: HandlerOk(s.db, s.handlers[h]))
    && (forall p | 0 <= p < |s.passes| :: PassOk(s.db, s.passes[p]))
  }

  // ------------------------------------------------------------------ preservation

  /** How tables evolve: rows are only appended, and a delivery keeps its notification and channel
      while its retry count never falls and its message is never erased. */
  ghost predicate Grows(a: Db, b: Db) {
    && a.templates <= b.templates
    && a.notifications <= b.notifications
    && |a.deliveries| <= |b.deliveries|
    && forall d | 0 <= d < |a.deliveries| ::
         && a.deliveries[d].notificationId == b.deliveries[d].notificationId
         && a.deliveries[d].channel == b.deliveries[d].channel
         && a.deliveries[d].createdAt == b.deliveries[d].createdAt
         && a.deliveries[d].retryCount <= b.deliveries[d].retryCount
         && (a.deliveries[d].error.Some? ==> b.deliveries[d].error.Some?)
  }

  lemma TaskOkGrows(cfg: Config, a: Db, b: Db, t: Task)
    requires Grows(a, b) && TaskOk(cfg, a, t)
    requires forall d | 0 <= d < |a.deliveries| :: Accepted(cfg, a, a.deliveries[d])
    ensures TaskOk(cfg, b, t)
  {
    assert Accepted(cfg, a, a.deliveries[t.delivery]);
  }

  lemma {:induction false} CreateDeliveriesShape(db: Db, nid: nat, cs: seq<Channel>, at: real)
    ensures var r := CreateDeliveries(db, nid, cs, at);
      && db.deliveries <= r.deliveries && db.log <= r.log
      && (forall d | |db.deliveries| <= d < |r.deliveries| ::
            r.deliveries[d] == Delivery(nid, cs[d - |db.deliveries|], Pending, 0, None, at))
      && |r.log| == |db.log| + |cs|
      && (forall k | |db.log| <= k < |r.log| ::
            r.log[k] == LogEntry(|db.deliveries| + (k - |db.log|), None, Pending))
  {
    if cs != [] {
      CreateDeliveriesShape(db, nid, cs[..|cs| - 1], at);
    }
  }

  lemma NewRowsOk(cfg: Config, a: Db, n: Notification, cs: seq<Channel>, at: real)
    requires forall d | 0 <= d < |a.deliveries| :: RowOk(cfg, a, a.deliveries[d])
    requires forall e | e in a.log :: e.delivery < |a.deliveries|
    requires n.templateId.Some? && n.templateId.value < |a.templates|
    requires cfg.renders(a.templates[n.templateId.value], n.variables)
    requires forall c | c in cs :: Supported(c)
    ensures var b := CreateDeliveries(a.(notifications := a.notifications + [n]), |a.notifications|, cs, at);
      && Grows(a, b) && a.deliveries <= b.deliveries
      && (forall d | 0 <= d < |b.deliveries| :: RowOk(cfg, b, b.deliveries[d]))
      && (forall d | |a.deliveries| <= d < |b.deliveries| :: QueueFor(b, d) == QueueOf(n.priority))
      && (forall e | e in b.log :: e.delivery < |b.deliveries|)
  {
    var b := CreateDeliveries(a.(notifications := a.notifications + [n]), |a.notifications|, cs, at);
    CreateDeliveriesShape(a.(notifications := a.notifications + [n]), |a.notifications|, cs, at);
    forall d | 0 <= d < |b.deliveries| ensures RowOk(cfg, b, b.deliveries[d]) {
      if d < |a.deliveries| {
        assert RowOk(cfg, a, a.deliveries[d]);
      } else {
        assert cs[d - |a.deliveries|] in cs;
      }
    }
    forall e | e in b.log ensures e.delivery < |b.deliveries| {
      var k :| 0 <= k < |b.log| && b.log[k] == e;
      if k < |a.log| {
        assert e in a.log;
      }
    }
  }

  lemma AcceptKeeps(cfg: Config, s: State, n: Notification, cs: seq<Channel>, at: real)
    requires Inv(cfg, s) && Enabled(cfg, s, Accept(n, cs, at))
    ensures Inv(cfg, Step(cfg, s, Accept(n, cs, at)))
    ensures Grows(s.db, Step(cfg, s, Accept(n, cs, at)).db)
  {
    var s' := Step(cfg, s, Accept(n, cs, at));
    NewRowsOk(cfg, s.db, n, cs, at);
    forall i | 0 <= i < |s'.tasks| ensures TaskOk(cfg, s'.db, s'.tasks[i]) {
      TaskOkGrows(cfg, s.db, s'.db, s.tasks[i]);
    }
    forall h | 0 <= h < |s'.handlers| ensures HandlerOk(s'.db, s'.handlers[h]) {
      if h < |s.handlers| {
        HandlerGrows(cfg, s.db, s'.db, s.handlers[h]);
      }
    }
  }

  lemma HandlerGrows(cfg: Config, a: Db, b: Db, h: Handler)
    requires Grows(a, b) && HandlerOk(a, h)
    requires forall d | 0 <= d < |a.deliveries| :: Accepted(cfg, a, a.deliveries[d])
    ensures HandlerOk(b, h)
  {
    forall d | d in h.todo ensures d < |b.deliveries| && h.queue == QueueFor(b, d) {
      assert Accepted(cfg, a, a.deliveries[d]);
    }
  }

  /** One worker step keeps its row and its own copy well formed, and a published retry is well formed. */
  lemma WorkLocal(cfg: Config, db: Db, t: Task, r: Reply)
    requires TaskOk(cfg, db, t) && RowOk(cfg, db, db.deliveries[t.delivery])
    ensures var e := Perform(cfg, db, t, r);
      var db' := if e.write.Some? then UpdateStatus(db, t.delivery, e.write.value) else db;
      && Grows(db, db') && db'.notifications == db.notifications && db'.templates == db.templates
      && RowOk(cfg, db', db'.deliveries[t.delivery])
      && TaskOk(cfg, db', t.(pc := e.pc))
      && (e.publish ==> TaskOk(cfg, db', RetryOf(t)))
  {
  }

  lemma WorkKeeps(cfg: Config, s: State, i: nat, r: Reply)
    requires Inv(cfg, s) && Enabled(cfg, s, Work(i, r))
    ensures Inv(cfg, WorkStep(cfg, s, i, r))
    ensures Grows(s.db, WorkStep(cfg, s, i, r).db)
  {
    var s' := WorkStep(cfg, s, i, r);
    var t := s.tasks[i];
    assert RowOk(cfg, s.db, s.db.deliveries[t.delivery]);
    WorkLocal(cfg, s.db, t, r);
    forall d | 0 <= d < |s'.db.deliveries| ensures RowOk(cfg, s'.db, s'.db.deliveries[d]) {
      assert RowOk(cfg, s.db, s.db.deliveries[d]);
    }
    forall j | 0 <= j < |s'.tasks| ensures TaskOk(cfg, s'.db, s'.tasks[j]) {
      if j != i && j < |s.tasks| {
        TaskOkGrows(cfg, s.db, s'.db, s.tasks[j]);
      }
    }
    forall h | 0 <= h < |s'.handlers| ensures HandlerOk(s'.db, s'.handlers[h]) {
      HandlerGrows(cfg, s.db, s'.db, s.handlers[h]);
    }
  }

  lemma EnqueueKeeps(cfg: Config, s: State, d: nat, q: Queue)
    requires Inv(cfg, s) && d < |s.db.deliveries| && q == QueueFor(s.db, d)
    ensures Inv(cfg, Enqueue(s, d, q))
  {
    assert TaskOk(cfg, s.db, Task(d, 0, 0, q, Queued));
  }

  lemma PublishKeeps(cfg: Config, s: State, h: nat)
    requires Inv(cfg, s) && Enabled(cfg, s, Publish(h)) && HandlerOk(s.db, s.handlers[h])
    ensures Inv(cfg, Step(cfg, s, Publish(h)))
  {
    var hd := s.handlers[h];
    assert hd.todo[0] in hd.todo;
    assert forall d | d in hd.todo[1..] :: d in hd.todo;
    assert HandlerOk(s.db, hd.(todo := hd.todo[1..]));
    EnqueueKeeps(cfg, s.(handlers := s.handlers[h := hd.(todo := hd.todo[1..])]), hd.todo[0], hd.queue);
  }

  lemma RequeueKeeps(cfg: Config, s: State, p: nat)
    requires Inv(cfg, s) && Enabled(cfg, s, Requeue(p)) && PassOk(s.db, s.passes[p])
    ensures Inv(cfg, Step(cfg, s, Requeue(p)))
  {
    var ps := s.passes[p];
    assert forall d | d in ps.todo[1..] :: d in ps.todo;
    assert PassOk(s.db, ps.(todo := ps.todo[1..]));
    EnqueueKeeps(cfg, s.(passes := s.passes[p := ps.(todo := ps.todo[1..])]), ps.todo[0], QueueFor(s.db, ps.todo[0]));
  }

  lemma TemplateKeeps(cfg: Config, s: State, t: Template)
    requires Inv(cfg, s)
    ensures var db' := s.db.(templates := s.db.templates + [t]); Inv(cfg, s.(db := db')) && Grows(s.db, db')
  {
    var db' := s.db.(templates := s.db.templates + [t]);
    forall d | 0 <= d < |s.db.deliveries| ensures RowOk(cfg, db', db'.deliveries[d]) {
      assert RowOk(cfg, s.db, s.db.deliveries[d]);
    }
    forall i | 0 <= i < |s.tasks| ensures TaskOk(cfg, db', s.tasks[i]) {
      TaskOkGrows(cfg, s.db, db', s.tasks[i]);
    }
    forall h | 0 <= h < |s.handlers| ensures HandlerOk(db', s.handlers[h]) {
      HandlerGrows(cfg, s.db, db', s.handlers[h]);
    }
  }

  /** Every step keeps the invariant and only grows the tables. */
  lemma StepKeeps(cfg: Config, s: State, e: Event)
    requires Inv(cfg, s) && Enabled(cfg, s, e)
    ensures Inv(cfg, Step(cfg, s, e)) && Grows(s.db, Step(cfg, s, e).db)
  {
    match e
    case Accept(n, cs, at) => AcceptKeeps(cfg, s, n, cs, at);
    case Work(i, r) => WorkKeeps(cfg, s, i, r);
    case CreateTemplate(t) => TemplateKeeps(cfg, s, t);
    case Publish(h) =>
      assert HandlerOk(s.db, s.handlers[h]);
      PublishKeeps(cfg, s, h);
    case Requeue(p) =>
      assert PassOk(s.db, s.passes[p]);
      RequeueKeeps(cfg, s, p);
    case _ =>
  }

  lemma {:induction false} InvHolds(cfg: Config, ss: seq<State>, es: seq<Event>, k: nat)
    requires IsRun(cfg, ss, es) && k < |ss|
    ensures Inv(cfg, ss[k])
  {
    if k > 0 {
      InvHolds(cfg, ss, es, k - 1);
      StepKeeps(cfg, ss[k - 1], es[k - 1]);
    }
  }

  // ------------------------------------------------------------------ results

  /** In every run: a delivery that has counted a retry carries a message. */
  lemma CountedHasMessage(cfg: Config, ss: seq<State>, es: seq<Event>, k: nat, d: nat)
    requires IsRun(cfg, ss, es) && k < |ss| && d < |ss[k].db.deliveries|
    ensures ss[k].db.deliveries[d].retryCount > 0 ==> ss[k].db.deliveries[d].error.Some?
  {
    InvHolds(cfg, ss, es, k);
    assert RowOk(cfg, ss[k].db, ss[k].db.deliveries[d]);
  }

  lemma MessageStep(cfg: Config, s: State, e: Event, d: nat)
    requires Inv(cfg, s) && Enabled(cfg, s, e) && d < |s.db.deliveries| && s.db.deliveries[d].error.Some?
    ensures d < |Step(cfg, s, e).db.deliveries| && Step(cfg, s, e).db.deliveries[d].error.Some?
  {
    StepKeeps(cfg, s, e);
  }

  /** In every run: a message, once there, is replaced at most by another one. */
  lemma {:induction false} MessageStays(cfg: Config, ss: seq<State>, es: seq<Event>, j: nat, k: nat, d: nat)
    requires IsRun(cfg, ss, es) && j <= k < |ss|
    requires d < |ss[j].db.deliveries| && ss[j].db.deliveries[d].error.Some?
    ensures d < |ss[k].db.deliveries| && ss[k].db.deliveries[d].error.Some?
    decreases k - j
  {
    if j < k {
      MessageStays(cfg, ss, es, j, k - 1, d);
      InvHolds(cfg, ss, es, k - 1);
      MessageStep(cfg, ss[k - 1], es[k - 1], d);
    }
  }
}
