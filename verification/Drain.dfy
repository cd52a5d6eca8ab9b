/** Draining: when nothing crashes, no call but the provider's fails and nothing new is enqueued, the
    workers finish after a bounded number of steps, whatever the provider answers and however the
    executions interleave, and then every delivery is DELIVERED or FAILED. Also: what draining cannot
    repair. */
module Drain {
  import opened Model
  import opened Machine
  import Basic
  import Bounds
  import Outbox
  import Serial

  // ------------------------------------------------------------------ termination

  /** An upper bound on the steps a copy and its retries can still take. */
  function Fuel(maxRetries: nat, t: Task): nat {
    if t.pc.Done? || t.pc.Acked? || t.retries >= maxRetries then Rank(t.pc)
    else 11 * (maxRetries - t.retries) + Rank(t.pc)
  }

  ghost function FuelOf(maxRetries: nat): Task -> nat {
    (t: Task) => Fuel(maxRetries, t)
  }

  ghost function TotalFuel(cfg: Config, s: State): nat {
    Bounds.Sum(s.tasks, FuelOf(cfg.maxRetries))
  }

  /** A worker step in which only the provider may fail. */
  ghost predicate DrainEvent(s: State, e: Event) {
    && e.Work? && e.task < |s.tasks| && !s.tasks[e.task].pc.Acked?
    && (e.reply.Ok? || s.tasks[e.task].pc.Sending?)
  }

  ghost predicate IsDrain(cfg: Config, ss: seq<State>, es: seq<Event>) {
    IsPath(cfg, ss, es) && forall k | 0 <= k < |es| :: DrainEvent(ss[k], es[k])
  }

  /** Only executions with retries left are backing off. */
  ghost predicate RetriesLeft(cfg: Config, s: State) {
    forall i | 0 <= i < |s.tasks| && (s.tasks[i].pc.BackingOff? || s.tasks[i].pc.Republishing?) ::
      s.tasks[i].retries < cfg.maxRetries
  }

  lemma FuelSpent(cfg: Config, db: Db, t: Task, r: Reply)
    requires !t.pc.Acked? && (r.Ok? || t.pc.Sending?)
    requires t.pc.BackingOff? || t.pc.Republishing? ==> t.retries < cfg.maxRetries
    ensures var e := Perform(cfg, db, t, r);
      && Fuel(cfg.maxRetries, t.(pc := e.pc)) + (if e.publish then Fuel(cfg.maxRetries, RetryOf(t)) else 0)
         < Fuel(cfg.maxRetries, t)
      && (e.pc.BackingOff? || e.pc.Republishing? ==> t.retries < cfg.maxRetries)
  {
  }

  lemma FuelStep(cfg: Config, s: State, e: Event)
    requires DrainEvent(s, e) && RetriesLeft(cfg, s)
    ensures TotalFuel(cfg, WorkStep(cfg, s, e.task, e.reply)) < TotalFuel(cfg, s)
    ensures RetriesLeft(cfg, WorkStep(cfg, s, e.task, e.reply))
  {
    var t := s.tasks[e.task];
    var f := Perform(cfg, s.db, t, e.reply);
    var more := if f.publish then [RetryOf(t)] else [];
    FuelSpent(cfg, s.db, t, e.reply);
    assert WorkStep(cfg, s, e.task, e.reply).tasks == s.tasks[e.task := t.(pc := f.pc)] + more;
    Bounds.SumStep(s.tasks, e.task, t.(pc := f.pc), more, FuelOf(cfg.maxRetries));
  }

  /** Every drain is at most as long as the fuel it starts with. */
  lemma {:induction false} DrainTerminates(cfg: Config, ss: seq<State>, es: seq<Event>)
    requires IsDrain(cfg, ss, es) && RetriesLeft(cfg, ss[0])
    ensures |es| + TotalFuel(cfg, ss[|es|]) <= TotalFuel(cfg, ss[0])
    ensures RetriesLeft(cfg, ss[|es|])
  {
    var n := |es| - 1;
    if n >= 0 {
      assert IsDrain(cfg, ss[..n + 1], es[..n]);
      DrainTerminates(cfg, ss[..n + 1], es[..n]);
      assert DrainEvent(ss[n], es[n]);
      FuelStep(cfg, ss[n], es[n]);
    }
  }

  lemma {:induction false} SumAtMost(ts: seq<Task>, f: Task -> nat, most: nat)
    requires forall t :: f(t) <= most
    ensures Bounds.Sum(ts, f) <= most * |ts|
  {
    if ts != [] {
      SumAtMost(ts[..|ts| - 1], f, most);
      assert most * |ts| == most * (|ts| - 1) + most;
    }
  }

  /** In steps: a drain takes at most 11 * maxRetries + 10 of them for each copy it starts with, whatever the
      provider answers. */
  lemma DrainLength(cfg: Config, ss: seq<State>, es: seq<Event>)
    requires IsDrain(cfg, ss, es) && RetriesLeft(cfg, ss[0])
    ensures |es| <= (11 * cfg.maxRetries + 10) * |ss[0].tasks|
  {
    DrainTerminates(cfg, ss, es);
    SumAtMost(ss[0].tasks, FuelOf(cfg.maxRetries), 11 * cfg.maxRetries + 10);
  }

  /** A drain may go on with any copy that is not acknowledged; the provider may answer anything, and every other
      call returns. */
  lemma DrainEvents(s: State, i: nat, r: Reply)
    requires i < |s.tasks|
    ensures DrainEvent(s, Work(i, r)) <==> s.tasks[i].pc != Acked && (r == Ok || s.tasks[i].pc == Sending)
  {
  }

  // ------------------------------------------------------------------ outcome

  /** An execution that has written SENT and will write again. */
  predicate Sender(pc: Pc) {
    pc.Sending? || pc.MarkingDelivered? || pc.Exhausting? || pc.BackingOff? || pc.Failing?
  }

  ghost predicate SentOwned(tasks: seq<Task>, d: nat) {
    exists i :: 0 <= i < |tasks| && tasks[i].delivery == d && Sender(tasks[i].pc)
  }

  /** Every PENDING row has a live copy, every SENT row an execution in charge of it, and every row its
      notification. A state with no active execution and no SENT row is a special case. */
  ghost predicate Drainable(s: State, d: nat)
    requires d < |s.db.deliveries|
  {
    && s.db.deliveries[d].notificationId < |s.db.notifications|
    && (s.db.deliveries[d].status == Pending ==> Outbox.Covered(s.tasks, d))
    && (s.db.deliveries[d].status == Sent ==> SentOwned(s.tasks, d))
  }

  lemma SentOwnedBy(tasks: seq<Task>, d: nat, i: nat)
    requires i < |tasks| && tasks[i].delivery == d && Sender(tasks[i].pc)
    ensures SentOwned(tasks, d)
  {
  }

  lemma DrainableStep(cfg: Config, s: State, e: Event, d: nat)
    requires DrainEvent(s, e) && d < |s.db.deliveries| && Drainable(s, d)
    ensures var s' := WorkStep(cfg, s, e.task, e.reply); |s'.db.deliveries| == |s.db.deliveries| && Drainable(s', d)
  {
    var s' := WorkStep(cfg, s, e.task, e.reply);
    var i := e.task;
    var mine := s.tasks[i].delivery == d;
    if s'.db.deliveries[d].status == Pending {
      if mine && Unfinished(s'.tasks[i].pc) {
        Outbox.CoveredBy(s'.tasks, d, i);
      } else if mine && s.tasks[i].pc.Republishing? {
        Outbox.CoveredBy(s'.tasks, d, |s.tasks|);
      } else {
        var j :| 0 <= j < |s.tasks| && s.tasks[j].delivery == d && Unfinished(s.tasks[j].pc);
        Outbox.CoveredBy(s'.tasks, d, j);
      }
    } else if s'.db.deliveries[d].status == Sent {
      if mine && Sender(s'.tasks[i].pc) {
        SentOwnedBy(s'.tasks, d, i);
      } else {
        var j :| 0 <= j < |s.tasks| && s.tasks[j].delivery == d && Sender(s.tasks[j].pc);
        SentOwnedBy(s'.tasks, d, j);
      }
    }
  }

  lemma {:induction false} DrainableAlong(cfg: Config, ss: seq<State>, es: seq<Event>, k: nat, d: nat)
    requires IsDrain(cfg, ss, es) && k < |ss|
    requires d < |ss[0].db.deliveries| && Drainable(ss[0], d)
    ensures |ss[k].db.deliveries| == |ss[0].db.deliveries| && Drainable(ss[k], d)
  {
    if k > 0 {
      DrainableAlong(cfg, ss, es, k - 1, d);
      assert DrainEvent(ss[k - 1], es[k - 1]);
      DrainableStep(cfg, ss[k - 1], es[k - 1], d);
    }
  }

  lemma {:induction false} RowCountKept(cfg: Config, ss: seq<State>, es: seq<Event>, k: nat)
    requires IsDrain(cfg, ss, es) && k < |ss|
    ensures |ss[k].db.deliveries| == |ss[0].db.deliveries|
  {
    if k > 0 {
      RowCountKept(cfg, ss, es, k - 1);
      assert DrainEvent(ss[k - 1], es[k - 1]);
    }
  }

  /** A drain that cannot be continued has settled every delivery. */
  lemma DrainSettles(cfg: Config, ss: seq<State>, es: seq<Event>, d: nat)
    requires IsDrain(cfg, ss, es) && (forall e :: !DrainEvent(ss[|es|], e))
    requires d < |ss[0].db.deliveries| && Drainable(ss[0], d)
    ensures d < |ss[|es|].db.deliveries| && ss[|es|].db.deliveries[d].status in {Delivered, Failed}
  {
    DrainableAlong(cfg, ss, es, |es|, d);
    forall i | 0 <= i < |ss[|es|].tasks| ensures ss[|es|].tasks[i].pc.Acked? {
      assert !DrainEvent(ss[|es|], Work(i, Ok));
    }
  }

  // ------------------------------------------------------------------ what nothing repairs

  /** SENT, and no execution left that could write to the row. */
  ghost predicate Orphaned(s: State, d: nat) {
    && d < |s.db.deliveries| && s.db.deliveries[d].status == Sent
    && forall i | 0 <= i < |s.tasks| && s.tasks[i].delivery == d ::
         s.tasks[i].pc in {Queued, Loading, Republishing, Done, Acked}
  }

  lemma {:induction false} CreateKeepsRow(db: Db, nid: nat, cs: seq<Channel>, at: real, d: nat)
    requires d < |db.deliveries|
    ensures CreateDeliveries(db, nid, cs, at).deliveries[d] == db.deliveries[d]
  {
    if cs != [] {
      CreateKeepsRow(db, nid, cs[..|cs| - 1], at, d);
    }
  }

  /** In a run without overlapping executions a SENT row is either orphaned or still has the execution
      that will settle it: these are the only two cases. */
  lemma SentIsOwnedOrOrphaned(cfg: Config, ss: seq<State>, es: seq<Event>, k: nat, d: nat)
    requires IsSerializedRun(cfg, ss, es) && k < |ss|
    requires d < |ss[k].db.deliveries| && ss[k].db.deliveries[d].status == Sent
    ensures Orphaned(ss[k], d) <==> !SentOwned(ss[k].tasks, d)
  {
    Serial.InvHolds(cfg, ss, es, k);
    SentCopies(cfg, ss[k], d);
  }

  lemma OrphanStep(cfg: Config, s: State, e: Event, d: nat)
    requires Enabled(cfg, s, e) && Orphaned(s, d)
    ensures Orphaned(Step(cfg, s, e), d)
  {
    if e.Accept? {
      var db := s.db.(notifications := s.db.notifications + [e.notification]);
      CreateKeepsRow(db, |s.db.notifications|, e.channels, e.createdAt, d);
    }
  }

  /** An orphaned delivery stays SENT in every continuation: no redelivered copy, duplicate or reconciler
      pass moves it again. */
  lemma {:induction false} OrphanStays(cfg: Config, ss: seq<State>, es: seq<Event>, k: nat, d: nat)
    requires IsPath(cfg, ss, es) && k < |ss| && Orphaned(ss[0], d)
    ensures Orphaned(ss[k], d)
  {
    if k > 0 {
      OrphanStays(cfg, ss, es, k - 1, d);
      OrphanStep(cfg, ss[k - 1], es[k - 1], d);
    }
  }

  /** The steps that orphan a SENT row: its sender dies, or the sender's last status update (exhausted,
      back-off or fatal) has no effect. */
  predicate Orphans(s: State, e: Event, d: nat) {
    && d < |s.db.deliveries| && s.db.deliveries[d].status == Sent
    && (e.Die? || e.Work?) && e.task < |s.tasks| && s.tasks[e.task].delivery == d
    && var pc := s.tasks[e.task].pc;
    && (if e.Die? then Sender(pc) else (pc.Exhausting? || pc.BackingOff? || pc.Failing?) && !e.reply.Applied())
  }

  /** What executions of delivery d may be doing while its row is SENT. */
  lemma SentCopies(cfg: Config, s: State, d: nat)
    requires Serial.Inv(cfg, s) && d < |s.db.deliveries| && s.db.deliveries[d].status == Sent
    ensures forall i | 0 <= i < |s.tasks| && s.tasks[i].delivery == d ::
              Sender(s.tasks[i].pc) || s.tasks[i].pc in {Queued, Loading, Republishing, Done, Acked}
  {
    forall i | 0 <= i < |s.tasks| && s.tasks[i].delivery == d
      ensures Sender(s.tasks[i].pc) || s.tasks[i].pc in {Queued, Loading, Republishing, Done, Acked}
    {
      assert Serial.TaskAt(s, i) && Basic.TaskOk(cfg, s.db, s.tasks[i]);
    }
  }

  lemma OrphansSuffices(cfg: Config, s: State, e: Event, d: nat)
    requires Serial.Inv(cfg, s) && Serialized(s) && Enabled(cfg, s, e) && Orphans(s, e, d)
    ensures Orphaned(Step(cfg, s, e), d)
  {
    SentCopies(cfg, s, d);
    assert Active(s.tasks[e.task].pc);
  }

  lemma NewlySent(cfg: Config, s: State, e: Event, d: nat)
    requires Serial.Inv(cfg, s) && Enabled(cfg, s, e) && d < |s.db.deliveries| && s.db.deliveries[d].status != Sent
    ensures !Orphaned(Step(cfg, s, e), d)
  {
    if e.Work? {
      assert Serial.TaskAt(s, e.task);
      var s' := Step(cfg, s, e);
      assert s'.tasks[e.task] == s.tasks[e.task].(pc := Perform(cfg, s.db, s.tasks[e.task], e.reply).pc);
    } else if e.Accept? {
      var db := s.db.(notifications := s.db.notifications + [e.notification]);
      CreateKeepsRow(db, |s.db.notifications|, e.channels, e.createdAt, d);
    }
  }

  lemma WorkOrphans(cfg: Config, s: State, e: Event, d: nat, i: nat)
    requires Serial.Inv(cfg, s) && Enabled(cfg, s, e) && e.Work? && !Orphans(s, e, d)
    requires d < |s.db.deliveries| && s.db.deliveries[d].status == Sent
    requires i < |s.tasks| && s.tasks[i].delivery == d && Sender(s.tasks[i].pc)
    ensures !Orphaned(WorkStep(cfg, s, e.task, e.reply), d)
  {
    var s' := WorkStep(cfg, s, e.task, e.reply);
    assert Serial.TaskAt(s, e.task);
    var pc := Perform(cfg, s.db, s.tasks[i], e.reply).pc;
    assert s'.tasks[i] == if i == e.task then s.tasks[i].(pc := pc) else s.tasks[i];
  }

  lemma OrphansNecessary(cfg: Config, s: State, e: Event, d: nat)
    requires Serial.Inv(cfg, s) && Serialized(s) && Enabled(cfg, s, e) && d < |s.db.deliveries|
    requires !Orphaned(s, d) && Orphaned(Step(cfg, s, e), d)
    ensures Orphans(s, e, d)
  {
    if s.db.deliveries[d].status != Sent {
      NewlySent(cfg, s, e, d);
    } else {
      SentCopies(cfg, s, d);
      var i :| 0 <= i < |s.tasks| && s.tasks[i].delivery == d && Sender(s.tasks[i].pc);
      if e.Work? && !Orphans(s, e, d) {
        WorkOrphans(cfg, s, e, d, i);
      } else if !e.Work? && !Orphans(s, e, d) {
        StillSender(cfg, s, e, d, i);
      }
    }
  }

  lemma StillSender(cfg: Config, s: State, e: Event, d: nat, i: nat)
    requires Enabled(cfg, s, e) && !e.Work? && !(e.Die? && e.task == i)
    requires i < |s.tasks| && s.tasks[i].delivery == d && Sender(s.tasks[i].pc)
    ensures !Orphaned(Step(cfg, s, e), d)
  {
    assert Step(cfg, s, e).tasks[i] == s.tasks[i];
  }

  /** The steps that orphan a delivery, exactly. */
  lemma OrphanedByStep(cfg: Config, s: State, e: Event, d: nat)
    requires Serial.Inv(cfg, s) && Serialized(s) && Enabled(cfg, s, e) && d < |s.db.deliveries| && !Orphaned(s, d)
    ensures Orphaned(Step(cfg, s, e), d) <==> Orphans(s, e, d)
  {
    if Orphans(s, e, d) {
      OrphansSuffices(cfg, s, e, d);
    } else if Orphaned(Step(cfg, s, e), d) {
      OrphansNecessary(cfg, s, e, d);
    }
  }

  lemma OrphanedAfter(cfg: Config, s: State, e: Event, d: nat)
    requires Serial.Inv(cfg, s) && Serialized(s) && Enabled(cfg, s, e)
    ensures Orphaned(Step(cfg, s, e), d) <==> Orphaned(s, d) || Orphans(s, e, d)
  {
    if Orphaned(s, d) {
      OrphanStep(cfg, s, e, d);
    } else if d < |s.db.deliveries| {
      OrphanedByStep(cfg, s, e, d);
    } else {
      BornPending(cfg, s, e, d);
    }
  }

  lemma BornPending(cfg: Config, s: State, e: Event, d: nat)
    requires Enabled(cfg, s, e) && |s.db.deliveries| <= d
    ensures !Orphaned(Step(cfg, s, e), d)
  {
    if e.Accept? {
      var db := s.db.(notifications := s.db.notifications + [e.notification]);
      Basic.CreateDeliveriesShape(db, |s.db.notifications|, e.channels, e.createdAt);
    }
  }

  lemma OrphanedNext(cfg: Config, ss: seq<State>, es: seq<Event>, k: nat, d: nat)
    requires IsSerializedRun(cfg, ss, es) && k < |es|
    ensures Orphaned(ss[k + 1], d) <==> Orphaned(ss[k], d) || Orphans(ss[k], es[k], d)
  {
    Serial.InvHolds(cfg, ss, es, k);
    OrphanedAfter(cfg, ss[k], es[k], d);
  }

  /** What holds from the first cause on holds if and only if there was a cause. */
  lemma {:induction false} FirstCause(effect: nat -> bool, cause: nat -> bool, k: nat)
    requires !effect(0) && forall j: nat | j < k :: effect(j + 1) <==> effect(j) || cause(j)
    ensures effect(k) <==> exists j: nat :: j < k && cause(j)
  {
    if k > 0 {
      FirstCause(effect, cause, k - 1);
    }
  }

  /** A delivery is stuck SENT for good if and only if, some time before, its sender died or the sender's
      last status update had no effect. */
  lemma OrphanedIff(cfg: Config, ss: seq<State>, es: seq<Event>, k: nat, d: nat)
    requires IsSerializedRun(cfg, ss, es) && k < |ss|
    ensures Orphaned(ss[k], d) <==> exists j: nat :: j < k && Orphans(ss[j], es[j], d)
  {
    var effect := (j: nat) => j < |ss| && Orphaned(ss[j], d);
    var cause := (j: nat) => j < |es| && Orphans(ss[j], es[j], d);
    forall j: nat | j < k ensures effect(j + 1) <==> effect(j) || cause(j) {
      OrphanedNext(cfg, ss, es, j, d);
    }
    FirstCause(effect, cause, k);
    if effect(k) {
      var j: nat :| j < k && cause(j);
      assert Orphans(ss[j], es[j], d);
    } else {
      assert forall j: nat | j < k :: cause(j) == Orphans(ss[j], es[j], d);
    }
  }

  // ------------------------------------------------------------------ exactly which deliveries a drain settles

  /** PENDING, with no copy left. */
  ghost predicate Abandoned(s: State, d: nat) {
    && d < |s.db.deliveries| && s.db.deliveries[d].status == Pending && !Outbox.Covered(s.tasks, d)
  }

  lemma AbandonedStep(cfg: Config, s: State, e: Event, d: nat)
    requires DrainEvent(s, e) && Abandoned(s, d)
    ensures Abandoned(WorkStep(cfg, s, e.task, e.reply), d)
  {
    var s' := WorkStep(cfg, s, e.task, e.reply);
    assert s.tasks[e.task].delivery == d ==> !Unfinished(s.tasks[e.task].pc);
    forall j | 0 <= j < |s'.tasks| && s'.tasks[j].delivery == d ensures !Unfinished(s'.tasks[j].pc) {
      assert j < |s.tasks| && s.tasks[j].delivery == d;
    }
  }

  lemma {:induction false} AbandonedStays(cfg: Config, ss: seq<State>, es: seq<Event>, k: nat, d: nat)
    requires IsDrain(cfg, ss, es) && k < |ss| && Abandoned(ss[0], d)
    ensures Abandoned(ss[k], d)
  {
    if k > 0 {
      AbandonedStays(cfg, ss, es, k - 1, d);
      assert DrainEvent(ss[k - 1], es[k - 1]);
      AbandonedStep(cfg, ss[k - 1], es[k - 1], d);
    }
  }

  /** From any state of a run without overlapping executions, whatever crashed before: a drain that cannot
      be continued has settled a delivery if and only if at its start the row, when PENDING, had a live
      copy and, when SENT, still had its sender. */
  lemma DrainSettlesIff(cfg: Config, ss: seq<State>, es: seq<Event>, k: nat, ds: seq<State>, des: seq<Event>, d: nat)
    requires IsSerializedRun(cfg, ss, es) && k < |ss| && d < |ss[k].db.deliveries|
    requires IsDrain(cfg, ds, des) && ds[0] == ss[k] && forall e :: !DrainEvent(ds[|des|], e)
    ensures d < |ds[|des|].db.deliveries|
    ensures ds[|des|].db.deliveries[d].status in {Delivered, Failed} <==> Drainable(ss[k], d)
  {
    Basic.InvHolds(cfg, ss, es, k);
    assert Basic.RowOk(cfg, ss[k].db, ss[k].db.deliveries[d]);
    if Drainable(ss[k], d) {
      DrainSettles(cfg, ds, des, d);
    } else if ss[k].db.deliveries[d].status == Pending {
      AbandonedStays(cfg, ds, des, |des|, d);
    } else {
      SentIsOwnedOrOrphaned(cfg, ss, es, k, d);
      OrphanStays(cfg, ds, des, |des|, d);
    }
  }
}
