/** Counting arguments over all runs: a potential bounds the provider calls of a delivery by its
    enqueues, every counted retry was paid for by a provider error, and countdowns form a geometric sum. */
module Bounds {
  import opened Model
  import opened Machine
  import Basic

  // ------------------------------------------------------------------ sums over copies

  ghost function Sum(ts: seq<Task>, f: Task -> nat): nat {
    if ts == [] then 0 else Sum(ts[..|ts| - 1], f) + f(ts[|ts| - 1])
  }

  lemma SumSnoc(ts: seq<Task>, t: Task, f: Task -> nat)
    ensures Sum(ts + [t], f) == Sum(ts, f) + f(t)
  {
    assert (ts + [t])[..|ts|] == ts;
  }

  lemma {:induction false} SumUpdate(ts: seq<Task>, i: nat, t: Task, f: Task -> nat)
    requires i < |ts|
    ensures Sum(ts[i := t], f) + f(ts[i]) == Sum(ts, f) + f(t)
  {
    var n := |ts| - 1;
    if i == n {
      assert ts[i := t][..n] == ts[..n];
    } else {
      assert ts[i := t][..n] == ts[..n][i := t];
      SumUpdate(ts[..n], i, t, f);
    }
  }

  /** The sum after a worker step: the stepping copy changes and possibly one copy is appended. */
  lemma SumStep(ts: seq<Task>, i: nat, t: Task, more: seq<Task>, f: Task -> nat)
    requires i < |ts| && |more| <= 1
    ensures Sum(ts[i := t] + more, f) + f(ts[i]) == Sum(ts, f) + f(t) + if more == [] then 0 else f(more[0])
  {
    SumUpdate(ts, i, t, f);
    if more == [] {
      assert ts[i := t] + more == ts[i := t];
    } else {
      assert more == [more[0]];
      SumSnoc(ts[i := t], more[0], f);
    }
  }

  // ------------------------------------------------------------------ what the counters count

  /** One worker step counts exactly what its call did, for its own delivery only. */
  lemma WorkCounts(cfg: Config, s: State, i: nat, r: Reply, d: nat)
    requires i < |s.tasks| && s.tasks[i].delivery == d < |s.stats|
    ensures var pc, st, s' := s.tasks[i].pc, s.stats[d], WorkStep(cfg, s, i, r);
      && |s'.stats| == |s.stats| && (forall o | 0 <= o < |s.stats| && o != d :: s'.stats[o] == s.stats[o])
      && var st' := s'.stats[d];
      && st'.enqueues == st.enqueues && st'.redeliveries == st.redeliveries && st'.deaths == st.deaths
      && st'.attempts == st.attempts + (if pc == Sending then 1 else 0)
      && st'.accepted == st.accepted + (if pc == Sending && (r == Ok || r == Lost) then 1 else 0)
      && st'.successes == st.successes + (if pc == Sending && r == Ok then 1 else 0)
      && st'.providerErrors == st.providerErrors + (if pc == Sending && r == Refused then 1 else 0)
      && st'.fatals == st.fatals + (if pc == Sending && (r == Raised || r == Lost) then 1 else 0)
      && st'.faults == st.faults + (if r != Ok && !(pc in {Queued, Sending, Done, Acked}) then 1 else 0)
      && (st'.lostDelivered <==> st.lostDelivered || (pc == MarkingDelivered && r == Lost))
      && st'.sentBy == if pc == MarkingSent && (r == Ok || r == Lost) then Some(i) else st.sentBy
  {
  }

  /** The other events count enqueues, redeliveries and deaths, one at a time. */
  lemma EventCounts(cfg: Config, s: State, e: Event, d: nat)
    requires Enabled(cfg, s, e) && !e.Work? && d < |s.stats|
    ensures d < |Step(cfg, s, e).stats|
    ensures var target := match e
                          case Publish(h) => Some(s.handlers[h].todo[0])
                          case Requeue(p) => Some(s.passes[p].todo[0])
                          case Redeliver(i) => Some(s.tasks[i].delivery)
                          case Die(i) => Some(s.tasks[i].delivery)
                          case _ => None;
      var st, st' := s.stats[d], Step(cfg, s, e).stats[d];
      st' == if target != Some(d) then st
             else if e.Redeliver? then st.(redeliveries := st.redeliveries + 1)
             else if e.Die? then st.(deaths := st.deaths + 1)
             else st.(enqueues := st.enqueues + 1)
  {
  }

  // ------------------------------------------------------------------ the potential

  /** How many more provider calls this copy and its retries can make. */
  function CallsLeft(maxRetries: nat, t: Task): nat {
    var left := if t.retries <= maxRetries then maxRetries + 1 - t.retries else 0;
    match t.pc
    case Queued => left
    case Loading => left
    case Rejecting(_) => left
    case MarkingSent => left
    case Sending => left
    case BackingOff => if left == 0 then 0 else left - 1
    case Republishing => if left == 0 then 0 else left - 1
    case _ => 0
  }

  ghost function CallsLeftOf(maxRetries: nat, d: nat): Task -> nat {
    (t: Task) => if t.delivery == d then CallsLeft(maxRetries, t) else 0
  }

  /** 1 for an execution whose provider error has not been counted in the row yet. */
  ghost function Uncounted(d: nat): Task -> nat {
    (t: Task) => if t.delivery == d && (t.pc.Exhausting? || t.pc.BackingOff?) then 1 else 0
  }

  /** (maxRetries + 1) * n, as a sum of n equal shares. */
  ghost function Shares(maxRetries: nat, n: nat): nat {
    if n == 0 then 0 else Shares(maxRetries, n - 1) + maxRetries + 1
  }

  lemma {:induction false} SharesIsProduct(maxRetries: nat, n: nat)
    ensures Shares(maxRetries, n) == (maxRetries + 1) * n
  {
    if n > 0 {
      SharesIsProduct(maxRetries, n - 1);
    }
  }

  ghost predicate Paid(maxRetries: nat, tasks: seq<Task>, row: Delivery, st: Stats, d: nat) {
    && st.attempts + Sum(tasks, CallsLeftOf(maxRetries, d)) <= Shares(maxRetries, st.enqueues + st.redeliveries)
    && st.attempts == st.successes + st.providerErrors + st.fatals
    && row.retryCount + Sum(tasks, Uncounted(d)) <= st.providerErrors
    && (row.error == Some(Fatal) ==> st.faults + st.fatals > 0)
  }

  /** An execution reaches the fatal-error branch only because something raised. */
  ghost predicate Explained(s: State, t: Task) {
    t.pc.Failing? && t.delivery < |s.stats| ==> s.stats[t.delivery].faults + s.stats[t.delivery].fatals > 0
  }

  ghost predicate Inv(cfg: Config, s: State) {
    && Basic.Inv(cfg, s)
    && (forall d | 0 <= d < |s.stats| :: Paid(cfg.maxRetries, s.tasks, s.db.deliveries[d], s.stats[d], d))
    && (forall i | 0 <= i < |s.tasks| :: Explained(s, s.tasks[i]))
  }

  /** A worker step spends at most the calls its copy had left. */
  lemma CallsSpent(cfg: Config, db: Db, t: Task, r: Reply)
    requires Basic.TaskOk(cfg, db, t)
    ensures var e := Perform(cfg, db, t, r);
      CallsLeft(cfg.maxRetries, t.(pc := e.pc))
      + (if e.publish then CallsLeft(cfg.maxRetries, RetryOf(t)) else 0)
      + (if t.pc.Sending? then 1 else 0) <= CallsLeft(cfg.maxRetries, t)
  {
  }

  lemma TallyPays(cfg: Config, db: Db, i: nat, t: Task, r: Reply, row: Delivery, st: Stats)
    requires st.attempts == st.successes + st.providerErrors + st.fatals
    requires row.error == Some(Fatal) ==> st.faults + st.fatals > 0
    requires t.pc.Failing? ==> st.faults + st.fatals > 0
    requires !t.pc.Rejecting?
    ensures var e := Perform(cfg, db, t, r); var st' := Tally(i, t, r, st);
      var row' := if e.write.Some? then UpdateRow(row, e.write.value) else row;
      && st'.attempts == st.attempts + (if t.pc.Sending? then 1 else 0)
      && st'.enqueues == st.enqueues && st'.redeliveries == st.redeliveries
      && st'.attempts == st'.successes + st'.providerErrors + st'.fatals
      && (row'.error == Some(Fatal) ==> st'.faults + st'.fatals > 0)
      && (e.pc.Failing? ==> st'.faults + st'.fatals > 0)
      && st'.faults + st'.fatals >= st.faults + st.fatals
      && row'.retryCount + (if e.pc.Exhausting? || e.pc.BackingOff? then 1 else 0) + st.providerErrors
         <= row.retryCount + (if t.pc.Exhausting? || t.pc.BackingOff? then 1 else 0) + st'.providerErrors
      && st.providerErrors <= st'.providerErrors
  {
  }

  /** Replacing copy `i` by `t` and appending `more` keeps the sums within what the step paid. */
  lemma SumsAfter(m: nat, tasks: seq<Task>, i: nat, t: Task, more: seq<Task>, d: nat)
    requires i < |tasks| && |more| <= 1 && tasks[i].delivery == t.delivery
    requires more == [] || (more[0].delivery == t.delivery && more[0].pc.Queued?)
    ensures var ts := tasks[i := t] + more;
      && (t.delivery != d ==>
            && Sum(ts, CallsLeftOf(m, d)) == Sum(tasks, CallsLeftOf(m, d))
            && Sum(ts, Uncounted(d)) == Sum(tasks, Uncounted(d)))
      && (t.delivery == d ==>
            && Sum(ts, CallsLeftOf(m, d)) + CallsLeft(m, tasks[i])
               == Sum(tasks, CallsLeftOf(m, d)) + CallsLeft(m, t) + (if more == [] then 0 else CallsLeft(m, more[0]))
            && Sum(ts, Uncounted(d)) + (if tasks[i].pc.Exhausting? || tasks[i].pc.BackingOff? then 1 else 0)
               == Sum(tasks, Uncounted(d)) + (if t.pc.Exhausting? || t.pc.BackingOff? then 1 else 0))
  {
    SumStep(tasks, i, t, more, CallsLeftOf(m, d));
    SumStep(tasks, i, t, more, Uncounted(d));
  }

  lemma PaidBySums(m: nat, tasks: seq<Task>, row: Delivery, st: Stats, ts: seq<Task>, row': Delivery, st': Stats,
                   d: nat)
    requires Paid(m, tasks, row, st, d)
    requires st'.enqueues == st.enqueues && st'.redeliveries == st.redeliveries
    requires Sum(ts, CallsLeftOf(m, d)) + st'.attempts <= Sum(tasks, CallsLeftOf(m, d)) + st.attempts
    requires row'.retryCount + Sum(ts, Uncounted(d)) + st.providerErrors
             <= row.retryCount + Sum(tasks, Uncounted(d)) + st'.providerErrors
    requires st'.attempts == st'.successes + st'.providerErrors + st'.fatals
    requires row'.error == Some(Fatal) ==> st'.faults + st'.fatals > 0
    ensures Paid(m, ts, row', st', d)
  {
  }

  lemma WorkPaysOwn(cfg: Config, db: Db, tasks: seq<Task>, i: nat, r: Reply, row: Delivery, st: Stats)
    requires i < |tasks| && Basic.TaskOk(cfg, db, tasks[i])
    requires Paid(cfg.maxRetries, tasks, row, st, tasks[i].delivery)
    requires tasks[i].pc.Failing? ==> st.faults + st.fatals > 0
    ensures var t := tasks[i]; var e := Perform(cfg, db, t, r);
      Paid(cfg.maxRetries, tasks[i := t.(pc := e.pc)] + (if e.publish then [RetryOf(t)] else []),
           if e.write.Some? then UpdateRow(row, e.write.value) else row, Tally(i, t, r, st), t.delivery)
  {
    var t := tasks[i];
    var e := Perform(cfg, db, t, r);
    var more := if e.publish then [RetryOf(t)] else [];
    var row' := if e.write.Some? then UpdateRow(row, e.write.value) else row;
    SumsAfter(cfg.maxRetries, tasks, i, t.(pc := e.pc), more, t.delivery);
    CallsSpent(cfg, db, t, r);
    TallyPays(cfg, db, i, t, r, row, st);
    PaidBySums(cfg.maxRetries, tasks, row, st, tasks[i := t.(pc := e.pc)] + more, row', Tally(i, t, r, st), t.delivery);
  }

  lemma WorkPays(cfg: Config, s: State, i: nat, r: Reply, d: nat)
    requires i < |s.tasks| && d < |s.stats| == |s.db.deliveries|
    requires Basic.TaskOk(cfg, s.db, s.tasks[i]) && Explained(s, s.tasks[i])
    requires Paid(cfg.maxRetries, s.tasks, s.db.deliveries[d], s.stats[d], d)
    ensures var s' := WorkStep(cfg, s, i, r);
      && |s'.stats| == |s'.db.deliveries| == |s.stats|
      && Paid(cfg.maxRetries, s'.tasks, s'.db.deliveries[d], s'.stats[d], d)
  {
    var t := s.tasks[i];
    var e := Perform(cfg, s.db, t, r);
    if t.delivery == d {
      WorkPaysOwn(cfg, s.db, s.tasks, i, r, s.db.deliveries[d], s.stats[d]);
    } else {
      var more := if e.publish then [RetryOf(t)] else [];
      SumsAfter(cfg.maxRetries, s.tasks, i, t.(pc := e.pc), more, d);
      var row, st := s.db.deliveries[d], s.stats[d];
      PaidBySums(cfg.maxRetries, s.tasks, row, st, s.tasks[i := t.(pc := e.pc)] + more, row, st, d);
    }
  }

  lemma EnqueuePays(m: nat, tasks: seq<Task>, row: Delivery, st: Stats, t: Task, d: nat)
    requires Paid(m, tasks, row, st, d) && t.pc.Queued? && t.retries <= m
    ensures Paid(m, tasks + [t], row, st.(enqueues := st.enqueues + 1), d)
    ensures Paid(m, tasks + [t], row, st.(redeliveries := st.redeliveries + 1), d)
    ensures t.delivery != d ==> Paid(m, tasks + [t], row, st, d)
  {
    SumSnoc(tasks, t, CallsLeftOf(m, d));
    SumSnoc(tasks, t, Uncounted(d));
  }

  lemma DiePays(m: nat, tasks: seq<Task>, row: Delivery, st: Stats, i: nat, d: nat)
    requires Paid(m, tasks, row, st, d) && i < |tasks|
    ensures Paid(m, tasks[i := tasks[i].(pc := Acked)], row, st, d)
    ensures Paid(m, tasks[i := tasks[i].(pc := Acked)], row, st.(deaths := st.deaths + 1), d)
  {
    SumUpdate(tasks, i, tasks[i].(pc := Acked), CallsLeftOf(m, d));
    SumUpdate(tasks, i, tasks[i].(pc := Acked), Uncounted(d));
  }

  lemma {:induction false} SumZero(ts: seq<Task>, f: Task -> nat)
    requires forall i | 0 <= i < |ts| :: f(ts[i]) == 0
    ensures Sum(ts, f) == 0
  {
    if ts != [] {
      SumZero(ts[..|ts| - 1], f);
    }
  }

  /** A delivery that has just been created owes nothing. */
  lemma NewRowPays(m: nat, tasks: seq<Task>, row: Delivery, d: nat)
    requires forall i | 0 <= i < |tasks| :: tasks[i].delivery != d
    requires row.retryCount == 0 && row.error == None
    ensures Paid(m, tasks, row, NoStats, d)
  {
    SumZero(tasks, CallsLeftOf(m, d));
    SumZero(tasks, Uncounted(d));
  }

  lemma AcceptPays(cfg: Config, s: State, e: Event, d: nat)
    requires Inv(cfg, s) && Enabled(cfg, s, e) && e.Accept?
    ensures var s' := Step(cfg, s, e);
      && |s'.stats| == |s'.db.deliveries|
      && (d < |s'.stats| ==> Paid(cfg.maxRetries, s'.tasks, s'.db.deliveries[d], s'.stats[d], d))
  {
    var db := s.db.(notifications := s.db.notifications + [e.notification]);
    Basic.CreateDeliveriesShape(db, |s.db.notifications|, e.channels, e.createdAt);
    if d < |s.stats| {
      assert Paid(cfg.maxRetries, s.tasks, s.db.deliveries[d], s.stats[d], d);
    } else if d < |s.stats| + |e.channels| {
      forall i | 0 <= i < |s.tasks| ensures s.tasks[i].delivery != d {
        assert Basic.TaskOk(cfg, s.db, s.tasks[i]);
      }
      NewRowPays(cfg.maxRetries, s.tasks, Step(cfg, s, e).db.deliveries[d], d);
    }
  }

  ghost predicate PaidAt(cfg: Config, s: State, d: nat) {
    && d < |s.stats| == |s.db.deliveries|
    && Paid(cfg.maxRetries, s.tasks, s.db.deliveries[d], s.stats[d], d)
  }

  lemma EnqueueStepPays(cfg: Config, s: State, x: nat, q: Queue, d: nat)
    requires PaidAt(cfg, s, d)
    ensures PaidAt(cfg, Enqueue(s, x, q), d)
  {
    var t := Task(x, 0, 0, q, Queued);
    var row, st := s.db.deliveries[d], s.stats[d];
    EnqueuePays(cfg.maxRetries, s.tasks, row, st, t, d);
    assert Enqueue(s, x, q).tasks == s.tasks + [t];
    assert Enqueue(s, x, q).stats[d] == if x == d then st.(enqueues := st.enqueues + 1) else st;
  }

  lemma RedeliverPays(cfg: Config, s: State, i: nat, d: nat)
    requires PaidAt(cfg, s, d) && Enabled(cfg, s, Redeliver(i)) && s.tasks[i].retries <= cfg.maxRetries
    ensures PaidAt(cfg, Step(cfg, s, Redeliver(i)), d)
  {
    EnqueuePays(cfg.maxRetries, s.tasks, s.db.deliveries[d], s.stats[d], s.tasks[i].(pc := Queued), d);
  }

  lemma DieStepPays(cfg: Config, s: State, i: nat, d: nat)
    requires PaidAt(cfg, s, d) && Enabled(cfg, s, Die(i))
    ensures PaidAt(cfg, Step(cfg, s, Die(i)), d)
  {
    DiePays(cfg.maxRetries, s.tasks, s.db.deliveries[d], s.stats[d], i, d);
  }

  lemma StepPays(cfg: Config, s: State, e: Event, d: nat)
    requires PaidAt(cfg, s, d) && Enabled(cfg, s, e) && !e.Accept?
    requires e.Work? || e.Redeliver? || e.Die? ==>
               Basic.TaskOk(cfg, s.db, s.tasks[e.task]) && Explained(s, s.tasks[e.task])
    ensures PaidAt(cfg, Step(cfg, s, e), d)
  {
    match e
    case Work(i, r) => WorkPays(cfg, s, i, r, d);
    case Publish(h) =>
      var hd := s.handlers[h];
      EnqueueStepPays(cfg, s.(handlers := s.handlers[h := hd.(todo := hd.todo[1..])]), hd.todo[0], hd.queue, d);
    case Requeue(p) =>
      var ps := s.passes[p];
      var s' := s.(passes := s.passes[p := ps.(todo := ps.todo[1..])]);
      EnqueueStepPays(cfg, s', ps.todo[0], QueueFor(s.db, ps.todo[0]), d);
    case Redeliver(i) => RedeliverPays(cfg, s, i, d);
    case Die(i) => DieStepPays(cfg, s, i, d);
    case _ =>
  }

  lemma TallyExplains(cfg: Config, db: Db, i: nat, t: Task, r: Reply, st: Stats)
    requires t.pc.Failing? ==> st.faults + st.fatals > 0
    ensures var st' := Tally(i, t, r, st);
      && st'.faults + st'.fatals >= st.faults + st.fatals
      && (Perform(cfg, db, t, r).pc.Failing? ==> st'.faults + st'.fatals > 0)
  {
  }

  lemma WorkExplains(cfg: Config, s: State, i: nat, r: Reply, j: nat)
    requires i < |s.tasks| && Explained(s, s.tasks[i]) && s.tasks[i].delivery < |s.stats|
    requires j < |WorkStep(cfg, s, i, r).tasks| && (j < |s.tasks| ==> Explained(s, s.tasks[j]))
    ensures Explained(WorkStep(cfg, s, i, r), WorkStep(cfg, s, i, r).tasks[j])
  {
    TallyExplains(cfg, s.db, i, s.tasks[i], r, s.stats[s.tasks[i].delivery]);
  }

  lemma OtherExplains(cfg: Config, s: State, e: Event, j: nat)
    requires Enabled(cfg, s, e) && !e.Work?
    requires j < |Step(cfg, s, e).tasks|
    requires j < |s.tasks| ==> Explained(s, s.tasks[j]) && s.tasks[j].delivery < |s.stats|
    ensures Explained(Step(cfg, s, e), Step(cfg, s, e).tasks[j])
  {
  }

  lemma StepExplains(cfg: Config, s: State, e: Event, j: nat)
    requires Inv(cfg, s) && Enabled(cfg, s, e)
    requires j < |Step(cfg, s, e).tasks|
    ensures Explained(Step(cfg, s, e), Step(cfg, s, e).tasks[j])
  {
    assert j < |s.tasks| ==> Basic.TaskOk(cfg, s.db, s.tasks[j]);
    if e.Work? {
      assert Basic.TaskOk(cfg, s.db, s.tasks[e.task]);
      WorkExplains(cfg, s, e.task, e.reply, j);
    } else {
      OtherExplains(cfg, s, e, j);
    }
  }

  /** Every step keeps the accounts balanced. */
  lemma StepKeeps(cfg: Config, s: State, e: Event)
    requires Inv(cfg, s) && Enabled(cfg, s, e)
    ensures Inv(cfg, Step(cfg, s, e))
  {
    Basic.StepKeeps(cfg, s, e);
    var s' := Step(cfg, s, e);
    forall d | 0 <= d < |s'.stats| ensures Paid(cfg.maxRetries, s'.tasks, s'.db.deliveries[d], s'.stats[d], d) {
      if e.Accept? {
        AcceptPays(cfg, s, e, d);
      } else {
        assert Paid(cfg.maxRetries, s.tasks, s.db.deliveries[d], s.stats[d], d);
        StepPays(cfg, s, e, d);
        assert PaidAt(cfg, s', d);
      }
    }
    forall j | 0 <= j < |s'.tasks| ensures Explained(s', s'.tasks[j]) {
      StepExplains(cfg, s, e, j);
    }
  }

  lemma {:induction false} InvHolds(cfg: Config, ss: seq<State>, es: seq<Event>, k: nat)
    requires IsRun(cfg, ss, es) && k < |ss|
    ensures Inv(cfg, ss[k])
  {
    if k > 0 {
      InvHolds(cfg, ss, es, k - 1);
      StepKeeps(cfg, ss[k - 1], es[k - 1]);
    }
  }

  // ------------------------------------------------------------------ results

  /** In every run, provider calls plus the calls still queued never exceed maxRetries + 1 for each
      time the delivery was enqueued or redelivered. */
  lemma AttemptBound(cfg: Config, ss: seq<State>, es: seq<Event>, k: nat, d: nat)
    requires IsRun(cfg, ss, es) && k < |ss| && d < |ss[k].stats|
    ensures var st := ss[k].stats[d];
      st.attempts + Sum(ss[k].tasks, CallsLeftOf(cfg.maxRetries, d))
      <= (cfg.maxRetries + 1) * (st.enqueues + st.redeliveries)
  {
    InvHolds(cfg, ss, es, k);
    assert Paid(cfg.maxRetries, ss[k].tasks, ss[k].db.deliveries[d], ss[k].stats[d], d);
    SharesIsProduct(cfg.maxRetries, ss[k].stats[d].enqueues + ss[k].stats[d].redeliveries);
  }

  /** A delivery enqueued once and never redelivered is sent at most maxRetries + 1 times; if it
      failed by exhaustion its retry count is exactly that, otherwise at least that. */
  lemma Exhaustion(cfg: Config, ss: seq<State>, es: seq<Event>, k: nat, d: nat)
    requires IsRun(cfg, ss, es) && k < |ss| && d < |ss[k].db.deliveries|
    ensures d < |ss[k].stats|
    ensures ss[k].db.deliveries[d].error == Some(MaxRetries) ==> ss[k].db.deliveries[d].retryCount >= cfg.maxRetries + 1
    ensures ss[k].stats[d].enqueues + ss[k].stats[d].redeliveries == 1 ==>
              && ss[k].stats[d].attempts <= cfg.maxRetries + 1
              && (ss[k].db.deliveries[d].error == Some(MaxRetries) ==>
                    ss[k].db.deliveries[d].retryCount == ss[k].stats[d].attempts == cfg.maxRetries + 1)
  {
    InvHolds(cfg, ss, es, k);
    assert Basic.RowOk(cfg, ss[k].db, ss[k].db.deliveries[d]);
    assert Paid(cfg.maxRetries, ss[k].tasks, ss[k].db.deliveries[d], ss[k].stats[d], d);
    SharesIsProduct(cfg.maxRetries, ss[k].stats[d].enqueues + ss[k].stats[d].redeliveries);
  }

  /** No delivery fails for a missing template, a rendering error or an unsupported channel; and when
      nothing but provider errors went wrong for it, a FAILED delivery had at least maxRetries + 1 of them. */
  lemma FailureCauses(cfg: Config, ss: seq<State>, es: seq<Event>, k: nat, d: nat)
    requires IsRun(cfg, ss, es) && k < |ss| && d < |ss[k].db.deliveries|
    requires ss[k].db.deliveries[d].status == Failed
    ensures d < |ss[k].stats|
    ensures ss[k].db.deliveries[d].error in {Some(MaxRetries), Some(Fatal)}
    ensures ss[k].stats[d].fatals == ss[k].stats[d].faults == 0 ==> ss[k].stats[d].providerErrors >= cfg.maxRetries + 1
  {
    InvHolds(cfg, ss, es, k);
    assert Basic.RowOk(cfg, ss[k].db, ss[k].db.deliveries[d]);
    assert Paid(cfg.maxRetries, ss[k].tasks, ss[k].db.deliveries[d], ss[k].stats[d], d);
  }

  /** 1 + 4 + 16 + ..., n terms. */
  function Geometric(n: nat): nat {
    if n == 0 then 0 else 4 * Geometric(n - 1) + 1
  }

  lemma {:induction false} GeometricSum(n: nat)
    ensures 3 * Geometric(n) + 1 == Pow4(n)
  {
    if n > 0 {
      GeometricSum(n - 1);
    }
  }

  lemma {:induction false} GeometricMonotone(m: nat, n: nat)
    requires m <= n
    ensures Geometric(m) <= Geometric(n) && (m < n ==> Geometric(m) < Geometric(n))
    decreases n - m
  {
    if m < n {
      GeometricMonotone(m + 1, n);
    }
  }

  /** The countdowns along any retry chain sum to at most (4^maxRetries - 1) / 3, with equality exactly
      when the chain made all its retries: 21 seconds for three of them. */
  lemma CountdownBound(cfg: Config, ss: seq<State>, es: seq<Event>, k: nat, i: nat)
    requires IsRun(cfg, ss, es) && k < |ss| && i < |ss[k].tasks|
    ensures var t, most := ss[k].tasks[i], (Pow4(cfg.maxRetries) - 1) / 3;
      && t.waited <= most && (t.waited == most <==> t.retries == cfg.maxRetries)
      && (cfg.maxRetries == 3 ==> most == 21)
  {
    InvHolds(cfg, ss, es, k);
    assert Basic.TaskOk(cfg, ss[k].db, ss[k].tasks[i]);
    ChainWaits(ss[k].tasks[i], cfg.maxRetries);
  }

  lemma ChainWaits(t: Task, m: nat)
    requires 3 * t.waited + 1 == Pow4(t.retries) && t.retries <= m
    ensures var most := (Pow4(m) - 1) / 3;
      t.waited <= most && (t.waited == most <==> t.retries == m) && (m == 3 ==> most == 21)
  {
    GeometricSum(t.retries);
    GeometricSum(m);
    GeometricMonotone(t.retries, m);
    assert Geometric(3) == 4 * Geometric(2) + 1 == 21;
  }

  /** Every copy refers to a committed row, sits in the one queue of its notification's stored priority, and has
      no more retries than the row has counted or the task allows. */
  lemma CopiesAgree(cfg: Config, ss: seq<State>, es: seq<Event>, k: nat, i: nat)
    requires IsRun(cfg, ss, es) && k < |ss| && i < |ss[k].tasks|
    ensures var t := ss[k].tasks[i]; var db := ss[k].db;
      && t.delivery < |db.deliveries|
      && db.deliveries[t.delivery].notificationId < |db.notifications|
      && var priority := db.notifications[db.deliveries[t.delivery].notificationId].priority;
      && (t.queue == CriticalQueue <==> priority == Critical)
      && (t.queue == HighQueue <==> priority == High)
      && (t.queue == DefaultQueue <==> priority == Normal)
      && (t.queue == LowQueue <==> priority == Low)
      && t.retries <= db.deliveries[t.delivery].retryCount
      && t.retries <= cfg.maxRetries
  {
    InvHolds(cfg, ss, es, k);
    var t := ss[k].tasks[i];
    assert Basic.TaskOk(cfg, ss[k].db, t);
    assert Basic.RowOk(cfg, ss[k].db, ss[k].db.deliveries[t.delivery]);
  }
}
