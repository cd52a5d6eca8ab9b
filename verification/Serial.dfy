/** What holds in every run in which executions for one delivery do not overlap: the status log is an
    unbroken chain of legal transitions, at most one provider call succeeds, and once SENT is committed
    only the execution that wrote it changes the row. Crashes, redelivery and queued duplicates are all
    allowed. */
module Serial {
  import opened Model
  import opened Machine
  import Basic

  // ------------------------------------------------------------------ the log of one delivery

  predicate Legal(from: Status, to: Status) {
    match from
    case Pending => to == Sent || to == Failed
    case Sent => to == Delivered || to == Pending || to == Failed
    case Delivered => to == Failed
    case Failed => false
  }

  /** An unbroken chain from NONE -> PENDING to the row's status. */
  ghost predicate Chained(h: seq<LogEntry>, status: Status) {
    && |h| > 0 && h[0].from == None && h[0].to == Pending
    && h[|h| - 1].to == status
    && forall k | 0 < k < |h| :: h[k].from == Some(h[k - 1].to) && Legal(h[k - 1].to, h[k].to)
  }

  /** The number of PENDING -> SENT entries. */
  function SentMarks(h: seq<LogEntry>): nat {
    if h == [] then 0
    else SentMarks(h[..|h| - 1]) + if h[|h| - 1].from == Some(Pending) && h[|h| - 1].to == Sent then 1 else 0
  }

  lemma SentMarksSnoc(h: seq<LogEntry>, e: LogEntry)
    ensures SentMarks(h + [e]) == SentMarks(h) + if e.from == Some(Pending) && e.to == Sent then 1 else 0
  {
    assert (h + [e])[..|h|] == h;
  }

  /** The fatal-error branch failed this delivery after it had been marked SENT. */
  predicate FatalAfterSent(row: Delivery, h: seq<LogEntry>) {
    row.status == Failed && row.error == Some(Fatal) && |h| > 0 && h[|h| - 1].from != Some(Pending)
  }

  function Unreturned(row: Delivery, h: seq<LogEntry>): nat {
    if row.status == Sent || row.status == Delivered || FatalAfterSent(row, h) then 1 else 0
  }

  // ------------------------------------------------------------------ the invariant

  ghost predicate LogOk(row: Delivery, lostDelivered: bool, h: seq<LogEntry>) {
    && Chained(h, row.status)
    && (forall k | 0 <= k < |h| && h[k].from == Some(Delivered) :: lostDelivered)
    && SentMarks(h) == row.retryCount + Unreturned(row, h)
  }

  predicate CountsOk(row: Delivery, st: Stats) {
    && st.successes <= st.accepted <= 1
    && (row.status == Pending ==> st.accepted == 0)
    && (row.status == Delivered ==> st.successes == 1)
    && (row.status == Failed && row.error == Some(MaxRetries) ==> st.accepted == 0)
    && (row.status != Failed ==> row.error == if row.retryCount > 0 then Some(Transient) else None)
  }

  ghost predicate RowOk(row: Delivery, st: Stats, h: seq<LogEntry>) {
    LogOk(row, st.lostDelivered, h) && CountsOk(row, st)
  }

  /** What an execution knows about its row at each program point. */
  ghost predicate TaskOk(i: nat, t: Task, row: Delivery, st: Stats) {
    match t.pc
    case MarkingSent => row.status == Pending
    case Sending => row.status == Sent && st.sentBy == Some(i) && st.accepted == 0
    case MarkingDelivered => row.status == Sent && st.sentBy == Some(i) && st.successes == 1
    case Exhausting => row.status == Sent && st.sentBy == Some(i) && st.accepted == 0
    case BackingOff => row.status == Sent && st.sentBy == Some(i) && st.accepted == 0
    case Failing =>
      && row.status != Failed
      && (row.status == Sent || row.status == Delivered ==> st.sentBy == Some(i))
      && (row.status == Delivered ==> st.lostDelivered)
    case _ => true
  }

  ghost predicate RowAt(s: State, d: nat) {
    && d < |s.db.deliveries| == |s.stats|
    && RowOk(s.db.deliveries[d], s.stats[d], History(s.db.log, d))
  }

  ghost predicate TaskAt(s: State, i: nat) {
    && i < |s.tasks| && s.tasks[i].delivery < |s.db.deliveries| == |s.stats|
    && TaskOk(i, s.tasks[i], s.db.deliveries[s.tasks[i].delivery], s.stats[s.tasks[i].delivery])
  }

  ghost predicate Inv(cfg: Config, s: State) {
    && Basic.Inv(cfg, s)
    && (forall d | 0 <= d < |s.stats| :: RowAt(s, d))
    && (forall i | 0 <= i < |s.tasks| :: TaskAt(s, i))
  }

  // ------------------------------------------------------------------ preservation

  function LogAfter(h: seq<LogEntry>, d: nat, row: Delivery, w: Option<Update>): seq<LogEntry> {
    if w.None? then h else h + [LogEntry(d, Some(row.status), w.value.to)]
  }

  function RowAfter(row: Delivery, w: Option<Update>): Delivery {
    if w.None? then row else UpdateRow(row, w.value)
  }

  lemma ChainGrows(h: seq<LogEntry>, d: nat, row: Delivery, u: Update)
    requires Chained(h, row.status) && Legal(row.status, u.to)
    ensures Chained(h + [LogEntry(d, Some(row.status), u.to)], u.to)
  {
  }

  lemma CountsLocal(cfg: Config, db: Db, i: nat, t: Task, r: Reply, row: Delivery, st: Stats)
    requires !t.pc.Rejecting? && CountsOk(row, st) && TaskOk(i, t, row, st)
    ensures CountsOk(RowAfter(row, Perform(cfg, db, t, r).write), Tally(i, t, r, st))
  {
  }

  /** An update by an execution that knows its row: the transition is legal, and a SENT mark is returned
      by counting a retry unless it stays or ends in the fatal-error branch. */
  lemma UpdateLocal(d: nat, row: Delivery, lost: bool, h: seq<LogEntry>, u: Update)
    requires LogOk(row, lost, h) && Legal(row.status, u.to) && (row.status == Delivered ==> lost)
    requires u.bump <==> row.status == Sent && (u.to == Pending || (u.to == Failed && u.error == Some(MaxRetries)))
    requires u.to == Failed && !u.bump ==> u.error == Some(Fatal)
    ensures LogOk(UpdateRow(row, u), lost, h + [LogEntry(d, Some(row.status), u.to)])
  {
    SentMarksSnoc(h, LogEntry(d, Some(row.status), u.to));
    ChainGrows(h, d, row, u);
  }

  /** One worker step on its own row and log. */
  lemma WorkLocal(cfg: Config, db: Db, i: nat, t: Task, r: Reply, row: Delivery, st: Stats, h: seq<LogEntry>)
    requires Basic.TaskOk(cfg, db, t) && row == db.deliveries[t.delivery]
    requires RowOk(row, st, h) && TaskOk(i, t, row, st)
    ensures var w := Perform(cfg, db, t, r).write;
      RowOk(RowAfter(row, w), Tally(i, t, r, st), LogAfter(h, t.delivery, row, w))
  {
    var w := Perform(cfg, db, t, r).write;
    CountsLocal(cfg, db, i, t, r, row, st);
    if w.Some? {
      UpdateLocal(t.delivery, row, Tally(i, t, r, st).lostDelivered, h, w.value);
    }
  }

  lemma TaskLocal(cfg: Config, db: Db, i: nat, t: Task, r: Reply, row: Delivery, st: Stats, h: seq<LogEntry>)
    requires Basic.TaskOk(cfg, db, t) && row == db.deliveries[t.delivery]
    requires RowOk(row, st, h) && TaskOk(i, t, row, st)
    ensures var e := Perform(cfg, db, t, r); TaskOk(i, t.(pc := e.pc), RowAfter(row, e.write), Tally(i, t, r, st))
  {
  }

  lemma WorkRow(cfg: Config, s: State, i: nat, r: Reply, d: nat)
    requires i < |s.tasks| && TaskAt(s, i) && Basic.TaskOk(cfg, s.db, s.tasks[i]) && RowAt(s, d)
    ensures RowAt(WorkStep(cfg, s, i, r), d)
  {
    var t := s.tasks[i];
    var w := Perform(cfg, s.db, t, r).write;
    var s' := WorkStep(cfg, s, i, r);
    if w.Some? {
      HistorySnoc(s.db.log, LogEntry(t.delivery, Some(s.db.deliveries[t.delivery].status), w.value.to), d);
    }
    if t.delivery == d {
      WorkLocal(cfg, s.db, i, t, r, s.db.deliveries[d], s.stats[d], History(s.db.log, d));
      assert History(s'.db.log, d) == LogAfter(History(s.db.log, d), d, s.db.deliveries[d], w);
      assert s'.db.deliveries[d] == RowAfter(s.db.deliveries[d], w);
    } else {
      assert History(s'.db.log, d) == History(s.db.log, d);
    }
  }

  lemma WorkTask(cfg: Config, s: State, i: nat, r: Reply, j: nat)
    requires i < |s.tasks| && TaskAt(s, i) && Basic.TaskOk(cfg, s.db, s.tasks[i]) && RowAt(s, s.tasks[i].delivery)
    requires j < |WorkStep(cfg, s, i, r).tasks|
    requires j < |s.tasks| ==> TaskAt(s, j)
    requires j < |s.tasks| && j != i && Active(s.tasks[j].pc) && Active(s.tasks[i].pc) ==>
               s.tasks[j].delivery != s.tasks[i].delivery
    ensures TaskAt(WorkStep(cfg, s, i, r), j)
  {
    var t := s.tasks[i];
    if j == i {
      TaskLocal(cfg, s.db, i, t, r, s.db.deliveries[t.delivery], s.stats[t.delivery], History(s.db.log, t.delivery));
    }
  }

  lemma WorkKeeps(cfg: Config, s: State, i: nat, r: Reply)
    requires Inv(cfg, s) && Serialized(s) && Enabled(cfg, s, Work(i, r))
    ensures var s' := WorkStep(cfg, s, i, r);
      && (forall d | 0 <= d < |s'.stats| :: RowAt(s', d))
      && (forall j | 0 <= j < |s'.tasks| :: TaskAt(s', j))
  {
    var s' := WorkStep(cfg, s, i, r);
    assert Basic.TaskOk(cfg, s.db, s.tasks[i]) && TaskAt(s, i) && RowAt(s, s.tasks[i].delivery);
    forall d | 0 <= d < |s'.stats| ensures RowAt(s', d) {
      WorkRow(cfg, s, i, r, d);
    }
    forall j | 0 <= j < |s'.tasks| ensures TaskAt(s', j) {
      WorkTask(cfg, s, i, r, j);
    }
  }

  lemma NewRow(d: nat, row: Delivery)
    requires row.status == Pending && row.retryCount == 0 && row.error == None
    ensures RowOk(row, NoStats, [LogEntry(d, None, Pending)])
  {
    SentMarksSnoc([], LogEntry(d, None, Pending));
    assert [] + [LogEntry(d, None, Pending)] == [LogEntry(d, None, Pending)];
  }

  lemma {:induction false} NewHistory(db: Db, nid: nat, cs: seq<Channel>, at: real, d: nat)
    requires forall e | e in db.log :: e.delivery < |db.deliveries|
    ensures History(CreateDeliveries(db, nid, cs, at).log, d) ==
            if |db.deliveries| <= d < |db.deliveries| + |cs| then [LogEntry(d, None, Pending)] else History(db.log, d)
  {
    if cs != [] {
      var n := |cs| - 1;
      NewHistory(db, nid, cs[..n], at, d);
      HistorySnoc(CreateDeliveries(db, nid, cs[..n], at).log, LogEntry(|db.deliveries| + n, None, Pending), d);
    }
    if d >= |db.deliveries| {
      HistoryAbsent(db.log, d);
    }
  }

  lemma AcceptKeeps(cfg: Config, s: State, n: Notification, cs: seq<Channel>, at: real)
    requires Inv(cfg, s) && Enabled(cfg, s, Accept(n, cs, at))
    ensures var s' := Step(cfg, s, Accept(n, cs, at));
      && (forall d | 0 <= d < |s'.stats| :: RowAt(s', d))
      && (forall j | 0 <= j < |s'.tasks| :: TaskAt(s', j))
  {
    var s' := Step(cfg, s, Accept(n, cs, at));
    var db := s.db.(notifications := s.db.notifications + [n]);
    Basic.CreateDeliveriesShape(db, |s.db.notifications|, cs, at);
    forall d | 0 <= d < |s'.stats| ensures RowAt(s', d) {
      NewHistory(db, |s.db.notifications|, cs, at, d);
      if d < |s.stats| {
        assert RowAt(s, d);
      } else {
        NewRow(d, s'.db.deliveries[d]);
      }
    }
    forall j | 0 <= j < |s'.tasks| ensures TaskAt(s', j) {
      assert TaskAt(s, j);
    }
  }

  /** The other events leave the rows alone and touch only counters this invariant does not read. */
  lemma OtherRow(cfg: Config, s: State, e: Event, d: nat)
    requires Enabled(cfg, s, e) && !e.Work? && !e.Accept? && RowAt(s, d)
    ensures RowAt(Step(cfg, s, e), d)
  {
  }

  lemma OtherTask(cfg: Config, s: State, e: Event, j: nat)
    requires Enabled(cfg, s, e) && !e.Work? && !e.Accept? && |s.db.deliveries| == |s.stats|
    requires e.Publish? ==> Basic.HandlerOk(s.db, s.handlers[e.handler])
    requires e.Redeliver? ==> TaskAt(s, e.task)
    requires j < |Step(cfg, s, e).tasks| && (j < |s.tasks| ==> TaskAt(s, j))
    ensures TaskAt(Step(cfg, s, e), j)
  {
    if e.Publish? {
      assert s.handlers[e.handler].todo[0] in s.handlers[e.handler].todo;
    }
  }

  lemma OtherKeeps(cfg: Config, s: State, e: Event)
    requires Inv(cfg, s) && Enabled(cfg, s, e) && !e.Work? && !e.Accept?
    ensures var s' := Step(cfg, s, e);
      && (forall d | 0 <= d < |s'.stats| :: RowAt(s', d))
      && (forall j | 0 <= j < |s'.tasks| :: TaskAt(s', j))
  {
    var s' := Step(cfg, s, e);
    forall d | 0 <= d < |s'.stats| ensures RowAt(s', d) {
      OtherRow(cfg, s, e, d);
    }
    forall j | 0 <= j < |s'.tasks| ensures TaskAt(s', j) {
      OtherTask(cfg, s, e, j);
    }
  }

  /** Every step from a state without overlapping executions keeps the invariant. */
  lemma StepKeeps(cfg: Config, s: State, e: Event)
    requires Inv(cfg, s) && Serialized(s) && Enabled(cfg, s, e)
    ensures Inv(cfg, Step(cfg, s, e))
  {
    Basic.StepKeeps(cfg, s, e);
    if e.Work? {
      WorkKeeps(cfg, s, e.task, e.reply);
    } else if e.Accept? {
      AcceptKeeps(cfg, s, e.notification, e.channels, e.createdAt);
    } else {
      OtherKeeps(cfg, s, e);
    }
  }

  lemma {:induction false} InvHolds(cfg: Config, ss: seq<State>, es: seq<Event>, k: nat)
    requires IsSerializedRun(cfg, ss, es) && k < |ss|
    ensures Inv(cfg, ss[k])
  {
    if k > 0 {
      InvHolds(cfg, ss, es, k - 1);
      StepKeeps(cfg, ss[k - 1], es[k - 1]);
    }
  }

  // ------------------------------------------------------------------ results

  /** Each delivery's log is an unbroken chain from NONE -> PENDING to its status, and these are all the
      transitions it can hold. Nothing ever follows FAILED, and FAILED follows DELIVERED only if the commit of
      DELIVERED lost its reply. */
  lemma LogChain(cfg: Config, ss: seq<State>, es: seq<Event>, k: nat, d: nat)
    requires IsSerializedRun(cfg, ss, es) && k < |ss| && d < |ss[k].db.deliveries|
    ensures d < |ss[k].stats|
    ensures var h := History(ss[k].db.log, d);
      && |h| > 0 && h[0] == LogEntry(d, None, Pending) && h[|h| - 1].to == ss[k].db.deliveries[d].status
      && (forall j | 0 < j < |h| :: h[j].delivery == d && h[j].from == Some(h[j - 1].to))
      && (forall j | 0 < j < |h| ::
            (h[j - 1].to, h[j].to) in {(Pending, Sent), (Pending, Failed), (Sent, Delivered), (Sent, Pending),
                                       (Sent, Failed), (Delivered, Failed)})
      && (forall j | 0 < j < |h| && h[j].from == Some(Delivered) :: ss[k].stats[d].lostDelivered)
  {
    InvHolds(cfg, ss, es, k);
    assert RowAt(ss[k], d);
    var h := History(ss[k].db.log, d);
    HistoryOwn(ss[k].db.log, d);
    forall j | 0 < j < |h|
      ensures h[j].from == Some(h[j - 1].to) && Legal(h[j - 1].to, h[j].to)
    {
    }
  }

  lemma {:induction false} HistoryOwn(log: seq<LogEntry>, d: nat)
    ensures forall e | e in History(log, d) :: e.delivery == d && e in log
  {
    if log != [] {
      HistoryOwn(log[..|log| - 1], d);
    }
  }

  /** A delivery that has not failed carries the message of its last refusal if it had one, and none otherwise;
      so a DELIVERED one keeps the message of the retry it needed. */
  lemma MessageOfLastRefusal(cfg: Config, ss: seq<State>, es: seq<Event>, k: nat, d: nat)
    requires IsSerializedRun(cfg, ss, es) && k < |ss| && d < |ss[k].db.deliveries|
    requires ss[k].db.deliveries[d].status != Failed
    ensures ss[k].db.deliveries[d].error == if ss[k].db.deliveries[d].retryCount > 0 then Some(Transient) else None
  {
    InvHolds(cfg, ss, es, k);
    assert RowAt(ss[k], d);
  }

  /** Conservation: every PENDING -> SENT mark was either counted as a retry, or still stands (SENT or
      DELIVERED), or was ended by the fatal-error branch. */
  lemma SentMarksConserved(cfg: Config, ss: seq<State>, es: seq<Event>, k: nat, d: nat)
    requires IsSerializedRun(cfg, ss, es) && k < |ss| && d < |ss[k].db.deliveries|
    ensures var row := ss[k].db.deliveries[d]; var h := History(ss[k].db.log, d);
      SentMarks(h) == row.retryCount +
        if row.status == Sent || row.status == Delivered || FatalAfterSent(row, h) then 1 else 0
  {
    InvHolds(cfg, ss, es, k);
    assert RowAt(ss[k], d);
  }

  /** The provider accepts a delivery at most once, also counting calls whose reply was lost; a call has
      returned successfully if the row is DELIVERED, and none was accepted if it is PENDING or exhausted. */
  lemma AtMostOneSuccess(cfg: Config, ss: seq<State>, es: seq<Event>, k: nat, d: nat)
    requires IsSerializedRun(cfg, ss, es) && k < |ss| && d < |ss[k].db.deliveries|
    ensures d < |ss[k].stats| && ss[k].stats[d].successes <= ss[k].stats[d].accepted <= 1
    ensures ss[k].db.deliveries[d].status == Delivered ==> ss[k].stats[d].successes == 1
    ensures ss[k].db.deliveries[d].status == Pending ==> ss[k].stats[d].accepted == 0
    ensures ss[k].db.deliveries[d].status == Failed && ss[k].db.deliveries[d].error == Some(MaxRetries) ==>
              ss[k].stats[d].accepted == 0
  {
    InvHolds(cfg, ss, es, k);
    assert RowAt(ss[k], d);
  }

  /** The program points at which an execution that wrote SENT updates its row again. */
  predicate WritesAgain(pc: Pc) {
    pc.MarkingDelivered? || pc.Exhausting? || pc.BackingOff? || pc.Failing?
  }

  /** The step is a status update that takes effect, by an execution of this delivery past its SENT. */
  predicate Overwrites(s: State, e: Event, d: nat) {
    && e.Work? && e.task < |s.tasks| && s.tasks[e.task].delivery == d
    && WritesAgain(s.tasks[e.task].pc) && e.reply.Applied()
  }

  lemma ChangesIff(cfg: Config, s: State, e: Event, d: nat)
    requires Inv(cfg, s) && Enabled(cfg, s, e) && d < |s.db.deliveries| && s.db.deliveries[d].status != Pending
    ensures d < |Step(cfg, s, e).db.deliveries| && d < |s.stats|
    ensures Step(cfg, s, e).db.deliveries[d] != s.db.deliveries[d] <==> Overwrites(s, e, d)
    ensures Overwrites(s, e, d) ==>
      && s.stats[d].sentBy == Some(e.task) && s.db.deliveries[d].status != Failed
      && (s.db.deliveries[d].status == Delivered ==> s.stats[d].lostDelivered && s.tasks[e.task].pc.Failing?)
  {
    match e
    case Work(i, r) => assert Basic.TaskOk(cfg, s.db, s.tasks[i]) && TaskAt(s, i);
    case Accept(n, cs, at) =>
      var db := s.db.(notifications := s.db.notifications + [n]);
      Basic.CreateDeliveriesShape(db, |s.db.notifications|, cs, at);
    case _ =>
  }

  /** A step changes a row that is not PENDING if and only if it is a status update that takes effect, by
      the very execution that wrote SENT. FAILED rows never change, and a DELIVERED row changes only if
      the reply to its commit was lost, in the fatal-error branch. */
  lemma OnlyTheSenderChanges(cfg: Config, ss: seq<State>, es: seq<Event>, k: nat, d: nat)
    requires IsSerializedRun(cfg, ss, es) && k + 1 < |ss| && d < |ss[k].db.deliveries|
    requires ss[k].db.deliveries[d].status != Pending
    ensures d < |ss[k + 1].db.deliveries| && d < |ss[k].stats|
    ensures ss[k].db.deliveries[d] != ss[k + 1].db.deliveries[d] <==> Overwrites(ss[k], es[k], d)
    ensures ss[k].db.deliveries[d] != ss[k + 1].db.deliveries[d] ==>
      && ss[k].stats[d].sentBy == Some(es[k].task) && ss[k].db.deliveries[d].status != Failed
      && (ss[k].db.deliveries[d].status == Delivered ==>
            ss[k].stats[d].lostDelivered && ss[k].tasks[es[k].task].pc.Failing?)
  {
    InvHolds(cfg, ss, es, k);
    ChangesIff(cfg, ss[k], es[k], d);
  }

  /** FAILED, or DELIVERED with the reply to that commit received. */
  ghost predicate Terminal(s: State, d: nat) {
    && d < |s.db.deliveries| == |s.stats|
    && (s.db.deliveries[d].status == Failed || (s.db.deliveries[d].status == Delivered && !s.stats[d].lostDelivered))
  }

  lemma TerminalStep(cfg: Config, s: State, e: Event, d: nat)
    requires Inv(cfg, s) && Enabled(cfg, s, e) && Terminal(s, d)
    ensures Terminal(Step(cfg, s, e), d) && Step(cfg, s, e).db.deliveries[d] == s.db.deliveries[d]
  {
    ChangesIff(cfg, s, e, d);
    assert e.Work? ==> TaskAt(s, e.task);
  }

  lemma {:induction false} TerminalStays(cfg: Config, ss: seq<State>, es: seq<Event>, j: nat, k: nat, d: nat)
    requires IsSerializedRun(cfg, ss, es) && j <= k < |ss| && Terminal(ss[j], d)
    ensures Terminal(ss[k], d) && ss[k].db.deliveries[d] == ss[j].db.deliveries[d]
    decreases k - j
  {
    if j < k {
      TerminalStays(cfg, ss, es, j, k - 1, d);
      InvHolds(cfg, ss, es, k - 1);
      TerminalStep(cfg, ss[k - 1], es[k - 1], d);
    }
  }

  /** Terminal states are absorbing: a FAILED row, and a DELIVERED row whose commit reply has arrived,
      stay as they are for the rest of the run. */
  lemma TerminalForever(cfg: Config, ss: seq<State>, es: seq<Event>, j: nat, k: nat, d: nat)
    requires IsSerializedRun(cfg, ss, es) && j <= k < |ss| && d < |ss[j].db.deliveries| && d < |ss[j].stats|
    requires || ss[j].db.deliveries[d].status == Failed
             || (ss[j].db.deliveries[d].status == Delivered && !ss[j].stats[d].lostDelivered)
    ensures d < |ss[k].db.deliveries| && ss[k].db.deliveries[d] == ss[j].db.deliveries[d]
  {
    InvHolds(cfg, ss, es, j);
    TerminalStays(cfg, ss, es, j, k, d);
  }
}
