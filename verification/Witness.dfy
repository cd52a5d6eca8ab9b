/** Concrete runs that show where the guarantees end. */
module Witness {
  import opened Model
  import opened Machine
  import Drain
  import Serial

  /** Any maximum of retries, and every template renders. */
  function Cfg(maxRetries: nat): Config {
    Config(maxRetries, (t: Template, v: Variables) => true)
  }

  const TEMPLATE := Template("t", None, "hello")
  const NOTIFICATION := Notification("u", Some(0), map[], Normal, None)
  const NEW_ROW := Delivery(0, Email, Pending, 0, None, 0.0)

  /** A run under construction. */
  datatype Trace = Trace(ss: seq<State>, es: seq<Event>) {
    ghost predicate Valid(m: nat) { IsRun(Cfg(m), ss, es) }
    ghost predicate ValidSerialized(m: nat) { IsSerializedRun(Cfg(m), ss, es) }
    ghost function Last(): State
      requires |ss| == |es| + 1
    {
      ss[|es|]
    }
  }

  lemma Then(m: nat, t: Trace, e: Event) returns (r: Trace)
    requires t.Valid(m) && Enabled(Cfg(m), t.Last(), e)
    ensures r.Valid(m) && r.Last() == Step(Cfg(m), t.Last(), e) && r.es == t.es + [e]
    ensures t.ValidSerialized(m) && Serialized(r.Last()) ==> r.ValidSerialized(m)
  {
    r := Trace(t.ss + [Step(Cfg(m), t.Last(), e)], t.es + [e]);
  }

  /** The state right after one delivery was accepted and enqueued. */
  ghost function Enqueued(): State {
    State(Db([TEMPLATE], [NOTIFICATION], [NEW_ROW], [LogEntry(0, None, Pending)]), 0.0,
          [Task(0, 0, 0, DefaultQueue, Queued)], [Handler([], DefaultQueue)], [], [NoStats.(enqueues := 1)])
  }

  ghost function Prepared(): State {
    State(Db([TEMPLATE], [], [], []), 0.0, [], [], [], [])
  }

  ghost function AcceptedOne(): State {
    State(Db([TEMPLATE], [NOTIFICATION], [NEW_ROW], [LogEntry(0, None, Pending)]), 0.0,
          [], [Handler([0], DefaultQueue)], [], [NoStats])
  }

  lemma OneRow()
    ensures CreateDeliveries(Db([TEMPLATE], [NOTIFICATION], [], []), 0, [Email], 0.0) == AcceptedOne().db
  {
    var db := Db([TEMPLATE], [NOTIFICATION], [], []);
    assert [Email][..0] == [];
    assert CreateDeliveries(db, 0, [Email][..0], 0.0) == db;
    assert db.deliveries + [NEW_ROW] == [NEW_ROW];
    assert db.log + [LogEntry(0, None, Pending)] == [LogEntry(0, None, Pending)];
  }

  lemma AcceptOne(m: nat)
    ensures Enabled(Cfg(m), Prepared(), Accept(NOTIFICATION, [Email], 0.0))
    ensures Step(Cfg(m), Prepared(), Accept(NOTIFICATION, [Email], 0.0)) == AcceptedOne()
  {
    var s := Step(Cfg(m), Prepared(), Accept(NOTIFICATION, [Email], 0.0));
    assert Prepared().db.notifications + [NOTIFICATION] == [NOTIFICATION];
    OneRow();
    assert s.handlers[0].todo == Range(0, 1) == [0];
    assert s.handlers == [Handler([0], DefaultQueue)];
    assert s.stats == [NoStats];
  }

  lemma PublishOne(m: nat)
    ensures Enabled(Cfg(m), AcceptedOne(), Publish(0)) && Step(Cfg(m), AcceptedOne(), Publish(0)) == Enqueued()
  {
    assert [0][1..] == [];
  }

  lemma OneDelivery(m: nat) returns (t: Trace)
    ensures t.ValidSerialized(m) && t.Last() == Enqueued()
  {
    t := Trace([State(Db([], [], [], []), 0.0, [], [], [], [])], []);
    t := Then(m, t, CreateTemplate(TEMPLATE));
    assert t.Last() == Prepared();
    AcceptOne(m);
    t := Then(m, t, Accept(NOTIFICATION, [Email], 0.0));
    PublishOne(m);
    t := Then(m, t, Publish(0));
  }

  /** The copy of the one delivery, at this program point. */
  function Copy(pc: Pc): Task {
    Task(0, 0, 0, DefaultQueue, pc)
  }

  /** What matters about a state with two copies: where they stand, the row's status, the successes. */
  ghost predicate Shows(s: State, a: Pc, b: Pc, status: Status, successes: nat) {
    && s.tasks == [Copy(a), Copy(b)]
    && s.db.templates == [TEMPLATE] && s.db.notifications == [NOTIFICATION]
    && s.db.deliveries == [NEW_ROW.(status := status)]
    && |s.stats| == 1 && s.stats[0].successes == successes
  }

  lemma Both(m: nat, t: Trace, a: Pc, b: Pc) returns (r: Trace)
    requires t.Valid(m) && Shows(t.Last(), a, b, Pending, 0) && (a.Queued? || a.Loading?) && a == b
    ensures var pc := if a.Queued? then Loading else MarkingSent;
      r.Valid(m) && Shows(r.Last(), pc, pc, Pending, 0)
  {
    r := Then(m, t, Work(0, Ok));
    assert Shows(r.Last(), if a.Queued? then Loading else MarkingSent, b, Pending, 0);
    r := Then(m, r, Work(1, Ok));
  }

  lemma FirstMarksSent(m: nat, t: Trace) returns (r: Trace)
    requires t.Valid(m) && Shows(t.Last(), MarkingSent, MarkingSent, Pending, 0)
    ensures r.Valid(m) && Shows(r.Last(), Sending, MarkingSent, Sent, 0)
  {
    r := Then(m, t, Work(0, Ok));
  }

  lemma FirstIsAccepted(m: nat, t: Trace) returns (r: Trace)
    requires t.Valid(m) && Shows(t.Last(), Sending, MarkingSent, Sent, 0)
    ensures r.Valid(m) && Shows(r.Last(), MarkingDelivered, MarkingSent, Sent, 1)
  {
    r := Then(m, t, Work(0, Ok));
  }

  lemma FirstDelivers(m: nat, t: Trace) returns (r: Trace)
    requires t.Valid(m) && Shows(t.Last(), MarkingDelivered, MarkingSent, Sent, 1)
    ensures r.Valid(m) && Shows(r.Last(), Done, MarkingSent, Delivered, 1)
  {
    r := Then(m, t, Work(0, Ok));
  }

  lemma SecondDelivers(m: nat, t: Trace) returns (r: Trace)
    requires t.Valid(m) && Shows(t.Last(), Done, MarkingSent, Delivered, 1)
    ensures r.Valid(m) && Shows(r.Last(), Done, MarkingDelivered, Sent, 2)
    ensures r.Last().db.log == t.Last().db.log + [LogEntry(0, Some(Delivered), Sent)]
  {
    r := Then(m, t, Work(1, Ok));
    assert Shows(r.Last(), Done, Sending, Sent, 1);
    r := Then(m, r, Work(1, Ok));
  }

  /** When two executions of one delivery overlap, the provider accepts the message twice and the row
      leaves DELIVERED: the scheduling assumption cannot be dropped. */
  lemma OverlapDeliversTwice(m: nat) returns (t: Trace)
    ensures t.Valid(m) && Shows(t.Last(), Done, MarkingDelivered, Sent, 2)
    ensures LogEntry(0, Some(Delivered), Sent) in t.Last().db.log
  {
    t := OneDelivery(m);
    t := Then(m, t, Redeliver(0));
    t := Both(m, t, Queued, Queued);
    t := Both(m, t, Loading, Loading);
    t := FirstMarksSent(m, t);
    t := FirstIsAccepted(m, t);
    t := FirstDelivers(m, t);
    t := SecondDelivers(m, t);
  }

  lemma OneSends(m: nat) returns (t: Trace)
    ensures t.ValidSerialized(m) && t.Last().tasks == [Copy(Sending)]
    ensures t.Last().db.deliveries == [NEW_ROW.(status := Sent)]
    ensures t.Last().db.log == [LogEntry(0, None, Pending), LogEntry(0, Some(Pending), Sent)]
    ensures |t.Last().stats| == 1 && t.Last().stats[0].successes == 0 && t.Last().stats[0].deaths == 0
  {
    t := OneDelivery(m);
    t := Then(m, t, Work(0, Ok));
    t := Then(m, t, Work(0, Ok));
    assert t.Last().tasks == [Copy(MarkingSent)] && t.Last().db == Enqueued().db && t.Last().stats == Enqueued().stats;
    t := Then(m, t, Work(0, Ok));
  }

  /** A worker that dies after committing SENT leaves an orphan, in a run without overlapping executions. */
  lemma CrashOrphans(m: nat) returns (t: Trace)
    ensures t.ValidSerialized(m) && |t.es| > 0 && t.es[|t.es| - 1] == Die(0) && Drain.Orphaned(t.Last(), 0)
  {
    t := OneSends(m);
    t := Then(m, t, Die(0));
    assert t.Last().tasks == [Copy(Acked)];
  }

  /** So does a back-off update that raises without effect after the provider refused, with no death. */
  lemma FailedBackOffOrphans(m: nat) returns (t: Trace)
    requires m >= 1
    ensures t.ValidSerialized(m) && |t.es| > 0 && t.es[|t.es| - 1] == Work(0, Raised) && Drain.Orphaned(t.Last(), 0)
    ensures |t.Last().stats| == 1 && t.Last().stats[0].deaths == 0
  {
    t := OneSends(m);
    t := Then(m, t, Work(0, Refused));
    assert t.Last().tasks == [Copy(BackingOff)];
    t := Then(m, t, Work(0, Raised));
    assert t.Last().tasks == [Copy(Done)];
  }

  /** When the commit of DELIVERED takes effect but its call raises, the fatal-error branch overwrites
      DELIVERED by FAILED, in a run without overlapping executions. */
  lemma LostReplyUndoesDelivered(m: nat) returns (t: Trace)
    ensures t.ValidSerialized(m)
    ensures t.Last().db.deliveries == [NEW_ROW.(status := Failed, error := Some(Fatal))]
    ensures |t.Last().stats| == 1 && t.Last().stats[0].successes == 1
    ensures var h := t.Last().db.log; |h| == 4 && h[2].to == Delivered && h[3] == LogEntry(0, Some(Delivered), Failed)
  {
    t := OneSends(m);
    t := Then(m, t, Work(0, Ok));
    assert t.Last().tasks == [Copy(MarkingDelivered)];
    t := Then(m, t, Work(0, Lost));
    assert t.Last().tasks == [Copy(Failing)] && t.Last().db.deliveries == [NEW_ROW.(status := Delivered)];
    t := Then(m, t, Work(0, Ok));
  }
}
