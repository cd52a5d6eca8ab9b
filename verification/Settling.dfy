/** End to end: in any run, a delivery that was enqueued and lost nothing, or that a reconciler pass
    picked up again, is settled by every drain of the queues. */
module Settling {
  import opened Model
  import opened Machine
  import Basic
  import Bounds
  import Drain
  import Outbox

  /** Still in the hands of the request handler that created it. */
  ghost predicate Unpublished(s: State, d: nat) {
    exists h :: 0 <= h < |s.handlers| && d in s.handlers[h].todo
  }

  ghost predicate Owned(s: State, d: nat)
    requires d < |s.db.deliveries|
  {
    s.db.deliveries[d].status == Sent ==> Drain.SentOwned(s.tasks, d)
  }

  // ------------------------------------------------------------------ SENT rows

  lemma WorkKeepsOwned(cfg: Config, s: State, i: nat, r: Reply, d: nat)
    requires i < |s.tasks| && d < |s.db.deliveries| == |s.stats| && Owned(s, d)
    requires !s.tasks[i].pc.Rejecting?
    requires WorkStep(cfg, s, i, r).stats[d].Losses() == s.stats[d].Losses()
    ensures Owned(WorkStep(cfg, s, i, r), d)
  {
    var s' := WorkStep(cfg, s, i, r);
    if s'.db.deliveries[d].status == Sent {
      if s.tasks[i].delivery == d && Drain.Sender(s'.tasks[i].pc) {
        Drain.SentOwnedBy(s'.tasks, d, i);
      } else {
        var j :| 0 <= j < |s.tasks| && s.tasks[j].delivery == d && Drain.Sender(s.tasks[j].pc);
        Drain.SentOwnedBy(s'.tasks, d, j);
      }
    }
  }

  lemma OtherKeepsOwned(cfg: Config, s: State, e: Event, d: nat)
    requires Enabled(cfg, s, e) && !e.Work? && d < |s.db.deliveries| == |s.stats| && Owned(s, d)
    requires e.Die? ==> s.tasks[e.task].delivery < |s.stats|
    requires d < |Step(cfg, s, e).stats| && Step(cfg, s, e).stats[d].Losses() == s.stats[d].Losses()
    ensures d < |Step(cfg, s, e).db.deliveries| && Owned(Step(cfg, s, e), d)
  {
    var s' := Step(cfg, s, e);
    if e.Accept? {
      var db := s.db.(notifications := s.db.notifications + [e.notification]);
      Drain.CreateKeepsRow(db, |s.db.notifications|, e.channels, e.createdAt, d);
    }
    if s.db.deliveries[d].status == Sent {
      var j :| 0 <= j < |s.tasks| && s.tasks[j].delivery == d && Drain.Sender(s.tasks[j].pc);
      Drain.SentOwnedBy(s'.tasks, d, j);
    }
  }

  /** As long as a delivery loses nothing, a SENT row keeps an execution in charge of it. */
  lemma StepKeepsOwned(cfg: Config, s: State, e: Event, d: nat)
    requires Basic.Inv(cfg, s) && Enabled(cfg, s, e) && d < |s.db.deliveries| && Owned(s, d)
    requires d < |Step(cfg, s, e).stats| && Step(cfg, s, e).stats[d].Losses() == s.stats[d].Losses()
    ensures d < |Step(cfg, s, e).db.deliveries| && Owned(Step(cfg, s, e), d)
  {
    assert e.Work? || e.Die? ==> Basic.TaskOk(cfg, s.db, s.tasks[e.task]);
    if e.Work? {
      WorkKeepsOwned(cfg, s, e.task, e.reply, d);
    } else {
      OtherKeepsOwned(cfg, s, e, d);
    }
  }

  // ------------------------------------------------------------------ runs

  /** A delivery without losses has an execution in charge while it is SENT, and a live copy while it is
      PENDING and its handler is done with it. */
  ghost predicate Attended(s: State, d: nat) {
    && d < |s.db.deliveries| == |s.stats|
    && (s.stats[d].Losses() == 0 ==> Owned(s, d) && (Unpublished(s, d) || Outbox.Safe(s, d)))
  }

  lemma NewIsUnpublished(cfg: Config, s: State, e: Event, d: nat)
    requires Enabled(cfg, s, e) && e.Accept? && |s.db.deliveries| <= d < |s.db.deliveries| + |e.channels|
    ensures Unpublished(Step(cfg, s, e), d)
  {
    var hs := Step(cfg, s, e).handlers;
    var todo := Range(|s.db.deliveries|, |e.channels|);
    assert hs[|s.handlers|].todo == todo && todo[d - |s.db.deliveries|] == d;
  }

  lemma NewIsPending(cfg: Config, s: State, e: Event, d: nat)
    requires Enabled(cfg, s, e) && e.Accept? && |s.db.deliveries| <= d < |s.db.deliveries| + |e.channels|
    ensures d < |Step(cfg, s, e).db.deliveries| && Step(cfg, s, e).db.deliveries[d].status == Pending
  {
    var db := s.db.(notifications := s.db.notifications + [e.notification]);
    Basic.CreateDeliveriesShape(db, |s.db.notifications|, e.channels, e.createdAt);
  }

  lemma NewIsAttended(cfg: Config, s: State, e: Event, d: nat)
    requires Enabled(cfg, s, e) && e.Accept? && |s.stats| == |s.db.deliveries| <= d < |s.db.deliveries| + |e.channels|
    ensures Attended(Step(cfg, s, e), d)
  {
    NewIsUnpublished(cfg, s, e, d);
    NewIsPending(cfg, s, e, d);
  }

  lemma OnlyAcceptAdds(cfg: Config, s: State, e: Event)
    requires Enabled(cfg, s, e)
    ensures |Step(cfg, s, e).db.deliveries| == |s.db.deliveries| + if e.Accept? then |e.channels| else 0
  {
  }

  lemma StepAttends(cfg: Config, s: State, e: Event, d: nat)
    requires Basic.Inv(cfg, s) && Enabled(cfg, s, e) && Attended(s, d)
    ensures Attended(Step(cfg, s, e), d)
  {
    var s' := Step(cfg, s, e);
    Basic.StepKeeps(cfg, s, e);
    Outbox.LossesGrow(cfg, s, e, d);
    if s'.stats[d].Losses() == 0 {
      StepKeepsOwned(cfg, s, e, d);
      if Outbox.Safe(s, d) {
        Outbox.StaysSafe(cfg, s, e, d);
      } else {
        var h :| 0 <= h < |s.handlers| && d in s.handlers[h].todo;
        StillUnpublished(cfg, s, e, d, h);
      }
    }
  }

  lemma StillUnpublished(cfg: Config, s: State, e: Event, d: nat, h: nat)
    requires Enabled(cfg, s, e) && h < |s.handlers| && d in s.handlers[h].todo
    ensures Unpublished(Step(cfg, s, e), d) || Outbox.Covered(Step(cfg, s, e).tasks, d)
  {
    var s' := Step(cfg, s, e);
    if e == Publish(h) && d == s.handlers[h].todo[0] {
      Outbox.CoveredBy(s'.tasks, d, |s.tasks|);
    } else {
      assert d in s'.handlers[h].todo;
    }
  }

  lemma {:induction false} AttendedHolds(cfg: Config, ss: seq<State>, es: seq<Event>, k: nat, d: nat)
    requires IsRun(cfg, ss, es) && k < |ss| && d < |ss[k].db.deliveries|
    ensures Attended(ss[k], d)
    decreases k
  {
    if k > 0 {
      Basic.InvHolds(cfg, ss, es, k - 1);
      if d < |ss[k - 1].db.deliveries| {
        AttendedHolds(cfg, ss, es, k - 1, d);
        StepAttends(cfg, ss[k - 1], es[k - 1], d);
      } else {
        OnlyAcceptAdds(cfg, ss[k - 1], es[k - 1]);
        NewIsAttended(cfg, ss[k - 1], es[k - 1], d);
      }
    }
  }

  lemma RunStateDrains(cfg: Config, ss: seq<State>, es: seq<Event>, k: nat, d: nat)
    requires IsRun(cfg, ss, es) && k < |ss| && d < |ss[k].db.deliveries|
    ensures Drain.RetriesLeft(cfg, ss[k]) && ss[k].db.deliveries[d].notificationId < |ss[k].db.notifications|
  {
    Basic.InvHolds(cfg, ss, es, k);
    assert Basic.RowOk(cfg, ss[k].db, ss[k].db.deliveries[d]);
    forall i | 0 <= i < |ss[k].tasks| ensures Basic.TaskOk(cfg, ss[k].db, ss[k].tasks[i]) {}
  }

  // ------------------------------------------------------------------ results

  /** From any state of any run, every drain is finite, and one that cannot be continued has settled each
      delivery that its handler had published and that had lost no message and no call. */
  lemma LosslessDeliveriesSettle(cfg: Config, ss: seq<State>, es: seq<Event>, k: nat, ds: seq<State>, des: seq<Event>,
                                 d: nat)
    requires IsRun(cfg, ss, es) && k < |ss| && d < |ss[k].db.deliveries|
    requires Drain.IsDrain(cfg, ds, des) && ds[0] == ss[k]
    ensures |des| <= (11 * cfg.maxRetries + 10) * |ss[k].tasks|
    ensures d < |ss[k].stats| && d < |ds[|des|].db.deliveries|
    ensures && ss[k].stats[d].faults == 0 && ss[k].stats[d].deaths == 0
            && (forall h | 0 <= h < |ss[k].handlers| :: d !in ss[k].handlers[h].todo)
            && (forall e :: !Drain.DrainEvent(ds[|des|], e)) ==>
              ds[|des|].db.deliveries[d].status in {Delivered, Failed}
  {
    AttendedHolds(cfg, ss, es, k, d);
    RunStateDrains(cfg, ss, es, k, d);
    Drain.DrainLength(cfg, ds, des);
    Drain.RowCountKept(cfg, ds, des, |des|);
    if ss[k].stats[d].Losses() == 0 && !Unpublished(ss[k], d) && (forall e :: !Drain.DrainEvent(ds[|des|], e)) {
      Drain.DrainSettles(cfg, ds, des, d);
    }
  }

  /** Whatever happened before: once a reconciler pass is through, an old delivery that is still PENDING
      and has lost nothing since the pass began is settled by every drain that cannot be continued. */
  lemma ReconciledDeliveriesSettle(cfg: Config, ss: seq<State>, es: seq<Event>, a: nat, b: nat, ds: seq<State>,
                                   des: seq<Event>, d: nat)
    requires IsRun(cfg, ss, es) && a < b < |ss| && es[a].StartPass?
    requires |ss[a].passes| < |ss[b].passes| && ss[b].passes[|ss[a].passes|].todo == []
    requires d < |ss[a].db.deliveries| && ss[a].db.deliveries[d].createdAt < es[a].cutoff
    requires d < |ss[a].stats| && d < |ss[b].stats|
    requires ss[a].stats[d].faults + ss[a].stats[d].deaths == ss[b].stats[d].faults + ss[b].stats[d].deaths
    requires d < |ss[b].db.deliveries| && ss[b].db.deliveries[d].status == Pending
    requires Drain.IsDrain(cfg, ds, des) && ds[0] == ss[b] && forall e :: !Drain.DrainEvent(ds[|des|], e)
    ensures d < |ds[|des|].db.deliveries| && ds[|des|].db.deliveries[d].status in {Delivered, Failed}
  {
    Outbox.PassCoversOldRows(cfg, ss, es, a, b, d);
    RunStateDrains(cfg, ss, es, b, d);
    Drain.DrainSettles(cfg, ds, des, d);
  }
}
