/** Outbox coverage: rows are committed before anything is enqueued, so wherever a handler stops, a
    completed reconciler pass leaves no old PENDING row without a live copy unless that delivery's
    message was lost, or one of its calls raised, after the pass began. Holds in every run. */
module Outbox {
  import opened Model
  import opened Machine
  import Basic

  /** A copy or execution of this delivery that has not finished. */
  ghost predicate Covered(tasks: seq<Task>, d: nat) {
    exists i :: 0 <= i < |tasks| && tasks[i].delivery == d && Unfinished(tasks[i].pc)
  }

  /** PENDING rows are covered. */
  ghost predicate Safe(s: State, d: nat)
    requires d < |s.db.deliveries|
  {
    s.db.deliveries[d].status == Pending ==> Covered(s.tasks, d)
  }

  lemma CoveredBy(tasks: seq<Task>, d: nat, i: nat)
    requires i < |tasks| && tasks[i].delivery == d && Unfinished(tasks[i].pc)
    ensures Covered(tasks, d)
  {
  }

  lemma WorkStaysSafe(cfg: Config, s: State, i: nat, r: Reply, d: nat)
    requires i < |s.tasks| && d < |s.db.deliveries| == |s.stats| && Safe(s, d)
    requires Basic.TaskOk(cfg, s.db, s.tasks[i]) && Basic.Accepted(cfg, s.db, s.db.deliveries[d])
    requires WorkStep(cfg, s, i, r).stats[d].Losses() == s.stats[d].Losses()
    ensures Safe(WorkStep(cfg, s, i, r), d)
  {
    var s' := WorkStep(cfg, s, i, r);
    if s'.db.deliveries[d].status == Pending {
      if s.tasks[i].delivery == d && Unfinished(s'.tasks[i].pc) {
        CoveredBy(s'.tasks, d, i);
      } else if s.tasks[i].delivery == d && s.tasks[i].pc.Republishing? {
        CoveredBy(s'.tasks, d, |s.tasks|);
      } else {
        var j :| 0 <= j < |s.tasks| && s.tasks[j].delivery == d && Unfinished(s.tasks[j].pc);
        CoveredBy(s'.tasks, d, j);
      }
    }
  }

  /** No step uncovers a delivery without adding to its losses. */
  lemma StaysSafe(cfg: Config, s: State, e: Event, d: nat)
    requires Basic.Inv(cfg, s) && Enabled(cfg, s, e) && d < |s.db.deliveries| && Safe(s, d)
    ensures var s' := Step(cfg, s, e);
      && d < |s'.db.deliveries| && d < |s'.stats|
      && (s'.stats[d].Losses() == s.stats[d].Losses() ==> Safe(s', d))
  {
    Basic.StepKeeps(cfg, s, e);
    var s' := Step(cfg, s, e);
    assert Basic.RowOk(cfg, s.db, s.db.deliveries[d]);
    if s'.stats[d].Losses() == s.stats[d].Losses() {
      if e.Work? {
        assert Basic.TaskOk(cfg, s.db, s.tasks[e.task]);
        WorkStaysSafe(cfg, s, e.task, e.reply, d);
      } else {
        if e.Accept? {
          var db := s.db.(notifications := s.db.notifications + [e.notification]);
          Basic.CreateDeliveriesShape(db, |s.db.notifications|, e.channels, e.createdAt);
        }
        if s'.db.deliveries[d].status == Pending {
          assert e.Die? ==> Basic.TaskOk(cfg, s.db, s.tasks[e.task]);
          var j :| 0 <= j < |s.tasks| && s.tasks[j].delivery == d && Unfinished(s.tasks[j].pc);
          CoveredBy(s'.tasks, d, j);
        }
      }
    }
  }

  lemma LossesGrow(cfg: Config, s: State, e: Event, d: nat)
    requires Enabled(cfg, s, e) && d < |s.stats|
    ensures d < |Step(cfg, s, e).stats| && s.stats[d].Losses() <= Step(cfg, s, e).stats[d].Losses()
  {
  }

  /** What a pass that started with this cutoff, these rows and these losses has achieved so far: every
      old row it no longer has to re-queue is safe, unless the delivery suffered a loss meanwhile. */
  ghost predicate Swept(s: State, p: Pass) {
    && p.rows <= |s.db.deliveries| == |s.stats| && |p.losses| == p.rows
    && forall d | 0 <= d < p.rows ::
         && p.losses[d] <= s.stats[d].Losses()
         && (s.db.deliveries[d].createdAt < p.cutoff && d !in p.todo && s.stats[d].Losses() == p.losses[d] ==>
               Safe(s, d))
  }

  lemma SweptStep(cfg: Config, s: State, e: Event, p: nat)
    requires Basic.Inv(cfg, s) && Enabled(cfg, s, e) && p < |s.passes| && Swept(s, s.passes[p])
    ensures var s' := Step(cfg, s, e);
      && p < |s'.passes| && Swept(s', s'.passes[p])
      && s'.passes[p].rows == s.passes[p].rows && s'.passes[p].cutoff == s.passes[p].cutoff
      && s'.passes[p].losses == s.passes[p].losses
  {
    Basic.StepKeeps(cfg, s, e);
    var s' := Step(cfg, s, e);
    var ps, ps' := s.passes[p], s'.passes[p];
    forall d | 0 <= d < ps.rows
      ensures ps.losses[d] <= s'.stats[d].Losses()
      ensures s'.db.deliveries[d].createdAt < ps.cutoff && d !in ps'.todo && s'.stats[d].Losses() == ps.losses[d] ==>
                Safe(s', d)
    {
      LossesGrow(cfg, s, e, d);
      if s'.db.deliveries[d].createdAt < ps.cutoff && d !in ps'.todo && s'.stats[d].Losses() == ps.losses[d] {
        if d in ps.todo {
          assert e == Requeue(p) && d == ps.todo[0];
          CoveredBy(s'.tasks, d, |s.tasks|);
        } else {
          StaysSafe(cfg, s, e, d);
        }
      }
    }
  }

  lemma {:induction false} SweptHolds(cfg: Config, ss: seq<State>, es: seq<Event>, a: nat, b: nat)
    requires IsRun(cfg, ss, es) && a < b < |ss| && es[a].StartPass?
    ensures var p := |ss[a].passes|;
      && p < |ss[b].passes| && Swept(ss[b], ss[b].passes[p])
      && ss[b].passes[p].rows == |ss[a].db.deliveries| && ss[b].passes[p].cutoff == es[a].cutoff
      && ss[b].passes[p].losses == LossesOf(ss[a].stats)
    decreases b
  {
    Basic.InvHolds(cfg, ss, es, b - 1);
    if a < b - 1 {
      SweptHolds(cfg, ss, es, a, b - 1);
      SweptStep(cfg, ss[b - 1], es[b - 1], |ss[a].passes|);
    } else {
      Basic.StepKeeps(cfg, ss[a], es[a]);
    }
  }

  lemma AgeStep(cfg: Config, s: State, e: Event, d: nat)
    requires Basic.Inv(cfg, s) && Enabled(cfg, s, e) && d < |s.db.deliveries|
    ensures d < |Step(cfg, s, e).db.deliveries|
    ensures Step(cfg, s, e).db.deliveries[d].createdAt == s.db.deliveries[d].createdAt
  {
    Basic.StepKeeps(cfg, s, e);
  }

  lemma {:induction false} AgeKept(cfg: Config, ss: seq<State>, es: seq<Event>, a: nat, b: nat, d: nat)
    requires IsRun(cfg, ss, es) && a <= b < |ss| && d < |ss[a].db.deliveries|
    ensures d < |ss[b].db.deliveries| && ss[b].db.deliveries[d].createdAt == ss[a].db.deliveries[d].createdAt
    decreases b
  {
    if a < b {
      AgeKept(cfg, ss, es, a, b - 1, d);
      Basic.InvHolds(cfg, ss, es, b - 1);
      AgeStep(cfg, ss[b - 1], es[b - 1], d);
    }
  }

  /** A pass never re-queues a row that was not PENDING, or not older than its cutoff, when it began. */
  lemma {:induction false} PassTakesOnlyStuck(cfg: Config, ss: seq<State>, es: seq<Event>, a: nat, b: nat, d: nat)
    requires IsRun(cfg, ss, es) && a < b < |ss| && es[a].StartPass?
    ensures |ss[a].passes| < |ss[b].passes|
    ensures d in ss[b].passes[|ss[a].passes|].todo ==>
              && d < |ss[a].db.deliveries|
              && ss[a].db.deliveries[d].status == Pending && ss[a].db.deliveries[d].createdAt < es[a].cutoff
    decreases b
  {
    if a < b - 1 {
      PassTakesOnlyStuck(cfg, ss, es, a, b - 1, d);
      PassShrinks(cfg, ss[b - 1], es[b - 1], |ss[a].passes|, d);
    }
  }

  lemma PassShrinks(cfg: Config, s: State, e: Event, p: nat, d: nat)
    requires Enabled(cfg, s, e) && p < |s.passes|
    ensures p < |Step(cfg, s, e).passes|
    ensures d in Step(cfg, s, e).passes[p].todo ==> d in s.passes[p].todo
  {
  }

  /** Once a reconciler pass has nothing left to re-queue, every delivery that existed when it began,
      was created before its cutoff and is still PENDING has a live copy, or lost one since. */
  lemma PassCoversOldRows(cfg: Config, ss: seq<State>, es: seq<Event>, a: nat, b: nat, d: nat)
    requires IsRun(cfg, ss, es) && a < b < |ss| && es[a].StartPass?
    requires |ss[a].passes| < |ss[b].passes| && ss[b].passes[|ss[a].passes|].todo == []
    requires d < |ss[a].db.deliveries| && ss[a].db.deliveries[d].createdAt < es[a].cutoff
    ensures d < |ss[b].db.deliveries| && d < |ss[a].stats| && d < |ss[b].stats|
    ensures ss[b].db.deliveries[d].status == Pending ==>
              || (exists i :: 0 <= i < |ss[b].tasks| && ss[b].tasks[i].delivery == d &&
                              ss[b].tasks[i].pc != Done && ss[b].tasks[i].pc != Acked)
              || ss[a].stats[d].faults + ss[a].stats[d].deaths < ss[b].stats[d].faults + ss[b].stats[d].deaths
  {
    SweptHolds(cfg, ss, es, a, b);
    Basic.InvHolds(cfg, ss, es, a);
    AgeKept(cfg, ss, es, a, b, d);
  }
}
