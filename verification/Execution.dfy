/** One execution of the delivery task, from the moment a worker takes a copy until it returns, raises or is
    killed, for every way its calls can end: the state it leaves behind and what it did to its row. */
module Execution {
  import opened Model
  import opened Machine

  /** The worker process is killed at this point, before the call it would make there. With late
      acknowledgement the broker may deliver the copy again. */
  datatype Death = Death(at: Pc, redelivered: bool)

  /** How the calls of one execution end, and where it is killed, if it is. */
  datatype Replies = Replies(
    load: Reply,
    sent: Reply,
    provider: Reply,
    delivered: Reply,
    failed: Reply,
    pending: Reply,
    retry: Reply,
    death: Option<Death>)
  {
    predicate Kills(pc: Pc) { death.Some? && death.value.at == pc }

    /** The reply to the call an execution makes at this program point. */
    function At(pc: Pc): Reply {
      match pc
      case Loading => load
      case Rejecting(_) => failed
      case MarkingSent => sent
      case Sending => provider
      case MarkingDelivered => delivered
      case Exhausting => failed
      case BackingOff => pending
      case Republishing => retry
      case Failing => failed
      case _ => Ok
    }
  }

  /** The state after a worker was killed. */
  function AfterDeath(s: State, i: nat, redelivered: bool): State
    requires i < |s.tasks|
  {
    DieStep(if redelivered then RedeliverStep(s, i) else s, i)
  }

  /** The machine state once execution `i`, taking all its steps in a row, has come to its end. */
  ghost function Finish(cfg: Config, s: State, i: nat, env: Replies): State
    requires i < |s.tasks|
    decreases Rank(s.tasks[i].pc)
  {
    if !Unfinished(s.tasks[i].pc) then s
    else if env.Kills(s.tasks[i].pc) then AfterDeath(s, i, env.death.value.redelivered)
    else Finish(cfg, WorkStep(cfg, s, i, env.At(s.tasks[i].pc)), i, env)
  }

  lemma FinishDeath(cfg: Config, s: State, i: nat, env: Replies)
    requires i < |s.tasks| && Unfinished(s.tasks[i].pc) && env.Kills(s.tasks[i].pc)
    ensures var s' := AfterDeath(s, i, env.death.value.redelivered);
      && i < |s'.tasks| && !Unfinished(s'.tasks[i].pc)
      && Finish(cfg, s, i, env) == s' == Finish(cfg, s', i, env)
  {
  }

  /** An execution creates and removes no row, and changes no more of a delivery than status, retry counter and
      message. */
  lemma {:induction false} FinishKeepsTables(cfg: Config, s: State, i: nat, env: Replies)
    requires i < |s.tasks|
    ensures var db := Finish(cfg, s, i, env).db;
      && db.templates == s.db.templates && db.notifications == s.db.notifications
      && |db.deliveries| == |s.db.deliveries|
      && forall d | 0 <= d < |db.deliveries| ::
           && db.deliveries[d].notificationId == s.db.deliveries[d].notificationId
           && db.deliveries[d].channel == s.db.deliveries[d].channel
           && db.deliveries[d].createdAt == s.db.deliveries[d].createdAt
    decreases Rank(s.tasks[i].pc)
  {
    if Unfinished(s.tasks[i].pc) && !env.Kills(s.tasks[i].pc) {
      FinishKeepsTables(cfg, WorkStep(cfg, s, i, env.At(s.tasks[i].pc)), i, env);
    }
  }

  // ------------------------------------------------------------------ the row alone

  /** What an execution does to its own row, whether it publishes a retry, and whether it was killed. */
  datatype End = End(row: Delivery, retried: bool, dead: bool)

  function RowAfter(row: Delivery, w: Option<Update>): Delivery {
    if w.None? then row else UpdateRow(row, w.value)
  }

  /** The end of an execution, computed on its row alone. */
  function EndOf(cfg: Config, db: Db, t: Task, env: Replies, row: Delivery): End
    decreases Rank(t.pc)
  {
    if !Unfinished(t.pc) then End(row, false, false)
    else if env.Kills(t.pc) then End(row, false, true)
    else
      var e := Perform(cfg, db, t, env.At(t.pc));
      var end := EndOf(cfg, db, t.(pc := e.pc), env, RowAfter(row, e.write));
      if e.publish then end.(retried := true) else end
  }

  /** The copies an execution adds: its retry, or itself again when it was killed. */
  function Added(t: Task, env: Replies, end: End): seq<Task> {
    if end.retried then [RetryOf(t)]
    else if end.dead && env.death.Some? && env.death.value.redelivered then [t.(pc := Queued)]
    else []
  }

  /** Only its own row and copy change, as `end` says. */
  ghost predicate EndsAs(s: State, i: nat, env: Replies, s': State, end: End) {
    && i < |s.tasks| && s.tasks[i].delivery < |s.db.deliveries|
    && var t := s.tasks[i];
    && s'.db.deliveries == s.db.deliveries[t.delivery := end.row]
    && s'.tasks == s.tasks[i := t.(pc := if end.dead then Acked else Done)] + Added(t, env, end)
  }

  lemma StepEnds(cfg: Config, s: State, i: nat, r: Reply)
    requires i < |s.tasks| && s.tasks[i].delivery < |s.db.deliveries|
    ensures var t := s.tasks[i]; var e := Perform(cfg, s.db, t, r); var s' := WorkStep(cfg, s, i, r);
      && s'.db.deliveries == s.db.deliveries[t.delivery := RowAfter(s.db.deliveries[t.delivery], e.write)]
      && s'.tasks == s.tasks[i := t.(pc := e.pc)] + (if e.publish then [RetryOf(t)] else [])
      && (e.publish ==> e.pc.Done?)
  {
    var t := s.tasks[i];
    assert s.db.deliveries[t.delivery := s.db.deliveries[t.delivery]] == s.db.deliveries;
  }

  /** The whole execution amounts to its end, whatever its calls reply. */
  lemma {:induction false} FinishEnds(cfg: Config, db: Db, s: State, i: nat, env: Replies)
    requires i < |s.tasks| && Unfinished(s.tasks[i].pc) && s.tasks[i].delivery < |s.db.deliveries|
    requires s.tasks[i].pc.Queued? || s.tasks[i].pc.Loading? ==> db == s.db
    ensures var t := s.tasks[i];
      EndsAs(s, i, env, Finish(cfg, s, i, env), EndOf(cfg, db, t, env, s.db.deliveries[t.delivery]))
    decreases Rank(s.tasks[i].pc)
  {
    var t := s.tasks[i];
    var row := s.db.deliveries[t.delivery];
    if env.Kills(t.pc) {
      assert s.db.deliveries[t.delivery := row] == s.db.deliveries;
    } else {
      var r := env.At(t.pc);
      var s1 := WorkStep(cfg, s, i, r);
      var e := Perform(cfg, s.db, t, r);
      StepEnds(cfg, s, i, r);
      assert e == Perform(cfg, db, t, r);
      if Unfinished(e.pc) {
        FinishEnds(cfg, db, s1, i, env);
        Continues(s, s1, i, e, env, Finish(cfg, s1, i, env), EndOf(cfg, db, s1.tasks[i], env, RowAfter(row, e.write)));
      }
    }
  }

  lemma Continues(s: State, s1: State, i: nat, e: Effect, env: Replies, s2: State, end: End)
    requires i < |s.tasks| && s.tasks[i].delivery < |s.db.deliveries| && !e.publish
    requires var t := s.tasks[i];
      && s1.db.deliveries == s.db.deliveries[t.delivery := RowAfter(s.db.deliveries[t.delivery], e.write)]
      && s1.tasks == s.tasks[i := t.(pc := e.pc)]
    requires EndsAs(s1, i, env, s2, end)
    ensures EndsAs(s, i, env, s2, end)
  {
  }

  // ------------------------------------------------------------------ outcome

  /** What happens in an execution that finds its delivery PENDING and ready to send, in terms of the
      replies alone. Each of these says that the step is taken and, for a call, that it takes effect. */
  datatype Story = Story(env: Replies, lastTry: bool) {
    predicate Starts() { !env.Kills(Queued) && !env.Kills(Loading) && env.load.Ok? && !env.Kills(MarkingSent) }
    predicate Marks() { Starts() && env.sent.Applied() }
    predicate Sends() { Starts() && env.sent.Ok? && !env.Kills(Sending) }
    predicate Accepted() { Sends() && env.provider.Ok? && !env.Kills(MarkingDelivered) }
    predicate Delivers() { Accepted() && env.delivered.Applied() }
    predicate Refused() { Sends() && env.provider.Refused? }
    predicate Exhausts() { Refused() && lastTry && !env.Kills(Exhausting) && env.failed.Applied() }
    predicate BacksOff() { Refused() && !lastTry && !env.Kills(BackingOff) && env.pending.Applied() }
    predicate Retries() { BacksOff() && env.pending.Ok? && !env.Kills(Republishing) && env.retry.Applied() }
    /** Something other than a ProviderError was raised in the try block. */
    predicate Raises() {
      || (Starts() && !env.sent.Ok?)
      || (Sends() && (env.provider.Raised? || env.provider.Lost?))
      || (Accepted() && !env.delivered.Ok?)
    }
    predicate Fails() { Raises() && !env.Kills(Failing) && env.failed.Applied() }
  }

  /** An update that takes effect unless the execution is killed before it or the call has no effect. */
  function Try(row: Delivery, env: Replies, pc: Pc, u: Update): Delivery {
    if !env.Kills(pc) && env.At(pc).Applied() then UpdateRow(row, u) else row
  }

  lemma EndFailing(cfg: Config, db: Db, t: Task, env: Replies, row: Delivery)
    requires t.pc.Failing?
    ensures var end := EndOf(cfg, db, t, env, row);
      !end.retried && end.row == Try(row, env, Failing, Update(Failed, Some(Fatal), false))
  {
  }

  lemma EndExhausting(cfg: Config, db: Db, t: Task, env: Replies, row: Delivery)
    requires t.pc.Exhausting?
    ensures var end := EndOf(cfg, db, t, env, row);
      !end.retried && end.row == Try(row, env, Exhausting, Update(Failed, Some(MaxRetries), true))
  {
  }

  lemma EndRepublishing(cfg: Config, db: Db, t: Task, env: Replies, row: Delivery)
    requires t.pc.Republishing?
    ensures var end := EndOf(cfg, db, t, env, row);
      end.row == row && (end.retried <==> !env.Kills(Republishing) && env.retry.Applied())
  {
  }

  lemma EndBackingOff(cfg: Config, db: Db, t: Task, env: Replies, row: Delivery)
    requires t.pc.BackingOff?
    ensures var end := EndOf(cfg, db, t, env, row);
      && end.row == Try(row, env, BackingOff, Update(Pending, Some(Transient), true))
      && (end.retried <==> !env.Kills(BackingOff) && env.pending.Ok? && !env.Kills(Republishing) && env.retry.Applied())
  {
    var row' := Try(row, env, BackingOff, Update(Pending, Some(Transient), true));
    EndRepublishing(cfg, db, t.(pc := Republishing), env, row');
  }

  lemma EndMarkingDelivered(cfg: Config, db: Db, t: Task, env: Replies, row: Delivery)
    requires t.pc.MarkingDelivered?
    ensures var end := EndOf(cfg, db, t, env, row);
      var row' := Try(row, env, MarkingDelivered, Update(Delivered, None, false));
      && !end.retried
      && end.row == if env.Kills(MarkingDelivered) || env.delivered.Ok? then row'
                    else Try(row', env, Failing, Update(Failed, Some(Fatal), false))
  {
    var row' := Try(row, env, MarkingDelivered, Update(Delivered, None, false));
    EndFailing(cfg, db, t.(pc := Failing), env, row');
  }

  lemma EndSending(cfg: Config, db: Db, t: Task, env: Replies, row: Delivery)
    requires t.pc.Sending? && !env.Kills(Sending)
    ensures EndOf(cfg, db, t, env, row) == EndOf(cfg, db, t.(pc := Perform(cfg, db, t, env.provider).pc), env, row)
  {
  }

  lemma EndMarkingSent(cfg: Config, db: Db, t: Task, env: Replies, row: Delivery)
    requires t.pc.MarkingSent? && !env.Kills(MarkingSent)
    ensures EndOf(cfg, db, t, env, row) ==
            EndOf(cfg, db, t.(pc := if env.sent.Ok? then Sending else Failing), env,
                  Try(row, env, MarkingSent, Update(Sent, None, false)))
  {
  }

  lemma EndQueued(cfg: Config, db: Db, t: Task, env: Replies, row: Delivery)
    requires t.pc.Queued?
    ensures EndOf(cfg, db, t, env, row) ==
      if env.Kills(Queued) || env.Kills(Loading) then End(row, false, true)
      else EndOf(cfg, db, t.(pc := if env.load.Ok? then AfterLoad(cfg, db, t.delivery) else Done), env, row)
  {
    if !env.Kills(Queued) {
      assert EndOf(cfg, db, t, env, row) == EndOf(cfg, db, t.(pc := Loading), env, row);
    }
  }

  lemma AcceptedOutcome(cfg: Config, db: Db, t: Task, env: Replies, row: Delivery, y: Story)
    requires t.pc.MarkingDelivered? && y.env == env && y.Sends() && env.provider.Ok?
    ensures Told(EndOf(cfg, db, t, env, UpdateRow(row, Update(Sent, None, false))), row, y)
  {
    EndMarkingDelivered(cfg, db, t, env, UpdateRow(row, Update(Sent, None, false)));
  }

  lemma RefusedOutcome(cfg: Config, db: Db, t: Task, env: Replies, row: Delivery, y: Story)
    requires t.pc == (if y.lastTry then Exhausting else BackingOff) && y.env == env && y.Refused()
    ensures Told(EndOf(cfg, db, t, env, UpdateRow(row, Update(Sent, None, false))), row, y)
  {
    if y.lastTry {
      EndExhausting(cfg, db, t, env, UpdateRow(row, Update(Sent, None, false)));
    } else {
      EndBackingOff(cfg, db, t, env, UpdateRow(row, Update(Sent, None, false)));
    }
  }

  lemma RaisedOutcome(cfg: Config, db: Db, t: Task, env: Replies, row: Delivery, y: Story)
    requires t.pc.Failing? && y.env == env && row.status == Pending
    requires y.Starts() && (!env.sent.Ok? || (!env.Kills(Sending) && (env.provider.Raised? || env.provider.Lost?)))
    ensures Told(EndOf(cfg, db, t, env, Try(row, env, MarkingSent, Update(Sent, None, false))), row, y)
  {
    EndFailing(cfg, db, t, env, Try(row, env, MarkingSent, Update(Sent, None, false)));
  }

  lemma SendOutcome(cfg: Config, db: Db, t: Task, env: Replies, row: Delivery, y: Story)
    requires t.pc.Sending? && y == Story(env, t.retries >= cfg.maxRetries) && row.status == Pending
    requires y.Starts() && env.sent.Ok?
    ensures Told(EndOf(cfg, db, t, env, UpdateRow(row, Update(Sent, None, false))), row, y)
  {
    var row' := UpdateRow(row, Update(Sent, None, false));
    if !env.Kills(Sending) {
      EndSending(cfg, db, t, env, row');
      match env.provider
      case Ok => AcceptedOutcome(cfg, db, t.(pc := MarkingDelivered), env, row, y);
      case Refused => RefusedOutcome(cfg, db, t.(pc := if y.lastTry then Exhausting else BackingOff), env, row, y);
      case _ => RaisedOutcome(cfg, db, t.(pc := Failing), env, row, y);
    }
  }

  lemma AttemptOutcome(cfg: Config, db: Db, t: Task, env: Replies, row: Delivery)
    requires t.pc.MarkingSent? && row.status == Pending
    requires !env.Kills(Queued) && !env.Kills(Loading) && env.load.Ok?
    ensures Told(EndOf(cfg, db, t, env, row), row, Story(env, t.retries >= cfg.maxRetries))
  {
    var y := Story(env, t.retries >= cfg.maxRetries);
    if !env.Kills(MarkingSent) {
      EndMarkingSent(cfg, db, t, env, row);
      if env.sent.Ok? {
        SendOutcome(cfg, db, t.(pc := Sending), env, row, y);
      } else {
        RaisedOutcome(cfg, db, t.(pc := Failing), env, row, y);
      }
    }
  }

  /** The end of an execution, told by its replies: when the row is FAILED, DELIVERED, PENDING again or left
      SENT, whether a retry was published, and whether the retry counter went up. */
  ghost predicate Told(end: End, row: Delivery, y: Story) {
    && (end.row.status == Failed <==> y.Fails() || y.Exhausts())
    && (end.row.status == Delivered <==> y.Delivers() && !y.Fails())
    && (end.row.status == Pending <==> y.BacksOff() || (!y.Marks() && !y.Fails()))
    && (end.row.status == Sent <==> y.Marks() && !y.Delivers() && !y.Fails() && !y.Exhausts() && !y.BacksOff())
    && (end.retried <==> y.Retries())
    && end.row.retryCount == row.retryCount + (if y.Exhausts() || y.BacksOff() then 1 else 0)
    && (y.Fails() ==> end.row.error == Some(Fatal))
    && (y.Exhausts() ==> end.row.error == Some(MaxRetries))
  }

  /** For every way its calls can end, and wherever it is killed: an execution that finds its delivery
      PENDING and ready to send leaves it exactly as its story tells. */
  lemma FinishOutcome(cfg: Config, s: State, i: nat, env: Replies)
    requires i < |s.tasks| && s.tasks[i].pc.Queued? && s.tasks[i].delivery < |s.db.deliveries|
    requires AfterLoad(cfg, s.db, s.tasks[i].delivery) == MarkingSent
    ensures var t := s.tasks[i]; var row := s.db.deliveries[t.delivery];
      var end := EndOf(cfg, s.db, t, env, row);
      EndsAs(s, i, env, Finish(cfg, s, i, env), end) && Told(end, row, Story(env, t.retries >= cfg.maxRetries))
  {
    var t := s.tasks[i];
    var row := s.db.deliveries[t.delivery];
    FinishEnds(cfg, s.db, s, i, env);
    EndQueued(cfg, s.db, t, env, row);
    if !env.Kills(Queued) && !env.Kills(Loading) && env.load.Ok? {
      AttemptOutcome(cfg, s.db, t.(pc := MarkingSent), env, row);
    }
  }

  /** DELIVERED is not final: an execution that has committed it leaves the row FAILED if and only if the
      reply to that commit was lost and the fatal-error branch's own update takes effect, and DELIVERED in
      every other case. */
  lemma DeliveredIsKept(cfg: Config, s: State, i: nat, env: Replies)
    requires i < |s.tasks| && s.tasks[i].pc.Queued? && s.tasks[i].delivery < |s.db.deliveries|
    requires AfterLoad(cfg, s.db, s.tasks[i].delivery) == MarkingSent
    requires Story(env, s.tasks[i].retries >= cfg.maxRetries).Delivers()
    ensures var d := s.tasks[i].delivery; var s' := Finish(cfg, s, i, env);
      var undone := env.delivered.Lost? && !env.Kills(Failing) && env.failed.Applied();
      && |s'.db.deliveries| == |s.db.deliveries|
      && (s'.db.deliveries[d].status == Failed <==> undone)
      && (s'.db.deliveries[d].status == Delivered <==> !undone)
  {
    FinishOutcome(cfg, s, i, env);
  }

  /** What the worker finds when it loads the rows, case by case in the order it looks. */
  lemma LoadMeans(cfg: Config, db: Db, d: nat)
    ensures var pc := AfterLoad(cfg, db, d);
      if d >= |db.deliveries| || db.deliveries[d].status in {Sent, Delivered, Failed} then pc == Done
      else if db.deliveries[d].notificationId >= |db.notifications| then pc == Done
      else
        var n, c := db.notifications[db.deliveries[d].notificationId], db.deliveries[d].channel;
        if n.templateId == None || n.templateId.value >= |db.templates| then pc == Rejecting(TemplateMissing)
        else if !cfg.renders(db.templates[n.templateId.value], n.variables) then pc == Rejecting(RenderError)
        else if c != Email && c != Sms && c != Push then pc == Rejecting(UnsupportedChannel)
        else pc == MarkingSent
  {
  }

  /** A copy whose delivery is not PENDING, or whose rows are missing, changes nothing; one that cannot be
      sent is failed for that reason. */
  lemma NothingToSend(cfg: Config, s: State, i: nat, env: Replies)
    requires i < |s.tasks| && s.tasks[i].pc.Queued? && s.tasks[i].delivery < |s.db.deliveries|
    requires AfterLoad(cfg, s.db, s.tasks[i].delivery) != MarkingSent
    ensures var t := s.tasks[i]; var row := s.db.deliveries[t.delivery]; var pc := AfterLoad(cfg, s.db, t.delivery);
      var end := EndOf(cfg, s.db, t, env, row);
      && EndsAs(s, i, env, Finish(cfg, s, i, env), end) && !end.retried
      && end.row == if pc.Rejecting? && !env.Kills(Queued) && !env.Kills(Loading) && env.load.Ok? &&
                       !env.Kills(pc) && env.failed.Applied()
                    then row.(status := Failed, error := Some(pc.error)) else row
  {
    FinishEnds(cfg, s.db, s, i, env);
    EndQueued(cfg, s.db, s.tasks[i], env, s.db.deliveries[s.tasks[i].delivery]);
  }
}
