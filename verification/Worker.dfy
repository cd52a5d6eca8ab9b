/** The task bodies as imperative code over the repository and the broker. The backend records the run
    of the protocol machine that its calls amount to, so every result about runs applies to it. */
module Worker {
  import opened Model
  import opened Machine
  import opened Execution
  import opened Repository

  /** A task message in the broker. */
  datatype Message = Message(delivery: nat, retries: nat, queue: Queue)

  /** How a call leaves the execution that makes it: it goes on, an exception was raised, or the worker
      process was killed and nothing after it happens. */
  datatype Outcome = Returned | Threw | Killed

  /** max_age_seconds of the reconciliation job. */
  const STUCK_SECONDS := 300.0

  ghost predicate OnlyActive(s: State, i: nat) {
    forall j | 0 <= j < |s.tasks| && j != i :: !Active(s.tasks[j].pc)
  }

  ghost predicate Idle(s: State) {
    forall j | 0 <= j < |s.tasks| :: !Active(s.tasks[j].pc)
  }

  lemma RunGrows(cfg: Config, ss: seq<State>, es: seq<Event>, e: Event)
    requires IsSerializedRun(cfg, ss, es) && Enabled(cfg, ss[|es|], e)
    requires Serialized(Step(cfg, ss[|es|], e))
    ensures IsSerializedRun(cfg, ss + [Step(cfg, ss[|es|], e)], es + [e])
  {
  }

  class Backend {
    const cfg: Config
    const repo: NotificationRepository
    var messages: seq<Message>
    ghost var states: seq<State>
    ghost var events: seq<Event>

    ghost function Current(): State
      reads this
      requires |states| == |events| + 1
    {
      states[|events|]
    }

    /** The recorded run is a run, and its last state is what the tables and the broker hold. */
    ghost predicate Tracks()
      reads this, repo`committed
    {
      && IsSerializedRun(cfg, states, events)
      && Current().db == repo.committed
      && |Current().tasks| == |messages|
      && forall i | 0 <= i < |messages| ::
           messages[i] == Message(Current().tasks[i].delivery, Current().tasks[i].retries, Current().tasks[i].queue)
    }

    /** No session is open and no execution is under way. */
    ghost predicate Valid()
      reads this, repo
    {
      Tracks() && repo.session == repo.committed && Idle(Current())
    }

    constructor (cfg: Config, now: real)
      ensures Valid() && fresh(repo) && messages == [] && this.cfg == cfg && repo.committed == Db([], [], [], [])
      ensures events == [] && Current() == State(Db([], [], [], []), now, [], [], [], [])
    {
      this.cfg := cfg;
      repo := new NotificationRepository(Db([], [], [], []));
      messages := [];
      states := [State(Db([], [], [], []), now, [], [], [], [])];
      events := [];
    }

    ghost method Observe(e: Event)
      requires IsSerializedRun(cfg, states, events) && Enabled(cfg, Current(), e)
      requires Serialized(Step(cfg, Current(), e))
      modifies this`states, this`events
      ensures events == old(events) + [e] && states == old(states) + [Step(cfg, old(Current()), e)]
      ensures IsSerializedRun(cfg, states, events)
    {
      RunGrows(cfg, states, events, e);
      states, events := states + [Step(cfg, Current(), e)], events + [e];
    }

    // ---------------------------------------------------------------- one execution

    /** Execution `i` is the only one under way, and its session has nothing uncommitted. */
    ghost predicate Executing(i: nat)
      reads this, repo
    {
      Tracks() && repo.session == repo.committed && i < |messages| && OnlyActive(Current(), i)
    }

    /** It stands at `pc`. */
    ghost predicate At(i: nat, pc: Pc)
      reads this, repo
    {
      Executing(i) && Current().tasks[i].pc == pc
    }

    /** It has returned, raised or been killed. */
    ghost predicate Over(i: nat)
      reads this, repo
    {
      Executing(i) && !Unfinished(Current().tasks[i].pc)
    }

    /** Execution `i` has still to do what it had to do when the state was `s`. */
    ghost predicate Towards(s: State, i: nat, env: Replies)
      reads this
      requires |states| == |events| + 1
    {
      && i < |s.tasks| && i < |Current().tasks|
      && Finish(cfg, Current(), i, env) == Finish(cfg, s, i, env)
    }

    /** While execution `i` is under way, its copy is delivered once more. */
    method Duplicate(i: nat)
      requires Executing(i) && Unfinished(Current().tasks[i].pc)
      modifies this
      ensures Executing(i) && old(events) <= events && Current() == RedeliverStep(old(Current()), i)
    {
      messages := messages + [messages[i]];
      Observe(Machine.Redeliver(i));
    }

    /** The worker process of execution `i` is killed; the broker may deliver the copy again. */
    method Crash(i: nat, redelivered: bool)
      requires Executing(i) && Unfinished(Current().tasks[i].pc)
      modifies this
      ensures Over(i) && old(events) <= events && Current() == AfterDeath(old(Current()), i, redelivered)
    {
      if redelivered {
        Duplicate(i);
      }
      Observe(Machine.Die(i));
    }

    /** The same where `env` says so. */
    method Die(i: nat, env: Replies, ghost pc: Pc)
      requires At(i, pc) && Unfinished(pc) && env.Kills(pc)
      modifies this
      ensures Over(i) && old(events) <= events && Towards(old(Current()), i, env)
    {
      FinishDeath(cfg, Current(), i, env);
      Crash(i, env.death.value.redelivered);
    }

    /** A step of execution `i` that writes nothing and publishes nothing. */
    method Pass(i: nat, env: Replies, pc: Pc) returns (alive: bool)
      requires At(i, pc) && Unfinished(pc)
      requires var e := Perform(cfg, Current().db, Current().tasks[i], env.At(pc)); e.write.None? && !e.publish
      modifies this
      ensures alive <==> !env.Kills(pc)
      ensures alive ==> At(i, Perform(cfg, old(Current().db), old(Current().tasks[i]), env.At(pc)).pc)
      ensures alive ==> messages == old(messages)
      ensures !alive ==> Over(i)
      ensures old(events) <= events && Towards(old(Current()), i, env)
    {
      if env.death.Some? && env.death.value.at == pc {
        Die(i, env, pc);
        return false;
      }
      Observe(Work(i, env.At(pc)));
      alive := true;
    }

    /** A status update by execution `i`. */
    method Write(i: nat, u: Update, env: Replies, pc: Pc) returns (r: Outcome)
      requires At(i, pc) && Unfinished(pc)
      requires var e := Perform(cfg, Current().db, Current().tasks[i], env.At(pc));
        e.write == Written(env.At(pc), u) && !e.publish
      modifies this, repo
      ensures r == if env.Kills(pc) then Killed else if env.At(pc).Ok? then Returned else Threw
      ensures r != Killed ==> At(i, Perform(cfg, old(Current().db), old(Current().tasks[i]), env.At(pc)).pc)
      ensures r != Killed ==> messages == old(messages)
      ensures r == Killed ==> Over(i)
      ensures old(events) <= events && Towards(old(Current()), i, env)
    {
      if env.death.Some? && env.death.value.at == pc {
        Die(i, env, pc);
        return Killed;
      }
      var raised := repo.UpdateDeliveryStatus(messages[i].delivery, u, env.At(pc));
      Observe(Work(i, env.At(pc)));
      r := if raised then Threw else Returned;
    }

    /** The broker call of the retry of execution `i`: one more retry, in the same queue. */
    method PublishRetry(i: nat, reply: Reply)
      requires At(i, Republishing)
      modifies this
      ensures Over(i) && old(events) <= events && Current() == WorkStep(cfg, old(Current()), i, reply)
    {
      if reply.Applied() {
        messages := messages + [Message(messages[i].delivery, messages[i].retries + 1, messages[i].queue)];
      }
      Observe(Work(i, reply));
    }

    method Retry(i: nat, env: Replies)
      requires At(i, Republishing)
      modifies this
      ensures Over(i)
      ensures old(events) <= events && Towards(old(Current()), i, env)
    {
      if env.death.Some? && env.death.value.at == Republishing {
        Die(i, env, Republishing);
      } else {
        PublishRetry(i, env.retry);
      }
    }

    /** Loads the rows and the template and rejects what cannot be sent. */
    method Load(i: nat, env: Replies) returns (ready: bool)
      requires At(i, Loading)
      modifies this, repo
      ensures ready ==> At(i, MarkingSent)
      ensures !ready ==> Over(i)
      ensures old(events) <= events && Towards(old(Current()), i, env)
    {
      var d := messages[i].delivery;
      var alive := Pass(i, env, Loading);
      if !alive || !env.load.Ok? || d >= |repo.session.deliveries| {
        return false;
      }
      var delivery := repo.session.deliveries[d];
      if delivery.status == Sent || delivery.status == Delivered || delivery.status == Failed {
        return false;
      }
      if delivery.notificationId >= |repo.session.notifications| {
        return false;
      }
      var notification := repo.session.notifications[delivery.notificationId];
      var error := None;
      if notification.templateId.None? || notification.templateId.value >= |repo.session.templates| {
        error := Some(TemplateMissing);
      } else if !cfg.renders(repo.session.templates[notification.templateId.value], notification.variables) {
        error := Some(RenderError);
      } else if !delivery.channel.Email? && !delivery.channel.Sms? && !delivery.channel.Push? {
        error := Some(UnsupportedChannel);
      }
      if error.Some? {
        var _ := Write(i, Update(Failed, error, false), env, Rejecting(error.value));
      }
      ready := error.None?;
    }

    /** After a ProviderError: give up when the retries are used up, otherwise back to PENDING and retry. */
    method HandleProviderError(i: nat, env: Replies)
      requires i < |messages| && At(i, if messages[i].retries >= cfg.maxRetries then Exhausting else BackingOff)
      modifies this, repo
      ensures Over(i)
      ensures old(events) <= events && Towards(old(Current()), i, env)
    {
      if messages[i].retries >= cfg.maxRetries {
        var _ := Write(i, Update(Failed, Some(MaxRetries), true), env, Exhausting);
      } else {
        var r := Write(i, Update(Pending, Some(Transient), true), env, BackingOff);
        if r.Returned? {
          Retry(i, env);
        }
      }
    }

    /** Calls the provider and marks DELIVERED or handles its error; says whether something else was raised. */
    method CallProvider(i: nat, env: Replies) returns (r: Outcome)
      requires At(i, Sending)
      modifies this, repo
      ensures r.Threw? ==> At(i, Failing)
      ensures !r.Threw? ==> Over(i)
      ensures old(events) <= events && Towards(old(Current()), i, env)
    {
      var alive := Pass(i, env, Sending);
      if !alive {
        return Killed;
      }
      match env.provider {
        case Ok =>
          r := Write(i, Update(Delivered, None, false), env, MarkingDelivered);
        case Refused =>
          HandleProviderError(i, env);
          r := Returned;
        case _ =>
          r := Threw;
      }
    }

    /** Marks SENT, calls the provider, and marks DELIVERED, retries or fails. */
    method Attempt(i: nat, env: Replies)
      requires At(i, MarkingSent)
      modifies this, repo
      ensures Over(i)
      ensures old(events) <= events && Towards(old(Current()), i, env)
    {
      var r := Write(i, Update(Sent, None, false), env, MarkingSent);
      if r.Returned? {
        r := CallProvider(i, env);
      }
      if r.Threw? {
        r := Write(i, Update(Failed, Some(Fatal), false), env, Failing);
      }
    }

    /** The delivery task, executed until it returns, raises or is killed: the backend arrives where the
        machine does. */
    method SendNotificationDelivery(i: nat, env: Replies)
      requires Valid() && i < |messages| && Current().tasks[i].pc.Queued?
      modifies this, repo
      ensures Valid() && old(events) <= events
      ensures i < |old(Current()).tasks| && Current() == Finish(cfg, old(Current()), i, env)
    {
      var alive := Pass(i, env, Queued);
      if !alive {
        return;
      }
      var ready := Load(i, env);
      if ready {
        Attempt(i, env);
      }
    }

    // ---------------------------------------------------------------- the broker

    /** The broker delivers a copy once more: an unacknowledged one, or one whose worker is gone. */
    method Redeliver(i: nat)
      requires Valid() && i < |messages| && !Current().tasks[i].pc.Acked?
      modifies this
      ensures Valid() && Current() == RedeliverStep(old(Current()), i)
      ensures messages == old(messages) + [old(messages)[i]]
    {
      messages := messages + [messages[i]];
      Observe(Machine.Redeliver(i));
    }

    /** The broker loses a copy. */
    ghost method Lose(i: nat)
      requires Valid() && i < |messages| && !Current().tasks[i].pc.Acked?
      modifies this`states, this`events
      ensures Valid() && Current() == DieStep(old(Current()), i)
    {
      Observe(Machine.Die(i));
    }

    /** An execution that has come to its end is acknowledged. */
    ghost method Acknowledge(i: nat)
      requires Valid() && i < |messages| && Current().tasks[i].pc.Done?
      modifies this`states, this`events
      ensures Valid() && Current() == WorkStep(cfg, old(Current()), i, Ok)
    {
      Observe(Work(i, Ok));
    }

    // ---------------------------------------------------------------- reconciliation

    /** The periodic job: every delivery PENDING for more than five minutes is enqueued afresh, in the
        queue of its notification's priority, until a call raises. Pass `p` of the machine records it. */
    method ReconcilePendingDeliveries(now: real, broker: Broker) returns (stuck: seq<nat>, raised: bool, ghost p: nat)
      requires Valid() && Current().now <= now
      modifies this
      ensures Valid() && old(events) <= events && Current().now == now
      ensures forall d: nat :: d in stuck <==>
                && d < |repo.committed.deliveries|
                && repo.committed.deliveries[d].status == Pending
                && repo.committed.deliveries[d].createdAt < now - 300.0
      ensures forall j, k | 0 <= j < k < |stuck| :: stuck[j] < stuck[k]
      ensures raised <==> broker.served < |stuck|
      ensures Enqueued(old(messages), stuck, broker.Sent(|stuck|))
      ensures Sweeps(p, now - 300.0, stuck[broker.Sent(|stuck|)..])
    {
      Observe(Tick(now));
      stuck := repo.GetPendingDeliveries(now - STUCK_SECONDS);
      p := |Current().passes|;
      Observe(StartPass(stuck, now - STUCK_SECONDS));
      assert forall k | 0 <= k < |stuck| :: stuck[k] in stuck;
      raised := EnqueueAll(stuck, broker, now - STUCK_SECONDS, p);
    }

    /** The loop over the stuck rows. */
    method EnqueueAll(stuck: seq<nat>, broker: Broker, ghost cutoff: real, ghost p: nat) returns (raised: bool)
      requires Valid() && Sweeps(p, cutoff, stuck)
      requires forall k | 0 <= k < |stuck| :: stuck[k] < |repo.committed.deliveries|
      modifies this
      ensures Valid() && old(events) <= events && Current().now == old(Current()).now
      ensures raised <==> broker.served < |stuck|
      ensures Enqueued(old(messages), stuck, broker.Sent(|stuck|))
      ensures Sweeps(p, cutoff, stuck[broker.Sent(|stuck|)..])
    {
      var k := 0;
      while k < |stuck|
        invariant k <= |stuck| && k <= broker.served
        invariant Valid() && old(events) <= events && Current().now == old(Current()).now
        invariant Sweeps(p, cutoff, stuck[k..])
        invariant Enqueued(old(messages), stuck, k)
      {
        raised := EnqueueStuck(stuck[k], broker.ReplyTo(k), p);
        if raised {
          return;
        }
        k := k + 1;
      }
      raised := false;
    }

    /** The first n of these deliveries have each got a fresh copy since the messages were `before`. */
    ghost predicate Enqueued(before: seq<Message>, stuck: seq<nat>, n: nat)
      reads this, repo
    {
      && n <= |stuck| && |messages| == |before| + n && before <= messages
      && forall k | 0 <= k < n :: stuck[k] < |repo.committed.deliveries| &&
           messages[|before| + k] == Message(stuck[k], 0, QueueFor(repo.committed, stuck[k]))
    }

    /** Pass `p`, begun with this cutoff and all rows there are, has these rows left. */
    ghost predicate Sweeps(p: nat, cutoff: real, todo: seq<nat>)
      reads this, repo
    {
      && |states| == |events| + 1 && p < |Current().passes|
      && var ps := Current().passes[p];
      && ps.cutoff == cutoff && ps.rows == |repo.committed.deliveries| && ps.todo == todo
    }

    /** One stuck row: looks its notification up and enqueues a fresh copy. */
    method EnqueueStuck(d: nat, reply: Reply, ghost p: nat) returns (raised: bool)
      requires Valid() && d < |repo.session.deliveries|
      requires p < |Current().passes| && Current().passes[p].todo != [] && Current().passes[p].todo[0] == d
      modifies this
      ensures Valid() && old(events) <= events && Current().now == old(Current()).now
      ensures raised <==> !reply.Ok?
      ensures p < |Current().passes| && var ps := old(Current()).passes[p];
        Current().passes[p] == if reply.Applied() then ps.(todo := ps.todo[1..]) else ps
      ensures messages == old(messages) + if reply.Applied() then [Message(d, 0, QueueFor(repo.committed, d))] else []
      ensures reply.Applied() ==>
                var db, queue := repo.committed, messages[|old(messages)|].queue;
                var n := db.deliveries[d].notificationId;
                if n < |db.notifications| then
                  && (queue == CriticalQueue <==> db.notifications[n].priority == Critical)
                  && (queue == HighQueue <==> db.notifications[n].priority == High)
                  && (queue == DefaultQueue <==> db.notifications[n].priority == Normal)
                  && (queue == LowQueue <==> db.notifications[n].priority == Low)
                else queue == DefaultQueue
    {
      var n := repo.session.deliveries[d].notificationId;
      var priority := if n < |repo.session.notifications| then repo.session.notifications[n].priority else Normal;
      if reply.Applied() {
        messages := messages + [Message(d, 0, QueueOf(priority))];
        Observe(Requeue(p));
      }
      raised := !reply.Ok?;
    }

    // ---------------------------------------------------------------- for the request handler

    method CreateTemplate(t: Template)
      requires Valid()
      modifies repo, this`states, this`events
      ensures Valid() && old(events) <= events && Current().now == old(Current()).now
      ensures repo.committed == old(repo.committed).(templates := old(repo.committed).templates + [t])
    {
      repo.CreateTemplate(t);
      Observe(Machine.CreateTemplate(t));
    }

    /** Time passes. */
    ghost method Wait(now: real)
      requires Valid() && Current().now <= now
      modifies this`states, this`events
      ensures Valid() && old(events) <= events
      ensures Current() == old(Current()).(now := now)
    {
      Observe(Tick(now));
    }

    /** Commits the rows a handler inserted for an accepted notification: all of them become visible at once. */
    method CommitAccepted(n: Notification, channels: seq<Channel>, createdAt: real)
      requires Tracks() && Idle(Current()) && Enabled(cfg, Current(), Accept(n, channels, createdAt))
      requires repo.session == WithRows(repo.committed, n, channels, createdAt)
      modifies repo, this`states, this`events
      ensures Valid() && old(events) <= events
      ensures repo.committed == old(repo.session)
      ensures Current() == Step(cfg, old(Current()), Accept(n, channels, createdAt))
    {
      repo.Commit();
      Observe(Accept(n, channels, createdAt));
    }

    /** Enqueues the next delivery of handler `h`. */
    method ApplyAsync(d: nat, q: Queue, reply: Reply, ghost h: nat) returns (raised: bool)
      requires Valid() && h < |Current().handlers|
      requires Current().handlers[h].todo != [] && Current().handlers[h].todo[0] == d
      requires Current().handlers[h].queue == q
      modifies this
      ensures Valid() && old(events) <= events && |Current().handlers| == |old(Current()).handlers|
      ensures raised <==> !reply.Ok?
      ensures Current().handlers[h] ==
              if reply.Applied() then old(Current()).handlers[h].(todo := old(Current()).handlers[h].todo[1..])
              else old(Current()).handlers[h]
      ensures messages == old(messages) + if reply.Applied() then [Message(d, 0, q)] else []
      ensures Current().now == old(Current()).now
    {
      if reply.Applied() {
        messages := messages + [Message(d, 0, q)];
        Observe(Publish(h));
      }
      raised := !reply.Ok?;
    }
  }
}
