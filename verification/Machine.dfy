/** The delivery protocol as a state machine: handlers that commit and then enqueue, workers that run
    task copies one small step at a time, the broker that may redeliver or lose a copy, and the
    reconciler. Every interleaving of these steps is a run. */
module Machine {
  import opened Model

  /** `renders` tells whether a template renders with the given variables; it is deterministic and
      otherwise unknown. */
  datatype Config = Config(maxRetries: nat, renders: (Template, Variables) -> bool)

  /** Where an execution of the delivery task stands. `Queued` is a copy waiting in the broker, `Done`
      an execution that returned or raised but is not acknowledged yet, `Acked` a copy that is gone. */
  datatype Pc =
    | Queued
    | Loading
    | Rejecting(error: Error)
    | MarkingSent
    | Sending
    | MarkingDelivered
    | Exhausting
    | BackingOff
    | Republishing
    | Failing
    | Done
    | Acked

  /** A copy of the task message. `waited` sums the countdowns issued along its retry chain. */
  datatype Task = Task(delivery: nat, retries: nat, waited: nat, queue: Queue, pc: Pc)

  /** A request handler past its commit, with the deliveries it still has to enqueue. */
  datatype Handler = Handler(todo: seq<nat>, queue: Queue)

  /** A reconciler pass: the rows it still has to re-queue. The other fields remember the moment it
      started: its cutoff, how many deliveries existed, and the losses each had suffered. */
  datatype Pass = Pass(todo: seq<nat>, cutoff: real, rows: nat, losses: seq<nat>)

  /** What happened to one delivery so far. No step of the system reads it. `accepted` counts the provider
      calls that took effect, `successes` those among them that returned. */
  datatype Stats = Stats(
    enqueues: nat,
    redeliveries: nat,
    attempts: nat,
    accepted: nat,
    successes: nat,
    providerErrors: nat,
    fatals: nat,
    faults: nat,
    deaths: nat,
    lostDelivered: bool,
    sentBy: Option<nat>)
  {
    /** Messages lost and infrastructure calls that raised. */
    function Losses(): nat { faults + deaths }
  }

  const NoStats := Stats(0, 0, 0, 0, 0, 0, 0, 0, 0, false, None)

  datatype State = State(
    db: Db,
    now: real,
    tasks: seq<Task>,
    handlers: seq<Handler>,
    passes: seq<Pass>,
    stats: seq<Stats>)

  datatype Event =
    | Tick(to: real)
    | CreateTemplate(template: Template)
    | Accept(notification: Notification, channels: seq<Channel>, createdAt: real)
    | Publish(handler: nat)
    | StartPass(todo: seq<nat>, cutoff: real)
    | Requeue(pass: nat)
    | Work(task: nat, reply: Reply)
    | Redeliver(task: nat)
    | Die(task: nat)

  /** An execution that may still touch the delivery row. */
  predicate Active(pc: Pc) {
    !pc.Queued? && !pc.Done? && !pc.Acked?
  }

  predicate Unfinished(pc: Pc) {
    !pc.Done? && !pc.Acked?
  }

  /** Falls with every step an execution takes. */
  function Rank(pc: Pc): nat {
    match pc
    case Queued => 10
    case Loading => 9
    case MarkingSent => 8
    case Sending => 7
    case BackingOff => 5
    case MarkingDelivered => 4
    case Exhausting => 4
    case Republishing => 4
    case Rejecting(_) => 3
    case Failing => 3
    case Done => 1
    case Acked => 0
  }

  /** The scheduling assumption: executions for one delivery do not overlap. Any number of queued
      duplicates is allowed. */
  ghost predicate Serialized(s: State) {
    forall i, j | 0 <= i < j < |s.tasks| && Active(s.tasks[i].pc) && Active(s.tasks[j].pc) ::
      s.tasks[i].delivery != s.tasks[j].delivery
  }

  /** The queue the reconciler computes for a delivery. */
  function QueueFor(db: Db, d: nat): Queue
    requires d < |db.deliveries|
  {
    var n := db.deliveries[d].notificationId;
    QueueOf(if n < |db.notifications| then db.notifications[n].priority else Normal)
  }

  /** What the worker does once it has loaded the rows. */
  function AfterLoad(cfg: Config, db: Db, d: nat): Pc {
    if d >= |db.deliveries| || db.deliveries[d].status != Pending then Done
    else
      var row := db.deliveries[d];
      if row.notificationId >= |db.notifications| then Done
      else
        var n := db.notifications[row.notificationId];
        if n.templateId.None? || n.templateId.value >= |db.templates| then Rejecting(TemplateMissing)
        else if !cfg.renders(db.templates[n.templateId.value], n.variables) then Rejecting(RenderError)
        else if !Supported(row.channel) then Rejecting(UnsupportedChannel)
        else MarkingSent
  }

  /** The next program point, the status update written (if any), and whether a retry is published. */
  datatype Effect = Effect(pc: Pc, write: Option<Update>, publish: bool)

  function Written(r: Reply, u: Update): Option<Update> {
    if r.Applied() then Some(u) else None
  }

  /** One step of the delivery task, given how the call it makes ends. */
  function Perform(cfg: Config, db: Db, t: Task, r: Reply): Effect {
    match t.pc
    case Queued => Effect(Loading, None, false)
    case Loading => Effect(if r.Ok? then AfterLoad(cfg, db, t.delivery) else Done, None, false)
    case Rejecting(e) => Effect(Done, Written(r, Update(Failed, Some(e), false)), false)
    case MarkingSent => Effect(if r.Ok? then Sending else Failing, Written(r, Update(Sent, None, false)), false)
    case Sending =>
      Effect(match r
             case Ok => MarkingDelivered
             case Refused => if t.retries >= cfg.maxRetries then Exhausting else BackingOff
             case _ => Failing,
             None, false)
    case MarkingDelivered => Effect(if r.Ok? then Done else Failing, Written(r, Update(Delivered, None, false)), false)
    case Exhausting => Effect(Done, Written(r, Update(Failed, Some(MaxRetries), true)), false)
    case BackingOff =>
      Effect(if r.Ok? then Republishing else Done, Written(r, Update(Pending, Some(Transient), true)), false)
    case Republishing => Effect(Done, None, r.Applied())
    case Failing => Effect(Done, Written(r, Update(Failed, Some(Fatal), false)), false)
    case Done => Effect(Acked, None, false)
    case Acked => Effect(Acked, None, false)
  }

  /** The counters after a step of task `i`. */
  function Tally(i: nat, t: Task, r: Reply, st: Stats): Stats {
    match t.pc
    case Queued => st
    case Done => st
    case Acked => st
    case Sending =>
      var st' := st.(attempts := st.attempts + 1, accepted := st.accepted + if r.Applied() then 1 else 0);
      (match r
       case Ok => st'.(successes := st.successes + 1)
       case Refused => st'.(providerErrors := st.providerErrors + 1)
       case _ => st'.(fatals := st.fatals + 1))
    case _ =>
      var st' := if r.Ok? then st else st.(faults := st.faults + 1);
      if t.pc.MarkingSent? && r.Applied() then st'.(sentBy := Some(i))
      else if t.pc.MarkingDelivered? && r.Lost? then st'.(lostDelivered := true)
      else st'
  }

  /** The copy published by a retry: one more retry, in the same queue. */
  function RetryOf(t: Task): Task {
    Task(t.delivery, t.retries + 1, t.waited + Pow4(t.retries), t.queue, Queued)
  }

  function WorkStep(cfg: Config, s: State, i: nat, r: Reply): State
    requires i < |s.tasks|
  {
    var t := s.tasks[i];
    var e := Perform(cfg, s.db, t, r);
    s.(db := if e.write.Some? then UpdateStatus(s.db, t.delivery, e.write.value) else s.db,
       tasks := s.tasks[i := t.(pc := e.pc)] + if e.publish then [RetryOf(t)] else [],
       stats := if t.delivery < |s.stats| then s.stats[t.delivery := Tally(i, t, r, s.stats[t.delivery])] else s.stats)
  }

  function Enqueue(s: State, d: nat, q: Queue): State {
    s.(tasks := s.tasks + [Task(d, 0, 0, q, Queued)],
       stats := if d < |s.stats| then s.stats[d := s.stats[d].(enqueues := s.stats[d].enqueues + 1)] else s.stats)
  }

  /** The broker delivers a copy once more. */
  function RedeliverStep(s: State, i: nat): State
    requires i < |s.tasks|
  {
    var t := s.tasks[i];
    s.(tasks := s.tasks + [t.(pc := Queued)],
       stats := if t.delivery >= |s.stats| then s.stats
                else
                  var st := s.stats[t.delivery];
                  s.stats[t.delivery := st.(redeliveries := st.redeliveries + 1)])
  }

  /** A copy is lost, or the worker that executes it dies. */
  function DieStep(s: State, i: nat): State
    requires i < |s.tasks|
  {
    var t := s.tasks[i];
    s.(tasks := s.tasks[i := t.(pc := Acked)],
       stats := if t.delivery >= |s.stats| then s.stats
                else
                  var st := s.stats[t.delivery];
                  s.stats[t.delivery := st.(deaths := st.deaths + 1)])
  }

  function LossesOf(stats: seq<Stats>): (r: seq<nat>)
    ensures |r| == |stats| && forall d | 0 <= d < |r| :: r[d] == stats[d].Losses()
  {
    seq(|stats|, d requires 0 <= d < |stats| => stats[d].Losses())
  }

  ghost predicate Enabled(cfg: Config, s: State, e: Event) {
    match e
    case Tick(t) => s.now <= t
    case CreateTemplate(_) => true
    case Accept(n, channels, createdAt) =>
      // The handler found the template, rendered it, filtered the channels and won the unique column.
      && createdAt <= s.now
      && n.templateId.Some? && n.templateId.value < |s.db.templates|
      && cfg.renders(s.db.templates[n.templateId.value], n.variables)
      && (forall c | c in channels :: Supported(c))
      && KeyFree(s.db.notifications, n.idempotencyKey)
    case Publish(h) => h < |s.handlers| && s.handlers[h].todo != []
    case StartPass(todo, cutoff) =>
      && cutoff <= s.now
      && (forall d: nat :: d in todo <==>
            d < |s.db.deliveries| && s.db.deliveries[d].status == Pending && s.db.deliveries[d].createdAt < cutoff)
    case Requeue(p) => p < |s.passes| && s.passes[p].todo != [] && s.passes[p].todo[0] < |s.db.deliveries|
    case Work(i, _) => i < |s.tasks| && !s.tasks[i].pc.Acked?
    case Redeliver(i) => i < |s.tasks| && !s.tasks[i].pc.Acked?
    case Die(i) => i < |s.tasks| && !s.tasks[i].pc.Acked?
  }

  ghost function Step(cfg: Config, s: State, e: Event): State
    requires Enabled(cfg, s, e)
  {
    match e
    case Tick(t) => s.(now := t)
    case CreateTemplate(t) => s.(db := s.db.(templates := s.db.templates + [t]))
    case Accept(n, channels, createdAt) =>
      var base := |s.db.deliveries|;
      var db := s.db.(notifications := s.db.notifications + [n]);
      s.(db := CreateDeliveries(db, |s.db.notifications|, channels, createdAt),
         handlers := s.handlers + [Handler(Range(base, |channels|), QueueOf(n.priority))],
         stats := s.stats + seq(|channels|, _ => NoStats))
    case Publish(h) =>
      var hd := s.handlers[h];
      Enqueue(s.(handlers := s.handlers[h := hd.(todo := hd.todo[1..])]), hd.todo[0], hd.queue)
    case StartPass(todo, cutoff) =>
      s.(passes := s.passes + [Pass(todo, cutoff, |s.db.deliveries|, LossesOf(s.stats))])
    case Requeue(p) =>
      var ps := s.passes[p];
      Enqueue(s.(passes := s.passes[p := ps.(todo := ps.todo[1..])]), ps.todo[0], QueueFor(s.db, ps.todo[0]))
    case Work(i, r) => WorkStep(cfg, s, i, r)
    case Redeliver(i) => RedeliverStep(s, i)
    case Die(i) => DieStep(s, i)
  }

  ghost predicate Init(s: State) {
    s.db == Db([], [], [], []) && s.tasks == [] && s.handlers == [] && s.passes == [] && s.stats == []
  }

  /** `ss` is the sequence of states visited by the events `es`. */
  ghost predicate IsPath(cfg: Config, ss: seq<State>, es: seq<Event>) {
    && |ss| == |es| + 1
    && forall k | 0 <= k < |es| :: Enabled(cfg, ss[k], es[k]) && ss[k + 1] == Step(cfg, ss[k], es[k])
  }

  ghost predicate IsRun(cfg: Config, ss: seq<State>, es: seq<Event>) {
    IsPath(cfg, ss, es) && Init(ss[0])
  }

  ghost predicate IsSerializedRun(cfg: Config, ss: seq<State>, es: seq<Event>) {
    IsRun(cfg, ss, es) && forall k | 0 <= k < |ss| :: Serialized(ss[k])
  }
}
