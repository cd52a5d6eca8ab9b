/** The rows of the notification database and what one repository call does to them.

    Tables only ever grow: the application deletes no row. A row's identifier is its position in its
    table, which stands for a primary key that is never reused. */
module Model {

  datatype Option<+T> = None | Some(value: T)

  datatype Status = Pending | Sent | Delivered | Failed

  datatype Priority = Critical | High | Normal | Low

  datatype Queue = CriticalQueue | HighQueue | DefaultQueue | LowQueue

  datatype Channel = Email | Sms | Push | Other(name: string)

  type Variables = map<string, string>

  datatype Template = Template(name: string, subject: Option<string>, content: string)

  datatype Notification = Notification(
    userId: string,
    templateId: Option<nat>,
    variables: Variables,
    priority: Priority,
    idempotencyKey: Option<string>)

  /** The reason a delivery row carries in its error message. */
  datatype Error = TemplateMissing | RenderError | UnsupportedChannel | MaxRetries | Transient | Fatal

  datatype Delivery = Delivery(
    notificationId: nat,
    channel: Channel,
    status: Status,
    retryCount: nat,
    error: Option<Error>,
    createdAt: real)

  /** One row of the status log; `from` is None for the entry written when the delivery is created. */
  datatype LogEntry = LogEntry(delivery: nat, from: Option<Status>, to: Status)

  datatype Db = Db(
    templates: seq<Template>,
    notifications: seq<Notification>,
    deliveries: seq<Delivery>,
    log: seq<LogEntry>)

  /** How an outside call ends: it succeeds, the provider refuses (ProviderError), it raises with no
      effect, or it raises after its effect took place (a lost reply, or a failing refresh after a
      successful commit). */
  datatype Reply = Ok | Refused | Raised | Lost {
    predicate Applied() { Ok? || Lost? }
  }

  /** How the broker calls of one enqueue loop end: the first `served` succeed, and the next one raises, after
      taking effect if `lost`. */
  datatype Broker = Broker(served: nat, lost: bool) {
    function ReplyTo(k: nat): Reply {
      if k < served then Ok else if lost then Lost else Raised
    }

    /** How many of n messages are enqueued. */
    function Sent(n: nat): nat {
      if n <= served then n else served + if lost then 1 else 0
    }
  }

  /** The queue a priority is routed to. */
  function QueueOf(p: Priority): Queue {
    match p
    case Critical => CriticalQueue
    case High => HighQueue
    case Normal => DefaultQueue
    case Low => LowQueue
  }

  predicate Supported(c: Channel) {
    c.Email? || c.Sms? || c.Push?
  }

  /** The arguments of one status update. */
  datatype Update = Update(to: Status, error: Option<Error>, bump: bool)

  function UpdateRow(row: Delivery, u: Update): Delivery {
    row.(status := u.to,
         error := if u.error.Some? then u.error else row.error,
         retryCount := if u.bump then row.retryCount + 1 else row.retryCount)
  }

  /** The status updater: nothing happens when the row does not exist. */
  function UpdateStatus(db: Db, d: nat, u: Update): Db {
    if d >= |db.deliveries| then db
    else db.(deliveries := db.deliveries[d := UpdateRow(db.deliveries[d], u)],
             log := db.log + [LogEntry(d, Some(db.deliveries[d].status), u.to)])
  }

  /** What an update means for the tables: status, message and retry counter of one row, and one log entry. A
      message is written only when one is passed; nothing else changes, and nothing at all for a missing row. */
  lemma UpdateMeans(db: Db, d: nat, u: Update)
    ensures d >= |db.deliveries| ==> UpdateStatus(db, d, u) == db
    ensures d < |db.deliveries| ==>
      var row, db' := db.deliveries[d], UpdateStatus(db, d, u);
      && db'.templates == db.templates && db'.notifications == db.notifications
      && |db'.deliveries| == |db.deliveries|
      && (forall k | 0 <= k < |db.deliveries| && k != d :: db'.deliveries[k] == db.deliveries[k])
      && db'.deliveries[d].status == u.to
      && (u.error.None? ==> db'.deliveries[d].error == row.error)
      && (u.error.Some? ==> db'.deliveries[d].error == u.error)
      && db'.deliveries[d].retryCount == row.retryCount + (if u.bump then 1 else 0)
      && db'.deliveries[d].notificationId == row.notificationId && db'.deliveries[d].channel == row.channel
      && db'.deliveries[d].createdAt == row.createdAt
      && db'.log == db.log + [LogEntry(d, Some(row.status), u.to)]
  {
  }

  /** A new PENDING delivery and the first entry of its log. */
  function CreateDelivery(db: Db, notificationId: nat, channel: Channel, createdAt: real): Db {
    db.(deliveries := db.deliveries + [Delivery(notificationId, channel, Pending, 0, None, createdAt)],
        log := db.log + [LogEntry(|db.deliveries|, None, Pending)])
  }

  /** One delivery per channel, in order. */
  function CreateDeliveries(db: Db, notificationId: nat, channels: seq<Channel>, createdAt: real): (r: Db)
    ensures r.templates == db.templates && r.notifications == db.notifications
    ensures |r.deliveries| == |db.deliveries| + |channels|
  {
    if channels == [] then db
    else
      var n := |channels| - 1;
      CreateDelivery(CreateDeliveries(db, notificationId, channels[..n], createdAt),
                     notificationId, channels[n], createdAt)
  }

  /** The tables once a notification and its deliveries are inserted. */
  function WithRows(db: Db, n: Notification, channels: seq<Channel>, createdAt: real): (r: Db)
    ensures r.templates == db.templates && r.notifications == db.notifications + [n]
    ensures |r.deliveries| == |db.deliveries| + |channels|
  {
    CreateDeliveries(db.(notifications := db.notifications + [n]), |db.notifications|, channels, createdAt)
  }

  /** The n identifiers from `base` on. */
  function Range(base: nat, n: nat): (r: seq<nat>)
    ensures |r| == n && forall k | 0 <= k < n :: r[k] == base + k
  {
    seq(n, (k: nat) => base + k)
  }

  /** The unique column: no notification carries this key yet. NULL keys never clash. */
  predicate KeyFree(notifications: seq<Notification>, key: Option<string>) {
    key.None? || forall n | 0 <= n < |notifications| :: notifications[n].idempotencyKey != key
  }

  /** The log entries of one delivery, oldest first. */
  function History(log: seq<LogEntry>, d: nat): seq<LogEntry> {
    if log == [] then []
    else
      var n := |log| - 1;
      History(log[..n], d) + if log[n].delivery == d then [log[n]] else []
  }

  lemma HistorySnoc(log: seq<LogEntry>, e: LogEntry, d: nat)
    ensures History(log + [e], d) == History(log, d) + if e.delivery == d then [e] else []
  {
    assert (log + [e])[..|log|] == log;
  }

  lemma {:induction false} HistoryAbsent(log: seq<LogEntry>, d: nat)
    requires forall k | 0 <= k < |log| :: log[k].delivery != d
    ensures History(log, d) == []
  {
    if log != [] {
      HistoryAbsent(log[..|log| - 1], d);
    }
  }

  function Pow4(n: nat): nat {
    if n == 0 then 1 else 4 * Pow4(n - 1)
  }
}
