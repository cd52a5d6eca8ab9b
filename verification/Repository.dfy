/** The notification repository: a database session whose uncommitted rows only it can see. */
module Repository {
  import opened Model

  datatype Insert = Inserted(id: nat) | IntegrityError

  class NotificationRepository {
    /** The committed tables, and the tables as this session sees them. */
    var committed: Db
    var session: Db

    constructor (db: Db)
      ensures committed == db && session == db
    {
      committed, session := db, db;
    }

    /** Inserts a template and commits. */
    method CreateTemplate(t: Template)
      requires session == committed
      modifies this
      ensures committed == session == old(committed).(templates := old(committed).templates + [t])
    {
      session := session.(templates := session.templates + [t]);
      committed := session;
    }

    /** Inserts a notification row without committing. The unique column refuses it exactly when it has a key
        that another row has already. */
    method CreateNotification(n: Notification) returns (r: Insert)
      modifies this`session
      ensures r.IntegrityError? <==>
                && n.idempotencyKey.Some?
                && exists m :: 0 <= m < |old(session).notifications| &&
                               old(session).notifications[m].idempotencyKey == n.idempotencyKey
      ensures KeyFree(old(session).notifications, n.idempotencyKey) ==>
                && r == Inserted(|old(session).notifications|)
                && session == old(session).(notifications := old(session).notifications + [n])
      ensures !KeyFree(old(session).notifications, n.idempotencyKey) ==> r.IntegrityError? && session == old(session)
    {
      if !KeyFree(session.notifications, n.idempotencyKey) {
        return IntegrityError;
      }
      r := Inserted(|session.notifications|);
      session := session.(notifications := session.notifications + [n]);
    }

    /** Inserts a PENDING delivery row and its first log row without committing. */
    method CreateDelivery(notificationId: nat, channel: Channel, createdAt: real) returns (id: nat)
      modifies this`session
      ensures id == |old(session).deliveries|
      ensures session == Model.CreateDelivery(old(session), notificationId, channel, createdAt)
    {
      id := |session.deliveries|;
      var delivery := Delivery(notificationId, channel, Pending, 0, None, createdAt);
      session := session.(deliveries := session.deliveries + [delivery]);
      session := session.(log := session.log + [LogEntry(id, None, Pending)]);
    }

    /** Updates status, error message and retry counter, appends the log row and commits. The whole
        update takes effect or none of it does, also when the call raises. */
    method UpdateDeliveryStatus(d: nat, u: Update, reply: Reply) returns (raised: bool)
      requires session == committed
      modifies this
      ensures raised <==> !reply.Ok?
      ensures session == committed
      ensures committed == if reply.Applied() then UpdateStatus(old(committed), d, u) else old(committed)
    {
      raised := !reply.Ok?;
      if d >= |session.deliveries| {
        return;
      }
      var from := session.deliveries[d].status;
      session := session.(deliveries := session.deliveries[d := session.deliveries[d].(status := u.to)]);
      if u.error.Some? {
        session := session.(deliveries := session.deliveries[d := session.deliveries[d].(error := u.error)]);
      }
      if u.bump {
        var count := session.deliveries[d].retryCount + 1;
        session := session.(deliveries := session.deliveries[d := session.deliveries[d].(retryCount := count)]);
      }
      session := session.(log := session.log + [LogEntry(d, Some(from), u.to)]);
      if reply.Applied() {
        committed := session;
      } else {
        session := committed;
      }
    }

    /** The deliveries that are still PENDING and were created before the cutoff, each once. */
    method GetPendingDeliveries(cutoff: real) returns (ids: seq<nat>)
      ensures forall d: nat :: d in ids <==>
                && d < |session.deliveries|
                && session.deliveries[d].status == Pending && session.deliveries[d].createdAt < cutoff
      ensures forall j, k | 0 <= j < k < |ids| :: ids[j] < ids[k]
    {
      ids := [];
      for n := 0 to |session.deliveries|
        invariant forall d: nat :: d in ids <==>
                    d < n && session.deliveries[d].status == Pending && session.deliveries[d].createdAt < cutoff
        invariant forall k | 0 <= k < |ids| :: ids[k] < n
        invariant forall j, k | 0 <= j < k < |ids| :: ids[j] < ids[k]
      {
        if session.deliveries[n].status == Pending && session.deliveries[n].createdAt < cutoff {
          ids := ids + [n];
        }
      }
    }

    method Commit()
      modifies this`committed
      ensures committed == session
    {
      committed := session;
    }

    /** Closing the session throws its uncommitted rows away. */
    method Close()
      modifies this`session
      ensures session == committed
    {
      session := committed;
    }
  }
}
