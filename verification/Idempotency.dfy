/** Idempotency keys: the Redis entry of a key, and the service object that locks, completes and deletes
    it. GET and SET NX are separate commands, and neither save nor delete checks who owns the entry. */
module Idempotency {
  import opened Model

  const LOCK_TTL := 120.0

  /** The request body, as stored beside the key and compared on resubmission. */
  datatype Payload = Payload(
    userId: string,
    channels: Option<seq<Channel>>,
    templateName: string,
    variables: Variables,
    priority: Priority)

  /** The response body: the notification and its deliveries as they were when it was built. */
  datatype Body = Body(notificationId: nat, deliveries: seq<Delivery>)

  datatype Value = Lock(payload: Payload) | Done(payload: Payload, statusCode: int, body: Body)

  /** `writer` is the request that wrote the entry. Nothing in the service reads it. */
  datatype Entry = Entry(value: Value, expireAt: real, writer: nat)

  type Store = map<string, Entry>

  datatype Check = Missing | Cached(statusCode: int, body: Body) | PayloadConflict | InProgress

  /** An absent or empty header means no idempotency handling. */
  predicate IsGuarded(key: Option<string>) {
    key.Some? && key.value != ""
  }

  predicate Live(store: Store, key: string, now: real) {
    key in store && now < store[key].expireAt
  }

  /** What GET leads to. */
  function Look(store: Store, key: string, payload: Payload, now: real): Check {
    if !Live(store, key, now) then Missing
    else
      match store[key].value
      case Lock(p) => if p != payload then PayloadConflict else InProgress
      case Done(p, code, body) => if p != payload then PayloadConflict else Cached(code, body)
  }

  /** An entry past its expiry is missing; a live one with another payload is a conflict; otherwise a lock means
      that the first request is still in progress, and a finished response is returned as it is. */
  lemma LookMeans(store: Store, key: string, payload: Payload, now: real)
    ensures var r := Look(store, key, payload, now); var live := key in store && now < store[key].expireAt;
      && (r == Missing <==> !live)
      && (r == PayloadConflict <==> live && store[key].value.payload != payload)
      && (r == InProgress <==> live && store[key].value.payload == payload && store[key].value.Lock?)
      && (r.Cached? <==> live && store[key].value.payload == payload && store[key].value.Done?)
      && (r.Cached? ==> r.statusCode == store[key].value.statusCode && r.body == store[key].value.body)
  {
  }

  function LockEntry(payload: Payload, now: real, writer: nat): Entry {
    Entry(Lock(payload), now + LOCK_TTL, writer)
  }

  /** What SET NX leaves behind: the entry is written only if no live one is there. */
  function SetNx(store: Store, key: string, entry: Entry, now: real): Store {
    if Live(store, key, now) then store else store[key := entry]
  }

  /** A lock written by SET NX holds the payload and lives for 120 seconds; other keys, and a live entry, stay. */
  lemma LockMeans(store: Store, key: string, payload: Payload, now: real, me: nat)
    ensures var after := SetNx(store, key, LockEntry(payload, now, me), now);
      && (key in store && now < store[key].expireAt ==> after == store)
      && (!(key in store && now < store[key].expireAt) ==> after == store[key := Entry(Lock(payload), now + 120.0, me)])
  {
  }

  /** `Unavailable` means that a Redis call raised. */
  datatype CheckResult = Acquired | Answer(check: Check) | Unavailable

  class IdempotencyService {
    const ttl: real
    var store: Store

    constructor (ttl: real)
      ensures store == map[] && this.ttl == ttl
    {
      this.ttl := ttl;
      store := map[];
    }

    /** GET, and what its value means for this payload. */
    method LookUp(key: string, payload: Payload, now: real, reply: Reply) returns (r: CheckResult)
      ensures r == if reply.Ok? then Answer(Look(store, key, payload, now)) else Unavailable
    {
      if !reply.Ok? {
        return Unavailable;
      }
      if key !in store || store[key].expireAt <= now {
        return Answer(Missing);
      }
      var data := store[key].value;
      if data.payload != payload {
        return Answer(PayloadConflict);
      }
      if data.Lock? {
        return Answer(InProgress);
      }
      return Answer(Cached(data.statusCode, data.body));
    }

    /** SET NX with the lock's time to live. */
    method SetLock(key: string, payload: Payload, now: real, me: nat, reply: Reply) returns (r: CheckResult)
      modifies this
      ensures r == if !reply.Ok? then Unavailable
                   else if Live(old(store), key, now) then Answer(InProgress) else Acquired
      ensures store == if reply.Applied() then SetNx(old(store), key, LockEntry(payload, now, me), now) else old(store)
    {
      var success := key !in store || store[key].expireAt <= now;
      if success && reply.Applied() {
        store := store[key := Entry(Lock(payload), now + LOCK_TTL, me)];
      }
      r := if !reply.Ok? then Unavailable else if success then Acquired else Answer(InProgress);
    }

    /** Checks a key and locks it when it is free. `between` is what other requests have made of the store
        between the GET at time t0 and the SET NX at time t1, if they did anything. */
    method CheckOrLock(key: string, payload: Payload, t0: real, t1: real, between: Option<Store>, me: nat,
                       gotten: Reply, locked: Reply) returns (r: CheckResult)
      modifies this
      ensures var seen := Look(old(store), key, payload, t0);
        var met := if between.Some? then between.value else old(store);
        if !gotten.Ok? then r == Unavailable && store == old(store)
        else if seen != Missing then r == Answer(seen) && store == old(store)
        else
          && (r == Acquired <==> locked.Ok? && !Live(met, key, t1))
          && (r == Answer(InProgress) <==> locked.Ok? && Live(met, key, t1))
          && (r == Unavailable <==> !locked.Ok?)
          && store == if locked.Applied() then SetNx(met, key, LockEntry(payload, t1, me), t1) else met
      ensures r == Acquired ==> key in store && store[key] == Entry(Lock(payload), t1 + 120.0, me)
    {
      r := LookUp(key, payload, t0, gotten);
      if r == Answer(Missing) {
        if between.Some? {
          store := between.value;
        }
        r := SetLock(key, payload, t1, me, locked);
      }
    }

    /** Replaces whatever the key holds by the finished response. */
    method SaveResponse(key: string, payload: Payload, statusCode: int, body: Body, now: real, me: nat, reply: Reply)
      returns (raised: bool)
      modifies this
      ensures raised <==> !reply.Ok?
      ensures var entry := Entry(Done(payload, statusCode, body), now + ttl, me);
        store == if reply.Applied() then old(store)[key := entry] else old(store)
    {
      if reply.Applied() {
        store := store[key := Entry(Done(payload, statusCode, body), now + ttl, me)];
      }
      raised := !reply.Ok?;
    }

    /** Removes the key, whoever wrote it. */
    method DeleteKey(key: string, reply: Reply)
      modifies this
      ensures store == if reply.Applied() then old(store) - {key} else old(store)
    {
      if reply.Applied() {
        store := store - {key};
      }
    }
  }
}
