/** For every maximum of retries, the run in which the provider refuses every time: the bounds on calls,
    counted retries and countdowns are reached. */
module Exhausted {
  import opened Model
  import opened Machine
  import opened Witness
  import Bounds

  /** What the one delivery of the run has been through: its row, and what happened to it. */
  ghost predicate Counts(s: State, status: Status, retryCount: nat, attempts: nat) {
    && s.db.templates == [TEMPLATE] && s.db.notifications == [NOTIFICATION]
    && |s.db.deliveries| == 1 && |s.stats| == 1
    && s.db.deliveries[0].notificationId == 0 && s.db.deliveries[0].channel == Email
    && s.db.deliveries[0].status == status && s.db.deliveries[0].retryCount == retryCount
    && s.stats[0].enqueues == 1 && s.stats[0].redeliveries == 0 && s.stats[0].attempts == attempts
  }

  /** n copies are done, and the n-th retry stands at this point. */
  ghost predicate Chain(s: State, n: nat, pc: Pc) {
    && |s.tasks| == n + 1
    && (forall i | 0 <= i < n :: s.tasks[i].delivery == 0 && s.tasks[i].pc.Done?)
    && s.tasks[n] == Task(0, n, Bounds.Geometric(n), DefaultQueue, pc)
  }

  /** One step of the last copy. */
  lemma Steps(m: nat, t: Trace, n: nat, pc: Pc, r: Reply) returns (t': Trace)
    requires t.ValidSerialized(m) && Chain(t.Last(), n, pc) && !pc.Acked? && !pc.Republishing?
    ensures t'.ValidSerialized(m) && t'.Last() == WorkStep(Cfg(m), t.Last(), n, r)
    ensures Chain(t'.Last(), n, Perform(Cfg(m), t.Last().db, t.Last().tasks[n], r).pc)
  {
    t' := Then(m, t, Work(n, r));
    var t0, s' := t.Last().tasks[n], t'.Last();
    assert s'.tasks == t.Last().tasks[n := t0.(pc := Perform(Cfg(m), t.Last().db, t0, r).pc)];
  }

  lemma Sends(m: nat, t: Trace, n: nat) returns (r: Trace)
    requires t.ValidSerialized(m) && Chain(t.Last(), n, Queued) && Counts(t.Last(), Pending, n, n)
    ensures r.ValidSerialized(m) && Chain(r.Last(), n, Sending) && Counts(r.Last(), Sent, n, n)
  {
    r := Steps(m, t, n, Queued, Ok);
    assert Counts(r.Last(), Pending, n, n);
    r := Steps(m, r, n, Loading, Ok);
    assert Counts(r.Last(), Pending, n, n);
    r := Steps(m, r, n, MarkingSent, Ok);
  }

  lemma IsRefused(m: nat, t: Trace, n: nat) returns (r: Trace)
    requires t.ValidSerialized(m) && Chain(t.Last(), n, Sending) && Counts(t.Last(), Sent, n, n)
    ensures r.ValidSerialized(m) && Chain(r.Last(), n, if n >= m then Exhausting else BackingOff)
    ensures Counts(r.Last(), Sent, n, n + 1)
  {
    r := Steps(m, t, n, Sending, Refused);
  }

  lemma BacksOff(m: nat, t: Trace, n: nat) returns (r: Trace)
    requires t.ValidSerialized(m) && Chain(t.Last(), n, BackingOff) && Counts(t.Last(), Sent, n, n + 1)
    ensures r.ValidSerialized(m) && Chain(r.Last(), n, Republishing) && Counts(r.Last(), Pending, n + 1, n + 1)
  {
    r := Steps(m, t, n, BackingOff, Ok);
  }

  lemma Retries(m: nat, t: Trace, n: nat) returns (r: Trace)
    requires t.ValidSerialized(m) && Chain(t.Last(), n, Republishing) && Counts(t.Last(), Pending, n + 1, n + 1)
    ensures r.ValidSerialized(m) && Chain(r.Last(), n + 1, Queued) && Counts(r.Last(), Pending, n + 1, n + 1)
  {
    Bounds.GeometricSum(n);
    r := Then(m, t, Work(n, Ok));
    var t0 := t.Last().tasks[n];
    assert r.Last().tasks == t.Last().tasks[n := t0.(pc := Done)] + [RetryOf(t0)];
  }

  /** n refusals, each with its back-off and retry. */
  lemma {:induction false} Refusals(m: nat, n: nat) returns (t: Trace)
    requires n <= m
    ensures t.ValidSerialized(m) && Chain(t.Last(), n, Queued) && Counts(t.Last(), Pending, n, n)
  {
    if n == 0 {
      t := OneDelivery(m);
    } else {
      t := Refusals(m, n - 1);
      t := Sends(m, t, n - 1);
      t := IsRefused(m, t, n - 1);
      t := BacksOff(m, t, n - 1);
      t := Retries(m, t, n - 1);
    }
  }

  /** For every maximum of retries m there is a run without overlap, enqueueing the delivery once, in which
      it is sent m + 1 times and fails with m + 1 counted retries, after countdowns of (4^m - 1) / 3. */
  lemma BoundsAreReached(m: nat) returns (t: Trace)
    ensures t.ValidSerialized(m) && |t.Last().stats| == 1 == |t.Last().db.deliveries|
    ensures t.Last().stats[0].enqueues == 1 && t.Last().stats[0].redeliveries == 0
    ensures t.Last().stats[0].attempts == m + 1
    ensures t.Last().db.deliveries[0].status == Failed && t.Last().db.deliveries[0].error == Some(MaxRetries)
    ensures t.Last().db.deliveries[0].retryCount == m + 1
    ensures exists c :: 0 <= c < |t.Last().tasks| &&
              t.Last().tasks[c].retries == m && t.Last().tasks[c].waited == (Pow4(m) - 1) / 3
  {
    Bounds.GeometricSum(m);
    t := Refusals(m, m);
    t := Sends(m, t, m);
    t := IsRefused(m, t, m);
    t := Steps(m, t, m, Exhausting, Ok);
    assert t.Last().tasks[m].retries == m;
  }
}
