/** The RabbitMQ retry queue in time. One first-in-first-out queue holds messages with different times
    to live; a message can leave only at the head, and the broker releases the head as soon as it has
    expired. Times are in the unit of the delays. */
module RetryQueue {
  import opened Model
  import opened Backoff
  import opened Dispatch

  /** A message with the time it was published and the delay it was published with. */
  datatype Delayed = Delayed(id: Id, published: nat, delay: nat)

  function Deadline(m: Delayed): nat { m.published + m.delay }

  /** All messages ever published, oldest first, and when those released so far left. */
  datatype Broker = Broker(now: nat, messages: seq<Delayed>, releases: seq<nat>)

  datatype Event = Publish(id: Id, delay: nat) | Pass(to: nat) | Release

  function Empty(now: nat): Broker { Broker(now, [], []) }

  predicate HasHead(b: Broker) { |b.releases| < |b.messages| }

  function Head(b: Broker): Delayed
    requires HasHead(b)
  {
    b.messages[|b.releases|]
  }

  /** Time does not pass the head's deadline while the head is there; the head is released once it is due. */
  predicate Can(b: Broker, e: Event) {
    match e
    case Publish(_, _) => true
    case Pass(to) => b.now <= to && (HasHead(b) ==> to <= Deadline(Head(b)))
    case Release => HasHead(b) && Deadline(Head(b)) <= b.now
  }

  function Next(b: Broker, e: Event): Broker {
    match e
    case Publish(id, delay) => b.(messages := b.messages + [Delayed(id, b.now, delay)])
    case Pass(to) => b.(now := to)
    case Release => b.(releases := b.releases + [b.now])
  }

  predicate CanAll(b: Broker, es: seq<Event>)
    decreases |es|
  {
    es == [] || (Can(b, es[0]) && CanAll(Next(b, es[0]), es[1..]))
  }

  function NextAll(b: Broker, es: seq<Event>): Broker
    decreases |es|
  {
    if es == [] then b else NextAll(Next(b, es[0]), es[1..])
  }

  function Max(a: nat, b: nat): nat { if a <= b then b else a }

  /** The latest deadline among the first n messages. */
  function LatestDeadline(ms: seq<Delayed>, n: nat): nat
    requires n <= |ms|
  {
    if n == 0 then 0 else Max(LatestDeadline(ms, n - 1), Deadline(ms[n - 1]))
  }

  function LargestDelay(ms: seq<Delayed>, n: nat): nat
    requires n <= |ms|
  {
    if n == 0 then 0 else Max(LargestDelay(ms, n - 1), ms[n - 1].delay)
  }

  lemma {:induction false} LatestOfPrefix(ms: seq<Delayed>, more: seq<Delayed>, n: nat)
    requires n <= |ms|
    ensures LatestDeadline(ms + more, n) == LatestDeadline(ms, n)
  {
    if n > 0 { LatestOfPrefix(ms, more, n - 1); }
  }

  /** The k-th release came at the running maximum of deadlines. */
  predicate LeftAtMaximum(b: Broker, k: nat)
    requires k < |b.releases| <= |b.messages|
  {
    b.releases[k] == LatestDeadline(b.messages, k + 1) <= b.now
  }

  /** Released messages left at the running maximum of deadlines; publish times never decrease; and the
      head, if any, is not overdue by more than the messages before it explain. */
  ghost predicate Good(b: Broker) {
    && |b.releases| <= |b.messages|
    && (forall k :: 0 <= k < |b.releases| ==> LeftAtMaximum(b, k))
    && (forall j, k :: 0 <= j <= k < |b.messages| ==> b.messages[j].published <= b.messages[k].published)
    && (forall k :: 0 <= k < |b.messages| ==> b.messages[k].published <= b.now)
    && (HasHead(b) ==> b.now <= LatestDeadline(b.messages, |b.releases| + 1))
  }

  lemma PublishKeepsGood(b: Broker, m: Delayed)
    requires Good(b) && m.published == b.now
    ensures Good(b.(messages := b.messages + [m]))
  {
    var b' := b.(messages := b.messages + [m]);
    var n := |b.releases|;
    forall k | 0 <= k < |b'.releases| ensures LeftAtMaximum(b', k) {
      assert LeftAtMaximum(b, k);
      LatestOfPrefix(b.messages, [m], k + 1);
    }
    if HasHead(b) {
      LatestOfPrefix(b.messages, [m], n + 1);
    } else {
      assert LatestDeadline(b'.messages, n + 1) >= Deadline(m);
    }
  }

  lemma PassKeepsGood(b: Broker, to: nat)
    requires Good(b) && Can(b, Pass(to))
    ensures Good(b.(now := to))
  {
    var b' := b.(now := to);
    forall k | 0 <= k < |b'.releases| ensures LeftAtMaximum(b', k) { assert LeftAtMaximum(b, k); }
    if HasHead(b) { LatestBounds(b.messages, |b.releases| + 1, |b.releases|); }
  }

  lemma ReleaseKeepsGood(b: Broker)
    requires Good(b) && Can(b, Release)
    ensures Good(b.(releases := b.releases + [b.now]))
  {
    var b' := b.(releases := b.releases + [b.now]);
    var n := |b.releases|;
    if n > 0 { assert LeftAtMaximum(b, n - 1); }
    assert LatestDeadline(b.messages, n + 1) == Max(LatestDeadline(b.messages, n), Deadline(Head(b)));
    assert LatestDeadline(b.messages, n + 1) == b.now;
    forall k | 0 <= k < |b'.releases| ensures LeftAtMaximum(b', k) {
      if k < n { assert LeftAtMaximum(b, k); }
    }
    if HasHead(b') { LatestGrows(b.messages, n + 1, n + 2); }
  }

  lemma EventKeepsGood(b: Broker, e: Event)
    requires Good(b) && Can(b, e)
    ensures Good(Next(b, e))
  {
    match e
    case Publish(id, delay) => PublishKeepsGood(b, Delayed(id, b.now, delay));
    case Pass(to) => PassKeepsGood(b, to);
    case Release => ReleaseKeepsGood(b);
  }

  lemma {:induction false} EventsKeepGood(b: Broker, es: seq<Event>)
    requires Good(b) && CanAll(b, es)
    ensures Good(NextAll(b, es))
    decreases |es|
  {
    if es != [] {
      EventKeepsGood(b, es[0]);
      EventsKeepGood(Next(b, es[0]), es[1..]);
    }
  }

  lemma {:induction false} LatestBounds(ms: seq<Delayed>, n: nat, j: nat)
    requires j < n <= |ms|
    ensures Deadline(ms[j]) <= LatestDeadline(ms, n)
  {
    if j < n - 1 { LatestBounds(ms, n - 1, j); }
  }

  lemma {:induction false} LatestGrows(ms: seq<Delayed>, m: nat, n: nat)
    requires m <= n <= |ms|
    ensures LatestDeadline(ms, m) <= LatestDeadline(ms, n)
    decreases n
  {
    if m < n { LatestGrows(ms, m, n - 1); }
  }

  lemma {:induction false} LatestWithinDelay(ms: seq<Delayed>, n: nat, last: nat)
    requires n <= |ms| && forall j :: 0 <= j < n ==> ms[j].published <= last
    ensures LatestDeadline(ms, n) <= last + LargestDelay(ms, n)
  {
    if n > 0 { LatestWithinDelay(ms, n - 1, last); }
  }

  /** After any events: messages leave in the order they were published; each leaves at the latest deadline
      among it and those ahead of it, hence never early, and no later than its publish time plus the
      largest delay among it and those ahead. */
  lemma ReleaseTimes(now: nat, es: seq<Event>, k: nat)
    requires CanAll(Empty(now), es)
    requires k < |NextAll(Empty(now), es).releases|
    ensures var b := NextAll(Empty(now), es);
            && |b.releases| <= |b.messages|
            && b.releases[k] == LatestDeadline(b.messages, k + 1)
            && Deadline(b.messages[k]) <= b.releases[k] <= b.messages[k].published + LargestDelay(b.messages, k + 1)
            && (k + 1 < |b.releases| ==> b.releases[k] <= b.releases[k + 1])
  {
    EventsKeepGood(Empty(now), es);
    var b := NextAll(Empty(now), es);
    assert LeftAtMaximum(b, k);
    LatestBounds(b.messages, k + 1, k);
    LatestWithinDelay(b.messages, k + 1, b.messages[k].published);
    if k + 1 < |b.releases| {
      LatestGrows(b.messages, k + 1, k + 2);
      assert LeftAtMaximum(b, k + 1);
    }
  }

  /** A retry fires precisely when its delay is over exactly if no message ahead of it has a later deadline. */
  lemma FiresOnTimeIff(now: nat, es: seq<Event>, k: nat)
    requires CanAll(Empty(now), es)
    requires k < |NextAll(Empty(now), es).releases|
    ensures var b := NextAll(Empty(now), es);
            && |b.releases| <= |b.messages|
            && (b.releases[k] == Deadline(b.messages[k]) <==>
                forall j :: 0 <= j < k ==> Deadline(b.messages[j]) <= Deadline(b.messages[k]))
  {
    ReleaseTimes(now, es, k);
    var b := NextAll(Empty(now), es);
    forall j | 0 <= j < k ensures Deadline(b.messages[j]) <= b.releases[k] { LatestBounds(b.messages, k + 1, j); }
    if forall j :: 0 <= j < k ==> Deadline(b.messages[j]) <= Deadline(b.messages[k]) {
      LatestReached(b.messages, k + 1, Deadline(b.messages[k]));
    }
  }

  lemma {:induction false} LatestReached(ms: seq<Delayed>, n: nat, bound: nat)
    requires n <= |ms| && forall j :: 0 <= j < n ==> Deadline(ms[j]) <= bound
    ensures LatestDeadline(ms, n) <= bound
  {
    if n > 0 { LatestReached(ms, n - 1, bound); }
  }

  lemma First(b: Broker, e: Event, rest: seq<Event>)
    requires Can(b, e) && CanAll(Next(b, e), rest)
    ensures CanAll(b, [e] + rest) && NextAll(b, [e] + rest) == NextAll(Next(b, e), rest)
  {
    assert ([e] + rest)[1..] == rest;
  }

  const BULK_MESSAGE := Delayed(1, 0, 120)
  const OTP_MESSAGE := Delayed(2, 1, 5)

  lemma BothLeaveTogether() returns (es: seq<Event>)
    ensures var b := Broker(1, [BULK_MESSAGE, OTP_MESSAGE], []);
            CanAll(b, es) && NextAll(b, es) == Broker(120, [BULK_MESSAGE, OTP_MESSAGE], [120, 120])
  {
    var both := [BULK_MESSAGE, OTP_MESSAGE];
    assert Next(Broker(120, both, [120]), Release) == Broker(120, both, [120, 120]);
    First(Broker(120, both, [120]), Release, []);
    es := [Release] + [];
    assert Next(Broker(120, both, []), Release) == Broker(120, both, [120]);
    First(Broker(120, both, []), Release, es);
    es := [Release] + es;
    First(Broker(1, both, []), Pass(120), es);
    es := [Pass(120)] + es;
  }

  /** A one-time password behind a bulk message waits for it: published a second later with a delay of 5,
      it leaves 119 seconds after it was published. */
  lemma HeadOfLineBlocking() returns (es: seq<Event>)
    ensures CanAll(Empty(0), es)
    ensures NextAll(Empty(0), es) == Broker(120, [BULK_MESSAGE, OTP_MESSAGE], [120, 120])
  {
    es := BothLeaveTogether();
    assert Next(Broker(1, [BULK_MESSAGE], []), Publish(2, 5)) == Broker(1, [BULK_MESSAGE, OTP_MESSAGE], []);
    First(Broker(1, [BULK_MESSAGE], []), Publish(2, 5), es);
    es := [Publish(2, 5)] + es;
    First(Broker(0, [BULK_MESSAGE], []), Pass(1), es);
    es := [Pass(1)] + es;
    assert Next(Empty(0), Publish(1, 120)) == Broker(0, [BULK_MESSAGE], []);
    First(Empty(0), Publish(1, 120), es);
    es := [Publish(1, 120)] + es;
  }

  /** Under the shipped configuration every published delay is some level's of some event's policy, so no
      retry waits more than 120 seconds, head-of-line blocking included. */
  lemma ShippedRetriesWithinTwoMinutes(c: Config, now: nat, es: seq<Event>, k: nat)
    requires Shipped(c) && CanAll(Empty(now), es)
    requires k < |NextAll(Empty(now), es).releases|
    requires forall m :: m in NextAll(Empty(now), es).messages ==>
               exists e: EventType :: AllowedDelay(PolicyFor(c, e), m.delay)
    ensures var b := NextAll(Empty(now), es);
            |b.releases| <= |b.messages| && b.releases[k] <= b.messages[k].published + 120
  {
    ReleaseTimes(now, es, k);
    var b := NextAll(Empty(now), es);
    forall j | 0 <= j < |b.messages| ensures b.messages[j].delay <= 120 {
      assert b.messages[j] in b.messages;
      var e: EventType :| AllowedDelay(PolicyFor(c, e), b.messages[j].delay);
      var level :| 1 <= level <= PolicyFor(c, e).maxRetries && InWindow(PolicyFor(c, e), level, b.messages[j].delay);
      ShippedPolicies(c, e);
      ShippedWindows(e, level, b.messages[j].delay);
    }
    LargestBounded(b.messages, k + 1, 120);
  }

  lemma {:induction false} LargestBounded(ms: seq<Delayed>, n: nat, bound: nat)
    requires n <= |ms| && forall j :: 0 <= j < n ==> ms[j].delay <= bound
    ensures LargestDelay(ms, n) <= bound
  {
    if n > 0 { LargestBounded(ms, n - 1, bound); }
  }
}
