/** Two-layer idempotency of ingestion: a Redis key per producer key that may vanish at any moment, over
    a UNIQUE column of channel keys, with any number of deliveries handled concurrently. The ideal it
    is compared with is a plain set of (producer key, channel) pairs. */
module Ingest {
  import opened Model
  import opened ChannelKeys

  type ChannelMap = map<EventType, seq<Channel>>

  function ChannelsOf(m: ChannelMap, e: EventType): seq<Channel> {
    if e in m then m[e] else []
  }

  /** A delivery past the Redis check, with the channels it has not come to yet. */
  datatype Creator = Creator(base: string, todo: seq<Channel>)

  /** keys: the idempotency_key column, one entry per row. delivered: every producer key ever delivered.
      missed: history, the pairs an aborted creator left behind and nobody has inserted since. */
  datatype Intake = Intake(
    redis: set<string>, keys: seq<string>, creators: seq<Option<Creator>>,
    delivered: set<string>, missed: set<(string, Channel)>)

  /** Deliver: a message arrives, is dropped as a duplicate or starts a creator. Insert: a creator comes
      to its next channel. Abort: its process dies or its database fails; the broker may deliver the
      message again, which is another Deliver. Forget: the Redis key expires or Redis restarts. */
  datatype Move =
    | Deliver(i: nat, base: string, event: EventType)
    | Insert(i: nat)
    | Finish(i: nat)
    | Abort(i: nat)
    | Forget(base: string)

  function Start(slots: nat): Intake {
    Intake({}, [], seq(slots, i => None), {}, {})
  }

  predicate Busy(s: Intake, i: int) {
    0 <= i < |s.creators| && s.creators[i].Some?
  }

  predicate Can(s: Intake, a: Move) {
    match a
    case Deliver(i, _, _) => i < |s.creators| && s.creators[i].None?
    case Insert(i) => Busy(s, i) && s.creators[i].value.todo != []
    case Finish(i) => Busy(s, i) && s.creators[i].value.todo == []
    case Abort(i) => Busy(s, i)
    case Forget(_) => true
  }

  /** What an aborted creator leaves undone. */
  function Undone(s: Intake, c: Creator): set<(string, Channel)> {
    set ch | ch in c.todo && ChannelKey(c.base, ch) !in s.keys :: (c.base, ch)
  }

  function DoDeliver(m: ChannelMap, s: Intake, i: nat, base: string, event: EventType): Intake
    requires i < |s.creators|
  {
    if base in s.redis then s.(delivered := s.delivered + {base})
    else s.(redis := s.redis + {base}, delivered := s.delivered + {base},
            creators := s.creators[i := Some(Creator(base, ChannelsOf(m, event)))])
  }

  /** A key already in the column raises IntegrityError, which skips the channel. */
  function DoInsert(s: Intake, i: nat): Intake
    requires Busy(s, i) && s.creators[i].value.todo != []
  {
    var c := s.creators[i].value;
    var key := ChannelKey(c.base, c.todo[0]);
    var s1 := s.(creators := s.creators[i := Some(Creator(c.base, c.todo[1..]))]);
    if key in s.keys then s1
    else s1.(keys := s.keys + [key], missed := s.missed - {(c.base, c.todo[0])})
  }

  function Do(m: ChannelMap, s: Intake, a: Move): Intake
    requires Can(s, a)
  {
    match a
    case Deliver(i, base, event) => DoDeliver(m, s, i, base, event)
    case Insert(i) => DoInsert(s, i)
    case Finish(i) => s.(creators := s.creators[i := None])
    case Abort(i) => s.(creators := s.creators[i := None], missed := s.missed + Undone(s, s.creators[i].value))
    case Forget(base) => s.(redis := s.redis - {base})
  }

  predicate CanAll(m: ChannelMap, s: Intake, run: seq<Move>)
    decreases |run|
  {
    run == [] || (Can(s, run[0]) && CanAll(m, Do(m, s, run[0]), run[1..]))
  }

  function DoAll(m: ChannelMap, s: Intake, run: seq<Move>): Intake
    requires CanAll(m, s, run)
    decreases |run|
  {
    if run == [] then s else DoAll(m, Do(m, s, run[0]), run[1..])
  }

  // ---------------------------------------------------------------------------------------------
  // At most one row, whatever is delivered

  predicate Distinct(keys: seq<string>) {
    forall i, j :: 0 <= i < j < |keys| ==> keys[i] != keys[j]
  }

  lemma {:induction false} KeysStayDistinct(m: ChannelMap, s: Intake, run: seq<Move>)
    requires Distinct(s.keys) && CanAll(m, s, run)
    ensures Distinct(DoAll(m, s, run).keys)
    decreases |run|
  {
    if run != [] { KeysStayDistinct(m, Do(m, s, run[0]), run[1..]); }
  }

  /** For any interleaving of deliveries, aborts and vanishing Redis keys, even when one producer key comes
      with different events, a pair of producer key and channel has at most one row. */
  lemma AtMostOneRow(m: ChannelMap, slots: nat, run: seq<Move>, i: nat, j: nat, base: string, ch: Channel)
    requires CanAll(m, Start(slots), run)
    requires i < |DoAll(m, Start(slots), run).keys| && j < |DoAll(m, Start(slots), run).keys|
    requires DoAll(m, Start(slots), run).keys[i] == ChannelKey(base, ch) == DoAll(m, Start(slots), run).keys[j]
    ensures i == j
  {
    KeysStayDistinct(m, Start(slots), run);
  }

  // ---------------------------------------------------------------------------------------------
  // Exactly the ideal rows, when every producer key always carries the same event

  function Wanted(m: ChannelMap, eventOf: string -> EventType, base: string): seq<Channel> {
    ChannelsOf(m, eventOf(base))
  }

  predicate Consistent(eventOf: string -> EventType, run: seq<Move>) {
    forall k :: 0 <= k < |run| && run[k].Deliver? ==> run[k].event == eventOf(run[k].base)
  }

  predicate HasRow(s: Intake, base: string, ch: Channel) {
    ChannelKey(base, ch) in s.keys
  }

  ghost predicate Pending(s: Intake, base: string, ch: Channel) {
    exists i :: Busy(s, i) && s.creators[i].value.base == base && ch in s.creators[i].value.todo
  }

  /** Every pair that is wanted is a row, about to be one, or missed; every row is wanted. */
  ghost predicate PairGood(m: ChannelMap, eventOf: string -> EventType, s: Intake, base: string, ch: Channel) {
    var wanted := base in s.delivered && ch in Wanted(m, eventOf, base);
    && (wanted ==> HasRow(s, base, ch) || Pending(s, base, ch) || (base, ch) in s.missed)
    && (HasRow(s, base, ch) ==> wanted && (base, ch) !in s.missed)
  }

  ghost predicate Good(m: ChannelMap, eventOf: string -> EventType, s: Intake) {
    && s.redis <= s.delivered
    && (forall i :: Busy(s, i) ==>
          && s.creators[i].value.base in s.delivered
          && forall ch :: ch in s.creators[i].value.todo ==> ch in Wanted(m, eventOf, s.creators[i].value.base))
    && (forall base, ch :: PairGood(m, eventOf, s, base, ch))
  }

  lemma DeliverKeeps(m: ChannelMap, eventOf: string -> EventType, s: Intake, i: nat, base: string)
    requires Good(m, eventOf, s) && i < |s.creators| && s.creators[i].None?
    ensures Good(m, eventOf, DoDeliver(m, s, i, base, eventOf(base)))
  {
    var s' := DoDeliver(m, s, i, base, eventOf(base));
    forall b, ch ensures PairGood(m, eventOf, s', b, ch) {
      assert PairGood(m, eventOf, s, b, ch);
      if Pending(s, b, ch) {
        var k :| Busy(s, k) && s.creators[k].value.base == b && ch in s.creators[k].value.todo;
        assert s'.creators[k] == s.creators[k];
      }
      if b == base && base !in s.redis && ch in Wanted(m, eventOf, base) { assert Busy(s', i); }
    }
  }

  lemma InsertKeeps(m: ChannelMap, eventOf: string -> EventType, s: Intake, i: nat)
    requires Good(m, eventOf, s) && Busy(s, i) && s.creators[i].value.todo != []
    ensures Good(m, eventOf, DoInsert(s, i))
  {
    var s' := DoInsert(s, i);
    var c := s.creators[i].value;
    forall b, ch ensures PairGood(m, eventOf, s', b, ch) {
      InsertKeepsPair(m, eventOf, s, i, b, ch);
    }
    assert s'.creators[i].value.todo == c.todo[1..];
  }

  lemma InsertKeepsPair(m: ChannelMap, eventOf: string -> EventType, s: Intake, i: nat, b: string, ch: Channel)
    requires Good(m, eventOf, s) && Busy(s, i) && s.creators[i].value.todo != []
    ensures PairGood(m, eventOf, DoInsert(s, i), b, ch)
  {
    var s' := DoInsert(s, i);
    var c := s.creators[i].value;
    assert PairGood(m, eventOf, s, b, ch);
    if ChannelKey(b, ch) == ChannelKey(c.base, c.todo[0]) { ChannelKeyIsInjective(b, ch, c.base, c.todo[0]); }
    assert c.todo[0] in c.todo;
    if Pending(s, b, ch) {
      var k :| Busy(s, k) && s.creators[k].value.base == b && ch in s.creators[k].value.todo;
      if k == i {
        assert ch == c.todo[0] || ch in c.todo[1..];
        assert Busy(s', i);
      } else {
        assert s'.creators[k] == s.creators[k];
      }
    }
  }

  lemma LeaveKeeps(m: ChannelMap, eventOf: string -> EventType, s: Intake, i: nat)
    requires Good(m, eventOf, s) && Busy(s, i)
    ensures Good(m, eventOf, s.(creators := s.creators[i := None], missed := s.missed + Undone(s, s.creators[i].value)))
    ensures s.creators[i].value.todo == [] ==> Undone(s, s.creators[i].value) == {}
  {
    var c := s.creators[i].value;
    var s' := s.(creators := s.creators[i := None], missed := s.missed + Undone(s, c));
    forall b, ch ensures PairGood(m, eventOf, s', b, ch) {
      assert PairGood(m, eventOf, s, b, ch);
      if Pending(s, b, ch) {
        var k :| Busy(s, k) && s.creators[k].value.base == b && ch in s.creators[k].value.todo;
        if k != i { assert s'.creators[k] == s.creators[k]; }
      }
    }
  }

  lemma ForgetKeeps(m: ChannelMap, eventOf: string -> EventType, s: Intake, base: string)
    requires Good(m, eventOf, s)
    ensures Good(m, eventOf, s.(redis := s.redis - {base}))
  {
    var s' := s.(redis := s.redis - {base});
    forall b, ch ensures PairGood(m, eventOf, s', b, ch) {
      assert PairGood(m, eventOf, s, b, ch);
      if Pending(s, b, ch) {
        var k :| Busy(s, k) && s.creators[k].value.base == b && ch in s.creators[k].value.todo;
        assert Busy(s', k);
      }
    }
  }

  lemma {:induction false} IngestKeeps(m: ChannelMap, eventOf: string -> EventType, s: Intake, run: seq<Move>)
    requires Good(m, eventOf, s) && CanAll(m, s, run) && Consistent(eventOf, run)
    ensures Good(m, eventOf, DoAll(m, s, run))
    decreases |run|
  {
    if run != [] {
      match run[0] {
        case Deliver(i, base, _) => DeliverKeeps(m, eventOf, s, i, base);
        case Insert(i) => InsertKeeps(m, eventOf, s, i);
        case Finish(i) =>
          LeaveKeeps(m, eventOf, s, i);
          assert s.missed + {} == s.missed;
        case Abort(i) => LeaveKeeps(m, eventOf, s, i);
        case Forget(base) => ForgetKeeps(m, eventOf, s, base);
      }
      IngestKeeps(m, eventOf, Do(m, s, run[0]), run[1..]);
    }
  }

  lemma StartIsGood(m: ChannelMap, eventOf: string -> EventType, slots: nat)
    ensures Good(m, eventOf, Start(slots))
  {
    forall b, ch ensures PairGood(m, eventOf, Start(slots), b, ch) {}
  }

  /** The two layers against the ideal set. While deliveries are being handled there is never a row the
      ideal does not have. Once none is in progress, the rows are exactly the pairs of a delivered producer
      key and a channel mapped to its event, except those an abort left behind. */
  lemma RowsAreTheIdeal(m: ChannelMap, eventOf: string -> EventType, slots: nat, run: seq<Move>, base: string,
      ch: Channel)
    requires CanAll(m, Start(slots), run) && Consistent(eventOf, run)
    ensures var s := DoAll(m, Start(slots), run);
            var ideal := base in s.delivered && ch in Wanted(m, eventOf, base);
            && (HasRow(s, base, ch) ==> ideal)
            && ((forall i :: !Busy(s, i)) ==> (HasRow(s, base, ch) <==> ideal && (base, ch) !in s.missed))
  {
    StartIsGood(m, eventOf, slots);
    IngestKeeps(m, eventOf, Start(slots), run);
    assert PairGood(m, eventOf, DoAll(m, Start(slots), run), base, ch);
  }

  lemma {:induction false} NothingMissedWithoutAborts(m: ChannelMap, s: Intake, run: seq<Move>)
    requires CanAll(m, s, run) && s.missed == {} && forall k :: 0 <= k < |run| ==> !run[k].Abort?
    ensures DoAll(m, s, run).missed == {}
    decreases |run|
  {
    if run != [] {
      assert !run[0].Abort?;
      NothingMissedWithoutAborts(m, Do(m, s, run[0]), run[1..]);
    }
  }

  /** Without aborts nothing is missing at rest: every delivered key has a row for every mapped channel. */
  lemma CompleteWithoutAborts(m: ChannelMap, eventOf: string -> EventType, slots: nat, run: seq<Move>,
      base: string, ch: Channel)
    requires CanAll(m, Start(slots), run) && Consistent(eventOf, run)
    requires forall k :: 0 <= k < |run| ==> !run[k].Abort?
    requires forall i :: !Busy(DoAll(m, Start(slots), run), i)
    ensures var s := DoAll(m, Start(slots), run);
            HasRow(s, base, ch) <==> base in s.delivered && ch in Wanted(m, eventOf, base)
  {
    RowsAreTheIdeal(m, eventOf, slots, run, base, ch);
    NothingMissedWithoutAborts(m, Start(slots), run);
  }

  // ---------------------------------------------------------------------------------------------
  // An abort is not repaired by redelivery while Redis remembers the key

  ghost predicate BlockedWithout(s: Intake, base: string, ch: Channel) {
    && base in s.redis && !HasRow(s, base, ch)
    && forall i :: Busy(s, i) ==> s.creators[i].value.base != base
  }

  lemma MoveKeepsBlocked(m: ChannelMap, s: Intake, a: Move, base: string, ch: Channel)
    requires BlockedWithout(s, base, ch) && Can(s, a) && a != Forget(base)
    ensures BlockedWithout(Do(m, s, a), base, ch)
  {
    var s' := Do(m, s, a);
    if a.Insert? {
      var c := s.creators[a.i].value;
      if ChannelKey(base, ch) == ChannelKey(c.base, c.todo[0]) { ChannelKeyIsInjective(base, ch, c.base, c.todo[0]); }
    }
    forall i | Busy(s', i) ensures s'.creators[i].value.base != base {
      if s'.creators[i] == s.creators[i] { assert Busy(s, i); }
    }
  }

  /** Once a creator of base has died before inserting ch and no other is at work on base, no delivery ever
      inserts it as long as Redis keeps the key: each one is dropped as a duplicate. */
  lemma {:induction false} RedeliveryDoesNotRepair(m: ChannelMap, s: Intake, run: seq<Move>, base: string, ch: Channel)
    requires BlockedWithout(s, base, ch) && CanAll(m, s, run)
    requires forall k :: 0 <= k < |run| ==> run[k] != Forget(base)
    ensures !HasRow(DoAll(m, s, run), base, ch)
    decreases |run|
  {
    if run != [] {
      assert run[0] != Forget(base);
      MoveKeepsBlocked(m, s, run[0], base, ch);
      RedeliveryDoesNotRepair(m, Do(m, s, run[0]), run[1..], base, ch);
    }
  }

  /** Put the other way round: whatever continuation brings the row has the key vanish from Redis. */
  lemma RepairNeedsForgetting(m: ChannelMap, s: Intake, run: seq<Move>, base: string, ch: Channel)
    requires BlockedWithout(s, base, ch) && CanAll(m, s, run) && HasRow(DoAll(m, s, run), base, ch)
    ensures Forget(base) in run
  {
    if Forget(base) !in run { RedeliveryDoesNotRepair(m, s, run, base, ch); }
  }

  /** A creator that works off its channels up to ch inserts it, unless it is there already. */
  lemma {:induction false} CreatorInserts(m: ChannelMap, s: Intake, i: nat, ch: Channel) returns (run: seq<Move>)
    requires Busy(s, i) && ch in s.creators[i].value.todo
    ensures CanAll(m, s, run) && HasRow(DoAll(m, s, run), s.creators[i].value.base, ch)
    decreases |s.creators[i].value.todo|
  {
    var c, s1 := s.creators[i].value, DoInsert(s, i);
    var rest := [];
    if c.todo[0] != ch {
      assert ch in c.todo[1..] && s1.creators[i] == Some(Creator(c.base, c.todo[1..]));
      rest := CreatorInserts(m, s1, i, ch);
    }
    run := [Insert(i)] + rest;
    assert run[1..] == rest;
  }

  /** And once the key has vanished, one more delivery repairs the channel. */
  lemma ForgettingRepairs(m: ChannelMap, s: Intake, i: nat, base: string, event: EventType, ch: Channel)
    returns (run: seq<Move>)
    requires BlockedWithout(s, base, ch) && i < |s.creators| && s.creators[i].None? && ch in ChannelsOf(m, event)
    ensures |run| >= 2 && run[0] == Forget(base) && run[1] == Deliver(i, base, event)
    ensures CanAll(m, s, run) && HasRow(DoAll(m, s, run), base, ch)
  {
    var s1 := s.(redis := s.redis - {base});
    var s2 := DoDeliver(m, s1, i, base, event);
    assert s2.creators[i] == Some(Creator(base, ChannelsOf(m, event)));
    var rest := CreatorInserts(m, s2, i, ch);
    var more := [Deliver(i, base, event)] + rest;
    assert more[1..] == rest;
    assert CanAll(m, s1, more) && DoAll(m, s1, more) == DoAll(m, s2, rest);
    run := [Forget(base)] + more;
    assert run[1..] == more;
  }

  /** Such a state is two actions away: a delivery whose creator dies at once. */
  lemma AbortLeavesBlocked(m: ChannelMap, base: string, event: EventType, ch: Channel)
    requires ch in ChannelsOf(m, event)
    ensures var run := [Deliver(0, base, event), Abort(0)];
            && CanAll(m, Start(1), run)
            && BlockedWithout(DoAll(m, Start(1), run), base, ch) && (base, ch) in DoAll(m, Start(1), run).missed
  {
    var run := [Deliver(0, base, event), Abort(0)];
    var s1 := Do(m, Start(1), run[0]);
    assert s1.creators[0] == Some(Creator(base, ChannelsOf(m, event)));
    assert run[1..] == [Abort(0)] && run[1..][1..] == [];
    var s2 := Do(m, s1, Abort(0));
    assert CanAll(m, s2, []) && DoAll(m, s2, []) == s2;
    assert CanAll(m, s1, [Abort(0)]) && DoAll(m, s1, [Abort(0)]) == s2;
  }
}
