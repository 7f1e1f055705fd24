/** The Redis sorted set as a priority queue: what its scores order, what draining it yields, and what
    any sequence of operations conserves. */
module SortedQueue {
  import opened Model
  import opened Scores
  import opened Engine

  // ---------------------------------------------------------------------------------------------
  // Scores

  /** A more urgent priority (a smaller number) wins exactly as long as its timestamp is not a full
      shift per priority step later. */
  lemma UrgentBeatsEarly(p1: nat, t1: nat, p2: nat, t2: nat)
    requires p1 < p2
    ensures Score(p1, t1) < Score(p2, t2) <==> t1 - t2 < (p2 - p1) * SHIFT
  {
    assert p2 * SHIFT == p1 * SHIFT + (p2 - p1) * SHIFT;
  }

  /** Two different priorities share a score exactly at that distance, so a collision is possible; the
      second clause names one between a CRITICAL row enqueued in July 2055 and a HIGH one of November 2023. */
  lemma CollisionsExist(p1: nat, t1: nat, p2: nat, t2: nat)
    requires p1 < p2
    ensures Score(p1, t1) == Score(p2, t2) <==> t1 == t2 + (p2 - p1) * SHIFT
    ensures Score(1, 2_700_000_000_000) == Score(2, 1_700_000_000_000)
  {
    assert p2 * SHIFT == p1 * SHIFT + (p2 - p1) * SHIFT;
  }

  /** What a queued id was enqueued with. */
  datatype Stamp = Stamp(priority: nat, ms: nat)

  predicate NoLater(a: Stamp, b: Stamp) {
    a.priority < b.priority || (a.priority == b.priority && a.ms <= b.ms)
  }

  /** Within a shift of one another, timestamps make the score order the order by priority, then time. */
  lemma ScoreIsLexicographic(a: Stamp, b: Stamp)
    requires -SHIFT < a.ms - b.ms < SHIFT
    ensures Score(a.priority, a.ms) <= Score(b.priority, b.ms) <==> NoLater(a, b)
  {
    if a.priority < b.priority {
      UrgentBeatsEarly(a.priority, a.ms, b.priority, b.ms);
      assert (b.priority - a.priority) * SHIFT >= SHIFT;
    } else if b.priority < a.priority {
      UrgentBeatsEarly(b.priority, b.ms, a.priority, a.ms);
      assert (a.priority - b.priority) * SHIFT >= SHIFT;
    }
  }

  /** So no two enqueues within a shift of one another collide, unless priority and time are the same. */
  lemma NoCollisionWithinAShift(a: Stamp, b: Stamp)
    requires -SHIFT < a.ms - b.ms < SHIFT
    ensures Score(a.priority, a.ms) == Score(b.priority, b.ms) <==> a == b
  {
    ScoreIsLexicographic(a, b);
    ScoreIsLexicographic(b, a);
  }

  /** With four priorities and timestamps below 2^53 - 4 * 10^12, scores stay below 2^53, where doubles
      represent every integer. */
  lemma ScoresFitDoubles(p: nat, t: nat)
    requires p <= 4 && t < 0x20_0000_0000_0000 - 4 * SHIFT
    ensures Score(p, t) < 0x20_0000_0000_0000
  {
    assert p * SHIFT <= 4 * SHIFT;
  }

  // ---------------------------------------------------------------------------------------------
  // Draining

  /** Popping the queue until it is empty yields out. */
  predicate Drains(queue: map<Id, nat>, out: seq<Id>)
    decreases |out|
  {
    if out == [] then queue == map[]
    else IsMin(queue, out[0]) && Drains(queue - {out[0]}, out[1..])
  }

  /** Every queued score encodes its stamp, and the stamps' times lie within one shift. */
  ghost predicate Stamped(queue: map<Id, nat>, stamps: map<Id, Stamp>) {
    && (forall id :: id in queue ==> id in stamps && queue[id] == Score(stamps[id].priority, stamps[id].ms))
    && (forall a, b :: a in queue && b in queue ==> stamps[a].ms - stamps[b].ms < SHIFT)
  }

  /** Every queue can be drained. */
  lemma {:induction false} DrainExists(queue: map<Id, nat>) returns (out: seq<Id>)
    ensures Drains(queue, out)
    decreases |queue|
  {
    if queue == map[] {
      out := [];
    } else {
      MinExists(queue);
      var first :| IsMin(queue, first);
      assert queue.Keys == (queue - {first}).Keys + {first};
      var rest := DrainExists(queue - {first});
      out := [first] + rest;
    }
  }

  lemma {:induction false} DrainedWereQueued(queue: map<Id, nat>, out: seq<Id>)
    requires Drains(queue, out)
    ensures forall k :: 0 <= k < |out| ==> out[k] in queue
    ensures multiset(out) == multiset(queue.Keys)
    decreases |out|
  {
    if out != [] {
      var rest := queue - {out[0]};
      DrainedWereQueued(rest, out[1..]);
      assert out == [out[0]] + out[1..];
      assert rest.Keys == queue.Keys - {out[0]};
    }
  }

  /** A drain yields every queued id once, sorted by priority and, within a priority, by time. */
  lemma {:induction false} DrainIsSorted(queue: map<Id, nat>, stamps: map<Id, Stamp>, out: seq<Id>)
    requires Drains(queue, out) && Stamped(queue, stamps)
    ensures multiset(out) == multiset(queue.Keys)
    ensures forall i, j :: 0 <= i < j < |out| ==>
              out[i] in stamps && out[j] in stamps && NoLater(stamps[out[i]], stamps[out[j]])
    decreases |out|
  {
    DrainedWereQueued(queue, out);
    if out != [] {
      DrainIsSorted(queue - {out[0]}, stamps, out[1..]);
      forall i, j | 0 <= i < j < |out|
        ensures out[i] in stamps && out[j] in stamps && NoLater(stamps[out[i]], stamps[out[j]])
      {
        if i == 0 {
          ScoreIsLexicographic(stamps[out[0]], stamps[out[j]]);
        } else {
          assert out[i] == out[1..][i - 1] && out[j] == out[1..][j - 1];
        }
      }
    }
  }

  // ---------------------------------------------------------------------------------------------
  // Sequences of operations

  datatype Op = Add(id: Id, priority: nat, ms: nat) | PopOne(id: Id) | Remove(id: Id)

  predicate CanDo(queue: map<Id, nat>, op: Op) {
    op.PopOne? ==> IsMin(queue, op.id)
  }

  /** ZADD NX, BZPOPMIN, ZREM. */
  function Do(queue: map<Id, nat>, op: Op): map<Id, nat> {
    match op
    case Add(id, priority, ms) => if id in queue then queue else queue[id := Score(priority, ms)]
    case PopOne(id) => queue - {id}
    case Remove(id) => queue - {id}
  }

  predicate CanDoAll(queue: map<Id, nat>, ops: seq<Op>)
    decreases |ops|
  {
    ops == [] || (CanDo(queue, ops[0]) && CanDoAll(Do(queue, ops[0]), ops[1..]))
  }

  function DoAll(queue: map<Id, nat>, ops: seq<Op>): map<Id, nat>
    decreases |ops|
  {
    if ops == [] then queue else DoAll(Do(queue, ops[0]), ops[1..])
  }

  lemma {:induction false} OpsSnoc(queue: map<Id, nat>, ops: seq<Op>, op: Op)
    requires CanDoAll(queue, ops) && CanDo(DoAll(queue, ops), op)
    ensures CanDoAll(queue, ops + [op]) && DoAll(queue, ops + [op]) == Do(DoAll(queue, ops), op)
    decreases |ops|
  {
    if ops == [] {
      assert ops + [op] == [op] && [op][1..] == [];
    } else {
      assert (ops + [op])[1..] == ops[1..] + [op];
      OpsSnoc(Do(queue, ops[0]), ops[1..], op);
    }
  }

  /** And the other way round. */
  lemma {:induction false} OpsFront(queue: map<Id, nat>, ops: seq<Op>, op: Op)
    requires CanDoAll(queue, ops + [op])
    ensures CanDoAll(queue, ops) && CanDo(DoAll(queue, ops), op)
    ensures DoAll(queue, ops + [op]) == Do(DoAll(queue, ops), op)
    decreases |ops|
  {
    if ops == [] {
      assert ops + [op] == [op] && [op][1..] == [];
    } else {
      assert (ops + [op])[1..] == ops[1..] + [op];
      OpsFront(Do(queue, ops[0]), ops[1..], op);
    }
  }

  function IdsOf(ops: seq<Op>): (ids: seq<Id>)
    ensures |ids| == |ops|
  {
    seq(|ops|, k requires 0 <= k < |ops| => ops[k].id)
  }

  /** Pops alone begin a drain: what they yield is how some drain of the queue starts. */
  lemma {:induction false} PopsBeginADrain(queue: map<Id, nat>, ops: seq<Op>) returns (rest: seq<Id>)
    requires CanDoAll(queue, ops) && forall k :: 0 <= k < |ops| ==> ops[k].PopOne?
    ensures Drains(queue, IdsOf(ops) + rest)
    decreases |ops|
  {
    if ops == [] {
      rest := DrainExists(queue);
      assert IdsOf(ops) + rest == rest;
    } else {
      assert ops[0].PopOne?;
      rest := PopsBeginADrain(Do(queue, ops[0]), ops[1..]);
      assert IdsOf(ops) + rest == [ops[0].id] + (IdsOf(ops[1..]) + rest);
    }
  }

  /** So pops come in order: no id twice, and by priority, then by time. */
  lemma PopsAreSorted(queue: map<Id, nat>, stamps: map<Id, Stamp>, ops: seq<Op>)
    requires CanDoAll(queue, ops) && Stamped(queue, stamps) && forall k :: 0 <= k < |ops| ==> ops[k].PopOne?
    ensures forall i, j :: 0 <= i < j < |ops| ==>
              && ops[i].id in stamps && ops[j].id in stamps && ops[i].id != ops[j].id
              && NoLater(stamps[ops[i].id], stamps[ops[j].id])
  {
    var rest := PopsBeginADrain(queue, ops);
    var out := IdsOf(ops) + rest;
    DrainIsSorted(queue, stamps, out);
    forall i, j | 0 <= i < j < |ops|
      ensures ops[i].id in stamps && ops[j].id in stamps && ops[i].id != ops[j].id
      ensures NoLater(stamps[ops[i].id], stamps[ops[j].id])
    {
      assert out[i] == ops[i].id && out[j] == ops[j].id;
      DrainIsDistinct(queue, out, i, j);
    }
  }

  lemma {:induction false} DrainIsDistinct(queue: map<Id, nat>, out: seq<Id>, i: nat, j: nat)
    requires Drains(queue, out) && i < j < |out|
    ensures out[i] != out[j]
    decreases |out|
  {
    if i == 0 {
      DrainedWereQueued(queue - {out[0]}, out[1..]);
      assert out[1..][j - 1] == out[j];
    } else {
      DrainIsDistinct(queue - {out[0]}, out[1..], i - 1, j - 1);
    }
  }

  /** The enqueues that took effect, the ids popped, and the removals that took effect. */
  function Entered(queue: map<Id, nat>, ops: seq<Op>): multiset<Id>
    decreases |ops|
  {
    if ops == [] then multiset{}
    else
      var first := if ops[0].Add? && ops[0].id !in queue then multiset{ops[0].id} else multiset{};
      first + Entered(Do(queue, ops[0]), ops[1..])
  }

  function Popped(ops: seq<Op>): multiset<Id>
    decreases |ops|
  {
    if ops == [] then multiset{} else (if ops[0].PopOne? then multiset{ops[0].id} else multiset{}) + Popped(ops[1..])
  }

  function Removed(queue: map<Id, nat>, ops: seq<Op>): multiset<Id>
    decreases |ops|
  {
    if ops == [] then multiset{}
    else
      var first := if ops[0].Remove? && ops[0].id in queue then multiset{ops[0].id} else multiset{};
      first + Removed(Do(queue, ops[0]), ops[1..])
  }

  lemma OneOp(queue: map<Id, nat>, op: Op)
    requires CanDo(queue, op)
    ensures multiset(queue.Keys) + (if op.Add? && op.id !in queue then multiset{op.id} else multiset{}) ==
            multiset(Do(queue, op).Keys) + (if op.PopOne? then multiset{op.id} else multiset{})
              + (if op.Remove? && op.id in queue then multiset{op.id} else multiset{})
  {
    var after := Do(queue, op);
    if op.Add? {
      if op.id !in queue { assert after.Keys == queue.Keys + {op.id}; }
    } else {
      assert after.Keys == queue.Keys - {op.id};
    }
  }

  /** Over any operations, what was queued and what entered is what was popped, what was removed and what
      is still queued. */
  lemma {:induction false} QueueConserves(queue: map<Id, nat>, ops: seq<Op>)
    requires CanDoAll(queue, ops)
    ensures multiset(queue.Keys) + Entered(queue, ops) ==
            Popped(ops) + Removed(queue, ops) + multiset(DoAll(queue, ops).Keys)
    decreases |ops|
  {
    if ops != [] {
      var op, next, rest := ops[0], Do(queue, ops[0]), ops[1..];
      OneOp(queue, op);
      QueueConserves(next, rest);
      var e := if op.Add? && op.id !in queue then multiset{op.id} else multiset{};
      var p := if op.PopOne? then multiset{op.id} else multiset{};
      var r := if op.Remove? && op.id in queue then multiset{op.id} else multiset{};
      Cancel(multiset(queue.Keys), e, multiset(next.Keys), p, r, Entered(next, rest), Popped(rest), Removed(next, rest),
             multiset(DoAll(next, rest).Keys));
    }
  }

  /** From the empty set, the depth is the number of effective enqueues less the pops and removals. */
  lemma DepthIsTheRest(ops: seq<Op>)
    requires CanDoAll(map[], ops)
    ensures |DoAll(map[], ops)| == |Entered(map[], ops)| - |Popped(ops)| - |Removed(map[], ops)|
  {
    QueueConserves(map[], ops);
    var none: map<Id, nat> := map[];
    var last := DoAll(map[], ops);
    assert multiset(none.Keys) == multiset{};
    assert multiset(none.Keys) + Entered(map[], ops) == Entered(map[], ops);
    assert |last.Keys| == |last|;
  }

  lemma Cancel(m0: multiset<Id>, e: multiset<Id>, m1: multiset<Id>, p: multiset<Id>, r: multiset<Id>,
               es: multiset<Id>, ps: multiset<Id>, rs: multiset<Id>, m2: multiset<Id>)
    requires m0 + e == m1 + p + r && m1 + es == ps + rs + m2
    ensures m0 + (e + es) == (p + ps) + (r + rs) + m2
  {
    forall x ensures (m0 + (e + es))[x] == ((p + ps) + (r + rs) + m2)[x] {
      assert (m0 + e)[x] == (m1 + p + r)[x] && (m1 + es)[x] == (ps + rs + m2)[x];
    }
  }

  /** Enqueueing is idempotent: while an id stays queued its first score stands. */
  lemma {:induction false} FirstScoreStands(queue: map<Id, nat>, ops: seq<Op>, id: Id)
    requires id in queue
    requires forall k :: 0 <= k < |ops| ==> ops[k] != PopOne(id) && ops[k] != Remove(id)
    ensures id in DoAll(queue, ops) && DoAll(queue, ops)[id] == queue[id]
    decreases |ops|
  {
    if ops != [] {
      assert ops[0] != PopOne(id) && ops[0] != Remove(id);
      FirstScoreStands(Do(queue, ops[0]), ops[1..], id);
    }
  }
}
