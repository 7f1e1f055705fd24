/** The limit of Sends is reached: whatever state the program is in, as long as one task is free, it can go
    on without a fault, a manual retry or a late redelivery until a row has been sent with success as often
    as its potential says. */
module Attainment {
  import opened Model
  import opened Dispatch
  import opened Engine
  import opened Exclusivity
  import opened Reduction
  import opened Sends
  import opened Scores

  const ACCEPTING := Input(true, ProviderResult(true, None, None), 0, 1)

  // ---------------------------------------------------------------------------------------------
  // Dispatches that meet an accepting provider

  /** A whole dispatch that the provider accepts leaves no message, no letter and no exception. */
  lemma AcceptedAtOnce(c: Config, id: Id, n: Note)
    ensures var (m, e) := DispatchOnce(c, id, n, ACCEPTING);
            && e == Nothing && SameIdentity(n.row, m.row) && m.past.manuals == n.past.manuals
            && (n.row.channel in c.providers ==> Deliveries(m) == Deliveries(n) + 1)
  {
    AcceptsSnoc(n.past.replies, Accepted(None));
  }

  lemma AcceptedFromReady(c: Config, id: Id, snap: Row, n: Note, k: nat)
    requires k >= 2
    ensures var (m, turn) := Run(c, id, Ready(snap), n, Copies(ACCEPTING, k));
            turn == Done(Nothing) && SameIdentity(n.row, m.row) && Deliveries(m) == Deliveries(n) + 1
  {
    AcceptsSnoc(n.past.replies, Accepted(None));
    RunCopies(c, id, Ready(snap), n, ACCEPTING, k);
    RunCopies(c, id, Delivering(None), HearReply(n, Accepted(None)), ACCEPTING, k - 1);
  }

  /** A dispatch that has not sent yet and finds its provider registered is accepted, whatever its row has
      become meanwhile. */
  lemma AcceptedFrom(c: Config, id: Id, phase: Phase, n: Note)
    requires phase.Fetched? || phase.Loaded? || phase.Marked? || phase.Ready?
    requires PhaseTied(phase, n.row) && n.row.channel in c.providers
    ensures var (m, turn) := Run(c, id, phase, n, Copies(ACCEPTING, 6));
            turn == Done(Nothing) && SameIdentity(n.row, m.row) && Deliveries(m) == Deliveries(n) + 1
  {
    RunCopies(c, id, phase, n, ACCEPTING, 6);
    match phase
    case Fetched =>
      StepsMakeOneDispatch(c, id, n, ACCEPTING);
      AcceptedAtOnce(c, id, n);
    case Loaded(_) =>
      var marked := n.(row := n.row.(status := Queued));
      RunCopies(c, id, Marked(marked.row), marked, ACCEPTING, 5);
      AcceptedFromReady(c, id, marked.row, HearHealth(marked, true), 4);
    case Marked(snap) => AcceptedFromReady(c, id, snap, HearHealth(n, true), 5);
    case Ready(snap) => AcceptedFromReady(c, id, snap, n, 6);
  }

  /** A dispatch that is about to retry, with retries left, ends with a message. */
  lemma RetriedFrom(c: Config, id: Id, phase: Phase, n: Note)
    requires (phase.Deciding? && !Doomed(c, phase)) || phase.Publishing?
    ensures var (m, turn) := Run(c, id, phase, n, Copies(ACCEPTING, 6));
            && turn.Done? && turn.effect.Emit? && SameIdentity(n.row, m.row) && Deliveries(m) == Deliveries(n)
  {
    RunCopies(c, id, phase, n, ACCEPTING, 6);
    var (m, turn) := Step(c, id, phase, n, ACCEPTING);
    if turn.More? { RunCopies(c, id, turn.phase, m, ACCEPTING, 5); }
  }

  // ---------------------------------------------------------------------------------------------
  // One stretch of a continuation

  /** Which token of id to spend next; smaller is nearer to the provider. */
  ghost function Stage(s: State, id: Id): nat {
    if id in s.queue then 0
    else if exists k :: 0 <= k < |s.tasks| && s.tasks[k].Enqueuing? && s.tasks[k].id == id then 1
    else if s.results[id] > 0 then 2
    else if InRetry(s.retries, id) > 0 then 3
    else if exists k :: 0 <= k < |s.tasks| && s.tasks[k] == Handling(id) then 4
    else 5
  }

  function Load(s: State): nat {
    |s.queue| + |s.retries|
  }

  /** From s to t: no fault, nothing lost of the potential, and one step nearer to having spent it. */
  ghost predicate Nearer(c: Config, s: State, t: State, j: nat, id: Id) {
    && Tied(t) && j < |t.tasks| && t.tasks[j].Idle? && t.dropped == s.dropped
    && id in s.notes && id in t.notes && SameIdentity(s.notes[id].row, t.notes[id].row)
    && Potential(c, t, id) == Potential(c, s, id)
    && (Chances(c, t, id) < Chances(c, s, id)
        || (Chances(c, t, id) == Chances(c, s, id)
            && (Stage(t, id) < Stage(s, id) || (Stage(t, id) == Stage(s, id) && Load(t) < Load(s)))))
  }

  /** A run from s to t of quiet actions. */
  ghost predicate Leads(c: Config, s: State, run: seq<Action>, t: State) {
    Legal(c, s, run) && QuietRun(run) && Exec(c, s, run) == t
  }

  lemma OneLeads(c: Config, s: State, a: Action)
    requires Enabled(c, s, a) && Quiet(a)
    ensures Leads(c, s, [a], Apply(c, s, a))
  {
    assert [a][1..] == [];
  }

  lemma LeadsOn(c: Config, s: State, run: seq<Action>, t: State, more: seq<Action>, u: State)
    requires Leads(c, s, run, t) && Leads(c, t, more, u)
    ensures Leads(c, s, run + more, u)
  {
    Append(c, s, run, more);
  }

  /** Task k works its dispatch to the end, hearing accepting answers. */
  lemma WorkLeads(c: Config, s: State, k: nat) returns (run: seq<Action>)
    requires k < |s.tasks| && s.tasks[k].Dispatching? && s.tasks[k].id in s.notes
    ensures var t := s.tasks[k];
            var (n, turn) := Run(c, t.id, t.phase, s.notes[t.id], Copies(ACCEPTING, 6));
            Leads(c, s, run, Settle(s, k, t.id, n, turn))
  {
    run := Uninterrupted(c, s, k, Copies(ACCEPTING, 6));
  }

  /** A free task takes the first id of the sorted set and dispatches it to the end. */
  lemma ServeFirst(c: Config, s: State, j: nat, first: Id) returns (run: seq<Action>)
    requires j < |s.tasks| && s.tasks[j].Idle? && IsMin(s.queue, first) && first in s.notes
    ensures var m := DispatchOnce(c, first, s.notes[first], ACCEPTING).0;
            Leads(c, s, run, s.(queue := s.queue - {first}, notes := s.notes[first := m]))
  {
    var s1 := PopMin(s, j, first);
    OneLeads(c, s, Pop(j, first));
    StepsMakeOneDispatch(c, first, s.notes[first], ACCEPTING);
    AcceptedAtOnce(c, first, s.notes[first]);
    var more := WorkLeads(c, s1, j);
    var m := DispatchOnce(c, first, s.notes[first], ACCEPTING).0;
    var t := Settle(s1, j, first, m, Done(Nothing));
    assert t == s.(queue := s.queue - {first}, notes := s.notes[first := m]) by {
      assert s.tasks[j := Dispatching(first, Fetched)][j := Idle] == s.tasks;
      assert s.retries + [] == s.retries;
    }
    LeadsOn(c, s, [Pop(j, first)], s1, more, t);
    run := [Pop(j, first)] + more;
  }

  lemma ServeIsNearer(c: Config, s: State, j: nat, id: Id) returns (run: seq<Action>)
    requires Tied(s) && j < |s.tasks| && s.tasks[j].Idle? && id in s.queue
    requires s.notes[id].row.channel in c.providers
    ensures Legal(c, s, run) && QuietRun(run) && Nearer(c, s, Exec(c, s, run), j, id)
  {
    MinExists(s.queue);
    var first :| IsMin(s.queue, first);
    if IsMin(s.queue, id) { first := id; }
    run := ServeFirst(c, s, j, first);
    var t := Exec(c, s, run);
    AcceptedAtOnce(c, first, s.notes[first]);
    assert |s.queue - {first}| == |s.queue| - 1 by {
      assert (s.queue - {first}).Keys == s.queue.Keys - {first};
    }
    ServedStaysTied(s, t, first);
    assert Able(c, t.tasks, id) == Able(c, s.tasks, id);
  }

  lemma ServedStaysTied(s: State, t: State, first: Id)
    requires Tied(s) && first in s.notes && first in t.notes && SameIdentity(s.notes[first].row, t.notes[first].row)
    requires t == s.(queue := s.queue - {first}, notes := s.notes[first := t.notes[first]])
    ensures Tied(t)
  {
    forall k | 0 <= k < |t.tasks| ensures TaskTied(t.notes, t.tasks[k]) { TiedGrows(s.notes, t.notes, s.tasks[k]); }
    assert MessagesTied(t.notes, t.retries);
  }

  lemma EnqueueIsNearer(c: Config, s: State, j: nat, id: Id, k: nat)
    requires Tied(s) && j < |s.tasks| && s.tasks[j].Idle? && id !in s.queue
    requires k < |s.tasks| && s.tasks[k].Enqueuing? && s.tasks[k].id == id
    ensures Nearer(c, s, Apply(c, s, Enqueue(k, 0)), j, id)
  {
    var t := EnqueueToken(s, k, 0);
    assert TaskTied(s.notes, s.tasks[k]);
    ActionKeepsTied(c, s, Enqueue(k, 0));
    TaskMoves(c, s, t, k, t.tasks[k], id);
  }

  lemma ReadIsNearer(c: Config, s: State, j: nat, id: Id, k: nat)
    requires Tied(s) && j < |s.tasks| && s.tasks[j].Idle? && Stage(s, id) == 4
    requires k < |s.tasks| && s.tasks[k] == Handling(id)
    ensures Nearer(c, s, Apply(c, s, Read(k)), j, id)
  {
    var t := ReadForRetry(s, k);
    assert TaskTied(s.notes, s.tasks[k]);
    ActionKeepsTied(c, s, Read(k));
    TaskMoves(c, s, t, k, t.tasks[k], id);
    assert t.tasks[k].Enqueuing? && t.tasks[k].id == id;
  }

  lemma ExpireIsNearer(c: Config, s: State, j: nat, id: Id)
    requires Tied(s) && j < |s.tasks| && s.tasks[j].Idle? && id in s.notes
    requires InRetry(s.retries, id) > 0 && Stage(s, id) == 3
    ensures Nearer(c, s, Apply(c, s, Expire), j, id)
  {
    ActionKeepsTied(c, s, Expire);
  }

  /** A free task acts as the retry handler: it takes the message, reads the row, enqueues, acknowledges. */
  lemma Handle(c: Config, s: State, j: nat, id: Id) returns (run: seq<Action>)
    requires j < |s.tasks| && s.tasks[j].Idle? && id in s.notes && id !in s.queue && id in s.results
    ensures var queue := s.queue[id := Score(s.notes[id].row.priority, 0)];
            Leads(c, s, run, s.(queue := queue, results := s.results - multiset{id}))
  {
    var s1 := TakeResult(s, j, id);
    var s2 := ReadForRetry(s1, j);
    var s3 := EnqueueToken(s2, j, 0);
    var s4 := SetTask(s3, j, Idle);
    OneLeads(c, s, Take(j, id));
    OneLeads(c, s1, Read(j));
    LeadsOn(c, s, [Take(j, id)], s1, [Read(j)], s2);
    OneLeads(c, s2, Enqueue(j, 0));
    LeadsOn(c, s, [Take(j, id)] + [Read(j)], s2, [Enqueue(j, 0)], s3);
    OneLeads(c, s3, Ack(j));
    LeadsOn(c, s, [Take(j, id)] + [Read(j)] + [Enqueue(j, 0)], s3, [Ack(j)], s4);
    run := [Take(j, id)] + [Read(j)] + [Enqueue(j, 0)] + [Ack(j)];
    assert s4.tasks == s.tasks;
  }

  lemma HandleIsNearer(c: Config, s: State, j: nat, id: Id) returns (run: seq<Action>)
    requires Tied(s) && j < |s.tasks| && s.tasks[j].Idle? && id in s.notes && Stage(s, id) == 2 && s.results[id] > 0
    ensures Legal(c, s, run) && QuietRun(run) && Nearer(c, s, Exec(c, s, run), j, id)
  {
    run := Handle(c, s, j, id);
    var t := Exec(c, s, run);
    assert MessagesTied(t.notes, t.retries);
    forall k | 0 <= k < |t.tasks| ensures TaskTied(t.notes, t.tasks[k]) { assert TaskTied(s.notes, s.tasks[k]); }
  }

  /** A dispatch that can still send does so, or ends with the message of its next attempt. */
  lemma FinishIsNearer(c: Config, s: State, j: nat, id: Id, k: nat) returns (run: seq<Action>)
    requires Tied(s) && j < |s.tasks| && s.tasks[j].Idle? && Stage(s, id) == 5
    requires k < |s.tasks| && s.tasks[k].Dispatching? && CanSend(c, s.tasks[k], id)
    requires id in s.notes && s.notes[id].row.channel in c.providers
    ensures Legal(c, s, run) && QuietRun(run) && Nearer(c, s, Exec(c, s, run), j, id)
  {
    var p, n := s.tasks[k].phase, s.notes[id];
    assert TaskTied(s.notes, s.tasks[k]);
    run := WorkLeads(c, s, k);
    if p.Deciding? || p.Publishing? { RetriedFrom(c, id, p, n); } else { AcceptedFrom(c, id, p, n); }
    var (m, turn) := Run(c, id, p, n, Copies(ACCEPTING, 6));
    RunKeepsTied(c, s, run);
    SettleIsNearer(c, s, j, id, k, m, turn);
  }

  lemma SettleIsNearer(c: Config, s: State, j: nat, id: Id, k: nat, m: Note, turn: Turn)
    requires j < |s.tasks| && s.tasks[j].Idle? && Stage(s, id) == 5
    requires id in s.notes && SameIdentity(s.notes[id].row, m.row)
    requires k < |s.tasks| && s.tasks[k].Dispatching? && CanSend(c, s.tasks[k], id) && Tied(Settle(s, k, id, m, turn))
    requires || (turn == Done(Nothing) && Deliveries(m) == Deliveries(s.notes[id]) + 1)
             || (turn.Done? && turn.effect.Emit? && Deliveries(m) == Deliveries(s.notes[id]))
    ensures Nearer(c, s, Settle(s, k, id, m, turn), j, id)
  {
    var t := Settle(s, k, id, m, turn);
    AbleUpdate(c, s.tasks, k, Idle, id);
    SettleRetryCount(s, k, id, m, turn, id);
  }

  // ---------------------------------------------------------------------------------------------
  // The whole continuation

  lemma NextStretch(c: Config, s: State, j: nat, id: Id) returns (run: seq<Action>)
    requires Tied(s) && j < |s.tasks| && s.tasks[j].Idle? && Chances(c, s, id) > 0
    requires id in s.notes && s.notes[id].row.channel in c.providers
    ensures Legal(c, s, run) && QuietRun(run) && Nearer(c, s, Exec(c, s, run), j, id)
  {
    if id in s.queue {
      run := ServeIsNearer(c, s, j, id);
    } else if k :| 0 <= k < |s.tasks| && s.tasks[k].Enqueuing? && s.tasks[k].id == id {
      EnqueueIsNearer(c, s, j, id, k);
      OneLeads(c, s, Enqueue(k, 0));
      run := [Enqueue(k, 0)];
    } else {
      run := LaterStretch(c, s, j, id);
    }
  }

  lemma LaterStretch(c: Config, s: State, j: nat, id: Id) returns (run: seq<Action>)
    requires Tied(s) && j < |s.tasks| && s.tasks[j].Idle? && Chances(c, s, id) > 0 && Stage(s, id) >= 2
    requires id in s.notes && s.notes[id].row.channel in c.providers
    ensures Legal(c, s, run) && QuietRun(run) && Nearer(c, s, Exec(c, s, run), j, id)
  {
    if s.results[id] > 0 {
      run := HandleIsNearer(c, s, j, id);
    } else if InRetry(s.retries, id) > 0 {
      ExpireIsNearer(c, s, j, id);
      OneLeads(c, s, Expire);
      run := [Expire];
    } else if k :| 0 <= k < |s.tasks| && s.tasks[k] == Handling(id) {
      ReadIsNearer(c, s, j, id, k);
      OneLeads(c, s, Read(k));
      run := [Read(k)];
    } else {
      var k := SomeoneIsAble(c, s.tasks, id);
      run := FinishIsNearer(c, s, j, id, k);
    }
  }

  /** As long as one task is free and the channel has a provider, the potential is reached. */
  lemma {:induction false} PotentialIsReached(c: Config, s: State, j: nat, id: Id) returns (run: seq<Action>)
    requires Tied(s) && j < |s.tasks| && s.tasks[j].Idle?
    requires id in s.notes && s.notes[id].row.channel in c.providers
    ensures Legal(c, s, run) && QuietRun(run)
    ensures var t := Exec(c, s, run);
            id in t.notes && Deliveries(t.notes[id]) == Potential(c, s, id) && t.dropped == s.dropped
    decreases Chances(c, s, id), Stage(s, id), Load(s)
  {
    run := [];
    if Chances(c, s, id) > 0 {
      run := NextStretch(c, s, j, id);
      var t := Exec(c, s, run);
      var rest := PotentialIsReached(c, t, j, id);
      LeadsOn(c, s, run, t, rest, Exec(c, t, rest));
      run := run + rest;
    }
  }

  // ---------------------------------------------------------------------------------------------
  // When a second send can happen

  /** Some continuation, without a further manual retry or late redelivery, has the row accepted twice. */
  ghost predicate CanBeSentTwice(c: Config, s: State, id: Id) {
    exists run ::
      && Legal(c, s, run) && QuietRun(run)
      && id in Exec(c, s, run).notes && Deliveries(Exec(c, s, run).notes[id]) >= 2
  }

  lemma TwiceExactlyAtPotentialTwo(c: Config, s: State, j: nat, id: Id)
    requires Tied(s) && j < |s.tasks| && s.tasks[j].Idle?
    requires id in s.notes && s.notes[id].row.channel in c.providers
    ensures CanBeSentTwice(c, s, id) <==> Potential(c, s, id) >= 2
  {
    var run := PotentialIsReached(c, s, j, id);
    assert Potential(c, s, id) >= 2 ==> CanBeSentTwice(c, s, id);
    if CanBeSentTwice(c, s, id) {
      var r :| Legal(c, s, r) && QuietRun(r) && id in Exec(c, s, r).notes && Deliveries(Exec(c, s, r).notes[id]) >= 2;
      PotentialIsALimit(c, s, r, id);
    }
  }

  /** In every state the program can reach, with a free task and a provider: some continuation without a fault
      sends the row exactly as often as its potential says, none sends it more often, and the potential is
      within the budget. */
  lemma EveryTokenIsWorthOneSend(c: Config, tasks: nat, run: seq<Action>, j: nat, id: Id) returns (more: seq<Action>)
    requires Legal(c, Init(tasks), run) && FineRun(run)
    requires var s := Exec(c, Init(tasks), run);
             && j < |s.tasks| && s.tasks[j].Idle? && id in s.notes && s.notes[id].row.channel in c.providers
    ensures var s := Exec(c, Init(tasks), run);
            && Legal(c, s, more) && QuietRun(more)
            && (var t := Exec(c, s, more);
                && id in t.notes && Deliveries(t.notes[id]) == Potential(c, s, id) && t.dropped == s.dropped)
            && Potential(c, s, id) <= Budget(s, id)
            && (CanBeSentTwice(c, s, id) <==> Potential(c, s, id) >= 2)
  {
    InitIsFrugal(c, tasks);
    RunIsFrugal(c, Init(tasks), run);
    var s := Exec(c, Init(tasks), run);
    more := PotentialIsReached(c, s, j, id);
    TwiceExactlyAtPotentialTwo(c, s, j, id);
  }

  lemma RetryAddsAChance(c: Config, s: State, i: nat, id: Id)
    requires i < |s.tasks| && s.tasks[i].Asking? && id in s.notes
    ensures var s' := RetryByHand(s, i, id);
            && Potential(c, s', id) == Potential(c, s, id) + 1
            && s'.notes[id].row.channel == s.notes[id].row.channel
  {
    TaskMoves(c, s, RetryByHand(s, i, id), i, Enqueuing(id, s.notes[id].row.priority, false), id);
  }

  lemma RedeliveryAddsAChance(c: Config, s: State, i: nat)
    requires Enabled(c, s, RedeliverLate(i)) && s.tasks[i].id in s.notes
    ensures var id, s' := s.tasks[i].id, Apply(c, s, RedeliverLate(i));
            s'.notes == s.notes && Potential(c, s', id) == Potential(c, s, id) + 1
  {
    TaskMoves(c, s, Apply(c, s, RedeliverLate(i)), i, Idle, s.tasks[i].id);
  }

  /** In any such state, a manual retry or a late redelivery is worth one more send, and so opens the way to a
      second one exactly when there was one, or a chance of one, before. */
  lemma OneMoreChance(c: Config, s: State, a: Action, id: Id, j: nat)
    requires Tied(s) && Enabled(c, s, a) && id in s.notes && s.notes[id].row.channel in c.providers
    requires (a.ManualRetry? && a.id == id) || (a.RedeliverLate? && s.tasks[a.i].id == id)
    requires j < |Apply(c, s, a).tasks| && Apply(c, s, a).tasks[j].Idle?
    ensures CanBeSentTwice(c, Apply(c, s, a), id) <==> Potential(c, s, id) >= 1
  {
    ActionKeepsTied(c, s, a);
    if a.ManualRetry? { RetryAddsAChance(c, s, a.i, id); } else { RedeliveryAddsAChance(c, s, a.i); }
    TwiceExactlyAtPotentialTwo(c, Apply(c, s, a), j, id);
  }

  lemma {:induction false} EarlyHoldersCanSend(c: Config, tasks: seq<Task>, id: Id)
    requires forall k :: 0 <= k < |tasks| && tasks[k].Dispatching? && tasks[k].id == id ==> !Mid(tasks[k].phase)
    ensures Able(c, tasks, id) == Held(tasks, id, false)
  {
    if tasks != [] { EarlyHoldersCanSend(c, tasks[1..], id); }
  }

  /** Outside the stretch between QUEUED and the outcome, every token can still send and none has. */
  lemma PotentialOutsideTheSend(c: Config, s: State, id: Id)
    requires Inv(c, s) && id in s.notes && s.notes[id].row.status !in {Sent, Queued}
    ensures Deliveries(s.notes[id]) == 0 && Chances(c, s, id) == Tokens(s, id)
    ensures Tokens(s, id) == 0 <==> s.notes[id].row.status == Failed || id in s.stranded
  {
    assert IdGood(c, s, id);
    forall k | 0 <= k < |s.tasks| && s.tasks[k].Dispatching? && s.tasks[k].id == id ensures !Mid(s.tasks[k].phase) {
      assert TaskGood(c, s.notes, s.tasks[k]);
    }
    EarlyHoldersCanSend(c, s.tasks, id);
  }

  /** Where ids are exclusive, the commit of a manual retry, however much later than its read, opens the way to
      a second accepted send exactly when the row has one or its token can still send: always on a SENT row,
      never on a FAILED one, and on a PENDING or RETRYING one unless its token was lost. Task j stands for a
      worker that is free. */
  lemma ManualRetrySendsTwiceIff(c: Config, s: State, i: nat, id: Id, j: nat)
    requires Inv(c, s) && Tied(s) && Enabled(c, s, ManualRetry(i, id)) && s.notes[id].row.channel in c.providers
    requires j < |s.tasks| && j != i && s.tasks[j].Idle?
    ensures var row := s.notes[id].row;
            && (CanBeSentTwice(c, Apply(c, s, ManualRetry(i, id)), id) <==>
                Deliveries(s.notes[id]) == 1 || Chances(c, s, id) > 0)
            && (row.status == Sent ==> CanBeSentTwice(c, Apply(c, s, ManualRetry(i, id)), id))
            && (row.status == Failed ==> !CanBeSentTwice(c, Apply(c, s, ManualRetry(i, id)), id))
            && (Waiting(row) ==> (CanBeSentTwice(c, Apply(c, s, ManualRetry(i, id)), id) <==> id !in s.stranded))
  {
    assert IdGood(c, s, id);
    if s.notes[id].row.status !in {Sent, Queued} { PotentialOutsideTheSend(c, s, id); }
    OneMoreChance(c, s, ManualRetry(i, id), id, j);
  }

  /** Where ids are exclusive, a redelivery after the enqueue opens the way to a second accepted send exactly
      when the row has one or its token can still send: always on a SENT row, never on a FAILED one, and on a
      PENDING or RETRYING one unless its token was lost. */
  lemma LateRedeliverySendsTwiceIff(c: Config, s: State, i: nat)
    requires Inv(c, s) && Tied(s) && Enabled(c, s, RedeliverLate(i)) && s.tasks[i].id in s.notes
    requires s.notes[s.tasks[i].id].row.channel in c.providers
    ensures var id := s.tasks[i].id;
            var row := s.notes[id].row;
            && (CanBeSentTwice(c, Apply(c, s, RedeliverLate(i)), id) <==>
                Deliveries(s.notes[id]) == 1 || Chances(c, s, id) > 0)
            && (row.status == Sent ==> CanBeSentTwice(c, Apply(c, s, RedeliverLate(i)), id))
            && (row.status == Failed ==> !CanBeSentTwice(c, Apply(c, s, RedeliverLate(i)), id))
            && (Waiting(row) ==> (CanBeSentTwice(c, Apply(c, s, RedeliverLate(i)), id) <==> id !in s.stranded))
  {
    var id := s.tasks[i].id;
    assert IdGood(c, s, id);
    if s.notes[id].row.status !in {Sent, Queued} { PotentialOutsideTheSend(c, s, id); }
    OneMoreChance(c, s, RedeliverLate(i), id, i);
  }
}
