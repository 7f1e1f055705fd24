/** How often a notification can be sent, for everything the program does: any interleaving, any manual
    retry the code admits, any redelivery. Every token that can still reach the provider is worth one
    accepted send, neither more nor less. */
module Sends {
  import opened Model
  import opened Dispatch
  import opened Engine
  import opened Exclusivity
  import opened Accounting

  // ---------------------------------------------------------------------------------------------
  // What a state is still good for

  /** A dispatch in such a phase will not send any more, nor will its token come back. */
  predicate Doomed(c: Config, phase: Phase) {
    match phase
    case Delivering(_) => true
    case Failing(_) => true
    case Deciding(snap, _) => snap.retryCount + 1 > PolicyFor(c, snap.event).maxRetries
    case _ => false
  }

  predicate CanSend(c: Config, t: Task, id: Id) {
    Token(t) == Some(id) && !(t.Dispatching? && Doomed(c, t.phase))
  }

  /** How many tasks hold a token of id that can still reach the provider. */
  function Able(c: Config, tasks: seq<Task>, id: Id): nat {
    if tasks == [] then 0 else Flag(CanSend(c, tasks[0], id)) + Able(c, tasks[1..], id)
  }

  function Chances(c: Config, s: State, id: Id): nat {
    Flag(id in s.queue) + Able(c, s.tasks, id) + InRetry(s.retries, id) + s.results[id]
  }

  /** The accepted sends so far and those still possible. */
  function Potential(c: Config, s: State, id: Id): nat
    requires id in s.notes
  {
    Deliveries(s.notes[id]) + Chances(c, s, id)
  }

  /** One send, one for each manual retry, one for each redelivery after an enqueue. */
  function Budget(s: State, id: Id): nat
    requires id in s.notes
  {
    1 + s.notes[id].past.manuals + s.redelivered[id]
  }

  lemma {:induction false} AbleUpdate(c: Config, tasks: seq<Task>, i: nat, t: Task, id: Id)
    requires i < |tasks|
    ensures Able(c, tasks[i := t], id) + Flag(CanSend(c, tasks[i], id)) ==
            Able(c, tasks, id) + Flag(CanSend(c, t, id))
  {
    if i > 0 {
      assert tasks[i := t][1..] == tasks[1..][i - 1 := t];
      AbleUpdate(c, tasks[1..], i - 1, t, id);
    } else {
      assert tasks[i := t][1..] == tasks[1..];
    }
  }

  lemma {:induction false} SomeoneIsAble(c: Config, tasks: seq<Task>, id: Id) returns (k: nat)
    requires Able(c, tasks, id) > 0
    ensures k < |tasks| && CanSend(c, tasks[k], id)
  {
    if CanSend(c, tasks[0], id) {
      k := 0;
    } else {
      k := SomeoneIsAble(c, tasks[1..], id);
      k := k + 1;
    }
  }

  lemma {:induction false} NobodyIsAble(c: Config, tasks: seq<Task>, id: Id)
    requires forall k :: 0 <= k < |tasks| ==> Token(tasks[k]) != Some(id)
    ensures Able(c, tasks, id) == 0
  {
    if tasks != [] { NobodyIsAble(c, tasks[1..], id); }
  }

  // ---------------------------------------------------------------------------------------------
  // Every token names a row, in every run

  predicate PhaseTied(phase: Phase, row: Row) {
    match phase
    case Loaded(snap) => SameIdentity(snap, row)
    case Marked(snap) => SameIdentity(snap, row)
    case Ready(snap) => SameIdentity(snap, row)
    case Deciding(snap, _) => SameIdentity(snap, row)
    case _ => true
  }

  predicate TaskTied(notes: map<Id, Note>, t: Task) {
    match t
    case Idle => true
    case Burying(_) => true
    case Acking(id) => id in notes
    case Enqueuing(id, _, _) => id in notes
    case Handling(id) => id in notes
    case Asking(id, _) => id in notes
    case Dispatching(id, phase) => id in notes && PhaseTied(phase, notes[id].row)
  }

  predicate MessagesTied(notes: map<Id, Note>, retries: seq<Message>) {
    forall k :: 0 <= k < |retries| ==> retries[k].id in notes
  }

  ghost predicate Tied(s: State) {
    && (forall i :: 0 <= i < |s.tasks| ==> TaskTied(s.notes, s.tasks[i]))
    && s.queue.Keys <= s.notes.Keys
    && MessagesTied(s.notes, s.retries)
    && (forall id :: id in s.results ==> id in s.notes)
  }

  /** Rows are never removed and never change what identifies them. */
  ghost predicate Grows(a: map<Id, Note>, b: map<Id, Note>) {
    forall id :: id in a ==> id in b && SameIdentity(a[id].row, b[id].row)
  }

  lemma TiedGrows(a: map<Id, Note>, b: map<Id, Note>, t: Task)
    requires Grows(a, b) && TaskTied(a, t)
    ensures TaskTied(b, t)
  {}

  lemma TaskKeepsTied(s: State, s': State, i: nat, t: Task)
    requires Tied(s) && i < |s.tasks| && Grows(s.notes, s'.notes)
    requires s'.tasks == s.tasks[i := t] && TaskTied(s'.notes, t)
    requires s'.queue.Keys <= s'.notes.Keys && MessagesTied(s'.notes, s'.retries)
    requires forall id :: id in s'.results ==> id in s'.notes
    ensures Tied(s')
  {
    forall k | 0 <= k < |s'.tasks| ensures TaskTied(s'.notes, s'.tasks[k]) {
      if k != i { TiedGrows(s.notes, s'.notes, s.tasks[k]); }
    }
  }

  lemma StepKeepsTied(c: Config, id: Id, phase: Phase, n: Note, x: Input)
    requires PhaseTied(phase, n.row)
    ensures var (m, turn) := Step(c, id, phase, n, x);
            SameIdentity(n.row, m.row) && (turn.More? ==> PhaseTied(turn.phase, m.row))
  {}

  lemma WorkKeepsTied(c: Config, s: State, i: nat, x: Input)
    requires Tied(s) && i < |s.tasks| && s.tasks[i].Dispatching?
    ensures Tied(WorkOn(c, s, i, x))
  {
    var t := s.tasks[i];
    assert TaskTied(s.notes, t);
    StepKeepsTied(c, t.id, t.phase, s.notes[t.id], x);
    var (n, turn) := Step(c, t.id, t.phase, s.notes[t.id], x);
    var s' := Settle(s, i, t.id, n, turn);
    assert Grows(s.notes, s'.notes);
    TaskKeepsTied(s, s', i, AfterTurn(t.id, turn));
  }

  lemma PlainGrows(c: Config, s: State, a: Action)
    requires Enabled(c, s, a) && Plain(a)
    ensures Grows(s.notes, Apply(c, s, a).notes) && Apply(c, s, a).retries == s.retries
  {
    OneTaskChanges(c, s, a);
    if a.Create? || a.ManualRetry? { WrittenGrows(c, s, a); }
  }

  lemma WrittenGrows(c: Config, s: State, a: Action)
    requires Enabled(c, s, a) && (a.Create? || a.ManualRetry?)
    ensures Grows(s.notes, Apply(c, s, a).notes)
  {}

  lemma PlainTask(c: Config, s: State, a: Action)
    requires Enabled(c, s, a) && Plain(a) && TaskTied(s.notes, s.tasks[a.i])
    requires a.Pop? || a.Take? ==> a.id in s.notes
    ensures TaskTied(Apply(c, s, a).notes, TaskAfter(s, a))
  {
    if a.Create? {
      CreatedIsThere(c, s, a);
    } else {
      PlainGrows(c, s, a);
      TaskAfterTied(s, a);
      TiedGrows(s.notes, Apply(c, s, a).notes, TaskAfter(s, a));
    }
  }

  lemma TaskAfterTied(s: State, a: Action)
    requires Plain(a) && IsTask(s, a.i) && !a.Create? && TaskTied(s.notes, s.tasks[a.i])
    requires a.Pop? || a.Take? ==> a.id in s.notes
    ensures TaskTied(s.notes, TaskAfter(s, a))
  {}

  lemma PlainQueue(c: Config, s: State, a: Action)
    requires s.queue.Keys <= s.notes.Keys && Enabled(c, s, a) && Plain(a) && TaskTied(s.notes, s.tasks[a.i])
    ensures Apply(c, s, a).queue.Keys <= s.notes.Keys
  {}

  lemma PlainResults(c: Config, s: State, a: Action)
    requires forall id :: id in s.results ==> id in s.notes
    requires Enabled(c, s, a) && Plain(a) && TaskTied(s.notes, s.tasks[a.i])
    ensures forall id :: id in Apply(c, s, a).results ==> id in s.notes
  {}

  lemma PlainKeepsTied(c: Config, s: State, a: Action)
    requires Tied(s) && Enabled(c, s, a) && Plain(a)
    ensures Tied(Apply(c, s, a))
  {
    var s' := Apply(c, s, a);
    assert TaskTied(s.notes, s.tasks[a.i]);
    PlainGrows(c, s, a);
    PlainTask(c, s, a);
    PlainQueue(c, s, a);
    PlainResults(c, s, a);
    OneTaskChanges(c, s, a);
    assert MessagesTied(s'.notes, s'.retries);
    TaskKeepsTied(s, s', a.i, TaskAfter(s, a));
  }

  lemma ActionKeepsTied(c: Config, s: State, a: Action)
    requires Tied(s) && Enabled(c, s, a) && Fine(a)
    ensures Tied(Apply(c, s, a))
  {
    if a.Work? {
      WorkKeepsTied(c, s, a.i, a.x);
    } else if !a.PopLost? && !a.Expire? {
      PlainKeepsTied(c, s, a);
    }
  }

  lemma {:induction false} RunKeepsTied(c: Config, s: State, run: seq<Action>)
    requires Tied(s) && Legal(c, s, run) && FineRun(run)
    ensures Tied(Exec(c, s, run))
    decreases |run|
  {
    if run != [] {
      assert Fine(run[0]);
      ActionKeepsTied(c, s, run[0]);
      RunKeepsTied(c, Apply(c, s, run[0]), run[1..]);
    }
  }

  // ---------------------------------------------------------------------------------------------
  // No action gains more than the budget does

  function Worth(c: Config, turn: Turn): nat {
    if turn.More? then Flag(!Doomed(c, turn.phase)) else Flag(turn.effect.Emit?)
  }

  /** A step turns a chance into an accepted send, keeps it, or loses it. */
  lemma StepWorth(c: Config, id: Id, phase: Phase, n: Note, x: Input)
    ensures var (m, turn) := Step(c, id, phase, n, x);
            && Deliveries(m) + Worth(c, turn) <= Deliveries(n) + Flag(!Doomed(c, phase))
            && m.past.manuals == n.past.manuals
  {
    if phase.Ready? { ReplyWorth(c, id, phase, n, x); } else { QuietWorth(c, id, phase, n, x); }
  }

  lemma ReplyWorth(c: Config, id: Id, phase: Phase, n: Note, x: Input)
    requires phase.Ready?
    ensures var (m, turn) := Step(c, id, phase, n, x);
            && Deliveries(m) + Worth(c, turn) <= Deliveries(n) + 1
            && m.past.manuals == n.past.manuals
  {
    AcceptsSnoc(n.past.replies, Classify(x.reply));
  }

  lemma QuietWorth(c: Config, id: Id, phase: Phase, n: Note, x: Input)
    requires !phase.Ready?
    ensures var (m, turn) := Step(c, id, phase, n, x);
            && m.past.replies == n.past.replies && Worth(c, turn) <= Flag(!Doomed(c, phase))
            && m.past.manuals == n.past.manuals
  {}

  /** From s to s', the potential of id grows by no more than its budget. */
  ghost predicate Affordable(c: Config, s: State, s': State, id: Id)
    requires id in s.notes
  {
    id in s'.notes && Potential(c, s', id) + Budget(s, id) <= Potential(c, s, id) + Budget(s', id)
  }

  lemma WorkIsAffordable(c: Config, s: State, i: nat, x: Input, id: Id)
    requires Tied(s) && i < |s.tasks| && s.tasks[i].Dispatching? && id in s.notes
    ensures Affordable(c, s, WorkOn(c, s, i, x), id)
  {
    var t := s.tasks[i];
    assert TaskTied(s.notes, t);
    StepWorth(c, t.id, t.phase, s.notes[t.id], x);
    var (n, turn) := Step(c, t.id, t.phase, s.notes[t.id], x);
    AbleUpdate(c, s.tasks, i, AfterTurn(t.id, turn), id);
    SettleRetryCount(s, i, t.id, n, turn, id);
  }

  /** What changes when one task goes on as t and the messages stay. */
  lemma TaskMoves(c: Config, s: State, s': State, i: nat, t: Task, id: Id)
    requires i < |s.tasks| && s'.tasks == s.tasks[i := t] && s'.retries == s.retries
    ensures Chances(c, s', id) + Flag(id in s.queue) + Flag(CanSend(c, s.tasks[i], id)) + s.results[id] ==
            Chances(c, s, id) + Flag(id in s'.queue) + Flag(CanSend(c, t, id)) + s'.results[id]
  {
    AbleUpdate(c, s.tasks, i, t, id);
  }

  lemma PlainIsAffordable(c: Config, s: State, a: Action, id: Id)
    requires Enabled(c, s, a) && Plain(a) && id in s.notes
    ensures Affordable(c, s, Apply(c, s, a), id)
  {
    PlainBalance(c, s, a, id);
    BalancesAfford(c, s, Apply(c, s, a), a, id);
  }

  lemma BalancesAfford(c: Config, s: State, s': State, a: Action, id: Id)
    requires Plain(a) && IsTask(s, a.i) && OneTask(s, s', a) && id in s.notes && Balances(c, s, s', a.i, id)
    ensures Affordable(c, s, s', id)
  {
    TaskMoves(c, s, s', a.i, TaskAfter(s, a), id);
  }

  /** Queue, task i and result of id, and its history, from s to s'. */
  ghost predicate Balances(c: Config, s: State, s': State, i: nat, id: Id)
    requires i < |s.tasks| && i < |s'.tasks| && id in s.notes
  {
    && id in s'.notes && Deliveries(s'.notes[id]) == Deliveries(s.notes[id])
    && Flag(id in s'.queue) + Flag(CanSend(c, s'.tasks[i], id)) + s'.results[id] + Budget(s, id) <=
       Flag(id in s.queue) + Flag(CanSend(c, s.tasks[i], id)) + s.results[id] + Budget(s', id)
  }

  lemma NotesBalance(c: Config, s: State, a: Action, id: Id)
    requires Enabled(c, s, a) && (a.Create? || a.ManualRetry?) && id in s.notes
    ensures Balances(c, s, Apply(c, s, a), a.i, id)
  {}

  lemma QueueBalance(c: Config, s: State, a: Action, id: Id)
    requires Enabled(c, s, a) && (a.Enqueue? || a.Pop?) && id in s.notes
    ensures Balances(c, s, Apply(c, s, a), a.i, id)
  {}

  lemma ReturnBalance(c: Config, s: State, a: Action, id: Id)
    requires Enabled(c, s, a) && (a.Redeliver? || a.RedeliverLate?) && id in s.notes
    ensures Balances(c, s, Apply(c, s, a), a.i, id)
  {}

  lemma HandlerBalance(c: Config, s: State, a: Action, id: Id)
    requires Enabled(c, s, a) && (a.Take? || a.Read?) && id in s.notes
    ensures Balances(c, s, Apply(c, s, a), a.i, id)
  {}

  lemma EndBalance(c: Config, s: State, a: Action, id: Id)
    requires Enabled(c, s, a) && (a.Drop? || a.Ack? || a.Bury? || a.Ask?) && id in s.notes
    ensures Balances(c, s, Apply(c, s, a), a.i, id)
  {}

  lemma PlainBalance(c: Config, s: State, a: Action, id: Id)
    requires Enabled(c, s, a) && Plain(a) && id in s.notes
    ensures OneTask(s, Apply(c, s, a), a) && Balances(c, s, Apply(c, s, a), a.i, id)
  {
    OneTaskChanges(c, s, a);
    if a.Create? || a.ManualRetry? {
      NotesBalance(c, s, a, id);
    } else if a.Enqueue? || a.Pop? {
      QueueBalance(c, s, a, id);
    } else if a.Drop? || a.Ack? || a.Bury? || a.Ask? {
      EndBalance(c, s, a, id);
    } else if a.Redeliver? || a.RedeliverLate? {
      ReturnBalance(c, s, a, id);
    } else {
      HandlerBalance(c, s, a, id);
    }
  }

  lemma ActionIsAffordable(c: Config, s: State, a: Action, id: Id)
    requires Tied(s) && Enabled(c, s, a) && Fine(a) && id in s.notes
    ensures Affordable(c, s, Apply(c, s, a), id)
  {
    if a.Work? {
      WorkIsAffordable(c, s, a.i, a.x, id);
    } else if !a.PopLost? && !a.Expire? {
      PlainIsAffordable(c, s, a, id);
    }
  }

  ghost predicate Frugal(c: Config, s: State) {
    forall id :: id in s.notes ==> Potential(c, s, id) <= Budget(s, id)
  }

  /** A new row has one token: its creator's. */
  lemma CreateIsFrugal(c: Config, s: State, i: nat, id: Id, row: Row)
    requires Tied(s) && i < |s.tasks| && s.tasks[i].Idle? && id !in s.notes
    ensures Potential(c, CreateRow(s, i, id, row), id) == 1
  {
    forall k | 0 <= k < |s.tasks| ensures Token(s.tasks[k]) != Some(id) { assert TaskTied(s.notes, s.tasks[k]); }
    NobodyIsAble(c, s.tasks, id);
    NoMessageTied(s.notes, s.retries, id);
    AbleUpdate(c, s.tasks, i, Enqueuing(id, row.priority, false), id);
  }

  lemma {:induction false} NoMessageTied(notes: map<Id, Note>, q: seq<Message>, id: Id)
    requires MessagesTied(notes, q) && id !in notes
    ensures InRetry(q, id) == 0
  {
    if q != [] {
      assert MessagesTied(notes, q[1..]);
      NoMessageTied(notes, q[1..], id);
    }
  }

  lemma NewRows(c: Config, s: State, a: Action, id: Id)
    requires Tied(s) && Enabled(c, s, a) && Fine(a) && id !in s.notes && id in Apply(c, s, a).notes
    requires a.Work? ==> TaskTied(s.notes, s.tasks[a.i])
    ensures a.Create? && a.id == id
  {}

  lemma {:induction false} RunIsFrugal(c: Config, s: State, run: seq<Action>)
    requires Tied(s) && Frugal(c, s) && Legal(c, s, run) && FineRun(run)
    ensures Tied(Exec(c, s, run)) && Frugal(c, Exec(c, s, run))
    decreases |run|
  {
    if run != [] {
      var a, s' := run[0], Apply(c, s, run[0]);
      assert Fine(a);
      ActionKeepsTied(c, s, a);
      assert a.Work? ==> TaskTied(s.notes, s.tasks[a.i]);
      forall id | id in s'.notes ensures Potential(c, s', id) <= Budget(s', id) {
        if id in s.notes {
          ActionIsAffordable(c, s, a, id);
        } else {
          NewRows(c, s, a, id);
          CreateIsFrugal(c, s, a.i, id, NewRow(a.base, a.event, a.channel, a.recipient, a.priority));
        }
      }
      RunIsFrugal(c, s', run[1..]);
    }
  }

  lemma InitIsFrugal(c: Config, tasks: nat)
    ensures Tied(Init(tasks)) && Frugal(c, Init(tasks))
  {}

  /** For every run of the interleaved engine, with any manual retries and redeliveries the code admits: a
      row is sent with success at most once, once more for each manual retry of it, and once more for each
      time its retry message came again after its enqueue. */
  lemma SendsAreBounded(c: Config, tasks: nat, run: seq<Action>, id: Id)
    requires Legal(c, Init(tasks), run) && FineRun(run) && id in Exec(c, Init(tasks), run).notes
    ensures var s := Exec(c, Init(tasks), run);
            Deliveries(s.notes[id]) <= 1 + s.notes[id].past.manuals + s.redelivered[id]
  {
    InitIsFrugal(c, tasks);
    RunIsFrugal(c, Init(tasks), run);
  }

  // ---------------------------------------------------------------------------------------------
  // Without further retries by hand and redeliveries, the potential is the exact limit

  predicate Quiet(a: Action) {
    Fine(a) && !a.Ask? && !a.ManualRetry? && !a.RedeliverLate?
  }

  predicate QuietRun(run: seq<Action>) {
    forall k :: 0 <= k < |run| ==> Quiet(run[k])
  }

  lemma QuietKeepsBudget(c: Config, s: State, a: Action, id: Id)
    requires Tied(s) && Enabled(c, s, a) && Quiet(a) && id in s.notes
    ensures var s' := Apply(c, s, a);
            && id in s'.notes && Budget(s', id) == Budget(s, id)
            && s'.notes[id].past.manuals == s.notes[id].past.manuals && s'.redelivered == s.redelivered
  {
    if a.Work? {
      var t := s.tasks[a.i];
      assert TaskTied(s.notes, t);
      StepWorth(c, t.id, t.phase, s.notes[t.id], a.x);
    } else {
      QuietLeavesRow(c, s, a, id);
    }
  }

  lemma {:induction false} QuietRunKeepsBudget(c: Config, s: State, run: seq<Action>, id: Id)
    requires Tied(s) && Legal(c, s, run) && QuietRun(run) && id in s.notes
    ensures var t := Exec(c, s, run);
            && id in t.notes && t.notes[id].past.manuals == s.notes[id].past.manuals && t.redelivered == s.redelivered
    decreases |run|
  {
    if run != [] {
      assert Quiet(run[0]);
      ActionKeepsTied(c, s, run[0]);
      QuietKeepsBudget(c, s, run[0], id);
      QuietRunKeepsBudget(c, Apply(c, s, run[0]), run[1..], id);
    }
  }

  lemma QuietLeavesRow(c: Config, s: State, a: Action, id: Id)
    requires Enabled(c, s, a) && Quiet(a) && !a.Work? && id in s.notes
    ensures var s' := Apply(c, s, a);
            id in s'.notes && s'.notes[id] == s.notes[id] && s'.redelivered == s.redelivered
  {}

  /** No quiet run sends a row more often than its potential says. */
  lemma {:induction false} PotentialIsALimit(c: Config, s: State, run: seq<Action>, id: Id)
    requires Tied(s) && Legal(c, s, run) && QuietRun(run) && id in s.notes
    ensures id in Exec(c, s, run).notes && Deliveries(Exec(c, s, run).notes[id]) <= Potential(c, s, id)
    decreases |run|
  {
    if run != [] {
      assert Quiet(run[0]);
      ActionKeepsTied(c, s, run[0]);
      ActionIsAffordable(c, s, run[0], id);
      QuietKeepsBudget(c, s, run[0], id);
      PotentialIsALimit(c, Apply(c, s, run[0]), run[1..], id);
    }
  }
}
