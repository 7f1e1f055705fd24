/** Termination: without manual retries and redeliveries every action of the interleaved engine uses up
    part of a measure built from the retries a row has left and the place its token has reached. */
module Termination {
  import opened Model
  import Backoff
  import opened Dispatch
  import opened Engine
  import opened Exclusivity
  import opened Accounting
  import opened Reduction

  /** The actions that move existing notifications on, or lose them. */
  predicate Delivery(a: Action) {
    Fine(a) && !a.Create? && !a.Ask? && !a.ManualRetry? && !a.Redeliver? && !a.RedeliverLate?
  }

  /** How far a token still has to go within the present attempt; publishing starts the next one. */
  function PhaseRank(p: Phase): nat {
    match p
    case Publishing(_) => 14
    case Fetched => 7
    case Loaded(_) => 6
    case Marked(_) => 5
    case Ready(_) => 4
    case Deciding(_, _) => 3
    case Failing(_) => 3
    case Delivering(_) => 3
  }

  function TaskRank(t: Task): nat {
    match t
    case Handling(_) => 11
    case Enqueuing(_, _, _) => 10
    case Dispatching(_, p) => PhaseRank(p)
    case Idle => 0
    case Acking(_) => 0
    case Burying(_) => 0
    case Asking(_, _) => 0
  }

  /** Work of tasks that hold no token: an acknowledgement, a dead-letter record, a manual retry. */
  function Chore(t: Task): nat {
    if t.Acking? || t.Burying? || t.Asking? then 1 else 0
  }

  function RankOf(t: Task, id: Id): nat {
    if Token(t) == Some(id) then TaskRank(t) else 0
  }

  function Ranks(tasks: seq<Task>, id: Id): nat {
    if tasks == [] then 0 else RankOf(tasks[0], id) + Ranks(tasks[1..], id)
  }

  function Chores(tasks: seq<Task>): nat {
    if tasks == [] then 0 else Chore(tasks[0]) + Chores(tasks[1..])
  }

  lemma {:induction false} RanksUpdate(tasks: seq<Task>, i: nat, t: Task, id: Id)
    requires i < |tasks|
    ensures Ranks(tasks[i := t], id) + RankOf(tasks[i], id) == Ranks(tasks, id) + RankOf(t, id)
  {
    if i > 0 {
      assert tasks[i := t][1..] == tasks[1..][i - 1 := t];
      RanksUpdate(tasks[1..], i - 1, t, id);
    } else {
      assert tasks[i := t][1..] == tasks[1..];
    }
  }

  lemma {:induction false} ChoresUpdate(tasks: seq<Task>, i: nat, t: Task)
    requires i < |tasks|
    ensures Chores(tasks[i := t]) + Chore(tasks[i]) == Chores(tasks) + Chore(t)
  {
    if i > 0 {
      assert tasks[i := t][1..] == tasks[1..][i - 1 := t];
      ChoresUpdate(tasks[1..], i - 1, t);
    } else {
      assert tasks[i := t][1..] == tasks[1..];
    }
  }

  /** Retries the policy still grants. */
  function Left(c: Config, row: Row): nat {
    var p := PolicyFor(c, row.event);
    if row.retryCount >= p.maxRetries then 0 else p.maxRetries - row.retryCount
  }

  function Place(s: State, id: Id): nat {
    (if id in s.queue then 8 else 0) + Ranks(s.tasks, id) + 13 * InRetry(s.retries, id) + 12 * s.results[id]
  }

  function Energy(c: Config, s: State, id: Id): nat {
    Place(s, id) + if id in s.notes && Tokens(s, id) > 0 then 15 * Left(c, s.notes[id].row) else 0
  }

  // ---------------------------------------------------------------------------------------------
  // Sums over the rows

  ghost function Total(ids: set<Id>, f: Id -> nat): nat {
    if ids == {} then 0 else var x :| x in ids; f(x) + Total(ids - {x}, f)
  }

  lemma {:induction false} TotalSplit(ids: set<Id>, f: Id -> nat, x: Id)
    requires x in ids
    ensures Total(ids, f) == f(x) + Total(ids - {x}, f)
    decreases ids
  {
    var y :| y in ids && Total(ids, f) == f(y) + Total(ids - {y}, f);
    if y != x {
      TotalSplit(ids - {y}, f, x);
      TotalSplit(ids - {x}, f, y);
      assert ids - {y} - {x} == ids - {x} - {y};
    }
  }

  lemma {:induction false} TotalSame(ids: set<Id>, f: Id -> nat, g: Id -> nat)
    requires forall x :: x in ids ==> f(x) == g(x)
    ensures Total(ids, f) == Total(ids, g)
    decreases ids
  {
    if ids != {} {
      var x :| x in ids;
      TotalSplit(ids, f, x);
      TotalSplit(ids, g, x);
      TotalSame(ids - {x}, f, g);
    }
  }

  lemma {:induction false} TotalAtMost(ids: set<Id>, f: Id -> nat, k: nat, n: nat)
    requires n == |ids| && forall x :: x in ids ==> f(x) <= k
    ensures Total(ids, f) <= n * k
    decreases n
  {
    if n > 0 {
      var x :| x in ids;
      TotalSplit(ids, f, x);
      TotalAtMost(ids - {x}, f, k, n - 1);
      Backoff.MulStep(n, k);
    }
  }

  ghost function Energies(c: Config, s: State): Id -> nat {
    id => Energy(c, s, id)
  }

  ghost function Measure(c: Config, s: State): nat {
    Total(s.notes.Keys, Energies(c, s)) + Chores(s.tasks)
  }

  /** It is enough to look at the one id an action moves. */
  lemma MeasureMoves(c: Config, s: State, s': State, x: Id)
    requires s'.notes.Keys == s.notes.Keys && x in s.notes
    requires forall id :: id in s.notes && id != x ==> Energy(c, s', id) == Energy(c, s, id)
    requires Energy(c, s', x) + Chores(s'.tasks) < Energy(c, s, x) + Chores(s.tasks)
    ensures Measure(c, s') < Measure(c, s)
  {
    var ids := s.notes.Keys;
    TotalSplit(ids, Energies(c, s), x);
    TotalSplit(ids, Energies(c, s'), x);
    TotalSame(ids - {x}, Energies(c, s), Energies(c, s'));
  }

  // ---------------------------------------------------------------------------------------------
  // Each delivery action, for the id it moves and for the others

  lemma Counts(s: State, i: nat, t: Task, id: Id)
    requires i < |s.tasks|
    ensures Held(s.tasks[i := t], id, false) + Flag(Token(s.tasks[i]) == Some(id)) ==
            Held(s.tasks, id, false) + Flag(Token(t) == Some(id))
    ensures Ranks(s.tasks[i := t], id) + RankOf(s.tasks[i], id) == Ranks(s.tasks, id) + RankOf(t, id)
    ensures Chores(s.tasks[i := t]) + Chore(s.tasks[i]) == Chores(s.tasks) + Chore(t)
  {
    HeldBoth(s, i, t, id);
    RanksUpdate(s.tasks, i, t, id);
    ChoresUpdate(s.tasks, i, t);
  }

  lemma EnqueueSpends(c: Config, s: State, i: nat, ms: nat)
    requires Inv(c, s) && i < |s.tasks| && s.tasks[i].Enqueuing?
    ensures Measure(c, EnqueueToken(s, i, ms)) < Measure(c, s)
  {
    var s' := EnqueueToken(s, i, ms);
    HolderIsAlone(c, s, i);
    forall id ensures id != s.tasks[i].id ==> Energy(c, s', id) == Energy(c, s, id) { Counts(s, i, s'.tasks[i], id); }
    Counts(s, i, s'.tasks[i], s.tasks[i].id);
    MeasureMoves(c, s, s', s.tasks[i].id);
  }

  lemma PopSpends(c: Config, s: State, i: nat, id: Id)
    requires Inv(c, s) && i < |s.tasks| && s.tasks[i].Idle? && id in s.queue
    ensures Measure(c, PopMin(s, i, id)) < Measure(c, s)
  {
    var s' := PopMin(s, i, id);
    PlacedIsWaiting(c, s, id);
    forall j ensures j != id ==> Energy(c, s', j) == Energy(c, s, j) { Counts(s, i, s'.tasks[i], j); }
    Counts(s, i, s'.tasks[i], id);
    MeasureMoves(c, s, s', id);
  }

  lemma PopLostSpends(c: Config, s: State, id: Id)
    requires Inv(c, s) && id in s.queue
    ensures Measure(c, Lose(s.(queue := s.queue - {id}), id, AtPop)) < Measure(c, s)
  {
    PlacedIsWaiting(c, s, id);
    MeasureMoves(c, s, Lose(s.(queue := s.queue - {id}), id, AtPop), id);
  }

  lemma DropHere(c: Config, s: State, i: nat)
    requires i < |s.tasks| && Token(s.tasks[i]).Some?
    requires var id := Token(s.tasks[i]).value;
             Held(s.tasks, id, false) == 1 && id !in s.queue && InRetry(s.retries, id) == 0 && s.results[id] == 0
    ensures var id := Token(s.tasks[i]).value;
            Energy(c, DropTask(s, i), id) + Chores(DropTask(s, i).tasks) < Energy(c, s, id) + Chores(s.tasks)
  {
    Counts(s, i, Idle, Token(s.tasks[i]).value);
  }

  lemma DropElsewhere(c: Config, s: State, i: nat, j: Id)
    requires i < |s.tasks| && Token(s.tasks[i]).Some? && j != Token(s.tasks[i]).value
    ensures Energy(c, DropTask(s, i), j) == Energy(c, s, j)
  {
    Counts(s, i, Idle, j);
  }

  lemma DropSpends(c: Config, s: State, i: nat)
    requires Inv(c, s) && i < |s.tasks| && Token(s.tasks[i]).Some?
    ensures Measure(c, DropTask(s, i)) < Measure(c, s)
  {
    var id := Token(s.tasks[i]).value;
    HolderIsAlone(c, s, i);
    forall j | j != id ensures Energy(c, DropTask(s, i), j) == Energy(c, s, j) { DropElsewhere(c, s, i, j); }
    DropHere(c, s, i);
    MeasureMoves(c, s, DropTask(s, i), id);
  }

  lemma ChoreSpends(c: Config, s: State, i: nat, s': State)
    requires i < |s.tasks| && Chore(s.tasks[i]) == 1
    requires s'.tasks == s.tasks[i := Idle] && s'.notes == s.notes && s'.queue == s.queue
    requires s'.retries == s.retries && s'.results == s.results
    ensures Measure(c, s') < Measure(c, s)
  {
    forall j ensures Energy(c, s', j) == Energy(c, s, j) { Counts(s, i, Idle, j); }
    TotalSame(s.notes.Keys, Energies(c, s), Energies(c, s'));
    ChoresUpdate(s.tasks, i, Idle);
  }

  lemma ExpireSpends(c: Config, s: State)
    requires Inv(c, s) && s.retries != []
    ensures Measure(c, ExpireHead(s)) < Measure(c, s)
  {
    PlacedIsWaiting(c, s, s.retries[0].id);
    MeasureMoves(c, s, ExpireHead(s), s.retries[0].id);
  }

  lemma TakeElsewhere(c: Config, s: State, i: nat, id: Id, j: Id)
    requires i < |s.tasks| && s.tasks[i].Idle? && id in s.results && j != id
    ensures Energy(c, TakeResult(s, i, id), j) == Energy(c, s, j)
  {
    Counts(s, i, Handling(id), j);
  }

  lemma TakeSpends(c: Config, s: State, i: nat, id: Id)
    requires Inv(c, s) && i < |s.tasks| && s.tasks[i].Idle? && id in s.results
    ensures Measure(c, TakeResult(s, i, id)) < Measure(c, s)
  {
    PlacedIsWaiting(c, s, id);
    forall j | j != id ensures Energy(c, TakeResult(s, i, id), j) == Energy(c, s, j) { TakeElsewhere(c, s, i, id, j); }
    Counts(s, i, Handling(id), id);
    MeasureMoves(c, s, TakeResult(s, i, id), id);
  }

  lemma ReadSpends(c: Config, s: State, i: nat)
    requires Inv(c, s) && i < |s.tasks| && s.tasks[i].Handling?
    ensures Measure(c, ReadForRetry(s, i)) < Measure(c, s)
  {
    var id, s' := s.tasks[i].id, ReadForRetry(s, i);
    HolderIsAlone(c, s, i);
    forall j ensures j != id ==> Energy(c, s', j) == Energy(c, s, j) { Counts(s, i, s'.tasks[i], j); }
    Counts(s, i, s'.tasks[i], id);
    MeasureMoves(c, s, s', id);
  }

  /** What a step of a dispatch spends: rank within the attempt, or one of the retries left. */
  lemma StepSpends(c: Config, id: Id, phase: Phase, n: Note, x: Input)
    requires Fresh(c, phase, n)
    ensures var (m, turn) := Step(c, id, phase, n, x);
            && m.row.event == n.row.event
            && (turn.More? ==> PhaseRank(turn.phase) + 15 * Left(c, m.row) < PhaseRank(phase) + 15 * Left(c, n.row))
            && (turn.Done? && turn.effect.Emit? ==> m == n && phase.Publishing?)
            && PhaseRank(phase) >= 3
  {}

  ghost predicate Spends(c: Config, m: Note, phase: Phase, n: Note, turn: Turn) {
    && (turn.More? ==> PhaseRank(turn.phase) + 15 * Left(c, n.row) < PhaseRank(phase) + 15 * Left(c, m.row))
    && (turn.Done? && turn.effect.Emit? ==> m == n && phase.Publishing?)
    && PhaseRank(phase) >= 3
  }

  lemma SettleHere(c: Config, s: State, i: nat, n: Note, turn: Turn)
    requires Inv(c, s) && i < |s.tasks| && s.tasks[i].Dispatching? && s.tasks[i].id in s.notes
    requires Spends(c, s.notes[s.tasks[i].id], s.tasks[i].phase, n, turn)
    ensures var s' := Settle(s, i, s.tasks[i].id, n, turn);
            Energy(c, s', s.tasks[i].id) + Chores(s'.tasks) < Energy(c, s, s.tasks[i].id) + Chores(s.tasks)
  {
    var id := s.tasks[i].id;
    HolderIsAlone(c, s, i);
    Counts(s, i, Settle(s, i, id, n, turn).tasks[i], id);
    SettleRetryCount(s, i, id, n, turn, id);
  }

  lemma SettleElsewhere(c: Config, s: State, i: nat, n: Note, turn: Turn, j: Id)
    requires i < |s.tasks| && s.tasks[i].Dispatching? && j != s.tasks[i].id
    ensures Energy(c, Settle(s, i, s.tasks[i].id, n, turn), j) == Energy(c, s, j)
  {
    var id := s.tasks[i].id;
    Counts(s, i, Settle(s, i, id, n, turn).tasks[i], j);
    SettleRetryCount(s, i, id, n, turn, j);
  }

  lemma SettleSpends(c: Config, s: State, i: nat, n: Note, turn: Turn)
    requires Inv(c, s) && i < |s.tasks| && s.tasks[i].Dispatching? && s.tasks[i].id in s.notes
    requires Spends(c, s.notes[s.tasks[i].id], s.tasks[i].phase, n, turn)
    ensures Measure(c, Settle(s, i, s.tasks[i].id, n, turn)) < Measure(c, s)
  {
    var id := s.tasks[i].id;
    var s' := Settle(s, i, id, n, turn);
    SettleHere(c, s, i, n, turn);
    forall j | j != id ensures Energy(c, s', j) == Energy(c, s, j) { SettleElsewhere(c, s, i, n, turn, j); }
    assert s'.notes == s.notes[id := n];
    MeasureMoves(c, s, s', id);
  }

  /** The measure strictly decreases at every delivery action. */
  lemma DeliverySpends(c: Config, s: State, a: Action)
    requires Inv(c, s) && Enabled(c, s, a) && Delivery(a)
    ensures Measure(c, Apply(c, s, a)) < Measure(c, s)
  {
    match a
    case Enqueue(i, ms) => EnqueueSpends(c, s, i, ms);
    case Pop(i, id) => PopSpends(c, s, i, id);
    case PopLost(id) => PopLostSpends(c, s, id);
    case Work(i, x) =>
      var t := s.tasks[i];
      assert TaskGood(c, s.notes, t);
      StepSpends(c, t.id, t.phase, s.notes[t.id], x);
      var (n, turn) := Step(c, t.id, t.phase, s.notes[t.id], x);
      SettleSpends(c, s, i, n, turn);
    case Drop(i) =>
      if Token(s.tasks[i]).Some? { DropSpends(c, s, i); } else { ChoreSpends(c, s, i, DropTask(s, i)); }
    case Expire => ExpireSpends(c, s);
    case Take(i, id) => TakeSpends(c, s, i, id);
    case Read(i) => ReadSpends(c, s, i);
    case Ack(i) => ChoreSpends(c, s, i, SetTask(s, i, Idle));
    case Bury(i) => ChoreSpends(c, s, i, Apply(c, s, a));
  }

  ghost predicate DeliveryRun(run: seq<Action>) {
    forall k :: 0 <= k < |run| ==> Delivery(run[k])
  }

  /** Every delivery run from a good state is no longer than the measure: the engine comes to rest. */
  lemma {:induction false} DeliveryEnds(c: Config, s: State, run: seq<Action>)
    requires Inv(c, s) && Legal(c, s, run) && DeliveryRun(run)
    ensures |run| + Measure(c, Exec(c, s, run)) <= Measure(c, s)
    decreases |run|
  {
    if run != [] {
      assert Delivery(run[0]);
      DeliverySpends(c, s, run[0]);
      ActionKeeps(c, s, run[0]);
      DeliveryEnds(c, Apply(c, s, run[0]), run[1..]);
    }
  }

  // ---------------------------------------------------------------------------------------------
  // How much work that is

  /** Ending every dispatch from task k on changes no row. */
  lemma {:induction false} EndDispatches(c: Config, s: State, k: nat) returns (more: seq<Action>)
    requires k <= |s.tasks| && forall i :: 0 <= i < k ==> !s.tasks[i].Dispatching?
    ensures Legal(c, s, more) && FineRun(more) && DisciplinedRun(c, s, more)
    ensures Exec(c, s, more).notes == s.notes && NoDispatchInProgress(Exec(c, s, more))
    decreases |s.tasks| - k
  {
    more := [];
    if k < |s.tasks| {
      if s.tasks[k].Dispatching? {
        var rest := EndDispatches(c, DropTask(s, k), k + 1);
        more := [Drop(k)] + rest;
        assert more[1..] == rest;
      } else {
        more := EndDispatches(c, s, k + 1);
      }
    }
  }

  /** At every moment of a disciplined interleaved run, a row has seen at most one more dispatch than its
      policy and its operators granted retries, and no more health checks and sends. */
  lemma RowWorkIsBounded(c: Config, tasks: nat, run: seq<Action>, id: Id)
    requires Legal(c, Init(tasks), run) && FineRun(run) && DisciplinedRun(c, Init(tasks), run)
    requires id in Exec(c, Init(tasks), run).notes
    ensures var n := Exec(c, Init(tasks), run).notes[id];
            && |n.past.replies| <= |n.past.health| <= n.past.begun
            && n.past.begun <= 1 + PolicyFor(c, n.row.event).maxRetries + n.past.manuals
  {
    var more := EndDispatches(c, Exec(c, Init(tasks), run), 0);
    Append(c, Init(tasks), run, more);
    AppendDisciplined(c, Init(tasks), run, more);
    var bs := InterleavingIsAtomic(c, tasks, run + more);
    WorkIsBounded(c, tasks, bs, id);
    NeverRedelivered(c, Init(tasks), run + more, id);
    NothingLost(c, Init(tasks), run + more);
  }

  /** No increment of a retry count has been lost. */
  ghost predicate CountsKept(s: State) {
    forall id :: id in s.notes ==> s.notes[id].past.lost == 0
  }

  lemma StepLosesNoCount(c: Config, id: Id, phase: Phase, n: Note, x: Input)
    ensures Step(c, id, phase, n, x).0.past.lost == n.past.lost
  {}

  lemma ActionLosesNoCount(c: Config, s: State, a: Action)
    requires CountsKept(s) && Enabled(c, s, a) && Fine(a) && Disciplined(s, a)
    ensures CountsKept(Apply(c, s, a))
  {
    if a.Work? {
      var t := s.tasks[a.i];
      if t.id in s.notes { StepLosesNoCount(c, t.id, t.phase, s.notes[t.id], a.x); }
    } else if !a.Create? && !a.ManualRetry? {
      OthersLeaveRows(c, s, a);
    }
  }

  lemma {:induction false} NothingLost(c: Config, s: State, run: seq<Action>)
    requires CountsKept(s) && Legal(c, s, run) && FineRun(run) && DisciplinedRun(c, s, run)
    ensures CountsKept(Exec(c, s, run))
    decreases |run|
  {
    if run != [] {
      assert Fine(run[0]);
      ActionLosesNoCount(c, s, run[0]);
      NothingLost(c, Apply(c, s, run[0]), run[1..]);
    }
  }

  lemma {:induction false} NeverRedelivered(c: Config, s: State, run: seq<Action>, id: Id)
    requires Legal(c, s, run) && FineRun(run) && DisciplinedRun(c, s, run) && s.redelivered[id] == 0
    ensures Exec(c, s, run).redelivered[id] == 0
    decreases |run|
  {
    if run != [] {
      assert Fine(run[0]);
      RedeliveredGrowsLate(c, s, run[0]);
      NeverRedelivered(c, Apply(c, s, run[0]), run[1..], id);
    }
  }

  lemma RedeliveredGrowsLate(c: Config, s: State, a: Action)
    requires Enabled(c, s, a) && Fine(a) && !a.RedeliverLate?
    ensures Apply(c, s, a).redelivered == s.redelivered
  {}

  ghost function BegunIn(s: State): Id -> nat {
    id => if id in s.notes then s.notes[id].past.begun else 0
  }

  ghost function SentIn(s: State): Id -> nat {
    id => if id in s.notes then |s.notes[id].past.replies| else 0
  }

  lemma TotalsAreBounded(s: State, max: nat)
    requires forall id :: id in s.notes ==> |s.notes[id].past.replies| <= s.notes[id].past.begun <= max + 1
    ensures Total(s.notes.Keys, BegunIn(s)) <= |s.notes| * (max + 1)
    ensures Total(s.notes.Keys, SentIn(s)) <= |s.notes| * (max + 1)
  {
    assert |s.notes.Keys| == |s.notes|;
    TotalAtMost(s.notes.Keys, BegunIn(s), max + 1, |s.notes|);
    TotalAtMost(s.notes.Keys, SentIn(s), max + 1, |s.notes|);
  }

  /** n rows, no manual retries: at every moment at most n * (max + 1) dispatches in all, and no more sends. */
  lemma TotalWorkIsBounded(c: Config, tasks: nat, run: seq<Action>, max: nat)
    requires Legal(c, Init(tasks), run) && FineRun(run) && DisciplinedRun(c, Init(tasks), run)
    requires forall e :: PolicyFor(c, e).maxRetries <= max
    requires var s := Exec(c, Init(tasks), run);
             forall id :: id in s.notes ==> s.notes[id].past.manuals == 0
    ensures var s := Exec(c, Init(tasks), run);
            && Total(s.notes.Keys, BegunIn(s)) <= |s.notes| * (max + 1)
            && Total(s.notes.Keys, SentIn(s)) <= |s.notes| * (max + 1)
  {
    var s := Exec(c, Init(tasks), run);
    forall id | id in s.notes
      ensures |s.notes[id].past.replies| <= s.notes[id].past.begun <= max + 1
    {
      RowWorkIsBounded(c, tasks, run, id);
    }
    TotalsAreBounded(s, max);
  }
}
