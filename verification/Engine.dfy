/** The delivery engine as a transition system. Its places are the notifications table, the Redis
    sorted set, the RabbitMQ retry queue, the retry-result queue and the dead-letter queue; between
    them, any number of concurrent tasks (creators, workers, retry handlers) carry notification ids.
    An action is what one task, or the broker, does between two await points. */
module Engine {
  import opened Model
  import opened Dispatch
  import opened ChannelKeys
  import opened Scores

  datatype Message = Message(id: Id, delay: nat)

  /** What a task is doing.
      Enqueuing: it is about to add the id to the sorted set, after committing the row, after a manual
      retry, or (handler) for a retry message not acknowledged yet. Acking: the handler has enqueued
      and not acknowledged. Handling: the handler has the message and has not read the row. Asking: a
      manual retry has read the row, found it neither SENT nor QUEUED, and remembers its retry count.
      Burying: FAILED is committed, the dead-letter record not published. */
  datatype Task =
    | Idle
    | Enqueuing(id: Id, priority: nat, handler: bool)
    | Acking(id: Id)
    | Handling(id: Id)
    | Asking(id: Id, count: nat)
    | Dispatching(id: Id, phase: Phase)
    | Burying(letter: DeadLetter)

  /** Where a token can be lost: on its way into the sorted set, between Redis and the worker, in a dispatch
      before its QUEUED commit, between that and the outcome commit, before the retry message is
      published, in the retry handler. */
  datatype Point = AtEnqueue | AtPop | BeforeQueued | BetweenCommits | BeforePublish | AtHandler

  /** The last five fields are history: ids whose token is lost at present, where each id's token was lost
      last, and every token ever dropped by a fault, absorbed by NX, or duplicated by a redelivery. */
  datatype State = State(
    notes: map<Id, Note>, queue: map<Id, nat>, tasks: seq<Task>,
    retries: seq<Message>, results: multiset<Id>, dlq: seq<DeadLetter>,
    stranded: set<Id>, points: map<Id, Point>, dropped: multiset<Id>, absorbed: multiset<Id>, redelivered: multiset<Id>)

  datatype Action =
    | Create(i: nat, id: Id, base: string, event: EventType, channel: Channel, recipient: string, priority: nat)
    | Enqueue(i: nat, ms: nat)
    | Pop(i: nat, id: Id)
    | PopLost(id: Id)
    | Work(i: nat, x: Input)
    | Drop(i: nat)
    | Expire
    | Take(i: nat, id: Id)
    | Read(i: nat)
    | Redeliver(i: nat)
    | RedeliverLate(i: nat)
    | Ack(i: nat)
    | Bury(i: nat)
    | Ask(i: nat, id: Id)
    | ManualRetry(i: nat, id: Id)
    | DispatchAtOnce(i: nat, xs: seq<Input>)
    | CrashAtOnce(i: nat, xs: seq<Input>)

  function Init(tasks: nat): State {
    State(map[], map[], seq(tasks, i => Idle), [], multiset{}, [], {}, map[], multiset{}, multiset{}, multiset{})
  }

  function NewRow(base: string, event: EventType, channel: Channel, recipient: string, priority: nat): Row {
    Row(ChannelKey(base, channel), event, channel, recipient, priority, Pending, 0, None, None, None)
  }

  /** The id a task holds, if any: it alone will move that id on. */
  function Token(t: Task): Option<Id> {
    match t
    case Enqueuing(id, _, _) => Some(id)
    case Handling(id) => Some(id)
    case Dispatching(id, _) => Some(id)
    case Idle => None
    case Acking(_) => None
    case Burying(_) => None
    case Asking(_, _) => None
  }

  predicate IsMin(queue: map<Id, nat>, id: Id) {
    id in queue && forall j :: j in queue ==> queue[id] <= queue[j]
  }

  lemma {:induction false} MinExists(queue: map<Id, nat>)
    requires queue != map[]
    ensures exists id :: IsMin(queue, id)
    decreases |queue|
  {
    var x :| x in queue;
    var rest := queue - {x};
    assert queue.Keys == rest.Keys + {x};
    assert |queue.Keys| == |rest.Keys| + 1;
    if rest == map[] {
      assert IsMin(queue, x);
    } else {
      MinExists(rest);
      var y :| IsMin(rest, y);
      assert IsMin(queue, if queue[x] <= queue[y] then x else y);
    }
  }

  predicate KeyIsFree(notes: map<Id, Note>, key: string) {
    forall j :: j in notes ==> notes[j].row.key != key
  }

  predicate IsTask(s: State, i: nat) {
    i < |s.tasks|
  }

  /** The program's own guards. Create: the UNIQUE key is free. Pop: the lowest score leaves first,
      ties in any order. Expire: the broker releases the head of the retry queue. Ask: the row
      exists and is neither SENT nor QUEUED; by the time of the commit, ManualRetry, nothing is checked. */
  predicate Enabled(c: Config, s: State, a: Action) {
    match a
    case Create(i, id, base, event, channel, recipient, priority) =>
      IsTask(s, i) && s.tasks[i].Idle? && id !in s.notes && KeyIsFree(s.notes, ChannelKey(base, channel))
    case Enqueue(i, _) => IsTask(s, i) && s.tasks[i].Enqueuing?
    case Pop(i, id) => IsTask(s, i) && s.tasks[i].Idle? && IsMin(s.queue, id)
    case PopLost(id) => IsMin(s.queue, id)
    case Work(i, _) => IsTask(s, i) && s.tasks[i].Dispatching?
    case Drop(i) => IsTask(s, i) && !s.tasks[i].Idle?
    case Expire => s.retries != []
    case Take(i, id) => IsTask(s, i) && s.tasks[i].Idle? && id in s.results
    case Read(i) => IsTask(s, i) && s.tasks[i].Handling?
    case Redeliver(i) => IsTask(s, i) && (s.tasks[i].Handling? || (s.tasks[i].Enqueuing? && s.tasks[i].handler))
    case RedeliverLate(i) => IsTask(s, i) && s.tasks[i].Acking?
    case Ack(i) => IsTask(s, i) && s.tasks[i].Acking?
    case Bury(i) => IsTask(s, i) && s.tasks[i].Burying?
    case Ask(i, id) =>
      IsTask(s, i) && s.tasks[i].Idle? && id in s.notes && s.notes[id].row.status !in {Sent, Queued}
    case ManualRetry(i, id) =>
      IsTask(s, i) && s.tasks[i].Asking? && s.tasks[i].id == id && id in s.notes
    case DispatchAtOnce(i, xs) =>
      && IsTask(s, i) && s.tasks[i].Dispatching? && s.tasks[i].phase.Fetched? && s.tasks[i].id in s.notes
      && Run(c, s.tasks[i].id, Fetched, s.notes[s.tasks[i].id], xs).1.Done?
    case CrashAtOnce(i, xs) =>
      && IsTask(s, i) && s.tasks[i].Dispatching? && s.tasks[i].phase.Fetched? && s.tasks[i].id in s.notes
      && Run(c, s.tasks[i].id, Fetched, s.notes[s.tasks[i].id], xs).1.More?
  }

  function SetTask(s: State, i: nat, t: Task): (s': State)
    requires IsTask(s, i)
    ensures s'.notes == s.notes
  {
    s.(tasks := s.tasks[i := t])
  }

  /** The token of id is gone without the row having reached an outcome. */
  function Lose(s: State, id: Id, point: Point): (s': State)
    ensures s'.notes == s.notes
  {
    s.(stranded := s.stranded + {id}, points := s.points[id := point], dropped := s.dropped + multiset{id})
  }

  /** Where a task that ends now loses its token. */
  function PointOf(t: Task): Point {
    match t
    case Enqueuing(_, _, _) => AtEnqueue
    case Dispatching(_, phase) =>
      if Mid(phase) then BetweenCommits else if phase.Publishing? then BeforePublish else BeforeQueued
    case _ => AtHandler
  }

  /** What dispatching id goes on as after a turn. */
  function AfterTurn(id: Id, turn: Turn): Task {
    if turn.More? then Dispatching(id, turn.phase)
    else if turn.effect.Bury? then Burying(turn.effect.letter)
    else Idle
  }

  /** The message a turn puts in the retry queue, and the token it drops. */
  function Emitted(id: Id, turn: Turn): seq<Message> {
    if turn.Done? && turn.effect.Emit? then [Message(id, turn.effect.delay)] else []
  }

  function Raised(id: Id, turn: Turn): set<Id> {
    if turn == Done(Raise) then {id} else {}
  }

  function PointsAfter(points: map<Id, Point>, id: Id, turn: Turn): map<Id, Point> {
    if turn == Done(Raise) then points[id := BetweenCommits] else points
  }

  /** Task i, dispatching id, leaves row n behind and goes on as the turn says. */
  function Settle(s: State, i: nat, id: Id, n: Note, turn: Turn): State
    requires IsTask(s, i)
  {
    s.(notes := s.notes[id := n], tasks := s.tasks[i := AfterTurn(id, turn)], retries := s.retries + Emitted(id, turn),
       stranded := s.stranded + Raised(id, turn), points := PointsAfter(s.points, id, turn),
       dropped := s.dropped + multiset(Raised(id, turn)))
  }

  function CreateRow(s: State, i: nat, id: Id, row: Row): State
    requires IsTask(s, i)
  {
    SetTask(s.(notes := s.notes[id := Note(row, NO_HISTORY)]), i, Enqueuing(id, row.priority, false))
  }

  /** ZADD NX: an id already in the set keeps its score. */
  function EnqueueToken(s: State, i: nat, ms: nat): (s': State)
    requires IsTask(s, i) && s.tasks[i].Enqueuing?
    ensures s'.notes == s.notes
  {
    var t := s.tasks[i];
    var s1 := SetTask(s, i, if t.handler then Acking(t.id) else Idle);
    if t.id in s.queue then s1.(absorbed := s1.absorbed + multiset{t.id})
    else s1.(queue := s1.queue[t.id := Score(t.priority, ms)])
  }

  function PopMin(s: State, i: nat, id: Id): (s': State)
    requires IsTask(s, i)
    ensures s'.notes == s.notes
  {
    SetTask(s.(queue := s.queue - {id}), i, Dispatching(id, Fetched))
  }

  function WorkOn(c: Config, s: State, i: nat, x: Input): State
    requires IsTask(s, i) && s.tasks[i].Dispatching?
  {
    var t := s.tasks[i];
    if t.id !in s.notes then SetTask(Lose(s, t.id, PointOf(t)), i, Idle)
    else
      var (n, turn) := Step(c, t.id, t.phase, s.notes[t.id], x);
      Settle(s, i, t.id, n, turn)
  }

  function DropTask(s: State, i: nat): (s': State)
    requires IsTask(s, i)
    ensures s'.notes == s.notes
  {
    var s1 := SetTask(s, i, Idle);
    if Token(s.tasks[i]).Some? then Lose(s1, Token(s.tasks[i]).value, PointOf(s.tasks[i])) else s1
  }

  function ExpireHead(s: State): (s': State)
    requires s.retries != []
    ensures s'.notes == s.notes
  {
    s.(retries := s.retries[1..], results := s.results + multiset{s.retries[0].id})
  }

  function TakeResult(s: State, i: nat, id: Id): (s': State)
    requires IsTask(s, i)
    ensures s'.notes == s.notes
  {
    SetTask(s.(results := s.results - multiset{id}), i, Handling(id))
  }

  function ReadForRetry(s: State, i: nat): (s': State)
    requires IsTask(s, i) && s.tasks[i].Handling?
    ensures s'.notes == s.notes
  {
    var id := s.tasks[i].id;
    if id !in s.notes then SetTask(Lose(s, id, AtHandler), i, Idle)
    else SetTask(s, i, Enqueuing(id, s.notes[id].row.priority, true))
  }

  function Return(s: State, i: nat, id: Id): (s': State)
    requires IsTask(s, i)
    ensures s'.notes == s.notes
  {
    SetTask(s.(results := s.results + multiset{id}), i, Idle)
  }

  function AskRow(s: State, i: nat, id: Id): (s': State)
    requires IsTask(s, i) && id in s.notes
    ensures s'.notes == s.notes
  {
    SetTask(s, i, Asking(id, s.notes[id].row.retryCount))
  }

  /** The commit of a manual retry that read the retry count as count. */
  function RetriedByHand(n: Note, count: nat): Note {
    Note(n.row.(status := Pending, retryCount := count + 1, errorCode := None),
         n.past.(manuals := n.past.manuals + 1, lost := n.past.lost + n.row.retryCount - count))
  }

  function RetryByHand(s: State, i: nat, id: Id): State
    requires IsTask(s, i) && s.tasks[i].Asking? && id in s.notes
  {
    SetTask(s.(notes := s.notes[id := RetriedByHand(s.notes[id], s.tasks[i].count)], stranded := s.stranded - {id}),
            i, Enqueuing(id, s.notes[id].row.priority, false))
  }

  function RunAtOnce(c: Config, s: State, i: nat, xs: seq<Input>): State
    requires IsTask(s, i) && s.tasks[i].Dispatching? && s.tasks[i].id in s.notes
  {
    var id := s.tasks[i].id;
    var (n, turn) := Run(c, id, Fetched, s.notes[id], xs);
    if turn.Done? then Settle(s, i, id, n, turn)
    else SetTask(Lose(s.(notes := s.notes[id := n]), id, PointOf(Dispatching(id, turn.phase))), i, Idle)
  }

  function Apply(c: Config, s: State, a: Action): State
    requires Enabled(c, s, a)
  {
    match a
    case Create(i, id, base, event, channel, recipient, priority) =>
      CreateRow(s, i, id, NewRow(base, event, channel, recipient, priority))
    case Enqueue(i, ms) => EnqueueToken(s, i, ms)
    case Pop(i, id) => PopMin(s, i, id)
    case PopLost(id) => Lose(s.(queue := s.queue - {id}), id, AtPop)
    case Work(i, x) => WorkOn(c, s, i, x)
    case Drop(i) => DropTask(s, i)
    case Expire => ExpireHead(s)
    case Take(i, id) => TakeResult(s, i, id)
    case Read(i) => ReadForRetry(s, i)
    case Redeliver(i) => Return(s, i, s.tasks[i].id)
    case RedeliverLate(i) =>
      Return(s.(redelivered := s.redelivered + multiset{s.tasks[i].id}), i, s.tasks[i].id)
    case Ack(i) => SetTask(s, i, Idle)
    case Bury(i) => SetTask(s.(dlq := s.dlq + [s.tasks[i].letter]), i, Idle)
    case Ask(i, id) => AskRow(s, i, id)
    case ManualRetry(i, id) => RetryByHand(s, i, id)
    case DispatchAtOnce(i, xs) => RunAtOnce(c, s, i, xs)
    case CrashAtOnce(i, xs) => RunAtOnce(c, s, i, xs)
  }

  /** The program itself interleaves the steps of dispatches; the atomic system takes each dispatch
      in one action. */
  predicate Fine(a: Action) { !a.DispatchAtOnce? && !a.CrashAtOnce? }
  predicate Atomic(a: Action) { !a.Work? }

  predicate Legal(c: Config, s: State, run: seq<Action>)
    decreases |run|
  {
    run == [] || (Enabled(c, s, run[0]) && Legal(c, Apply(c, s, run[0]), run[1..]))
  }

  function Exec(c: Config, s: State, run: seq<Action>): State
    requires Legal(c, s, run)
    decreases |run|
  {
    if run == [] then s else Exec(c, Apply(c, s, run[0]), run[1..])
  }

  // ---------------------------------------------------------------------------------------------
  // Counting tokens

  predicate Holds(t: Task, id: Id, midOnly: bool) {
    Token(t) == Some(id) && (midOnly ==> t.Dispatching? && Mid(t.phase))
  }

  /** How many tasks hold id; with midOnly, how many are past its QUEUED commit and before its outcome. */
  function Held(tasks: seq<Task>, id: Id, midOnly: bool): nat {
    if tasks == [] then 0
    else (if Holds(tasks[0], id, midOnly) then 1 else 0) + Held(tasks[1..], id, midOnly)
  }

  function InRetry(q: seq<Message>, id: Id): nat {
    if q == [] then 0 else (if q[0].id == id then 1 else 0) + InRetry(q[1..], id)
  }

  /** All occurrences of id in the sorted set, in the hands of tasks, in the retry queue and in the
      retry-result queue. */
  function Tokens(s: State, id: Id): nat {
    (if id in s.queue then 1 else 0) + Held(s.tasks, id, false) + InRetry(s.retries, id) + s.results[id]
  }

  lemma {:induction false} HeldUpdate(tasks: seq<Task>, i: nat, t: Task, id: Id, midOnly: bool)
    requires i < |tasks|
    ensures Held(tasks[i := t], id, midOnly) + (if Holds(tasks[i], id, midOnly) then 1 else 0) ==
            Held(tasks, id, midOnly) + if Holds(t, id, midOnly) then 1 else 0
  {
    if i > 0 {
      assert tasks[i := t][1..] == tasks[1..][i - 1 := t];
      HeldUpdate(tasks[1..], i - 1, t, id, midOnly);
    } else {
      assert tasks[i := t][1..] == tasks[1..];
    }
  }

  lemma {:induction false} HeldAt(tasks: seq<Task>, i: nat, id: Id, midOnly: bool)
    requires i < |tasks| && Holds(tasks[i], id, midOnly)
    ensures Held(tasks, id, midOnly) >= 1
  {
    if i > 0 { HeldAt(tasks[1..], i - 1, id, midOnly); }
  }

  lemma {:induction false} HeldTwice(tasks: seq<Task>, i: nat, j: nat, id: Id)
    requires i < j < |tasks| && Holds(tasks[i], id, false) && Holds(tasks[j], id, false)
    ensures Held(tasks, id, false) >= 2
  {
    if i > 0 { HeldTwice(tasks[1..], i - 1, j - 1, id); } else { HeldAt(tasks[1..], j - 1, id, false); }
  }

  lemma {:induction false} MidIsHeld(tasks: seq<Task>, id: Id)
    ensures Held(tasks, id, true) <= Held(tasks, id, false)
  {
    if tasks != [] { MidIsHeld(tasks[1..], id); }
  }

  lemma {:induction false} HeldAgrees(a: seq<Task>, b: seq<Task>, id: Id)
    requires |a| == |b| && forall i :: 0 <= i < |a| ==> Token(a[i]) == Token(b[i])
    ensures Held(a, id, false) == Held(b, id, false)
  {
    if a != [] { HeldAgrees(a[1..], b[1..], id); }
  }

  lemma {:induction false} NoneHeld(tasks: seq<Task>, id: Id, midOnly: bool)
    requires forall i :: 0 <= i < |tasks| ==> !Holds(tasks[i], id, midOnly)
    ensures Held(tasks, id, midOnly) == 0
  {
    if tasks != [] { NoneHeld(tasks[1..], id, midOnly); }
  }

  lemma {:induction false} InRetryAppend(q: seq<Message>, r: seq<Message>, id: Id)
    ensures InRetry(q + r, id) == InRetry(q, id) + InRetry(r, id)
  {
    if q == [] {
      assert q + r == r;
    } else {
      assert (q + r)[1..] == q[1..] + r;
      InRetryAppend(q[1..], r, id);
    }
  }

  lemma {:induction false} NoMessages(q: seq<Message>, id: Id)
    requires InRetry(q, id) == 0
    ensures forall k :: 0 <= k < |q| ==> q[k].id != id
  {
    if q != [] {
      NoMessages(q[1..], id);
      assert forall k :: 1 <= k < |q| ==> q[k] == q[1..][k - 1];
    }
  }

  /** What a turn adds to the retry queue, counted. */
  lemma SettleRetryCount(s: State, i: nat, id: Id, n: Note, turn: Turn, j: Id)
    requires i < |s.tasks|
    ensures InRetry(Settle(s, i, id, n, turn).retries, j) ==
            InRetry(s.retries, j) + if j == id && turn.Done? && turn.effect.Emit? then 1 else 0
  {
    InRetryAppend(s.retries, Emitted(id, turn), j);
  }
}
