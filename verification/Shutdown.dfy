/** Graceful stop: the worker pool as N loops over the first N tasks of the engine, with the flag they look
    at between turns. stop lowers the flag and returns when every loop has ended. */
module Shutdown {
  import opened Model
  import opened Dispatch
  import opened Engine
  import opened Exclusivity
  import opened Safety
  import opened Accounting
  import opened Reduction

  /** Where one loop is: about to look at the flag, waiting in BZPOPMIN, dispatching, ended. */
  datatype Loop = Top | Blocked | Serving(id: Id) | Over

  /** popped, finished and late are history: the ids the loops received, those whose dispatch has ended, by
      return or by exception, and how often each loop popped after the flag fell. */
  datatype Pool = Pool(
    engine: State, running: bool, loops: seq<Loop>,
    popped: multiset<Id>, finished: multiset<Id>, late: seq<nat>)

  /** Miss: the wait timed out or Redis failed. Lost: Redis popped and the reply was lost. Fail: an exception
      ends the dispatch and the loop catches it. Elsewhere: creators, handlers and the broker go on. */
  datatype PoolMove =
    | Look(w: nat)
    | Get(w: nat, id: Id)
    | Miss(w: nat)
    | Lost(w: nat, id: Id)
    | Serve(w: nat, x: Input)
    | Letter(w: nat)
    | Fail(w: nat)
    | Elsewhere(a: Action)
    | Stop

  function NewPool(tasks: nat, workers: nat): Pool {
    Pool(Init(tasks), true, seq(workers, _ => Top), multiset{}, multiset{}, seq(workers, _ => 0))
  }

  predicate IsLoop(p: Pool, w: nat) {
    w < |p.loops| && w < |p.engine.tasks| && w < |p.late|
  }

  /** Workers alone pop and dispatch; everybody else keeps off their tasks. */
  predicate NotAWorkers(p: Pool, a: Action) {
    && Fine(a) && !a.Work? && !a.Pop? && !a.PopLost?
    && (a.Expire? || a.i >= |p.loops|)
  }

  /** The action of the engine a move consists of, if any. */
  function EngineOf(m: PoolMove): seq<Action> {
    match m
    case Look(_) => []
    case Get(w, id) => [Pop(w, id)]
    case Miss(_) => []
    case Lost(_, id) => [PopLost(id)]
    case Serve(w, x) => [Work(w, x)]
    case Letter(w) => [Action.Bury(w)]
    case Fail(w) => [Drop(w)]
    case Elsewhere(a) => [a]
    case Stop => []
  }

  predicate MoveEnabled(c: Config, p: Pool, m: PoolMove) {
    && (match m
        case Look(w) => IsLoop(p, w) && p.loops[w].Top?
        case Get(w, id) => IsLoop(p, w) && p.loops[w].Blocked?
        case Miss(w) => IsLoop(p, w) && p.loops[w].Blocked?
        case Lost(w, _) => IsLoop(p, w) && p.loops[w].Blocked?
        case Serve(w, _) => IsLoop(p, w) && p.loops[w].Serving?
        case Letter(w) => IsLoop(p, w) && p.loops[w].Serving?
        case Fail(w) => IsLoop(p, w) && p.loops[w].Serving?
        case Elsewhere(a) => NotAWorkers(p, a)
        case Stop => true)
    && (EngineOf(m) != [] ==> Enabled(c, p.engine, EngineOf(m)[0]))
  }


  function Make(c: Config, p: Pool, m: PoolMove): Pool
    requires MoveEnabled(c, p, m)
  {
    var p1 := if EngineOf(m) == [] then p else p.(engine := Apply(c, p.engine, EngineOf(m)[0]));
    match m
    case Look(w) => p1.(loops := p.loops[w := if p.running then Blocked else Over])
    case Get(w, id) =>
      p1.(loops := p.loops[w := Serving(id)], popped := p.popped + multiset{id},
          late := if p.running then p.late else p.late[w := p.late[w] + 1])
    case Miss(w) => p1.(loops := p.loops[w := Top])
    case Lost(w, _) => p1.(loops := p.loops[w := Top])
    case Serve(w, _) => if w < |p1.engine.tasks| && p1.engine.tasks[w].Idle? then Ended(p, p1, w) else p1
    case Letter(w) => Ended(p, p1, w)
    case Fail(w) => Ended(p, p1, w)
    case Elsewhere(_) => p1
    case Stop => p.(running := false)
  }

  function Ended(p: Pool, p1: Pool, w: nat): Pool
    requires IsLoop(p, w) && p.loops[w].Serving?
  {
    p1.(loops := p.loops[w := Top], finished := p.finished + multiset{p.loops[w].id})
  }

  predicate Moves(c: Config, p: Pool, ms: seq<PoolMove>)
    decreases |ms|
  {
    ms == [] || (MoveEnabled(c, p, ms[0]) && Moves(c, Make(c, p, ms[0]), ms[1..]))
  }

  function PoolAfter(c: Config, p: Pool, ms: seq<PoolMove>): Pool
    requires Moves(c, p, ms)
    decreases |ms|
  {
    if ms == [] then p else PoolAfter(c, Make(c, p, ms[0]), ms[1..])
  }

  /** What the engine does meanwhile. */
  function EngineRun(ms: seq<PoolMove>): seq<Action> {
    if ms == [] then [] else EngineOf(ms[0]) + EngineRun(ms[1..])
  }

  lemma MoveRunsTheEngine(c: Config, p: Pool, m: PoolMove)
    requires MoveEnabled(c, p, m)
    ensures |EngineOf(m)| <= 1
    ensures if EngineOf(m) == [] then Make(c, p, m).engine == p.engine
            else Fine(EngineOf(m)[0]) && Make(c, p, m).engine == Apply(c, p.engine, EngineOf(m)[0])
  {}

  lemma OneMore(c: Config, s: State, es: seq<Action>, rest: seq<Action>)
    requires |es| == 1 && Enabled(c, s, es[0]) && Fine(es[0]) && Legal(c, Apply(c, s, es[0]), rest) && FineRun(rest)
    ensures Legal(c, s, es + rest) && FineRun(es + rest)
    ensures Exec(c, s, es + rest) == Exec(c, Apply(c, s, es[0]), rest)
  {
    assert (es + rest)[0] == es[0] && (es + rest)[1..] == rest;
  }

  /** Whatever the pool does is a run of the interleaved engine. */
  lemma {:induction false} PoolRunsTheEngine(c: Config, p: Pool, ms: seq<PoolMove>)
    requires Moves(c, p, ms)
    ensures Legal(c, p.engine, EngineRun(ms)) && FineRun(EngineRun(ms))
    ensures Exec(c, p.engine, EngineRun(ms)) == PoolAfter(c, p, ms).engine
    decreases |ms|
  {
    if ms != [] {
      var es, rest := EngineOf(ms[0]), EngineRun(ms[1..]);
      PoolRunsTheEngine(c, Make(c, p, ms[0]), ms[1..]);
      MoveRunsTheEngine(c, p, ms[0]);
      if es == [] {
        assert es + rest == rest;
      } else {
        OneMore(c, p.engine, es, rest);
      }
    }
  }

  // ---------------------------------------------------------------------------------------------
  // What the pool keeps

  /** A loop dispatches exactly while its task does. */
  predicate LoopOk(p: Pool, w: nat)
    requires w < |p.loops| <= |p.engine.tasks|
  {
    var t := p.engine.tasks[w];
    if p.loops[w].Serving? then t.Burying? || (t.Dispatching? && t.id == p.loops[w].id) else t.Idle?
  }

  /** After the flag fell a loop pops at most once more: only if it was waiting already. */
  predicate LateOk(p: Pool, w: nat)
    requires w < |p.loops| == |p.late|
  {
    if p.running then p.late[w] == 0 else p.late[w] <= 1 && (p.loops[w].Blocked? ==> p.late[w] == 0)
  }

  function HandOf(l: Loop): multiset<Id> {
    if l.Serving? then multiset{l.id} else multiset{}
  }

  function InHand(loops: seq<Loop>): multiset<Id> {
    if loops == [] then multiset{} else HandOf(loops[0]) + InHand(loops[1..])
  }

  ghost predicate PoolOk(p: Pool) {
    && |p.loops| == |p.late| && |p.loops| <= |p.engine.tasks|
    && (forall w :: 0 <= w < |p.loops| ==> LoopOk(p, w) && LateOk(p, w))
    && (forall i :: |p.loops| <= i < |p.engine.tasks| ==> !p.engine.tasks[i].Dispatching?)
    && p.popped == p.finished + InHand(p.loops)
  }

  lemma {:induction false} InHandUpdate(loops: seq<Loop>, w: nat, l: Loop, id: Id)
    requires w < |loops|
    ensures InHand(loops[w := l])[id] + HandOf(loops[w])[id] == InHand(loops)[id] + HandOf(l)[id]
  {
    if w > 0 {
      assert loops[w := l][1..] == loops[1..][w - 1 := l];
      InHandUpdate(loops[1..], w - 1, l, id);
    } else {
      assert loops[w := l][1..] == loops[1..];
    }
  }

  lemma {:induction false} NothingInHand(loops: seq<Loop>)
    requires forall w :: 0 <= w < |loops| ==> !loops[w].Serving?
    ensures InHand(loops) == multiset{}
  {
    if loops != [] { NothingInHand(loops[1..]); }
  }

  /** One loop goes on as l, its task as t. */
  lemma LoopMoves(p: Pool, p': Pool, w: nat, l: Loop, t: Task)
    requires PoolOk(p) && w < |p.loops| && p'.running == p.running && |p'.late| == |p.late|
    requires p'.loops == p.loops[w := l] && p'.engine.tasks == p.engine.tasks[w := t]
    requires forall v :: 0 <= v < |p.late| && v != w ==> p'.late[v] == p.late[v]
    requires LoopOk(p', w) && LateOk(p', w)
    requires p'.popped + p.finished + HandOf(p.loops[w]) == p.popped + p'.finished + HandOf(l)
    ensures PoolOk(p')
  {
    forall v | 0 <= v < |p'.loops| ensures LoopOk(p', v) && LateOk(p', v) {
      if v != w { assert LoopOk(p, v) && LateOk(p, v); }
    }
    forall id ensures p'.popped[id] == (p'.finished + InHand(p'.loops))[id] {
      InHandUpdate(p.loops, w, l, id);
      assert p.popped[id] == (p.finished + InHand(p.loops))[id];
      assert (p'.popped + p.finished + HandOf(p.loops[w]))[id] == (p.popped + p'.finished + HandOf(l))[id];
    }
  }

  lemma WorkChangesOneTask(c: Config, s: State, w: nat, x: Input)
    requires w < |s.tasks| && s.tasks[w].Dispatching?
    ensures var s' := WorkOn(c, s, w, x);
            && w < |s'.tasks| && s'.tasks == s.tasks[w := s'.tasks[w]]
            && (|| s'.tasks[w].Idle? || s'.tasks[w].Burying?
                || (s'.tasks[w].Dispatching? && s'.tasks[w].id == s.tasks[w].id))
  {}

  lemma LookKeeps(c: Config, p: Pool, w: nat)
    requires PoolOk(p) && MoveEnabled(c, p, Look(w))
    ensures PoolOk(Make(c, p, Look(w)))
  {
    assert LoopOk(p, w) && LateOk(p, w);
    LoopMoves(p, Make(c, p, Look(w)), w, if p.running then Blocked else Over, p.engine.tasks[w]);
  }

  lemma GetKeeps(c: Config, p: Pool, w: nat, id: Id)
    requires PoolOk(p) && MoveEnabled(c, p, Get(w, id))
    ensures PoolOk(Make(c, p, Get(w, id)))
  {
    assert LoopOk(p, w) && LateOk(p, w);
    LoopMoves(p, Make(c, p, Get(w, id)), w, Serving(id), Dispatching(id, Fetched));
  }

  lemma BackToTopKeeps(c: Config, p: Pool, w: nat, m: PoolMove)
    requires PoolOk(p) && MoveEnabled(c, p, m) && (m == Miss(w) || (m.Lost? && m.w == w))
    ensures PoolOk(Make(c, p, m))
  {
    assert LoopOk(p, w) && LateOk(p, w);
    LoopMoves(p, Make(c, p, m), w, Top, p.engine.tasks[w]);
  }

  lemma ServeKeeps(c: Config, p: Pool, w: nat, x: Input)
    requires PoolOk(p) && MoveEnabled(c, p, Serve(w, x))
    ensures PoolOk(Make(c, p, Serve(w, x)))
  {
    assert LoopOk(p, w) && LateOk(p, w);
    WorkChangesOneTask(c, p.engine, w, x);
    var s' := WorkOn(c, p.engine, w, x);
    if s'.tasks[w].Idle? {
      LoopMoves(p, Ended(p, p.(engine := s'), w), w, Top, Idle);
    } else {
      assert p.loops[w := p.loops[w]] == p.loops;
      LoopMoves(p, p.(engine := s'), w, p.loops[w], s'.tasks[w]);
    }
  }

  lemma EndKeeps(c: Config, p: Pool, w: nat, m: PoolMove)
    requires PoolOk(p) && MoveEnabled(c, p, m) && (m == Letter(w) || m == Fail(w))
    ensures PoolOk(Make(c, p, m))
  {
    assert LoopOk(p, w) && LateOk(p, w);
    LoopMoves(p, Make(c, p, m), w, Top, Idle);
  }

  /** Somebody else's task may change, and does not become a dispatch. */
  lemma OutsideLeavesLoops(c: Config, s: State, a: Action)
    requires Enabled(c, s, a) && Fine(a) && !a.Work? && !a.Pop? && !a.PopLost?
    ensures if a.Expire? then Apply(c, s, a).tasks == s.tasks
            else Apply(c, s, a).tasks == s.tasks[a.i := TaskAfter(s, a)] && !TaskAfter(s, a).Dispatching?
  {
    if !a.Expire? {
      OnlyItsTask(c, s, a);
      DispatchesOnlyAfterPop(s, a);
    }
  }

  lemma ElsewhereKeeps(c: Config, p: Pool, a: Action)
    requires PoolOk(p) && MoveEnabled(c, p, Elsewhere(a))
    ensures PoolOk(Make(c, p, Elsewhere(a)))
  {
    OutsideLeavesLoops(c, p.engine, a);
    var p' := Make(c, p, Elsewhere(a));
    forall w | 0 <= w < |p'.loops| ensures LoopOk(p', w) && LateOk(p', w) { assert LoopOk(p, w) && LateOk(p, w); }
  }

  lemma MoveKeeps(c: Config, p: Pool, m: PoolMove)
    requires PoolOk(p) && MoveEnabled(c, p, m)
    ensures PoolOk(Make(c, p, m))
  {
    match m
    case Look(w) => LookKeeps(c, p, w);
    case Get(w, id) => GetKeeps(c, p, w, id);
    case Miss(w) => BackToTopKeeps(c, p, w, m);
    case Lost(w, _) => BackToTopKeeps(c, p, w, m);
    case Serve(w, x) => ServeKeeps(c, p, w, x);
    case Letter(w) => EndKeeps(c, p, w, m);
    case Fail(w) => EndKeeps(c, p, w, m);
    case Elsewhere(a) => ElsewhereKeeps(c, p, a);
    case Stop => StopKeeps(c, p);
  }

  lemma StopKeeps(c: Config, p: Pool)
    requires PoolOk(p)
    ensures PoolOk(p.(running := false))
  {
    var p' := p.(running := false);
    forall w | 0 <= w < |p'.loops| ensures LoopOk(p', w) && LateOk(p', w) { assert LoopOk(p, w) && LateOk(p, w); }
  }

  lemma {:induction false} MovesKeep(c: Config, p: Pool, ms: seq<PoolMove>)
    requires PoolOk(p) && Moves(c, p, ms)
    ensures PoolOk(PoolAfter(c, p, ms))
    decreases |ms|
  {
    if ms != [] {
      MoveKeeps(c, p, ms[0]);
      MovesKeep(c, Make(c, p, ms[0]), ms[1..]);
    }
  }

  lemma StartIsOk(tasks: nat, workers: nat)
    requires workers <= tasks
    ensures PoolOk(NewPool(tasks, workers))
  {
    var p := NewPool(tasks, workers);
    forall w | 0 <= w < |p.loops| ensures LoopOk(p, w) && LateOk(p, w) {}
    NothingInHand(p.loops);
  }

  // ---------------------------------------------------------------------------------------------
  // stop

  /** What the gather in stop waits for. */
  predicate Gathered(p: Pool) {
    !p.running && forall w :: 0 <= w < |p.loops| ==> p.loops[w].Over?
  }

  /** When stop returns, nobody is dispatching, and every id that a loop received, before or after the flag
      fell, has had its dispatch to the end; each loop received at most one after the flag fell. */
  lemma StopWaitsForAll(c: Config, tasks: nat, workers: nat, ms: seq<PoolMove>)
    requires workers <= tasks && Moves(c, NewPool(tasks, workers), ms)
    ensures var p := PoolAfter(c, NewPool(tasks, workers), ms);
            && (Gathered(p) ==> NoDispatchInProgress(p.engine) && p.popped == p.finished)
            && |p.late| == workers && (forall w :: 0 <= w < workers ==> p.late[w] <= 1)
  {
    StartIsOk(tasks, workers);
    MovesKeep(c, NewPool(tasks, workers), ms);
    var p := PoolAfter(c, NewPool(tasks, workers), ms);
    LoopsStay(c, NewPool(tasks, workers), ms);
    forall w | 0 <= w < workers ensures p.late[w] <= 1 { assert LateOk(p, w); }
    if Gathered(p) {
      NothingInHand(p.loops);
      forall i | 0 <= i < |p.engine.tasks| ensures !p.engine.tasks[i].Dispatching? {
        if i < |p.loops| { assert LoopOk(p, i); }
      }
    }
  }

  lemma {:induction false} LoopsStay(c: Config, p: Pool, ms: seq<PoolMove>)
    requires Moves(c, p, ms)
    ensures |PoolAfter(c, p, ms).loops| == |p.loops|
    decreases |ms|
  {
    if ms != [] { LoopsStay(c, Make(c, p, ms[0]), ms[1..]); }
  }

  /** Graceful stop strands nothing: when stop has returned, a row without an outcome is not QUEUED, and its
      token is in Redis, in RabbitMQ or with a creator or handler about to put it there, unless a fault
      dropped it. */
  lemma GracefulStop(c: Config, tasks: nat, workers: nat, ms: seq<PoolMove>, id: Id)
    requires workers <= tasks && Moves(c, NewPool(tasks, workers), ms)
    requires Legal(c, Init(tasks), EngineRun(ms)) && DisciplinedRun(c, Init(tasks), EngineRun(ms))
    requires var p := PoolAfter(c, NewPool(tasks, workers), ms);
             Gathered(p) && id in p.engine.notes && Active(p.engine.notes[id].row)
    ensures var s := PoolAfter(c, NewPool(tasks, workers), ms).engine;
            || id in s.stranded
            || (&& Waiting(s.notes[id].row)
                && (|| id in s.queue || InRetry(s.retries, id) == 1 || s.results[id] == 1
                    || exists i :: 0 <= i < |s.tasks| && Carries(s.tasks[i], id)))
  {
    PoolRunsTheEngine(c, NewPool(tasks, workers), ms);
    StopWaitsForAll(c, tasks, workers, ms);
    RestsBetweenDispatches(c, tasks, EngineRun(ms), id);
  }

  // ---------------------------------------------------------------------------------------------
  // stop returns

  function PhaseLeft(phase: Phase): nat {
    match phase
    case Fetched => 8
    case Loaded(_) => 7
    case Marked(_) => 6
    case Ready(_) => 5
    case Deciding(_, _) => 4
    case Failing(_) => 3
    case Delivering(_) => 3
    case Publishing(_) => 3
  }

  /** A bound on the moves loop w has left once the flag is down. */
  function MovesLeft(l: Loop, t: Task): nat {
    match l
    case Over => 0
    case Top => 1
    case Serving(_) => if t.Dispatching? then PhaseLeft(t.phase) else 2
    case Blocked => 9
  }

  predicate MoveOf(m: PoolMove, w: nat) {
    && (m.Look? || m.Get? || m.Miss? || m.Lost? || m.Serve? || m.Letter? || m.Fail?)
    && m.w == w
  }

  lemma WorkIsFinite(c: Config, s: State, w: nat, x: Input)
    requires w < |s.tasks| && s.tasks[w].Dispatching?
    ensures var t := WorkOn(c, s, w, x).tasks[w];
            t.Dispatching? ==> PhaseLeft(t.phase) < PhaseLeft(s.tasks[w].phase)
  {}

  lemma OwnMove(c: Config, p: Pool, m: PoolMove, w: nat)
    requires w < |p.loops| <= |p.engine.tasks| && LoopOk(p, w) && !p.running && MoveEnabled(c, p, m) && MoveOf(m, w)
    ensures var p' := Make(c, p, m);
            && w < |p'.loops| && w < |p'.engine.tasks|
            && MovesLeft(p'.loops[w], p'.engine.tasks[w]) < MovesLeft(p.loops[w], p.engine.tasks[w])
  {
    if m.Serve? { ServeMove(c, p, w, m.x); } else { TurnMove(c, p, m, w); }
  }

  lemma ServeMove(c: Config, p: Pool, w: nat, x: Input)
    requires w < |p.loops| <= |p.engine.tasks| && LoopOk(p, w) && MoveEnabled(c, p, Serve(w, x))
    ensures var p' := Make(c, p, Serve(w, x));
            && w < |p'.loops| && w < |p'.engine.tasks|
            && MovesLeft(p'.loops[w], p'.engine.tasks[w]) < MovesLeft(p.loops[w], p.engine.tasks[w])
  {
    WorkIsFinite(c, p.engine, w, x);
    WorkChangesOneTask(c, p.engine, w, x);
  }

  lemma TurnMove(c: Config, p: Pool, m: PoolMove, w: nat)
    requires w < |p.loops| <= |p.engine.tasks| && LoopOk(p, w) && !p.running && MoveEnabled(c, p, m) && MoveOf(m, w)
    requires !m.Serve?
    ensures var p' := Make(c, p, m);
            && w < |p'.loops| && w < |p'.engine.tasks|
            && MovesLeft(p'.loops[w], p'.engine.tasks[w]) < MovesLeft(p.loops[w], p.engine.tasks[w])
  {}

  lemma OtherMove(c: Config, p: Pool, m: PoolMove, w: nat)
    requires w < |p.loops| <= |p.engine.tasks| && MoveEnabled(c, p, m) && !MoveOf(m, w)
    ensures var p' := Make(c, p, m);
            && w < |p'.loops| && w < |p'.engine.tasks|
            && p'.loops[w] == p.loops[w] && p'.engine.tasks[w] == p.engine.tasks[w]
  {
    if m.Elsewhere? { OutsideLeavesLoops(c, p.engine, m.a); } else { LoopsMoveAlone(c, p, m, w); }
  }

  lemma LoopsMoveAlone(c: Config, p: Pool, m: PoolMove, w: nat)
    requires w < |p.loops| <= |p.engine.tasks| && MoveEnabled(c, p, m) && !MoveOf(m, w) && !m.Elsewhere?
    ensures var p' := Make(c, p, m);
            && w < |p'.loops| && w < |p'.engine.tasks|
            && p'.loops[w] == p.loops[w] && p'.engine.tasks[w] == p.engine.tasks[w]
  {
    if m.Serve? { WorkChangesOneTask(c, p.engine, m.w, m.x); }
  }

  /** Once the flag is down every move of a loop brings its end nearer and nobody else's delays it; as long as
      it has not ended it can move (LoopCanMove): stop returns after at most nine moves of each loop. */
  lemma StopIsBounded(c: Config, p: Pool, m: PoolMove, w: nat)
    requires PoolOk(p) && !p.running && w < |p.loops| && MoveEnabled(c, p, m)
    ensures var p' := Make(c, p, m);
            && w < |p'.loops| && w < |p'.engine.tasks|
            && (if MoveOf(m, w)
                then MovesLeft(p'.loops[w], p'.engine.tasks[w]) < MovesLeft(p.loops[w], p.engine.tasks[w])
                else MovesLeft(p'.loops[w], p'.engine.tasks[w]) == MovesLeft(p.loops[w], p.engine.tasks[w]))
    ensures MovesLeft(p.loops[w], p.engine.tasks[w]) <= 9
    ensures MovesLeft(p.loops[w], p.engine.tasks[w]) == 0 <==> p.loops[w].Over?
  {
    assert LoopOk(p, w);
    if MoveOf(m, w) { OwnMove(c, p, m, w); } else { OtherMove(c, p, m, w); }
  }

  lemma LoopCanMove(c: Config, p: Pool, w: nat, x: Input) returns (m: PoolMove)
    requires PoolOk(p) && w < |p.loops| && !p.loops[w].Over?
    ensures MoveOf(m, w) && MoveEnabled(c, p, m) && !m.Fail? && !m.Lost?
  {
    assert LoopOk(p, w);
    match p.loops[w]
    case Top => m := Look(w);
    case Blocked => m := Miss(w);
    case Serving(_) => m := if p.engine.tasks[w].Dispatching? then Serve(w, x) else Letter(w);
  }
}
