/** One dispatch of one row, step by step. Each step lies between two await points of the program:
    it may read the clock, draw a number or hear from a provider, and it may commit the row once. */
module Dispatch {
  import opened Model
  import opened Backoff

  /** What the outside world answers at a step; a step uses the part it needs. */
  datatype Input = Input(up: bool, reply: ProviderResult, draw: nat, now: nat)

  /** Where a dispatch stands. `snap` is the row as the session last read it.
      Fetched: the id was popped, the row not read yet. Publishing: RETRYING is committed, the retry
      message not yet published. */
  datatype Phase =
    | Fetched
    | Loaded(snap: Row)
    | Marked(snap: Row)
    | Ready(snap: Row)
    | Deciding(snap: Row, code: ErrorCode)
    | Failing(code: ErrorCode)
    | Delivering(externalId: Option<string>)
    | Publishing(delay: nat)

  /** What a finished dispatch leaves to do: nothing, put a message in the retry queue, put a record
      in the dead-letter queue, or nothing because an exception ended it. */
  datatype Effect = Nothing | Emit(delay: nat) | Bury(letter: DeadLetter) | Raise

  datatype Turn = More(phase: Phase) | Done(effect: Effect)

  /** A dispatch's outcome commit. */
  function Commit(n: Note, row: Row): Note {
    Note(row, n.past.(outcomes := n.past.outcomes + [row.status]))
  }

  function Begin(n: Note): Note {
    n.(past := n.past.(begun := n.past.begun + 1))
  }

  function HearHealth(n: Note, up: bool): Note {
    n.(past := n.past.(health := n.past.health + [up]))
  }

  function HearReply(n: Note, v: Verdict): Note {
    n.(past := n.past.(replies := n.past.replies + [v]))
  }

  function Draw(n: Note, delay: nat): Note {
    n.(past := n.past.(delays := n.past.delays + [delay]))
  }

  function LetterFor(id: Id, row: Row, code: ErrorCode): DeadLetter {
    DeadLetter(id, row.key, row.event, row.channel, row.recipient, code, row.retryCount)
  }

  /** The commit that follows a retryable failure. The new count is computed from the snapshot, not
      from the row. */
  function ScheduleRetry(c: Config, id: Id, snap: Row, code: ErrorCode, n: Note, draw: nat): (Note, Turn) {
    var p := PolicyFor(c, snap.event);
    var level := snap.retryCount + 1;
    if level > p.maxRetries then
      var failed := Commit(n, n.row.(status := Failed, errorCode := Some(code)));
      (failed, Done(Bury(LetterFor(id, failed.row, code))))
    else
      var delay := RetryDelay(p, level, draw);
      var retrying := Commit(n, n.row.(status := Retrying, retryCount := level, errorCode := Some(code)));
      (Draw(retrying, delay), More(Publishing(delay)))
  }

  function Step(c: Config, id: Id, phase: Phase, n: Note, x: Input): (Note, Turn) {
    match phase
    case Fetched => (Begin(n), More(Loaded(n.row)))
    case Loaded(snap) =>
      if snap.channel !in c.providers then
        (Commit(n, n.row.(status := Failed, errorCode := Some(Unknown))), Done(Nothing))
      else
        var row := n.row.(status := Queued);
        (n.(row := row), More(Marked(row)))
    case Marked(snap) =>
      (HearHealth(n, x.up), More(if x.up then Ready(snap) else Deciding(snap, ProviderDown)))
    case Ready(snap) =>
      var verdict := Classify(x.reply);
      (HearReply(n, verdict),
       match verdict
       case Accepted(externalId) => More(Delivering(externalId))
       case Refused(code) => More(if Retryable(code) then Deciding(snap, code) else Failing(code))
       case Garbled => Done(Raise))
    case Deciding(snap, code) => ScheduleRetry(c, id, snap, code, n, x.draw)
    case Failing(code) => (Commit(n, n.row.(status := Failed, errorCode := Some(code))), Done(Nothing))
    case Delivering(externalId) =>
      (Commit(n, n.row.(status := Sent, externalId := externalId, stime := Some(x.now))), Done(Nothing))
    case Publishing(delay) => (n, Done(Emit(delay)))
  }

  /** Consecutive steps of one dispatch, until it is done or the inputs run out. */
  function Run(c: Config, id: Id, phase: Phase, n: Note, xs: seq<Input>): (Note, Turn)
    decreases xs
  {
    if xs == [] then (n, More(phase))
    else
      var (n', turn) := Step(c, id, phase, n, xs[0]);
      if turn.Done? then (n', turn) else Run(c, id, turn.phase, n', xs[1..])
  }

  /** A whole dispatch stated at once: what it decides about a row. */
  function DispatchOnce(c: Config, id: Id, n: Note, x: Input): (Note, Effect) {
    if n.row.channel !in c.providers then
      (Commit(Begin(n), n.row.(status := Failed, errorCode := Some(Unknown))), Nothing)
    else
      var queued := HearHealth(Begin(n).(row := n.row.(status := Queued)), x.up);
      if x.up then SendOnce(c, id, queued, x) else Reschedule(c, id, queued, ProviderDown, x.draw)
  }

  function SendOnce(c: Config, id: Id, n: Note, x: Input): (Note, Effect) {
    var answered := HearReply(n, Classify(x.reply));
    match Classify(x.reply)
    case Accepted(externalId) =>
      (Commit(answered, answered.row.(status := Sent, externalId := externalId, stime := Some(x.now))), Nothing)
    case Refused(code) =>
      if Retryable(code) then Reschedule(c, id, answered, code, x.draw)
      else (Commit(answered, answered.row.(status := Failed, errorCode := Some(code))), Nothing)
    case Garbled => (answered, Raise)
  }

  function Reschedule(c: Config, id: Id, n: Note, code: ErrorCode, draw: nat): (Note, Effect) {
    var p := PolicyFor(c, n.row.event);
    var level := n.row.retryCount + 1;
    if level > p.maxRetries then
      var failed := Commit(n, n.row.(status := Failed, errorCode := Some(code)));
      (failed, Bury(LetterFor(id, failed.row, code)))
    else
      var delay := RetryDelay(p, level, draw);
      var retrying := Commit(n, n.row.(status := Retrying, retryCount := level, errorCode := Some(code)));
      (Draw(retrying, delay), Emit(delay))
  }

  /** The same on the columns alone. */
  function DispatchRow(c: Config, id: Id, row: Row, x: Input): (Row, Effect) {
    var (n, e) := DispatchOnce(c, id, Note(row, NO_HISTORY), x);
    (n.row, e)
  }

  function RescheduleRow(c: Config, id: Id, row: Row, code: ErrorCode, draw: nat): (Row, Effect) {
    var (n, e) := Reschedule(c, id, Note(row, NO_HISTORY), code, draw);
    (n.row, e)
  }

  function SendRow(c: Config, id: Id, row: Row, x: Input): (Row, Effect) {
    var (n, e) := SendOnce(c, id, Note(row, NO_HISTORY), x);
    (n.row, e)
  }

  /** A dispatch on the columns: no provider, provider down, or what the send leads to. */
  lemma DispatchRowCases(c: Config, id: Id, row: Row, x: Input)
    ensures var queued := row.(status := Queued);
            DispatchRow(c, id, row, x) ==
            if row.channel !in c.providers then (row.(status := Failed, errorCode := Some(Unknown)), Nothing)
            else if x.up then SendRow(c, id, queued, x)
            else RescheduleRow(c, id, queued, ProviderDown, x.draw)
  {}

  /** The history records a dispatch and never influences it. */
  lemma HistoryOnlyRecords(c: Config, id: Id, n: Note, x: Input)
    ensures var (m, e) := DispatchOnce(c, id, n, x);
            (m.row, e) == DispatchRow(c, id, n.row, x)
  {}

  function Copies(x: Input, k: nat): seq<Input> {
    seq(k, _ => x)
  }

  lemma RunCopies(c: Config, id: Id, phase: Phase, n: Note, x: Input, k: nat)
    requires k > 0
    ensures var (m, turn) := Step(c, id, phase, n, x);
            Run(c, id, phase, n, Copies(x, k)) ==
            if turn.Done? then (m, turn) else Run(c, id, turn.phase, m, Copies(x, k - 1))
  {
    assert Copies(x, k)[1..] == Copies(x, k - 1);
  }

  lemma StepsReschedule(c: Config, id: Id, n: Note, code: ErrorCode, x: Input)
    ensures var (m, effect) := Reschedule(c, id, n, code, x.draw);
            Run(c, id, Deciding(n.row, code), n, Copies(x, 2)) == (m, Done(effect))
  {
    RunCopies(c, id, Deciding(n.row, code), n, x, 2);
    var (m, turn) := Step(c, id, Deciding(n.row, code), n, x);
    if turn.More? { RunCopies(c, id, turn.phase, m, x, 1); }
  }

  lemma StepsSend(c: Config, id: Id, n: Note, x: Input)
    ensures var (m, effect) := SendOnce(c, id, n, x);
            Run(c, id, Ready(n.row), n, Copies(x, 3)) == (m, Done(effect))
  {
    RunCopies(c, id, Ready(n.row), n, x, 3);
    var m := HearReply(n, Classify(x.reply));
    match Classify(x.reply)
    case Accepted(externalId) => RunCopies(c, id, Delivering(externalId), m, x, 2);
    case Refused(code) =>
      if Retryable(code) { StepsReschedule(c, id, m, code, x); } else { RunCopies(c, id, Failing(code), m, x, 2); }
    case Garbled =>
  }

  lemma {:induction false} RunOver(c: Config, id: Id, phase: Phase, n: Note, xs: seq<Input>, ys: seq<Input>)
    requires Run(c, id, phase, n, xs).1.Done?
    ensures Run(c, id, phase, n, xs + ys) == Run(c, id, phase, n, xs)
    decreases xs
  {
    if xs != [] {
      assert (xs + ys)[1..] == xs[1..] + ys;
      var (m, turn) := Step(c, id, phase, n, xs[0]);
      if turn.More? { RunOver(c, id, turn.phase, m, xs[1..], ys); }
    }
  }

  /** The steps, taken without interruption under the same answers, amount to the whole dispatch. */
  lemma StepsMakeOneDispatch(c: Config, id: Id, n: Note, x: Input)
    ensures var (m, effect) := DispatchOnce(c, id, n, x);
            Run(c, id, Fetched, n, Copies(x, 6)) == (m, Done(effect))
  {
    RunCopies(c, id, Fetched, n, x, 6);
    RunCopies(c, id, Loaded(n.row), Begin(n), x, 5);
    if n.row.channel in c.providers {
      var marked := Begin(n).(row := n.row.(status := Queued));
      RunCopies(c, id, Marked(marked.row), marked, x, 4);
      var asked := HearHealth(marked, x.up);
      if x.up {
        StepsSend(c, id, asked, x);
      } else {
        StepsReschedule(c, id, asked, ProviderDown, x);
        RunOver(c, id, Deciding(asked.row, ProviderDown), asked, Copies(x, 2), [x]);
        assert Copies(x, 2) + [x] == Copies(x, 3);
      }
    }
  }

  /** One more input makes one more step. */
  lemma {:induction false} RunSnoc(c: Config, id: Id, phase: Phase, n: Note, xs: seq<Input>, x: Input)
    requires Run(c, id, phase, n, xs).1.More?
    ensures var (m, turn) := Run(c, id, phase, n, xs);
            Run(c, id, phase, n, xs + [x]) == Step(c, id, turn.phase, m, x)
    decreases xs
  {
    if xs == [] {
      assert [x][1..] == [];
      var (n', turn) := Step(c, id, phase, n, x);
      assert Run(c, id, phase, n, [x]) == if turn.Done? then (n', turn) else Run(c, id, turn.phase, n', []);
      assert xs + [x] == [x];
    } else {
      var (n', turn) := Step(c, id, phase, n, xs[0]);
      RunSnoc(c, id, turn.phase, n', xs[1..], x);
      assert (xs + [x])[1..] == xs[1..] + [x];
    }
  }

  // ---------------------------------------------------------------------------------------------
  // What every step keeps, whatever else is going on

  predicate AllowedDelay(p: RetryPolicy, delay: nat) {
    exists level :: 1 <= level <= p.maxRetries && InWindow(p, level, delay)
  }

  /** The delays scheduled so far: one per retry that was not manual, each from some level's window,
      and exactly those of levels 1, 2, ... when no retry was manual. */
  ghost predicate HistoryOk(p: RetryPolicy, retryCount: nat, h: History) {
    && retryCount <= p.maxRetries + h.manuals
    && retryCount + h.lost == |h.delays| + h.manuals
    && (h.manuals == 0 ==> h.lost == 0 && OnSchedule(p, h.delays))
    && (forall k :: 0 <= k < |h.delays| ==> AllowedDelay(p, h.delays[k]))
  }

  predicate RowOk(p: RetryPolicy, row: Row) {
    && (row.status == Retrying ==>
          1 <= row.retryCount <= p.maxRetries && row.errorCode.Some? && Retryable(row.errorCode.value))
    && (row.status == Pending ==> row.errorCode.None?)
    && (row.status == Failed ==> row.errorCode.Some?)
    && (row.status == Sent ==> row.stime.Some?)
  }

  /** A dispatch checks the provider's health at most once, and sends at most once and only after that. */
  predicate CallsOk(h: History) {
    |h.replies| <= |h.health| <= h.begun
  }

  /** Holds of every row at every moment, even when the same row is dispatched again after success. */
  ghost predicate NoteOk(c: Config, n: Note) {
    var p := PolicyFor(c, n.row.event);
    && RowOk(p, n.row)
    && HistoryOk(p, n.row.retryCount, n.past)
    && CallsOk(n.past)
  }

  /** The row is RETRYING, and this is a delay of the level it is at and the last one on record. */
  ghost predicate AtItsLevel(c: Config, n: Note, delay: nat) {
    var p := PolicyFor(c, n.row.event);
    && n.row.status == Retrying
    && 1 <= n.row.retryCount <= p.maxRetries && InWindow(p, n.row.retryCount, delay)
    && n.past.delays != [] && n.past.delays[|n.past.delays| - 1] == delay
  }

  /** A retry count the row can have had. */
  predicate CountOk(c: Config, n: Note, count: nat) {
    count <= PolicyFor(c, n.row.event).maxRetries + n.past.manuals
  }

  /** The snapshot is the row, and this dispatch has not yet used its health check or its send. */
  ghost predicate Fresh(c: Config, phase: Phase, n: Note) {
    match phase
    case Fetched => true
    case Loaded(snap) => snap == n.row && |n.past.health| < n.past.begun
    case Marked(snap) => snap == n.row && |n.past.health| < n.past.begun
    case Ready(snap) => snap == n.row && |n.past.replies| < |n.past.health|
    case Deciding(snap, code) => snap == n.row && Retryable(code)
    case Failing(code) => !Retryable(code)
    case Delivering(_) => true
    case Publishing(delay) => AtItsLevel(c, n, delay)
  }

  /** The columns no dispatch touches. */
  predicate SameIdentity(a: Row, b: Row) {
    && a.key == b.key && a.event == b.event && a.channel == b.channel
    && a.recipient == b.recipient && a.priority == b.priority
  }

  predicate LetterOk(c: Config, l: DeadLetter) {
    Retryable(l.errorCode) && l.retryCount >= PolicyFor(c, l.event).maxRetries
  }

  /** Whether the token is still in the system after a turn: with the dispatch, in the retry queue,
      or dropped by an exception; it is used up when the row reached SENT or FAILED. */
  function Keeps(t: Turn): nat {
    if t == Done(Nothing) || (t.Done? && t.effect.Bury?) then 0 else 1
  }

  /** What a stretch of one dispatch from (phase, n) to (turn, m) keeps: the row invariants and the
      identifying columns, every message and letter well formed, and the token accounted for, outcomes
      plus what is left of the token growing exactly with the retry count. */
  ghost predicate Keeping(c: Config, n: Note, m: Note, turn: Turn) {
    && NoteOk(c, m)
    && SameIdentity(n.row, m.row)
    && (turn.More? ==> Fresh(c, turn.phase, m))
    && (turn.Done? && turn.effect.Bury? ==> LetterOk(c, turn.effect.letter))
    && (turn.Done? && turn.effect.Emit? ==> AtItsLevel(c, m, turn.effect.delay))
    && |m.past.outcomes| + Keeps(turn) + n.row.retryCount == |n.past.outcomes| + 1 + m.row.retryCount
    && m.past.manuals == n.past.manuals && m.past.lost == n.past.lost
  }

  lemma OutcomeKeepsNote(c: Config, n: Note, row: Row)
    requires NoteOk(c, n) && SameIdentity(n.row, row) && row.retryCount == n.row.retryCount
    requires RowOk(PolicyFor(c, n.row.event), row) && row.status != Retrying
    ensures Keeping(c, n, Commit(n, row), Done(Nothing))
    ensures Commit(n, row).past.begun == n.past.begun
  {}

  lemma ScheduleKeepsNote(c: Config, id: Id, code: ErrorCode, n: Note, draw: nat)
    requires NoteOk(c, n) && Retryable(code)
    ensures var (m, turn) := ScheduleRetry(c, id, n.row, code, n, draw);
            && Keeping(c, n, m, turn)
            && m.past.begun == n.past.begun
            && m.row.retryCount == n.row.retryCount + if turn.More? then 1 else 0
  {
    var p := PolicyFor(c, n.row.event);
    var level := n.row.retryCount + 1;
    if level <= p.maxRetries {
      var delay := RetryDelay(p, level, draw);
      DrawsFillTheWindow(p, level, delay);
      assert AllowedDelay(p, delay);
    }
  }

  lemma StepKeepsNote(c: Config, id: Id, phase: Phase, n: Note, x: Input)
    requires NoteOk(c, n) && Fresh(c, phase, n)
    ensures var (m, turn) := Step(c, id, phase, n, x);
            && Keeping(c, n, m, turn)
            && m.past.begun == n.past.begun + (if phase.Fetched? then 1 else 0)
            && m.row.retryCount == n.row.retryCount + if turn.More? && turn.phase.Publishing? then 1 else 0
  {
    match phase
    case Fetched =>
    case Loaded(snap) =>
      if snap.channel !in c.providers {
        OutcomeKeepsNote(c, n, n.row.(status := Failed, errorCode := Some(Unknown)));
      }
    case Marked(snap) =>
    case Ready(snap) => AcceptsSnoc(n.past.replies, Classify(x.reply));
    case Deciding(snap, code) => ScheduleKeepsNote(c, id, code, n, x.draw);
    case Failing(code) => OutcomeKeepsNote(c, n, n.row.(status := Failed, errorCode := Some(code)));
    case Delivering(externalId) =>
      OutcomeKeepsNote(c, n, n.row.(status := Sent, externalId := externalId, stime := Some(x.now)));
    case Publishing(_) =>
  }

  /** The same over any number of steps. */
  lemma {:induction false} RunKeepsNote(c: Config, id: Id, phase: Phase, n: Note, xs: seq<Input>)
    requires NoteOk(c, n) && Fresh(c, phase, n)
    ensures var (m, turn) := Run(c, id, phase, n, xs);
            && Keeping(c, n, m, turn)
            && m.past.begun == n.past.begun + (if phase.Fetched? && xs != [] then 1 else 0)
            && (turn.Done? && turn.effect.Emit? ==>
                  m.row.retryCount == n.row.retryCount + if phase.Publishing? then 0 else 1)
            && m.row.retryCount >= n.row.retryCount
    decreases xs
  {
    if xs != [] {
      StepKeepsNote(c, id, phase, n, xs[0]);
      var (n', turn) := Step(c, id, phase, n, xs[0]);
      if turn.More? {
        RunKeepsNote(c, id, turn.phase, n', xs[1..]);
      }
    }
  }

  // ---------------------------------------------------------------------------------------------
  // What every step keeps when the row has one token

  /** No successful send before QUEUED, at most one by SENT, and a time of sending exactly on SENT. */
  ghost predicate CleanNote(n: Note) {
    && (n.row.status in {Pending, Retrying, Failed} ==> Deliveries(n) == 0)
    && (n.row.status == Sent ==> Deliveries(n) == 1)
    && Deliveries(n) <= 1
    && (n.row.stime.Some? <==> n.row.status == Sent)
  }

  /** Past the QUEUED commit and before the outcome commit. */
  predicate Mid(phase: Phase) {
    phase.Marked? || phase.Ready? || phase.Deciding? || phase.Failing? || phase.Delivering?
  }

  ghost predicate CleanPhase(phase: Phase, n: Note) {
    && (phase.Fetched? || phase.Loaded? ==> Waiting(n.row))
    && (Mid(phase) ==> n.row.status == Queued && Deliveries(n) == if phase.Delivering? then 1 else 0)
    && (phase.Publishing? ==> n.row.status == Retrying)
  }

  /** A clean dispatch stays clean; its row is SENT or FAILED when it ends without a message, RETRYING
      when it ends with one, and QUEUED when it ends in an exception. */
  ghost predicate Cleanly(phase: Phase, n: Note, turn: Turn) {
    && CleanNote(n)
    && (turn.More? ==> CleanPhase(turn.phase, n))
    && (Active(n.row) <==> Keeps(turn) == 1)
    && (turn.Done? && turn.effect.Emit? ==> n.row.status == Retrying)
    && (turn == Done(Raise) ==> n.row.status == Queued && Mid(phase))
    && (turn.More? ==> (n.row.status == Queued <==> Mid(turn.phase)))
  }

  lemma ReplyStaysClean(c: Config, id: Id, phase: Phase, n: Note, x: Input)
    requires CleanNote(n) && CleanPhase(phase, n) && phase.Ready?
    ensures var (m, turn) := Step(c, id, phase, n, x);
            Cleanly(phase, m, turn)
  {
    AcceptsSnoc(n.past.replies, Classify(x.reply));
  }

  lemma EarlyStaysClean(c: Config, id: Id, phase: Phase, n: Note, x: Input)
    requires CleanNote(n) && CleanPhase(phase, n) && (phase.Fetched? || phase.Loaded? || phase.Marked?)
    ensures var (m, turn) := Step(c, id, phase, n, x);
            Cleanly(phase, m, turn)
  {}

  lemma LateStaysClean(c: Config, id: Id, phase: Phase, n: Note, x: Input)
    requires CleanNote(n) && CleanPhase(phase, n)
    requires phase.Deciding? || phase.Failing? || phase.Delivering? || phase.Publishing?
    ensures var (m, turn) := Step(c, id, phase, n, x);
            Cleanly(phase, m, turn)
  {}

  lemma StepStaysClean(c: Config, id: Id, phase: Phase, n: Note, x: Input)
    requires CleanNote(n) && CleanPhase(phase, n)
    ensures var (m, turn) := Step(c, id, phase, n, x);
            Cleanly(phase, m, turn)
  {
    if phase.Ready? {
      ReplyStaysClean(c, id, phase, n, x);
    } else if phase.Fetched? || phase.Loaded? || phase.Marked? {
      EarlyStaysClean(c, id, phase, n, x);
    } else {
      LateStaysClean(c, id, phase, n, x);
    }
  }
}
